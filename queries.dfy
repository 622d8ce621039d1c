/** The two read operations of the repository (lotrepository.go): GetFlats pages through the lots
    that match a search and attaches their rooms, GetFlatAd reads one lot with its rooms and their
    living places. */
module Queries {
  import opened Outcomes
  import opened Text
  import opened Models
  import opened Conditions
  import opened Stitching
  import opened Placeholders
  import opened Pagination
  import opened Repository

  /** What the row scan of lines 106-117 and 185-189 makes of a stored lot: the query selects
      `long` twice, so Y receives the longitude; the cell id is not selected; no rooms yet. */
  function Scanned(row: Lot): (lot: Lot)
    ensures lot.coordinates.y == row.coordinates.x
  {
    row.(coordinates := Point(row.coordinates.x, row.coordinates.x, 0), rooms := [])
  }

  /** The rooms query of lines 124-126, with its line breaks and tabs written as single blanks. */
  const RoomsByIdSelect :=
    "SELECT id, flat_id, max_residents, description, price, deposit, curr_number_of_residents, "
    + "balcony, num_of_tables, num_of_chairs, tv, furniture, area, windows, is_visible FROM rooms WHERE ID IN ("

  function IdTexts(rows: seq<Lot>): (r: seq<string>)
    ensures |r| == |rows|
  {
    seq(|rows|, i requires 0 <= i < |rows| => Itoa(rows[i].id))
  }

  function ScannedAll(rows: seq<Lot>): (r: seq<Lot>)
    ensures |r| == |rows|
  {
    seq(|rows|, i requires 0 <= i < |rows| => Scanned(rows[i]))
  }

  /** The row loop of lines 106-118: every fetched lot is appended to the page and its id, as
      decimal text, to the key list of the rooms query. */
  method ScanFlats(rows: seq<Lot>) returns (ids: seq<string>, data: seq<Lot>)
    ensures ids == IdTexts(rows) && data == ScannedAll(rows)
  {
    ids, data := [], [];
    var k := 0;
    while k < |rows|
      invariant 0 <= k <= |rows|
      invariant ids == IdTexts(rows[..k]) && data == ScannedAll(rows[..k])
    {
      ids := ids + [Itoa(rows[k].id)];
      data := data + [Scanned(rows[k])];
      k := k + 1;
    }
    assert rows[..k] == rows;
  }

  /** The page GetFlats returns, given the lots matching the condition in the order the database
      returns them and the rows its rooms query returns.  The count query divides by the page size
      first; PostgreSQL then checks OFFSET before LIMIT; the count is line 82's as written. */
  function FlatsPage(limit: int, page: int, matching: seq<Lot>, roomRows: seq<Room>): (r: Result<Paginations>)
    ensures r.Err? <==> limit <= 0 || page < 1
    ensures r.Err? ==> (r.error == DivisionByZero <==> limit == 0)
    ensures r.Err? ==> (r.error == NegativeOffset <==> limit != 0 && SqlOffset(limit, page) < 0)
    ensures r.Ok? ==> r.value.currentPage == page && |r.value.data| <= limit && r.value.numPages >= 1
  {
    if limit == 0 then Err(DivisionByZero)
    else if SqlOffset(limit, page) < 0 then Err(NegativeOffset)
    else if limit < 0 then Err(NegativeLimit)
    else
      var rows := Page(matching, limit, page);
      Ok(Paginations(page, NumPagesAsWritten(|matching|, limit),
        seq(|rows|, i requires 0 <= i < |rows| => Scanned(rows[i]).(rooms := RoomsOf(roomRows, rows[i].id)))))
  }

  /** GetFlats (lines 27-149).  The search's cell union is given as `cells`; `matching` stands for
      the lots of the flats table the condition selects and `roomRows` for what the rooms query
      returns.  A radius search over an empty cell union renders `cell_id IN ()`, which PostgreSQL
      cannot parse, so the first query already fails. */
  method GetFlats(limit: int, page: int, filters: map<string, string>, order: seq<string>, isConstruct: bool,
                  long: real, lat: real, radius: int, isOwner: bool, cells: seq<CellId>,
                  matching: seq<Lot>, roomRows: seq<Room>)
    returns (r: Result<Paginations>, condition: string, roomsQuery: Option<string>)
    requires Enumerates(order, filters)
    ensures condition == Condition(long, lat, radius, cells, filters, order, isOwner, isConstruct)
    ensures r == if IsSpatial(long, lat, radius) && cells == [] then Err(SyntaxError)
                 else FlatsPage(limit, page, matching, roomRows)
    ensures roomsQuery.Some? <==> r.Ok? && r.value.data != []
    ensures roomsQuery.Some? ==>
      roomsQuery.value == RoomsByIdSelect + Join(IdTexts(Page(matching, limit, page)), ",") + ")"
  {
    condition := BuildCondition(filters, order, isConstruct, long, lat, radius, isOwner, cells);
    roomsQuery := None;
    if IsSpatial(long, lat, radius) && |cells| == 0 {
      return Err(SyntaxError), condition, None;
    }
    if limit == 0 {
      return Err(DivisionByZero), condition, None;
    }
    if SqlOffset(limit, page) < 0 {
      return Err(NegativeOffset), condition, None;
    }
    if limit < 0 {
      return Err(NegativeLimit), condition, None;
    }
    var numPages := NumPagesAsWritten(|matching|, limit);
    var rows := Page(matching, limit, page);
    ghost var expected := FlatsPage(limit, page, matching, roomRows).value;
    var ids, data := ScanFlats(rows);
    if |ids| == 0 {
      assert expected.data == [];
      assert expected == Paginations(page, numPages, data);
      return Ok(Paginations(page, numPages, data)), condition, None;
    }
    roomsQuery := Some(RoomsByIdSelect + Join(ids, ",") + ")");
    data := AttachRooms(data, roomRows);
    assert expected.data == data;
    assert expected == Paginations(page, numPages, data);
    r := Ok(Paginations(page, numPages, data));
  }

  /** Every lot that matches the search is shown on exactly the page its position puts it on,
      with the rooms whose flat id is its id, and that page lies within the reported count. */
  lemma EveryMatchIsShown(limit: int, matching: seq<Lot>, roomRows: seq<Room>, i: nat)
    requires limit > 0 && i < |matching|
    ensures var r := FlatsPage(limit, i / limit + 1, matching, roomRows);
      && i / limit + 1 <= r.value.numPages
      && i % limit < |r.value.data|
      && r.value.data[i % limit] == Scanned(matching[i]).(rooms := RoomsOf(roomRows, matching[i].id))
  {
    RowPage(matching, limit, i);
    PagesInRange(matching, limit, i / limit + 1);
    AsWrittenAndLeast(|matching|, limit);
  }

  /** The reported count as written: every page that holds lots lies within it, and the one page
      within it that is empty is the last, exactly when the matching lots fill their pages. */
  lemma PageCountAsWritten(limit: int, page: int, matching: seq<Lot>, roomRows: seq<Room>)
    requires limit > 0 && page >= 1
    ensures var p := FlatsPage(limit, page, matching, roomRows).value;
      && (p.data != [] ==> page <= p.numPages)
      && (page <= p.numPages && p.data == [] <==> page == p.numPages && |matching| % limit == 0)
  {
    PagesInRange(matching, limit, page);
    AsWrittenAndLeast(|matching|, limit);
  }

  /** GetFlatAd's row test (lines 169-184): the id, the visibility for non-owners, the type. */
  predicate FlatAdMatches(row: Lot, id: int, isOwner: bool, isConstructor: bool) {
    row.id == id && (isOwner || row.isVisible) && row.isConstructor == isConstructor
  }

  /** The row QueryRow returns: the first stored row the condition selects. */
  function FirstMatch(flats: seq<Lot>, id: int, isOwner: bool, isConstructor: bool): (r: Option<Lot>)
    ensures r.Some? ==> r.value in flats && FlatAdMatches(r.value, id, isOwner, isConstructor)
    ensures r.None? <==> forall i :: 0 <= i < |flats| ==> !FlatAdMatches(flats[i], id, isOwner, isConstructor)
    decreases |flats|
  {
    if flats == [] then None
    else if FlatAdMatches(flats[0], id, isOwner, isConstructor) then Some(flats[0])
    else FirstMatch(flats[1..], id, isOwner, isConstructor)
  }

  /** Each room with the living places whose room id is its id, and otherwise unchanged. */
  function WithPlaces(rooms: seq<Room>, places: seq<LivingPlace>): (r: seq<Room>)
    ensures |r| == |rooms|
    ensures forall i :: 0 <= i < |rooms| ==> r[i].livingPlaces == PlacesOf(places, rooms[i].id)
    ensures forall i :: 0 <= i < |rooms| ==> r[i].(livingPlaces := []) == rooms[i].(livingPlaces := [])
  {
    seq(|rooms|, i requires 0 <= i < |rooms| => rooms[i].(livingPlaces := PlacesOf(places, rooms[i].id)))
  }

  /** The lot GetFlatAd returns as written: the selected row as scanned, with the rooms whose flat
      id is the lot's id and, in each, the living places whose room id is the room's id.  The
      living-places query is always sent (lines 218-225); when PostgreSQL finds that its text
      names a parameter with no argument bound, the call ends there. */
  function FlatAd(flats: seq<Lot>, rooms: seq<Room>, places: seq<LivingPlace>,
                  id: int, isOwner: bool, isConstructor: bool): (r: Result<Lot>)
    ensures r.Err? <==> FirstMatch(flats, id, isOwner, isConstructor).None? || RoomsOf(rooms, id) == []
    ensures r.Err? ==> (r.error == NotFound <==> FirstMatch(flats, id, isOwner, isConstructor).None?)
    ensures r.Err? ==> r.error == NotFound || r.error == ArgumentCountMismatch
    ensures r.Ok? ==> r.value.id == id && r.value.isConstructor == isConstructor && (isOwner || r.value.isVisible)
    ensures r.Ok? ==> r.value.rooms == WithPlaces(RoomsOf(rooms, id), places)
  {
    match FirstMatch(flats, id, isOwner, isConstructor)
    case None => Err(NotFound)
    case Some(row) =>
      var found := RoomsOf(rooms, id);
      QueryMatchesArguments(|found|);
      if !ArgumentsMatch(LivingPlacesText(|found|), |found|) then Err(ArgumentCountMismatch)
      else Ok(Scanned(row).(rooms := WithPlaces(found, places)))
  }

  /** The read the code evidently intends: the living-places query is skipped for a lot without
      rooms, which is then returned with none. */
  function FlatAdCorrected(flats: seq<Lot>, rooms: seq<Room>, places: seq<LivingPlace>,
                           id: int, isOwner: bool, isConstructor: bool): (r: Result<Lot>)
    ensures r.Err? <==> forall i :: 0 <= i < |flats| ==> !FlatAdMatches(flats[i], id, isOwner, isConstructor)
    ensures r.Err? ==> r.error == NotFound
    ensures r.Ok? ==> r.value.id == id && r.value.isConstructor == isConstructor && (isOwner || r.value.isVisible)
    ensures r.Ok? ==> r.value.rooms == WithPlaces(RoomsOf(rooms, id), places)
  {
    match FirstMatch(flats, id, isOwner, isConstructor)
    case None => Err(NotFound)
    case Some(row) => Ok(Scanned(row).(rooms := WithPlaces(RoomsOf(rooms, id), places)))
  }

  /** The read as written loses exactly the lots that are found and have no rooms: for them the
      query text still names $1 while no room id is bound. */
  lemma AsWrittenLosesRoomlessLots(flats: seq<Lot>, rooms: seq<Room>, places: seq<LivingPlace>,
                                   id: int, isOwner: bool, isConstructor: bool)
    ensures FlatAd(flats, rooms, places, id, isOwner, isConstructor)
      != FlatAdCorrected(flats, rooms, places, id, isOwner, isConstructor)
      <==> FirstMatch(flats, id, isOwner, isConstructor).Some? && RoomsOf(rooms, id) == []
  {
    QueryMatchesArguments(|RoomsOf(rooms, id)|);
  }

  /** The room loop of lines 206-216: each fetched room and its id are collected. */
  method ScanRooms(rows: seq<Room>) returns (roomIds: seq<int>, rooms: seq<Room>)
    ensures roomIds == RoomIds(rows) && rooms == rows
  {
    roomIds, rooms := [], [];
    var k := 0;
    while k < |rows|
      invariant 0 <= k <= |rows|
      invariant roomIds == RoomIds(rows[..k]) && rooms == rows[..k]
    {
      roomIds := roomIds + [rows[k].id];
      rooms := rooms + [rows[k]];
      k := k + 1;
    }
    assert rows[..k] == rows;
  }

  function InRooms(roomIds: seq<int>): LivingPlace -> bool {
    (p: LivingPlace) => p.roomId in roomIds
  }

  /** GetFlatAd (lines 152-253) over the stored tables.  The single-row query, the rooms query
      (flat_id = $1) and the living-places query (roomid IN the room ids) are evaluated on the
      tables in their stored order.  The living-places query is sent for every lot found. */
  method GetFlatAd(db: Database, id: int, isConstructor: bool, isOwner: bool)
    returns (r: Result<Lot>, condition: string, placesQuery: Option<string>)
    ensures condition == FlatAdCondition(isOwner, isConstructor)
    ensures r == FlatAd(db.flats, db.rooms, db.places, id, isOwner, isConstructor)
    ensures placesQuery.Some? <==> FirstMatch(db.flats, id, isOwner, isConstructor).Some?
    ensures placesQuery.Some? ==> placesQuery.value == LivingPlacesText(|RoomsOf(db.rooms, id)|)
  {
    condition := FlatAdCondition(isOwner, isConstructor);
    placesQuery := None;
    var row := FirstMatch(db.flats, id, isOwner, isConstructor);
    if row.None? {
      return Err(NotFound), condition, None;
    }
    var lot := Scanned(row.value);
    var roomIds, rooms := ScanRooms(RoomsOf(db.rooms, id));
    var query := LivingPlacesQuery(|roomIds|);
    placesQuery := Some(query);
    if !ArgumentsMatch(query, |roomIds|) {
      return Err(ArgumentCountMismatch), condition, placesQuery;
    }
    ghost var expected := FlatAd(db.flats, db.rooms, db.places, id, isOwner, isConstructor).value;
    var placeRows := Filter(db.places, InRooms(roomIds));
    var stitched := AttachLivingPlaces(rooms, placeRows);
    forall i | 0 <= i < |rooms|
      ensures stitched[i] == rooms[i].(livingPlaces := PlacesOf(db.places, rooms[i].id))
    {
      assert roomIds[i] == rooms[i].id;
      SelectAfterFilter(db.places, InRooms(roomIds), RoomIdOf, rooms[i].id);
    }
    assert expected.rooms == stitched;
    assert expected == lot.(rooms := stitched);
    r := Ok(lot.(rooms := stitched));
  }

  /** A row with an id no earlier row has is the one the single-row query finds. */
  lemma {:induction false} FreshRowIsFound(flats: seq<Lot>, row: Lot, isOwner: bool, isConstructor: bool)
    requires forall i :: 0 <= i < |flats| ==> flats[i].id != row.id
    requires FlatAdMatches(row, row.id, isOwner, isConstructor)
    ensures FirstMatch(flats + [row], row.id, isOwner, isConstructor) == Some(row)
    decreases |flats|
  {
    if flats != [] {
      assert (flats + [row])[1..] == flats[1..] + [row];
      FreshRowIsFound(flats[1..], row, isOwner, isConstructor);
    }
  }

  /** Rooms none of which has the id own no living-place row of it. */
  lemma {:induction false} PlaceRowsOfOtherRooms(rooms: seq<Room>, roomId: int)
    requires forall j :: 0 <= j < |rooms| ==> rooms[j].id != roomId
    ensures PlacesOf(PlaceRows(rooms), roomId) == []
    decreases |rooms|
  {
    if rooms != [] {
      var n := |rooms| - 1;
      PlaceRowsOfOtherRooms(rooms[..n], roomId);
      SelectAppend(PlaceRows(rooms[..n]), PlaceRowsOf(rooms[n].livingPlaces, rooms[n].id), RoomIdOf, roomId);
      SelectNone(PlaceRowsOf(rooms[n].livingPlaces, rooms[n].id), RoomIdOf, roomId);
    }
  }

  /** Among the living-place rows of rooms with distinct ids, a room's id groups exactly its own rows. */
  lemma {:induction false} PlaceRowsGroup(rooms: seq<Room>, i: nat)
    requires i < |rooms|
    requires forall a, b :: 0 <= a < b < |rooms| ==> rooms[a].id != rooms[b].id
    ensures PlacesOf(PlaceRows(rooms), rooms[i].id) == PlaceRowsOf(rooms[i].livingPlaces, rooms[i].id)
    decreases |rooms|
  {
    var n := |rooms| - 1;
    var init, last := rooms[..n], rooms[n];
    var own := PlaceRowsOf(last.livingPlaces, last.id);
    SelectAppend(PlaceRows(init), own, RoomIdOf, rooms[i].id);
    if i == n {
      PlaceRowsOfOtherRooms(init, last.id);
      SelectAll(own, RoomIdOf, last.id);
    } else {
      PlaceRowsGroup(init, i);
      SelectNone(own, RoomIdOf, rooms[i].id);
    }
  }

  /** The rooms of a lot as GetFlatAd reads them back after Create: the stored room rows, each
      with its stored living-place rows. */
  function ReadBackRooms(rooms: seq<Room>, flatId: int): (r: seq<Room>)
    ensures |r| == |rooms|
    ensures forall i :: 0 <= i < |rooms| ==> r[i].id == rooms[i].id && r[i].flatId == flatId
  {
    seq(|rooms|, i requires 0 <= i < |rooms| =>
      StoredRoom(rooms[i], flatId).(livingPlaces := PlaceRowsOf(rooms[i].livingPlaces, rooms[i].id)))
  }

  /** Consecutively numbered rooms have distinct ids. */
  lemma NumberedRoomsDistinct(rooms: seq<Room>, start: int)
    requires Numbered(RoomIds(rooms), start)
    ensures forall a, b :: 0 <= a < b < |rooms| ==> rooms[a].id != rooms[b].id
  {
    forall a, b | 0 <= a < b < |rooms| ensures rooms[a].id != rooms[b].id {
      assert RoomIds(rooms)[a] == rooms[a].id && RoomIds(rooms)[b] == rooms[b].id;
    }
  }

  /** Living-place rows appended under fresh room ids form exactly each new room's group. */
  lemma NewPlacesAreGrouped(places: seq<LivingPlace>, rooms: seq<Room>, firstRoomId: int, i: nat)
    requires i < |rooms|
    requires forall j :: 0 <= j < |places| ==> places[j].roomId < firstRoomId
    requires Numbered(RoomIds(rooms), firstRoomId)
    ensures PlacesOf(places + PlaceRows(rooms), rooms[i].id) == PlaceRowsOf(rooms[i].livingPlaces, rooms[i].id)
  {
    assert RoomIds(rooms)[i] == rooms[i].id;
    NumberedRoomsDistinct(rooms, firstRoomId);
    SelectAppend(places, PlaceRows(rooms), RoomIdOf, rooms[i].id);
    SelectNone(places, RoomIdOf, rooms[i].id);
    PlaceRowsGroup(rooms, i);
  }

  /** Create followed by the intended read.  The requirements are what Create leaves behind on a
      valid database: the earlier rows lie below the ids it handed out, and it appended the lot's
      row, its room rows and its living-place rows.  The owner, asking for the lot's stored type,
      reads the lot back with every room and every living place under the ids Create wrote into it. */
  lemma CorrectedReadsCreatedLot(flats: seq<Lot>, rooms: seq<Room>, places: seq<LivingPlace>,
                                 stored: Lot, created: Lot, firstRoomId: int)
    requires forall i :: 0 <= i < |flats| ==> flats[i].id < created.id
    requires forall i :: 0 <= i < |rooms| ==> rooms[i].flatId < created.id
    requires forall i :: 0 <= i < |places| ==> places[i].roomId < firstRoomId
    requires Numbered(RoomIds(created.rooms), firstRoomId)
    requires stored.id == created.id
    ensures FlatAdCorrected(flats + [stored], rooms + RoomRowsOf(created.rooms, created.id),
                            places + PlaceRows(created.rooms), created.id, true, stored.isConstructor)
      == Ok(Scanned(stored).(rooms := ReadBackRooms(created.rooms, created.id)))
    ensures RoomsOf(rooms + RoomRowsOf(created.rooms, created.id), created.id) == RoomRowsOf(created.rooms, created.id)
  {
    var id := created.id;
    FreshRowIsFound(flats, stored, true, stored.isConstructor);
    var roomRows := RoomRowsOf(created.rooms, id);
    FreshGroup(rooms, roomRows, FlatIdOf, id);
    var got := WithPlaces(roomRows, places + PlaceRows(created.rooms));
    var want := ReadBackRooms(created.rooms, id);
    forall i | 0 <= i < |created.rooms| ensures got[i] == want[i] {
      NewPlacesAreGrouped(places, created.rooms, firstRoomId, i);
    }
    assert got == want;
  }

  /** Create followed by GetFlatAd as written: a lot created with rooms is read back with them
      all, while a lot created without rooms cannot be read at all. */
  lemma CreatedLotIsReadBack(flats: seq<Lot>, rooms: seq<Room>, places: seq<LivingPlace>,
                             stored: Lot, created: Lot, firstRoomId: int)
    requires forall i :: 0 <= i < |flats| ==> flats[i].id < created.id
    requires forall i :: 0 <= i < |rooms| ==> rooms[i].flatId < created.id
    requires forall i :: 0 <= i < |places| ==> places[i].roomId < firstRoomId
    requires Numbered(RoomIds(created.rooms), firstRoomId)
    requires stored.id == created.id
    ensures FlatAd(flats + [stored], rooms + RoomRowsOf(created.rooms, created.id),
                   places + PlaceRows(created.rooms), created.id, true, stored.isConstructor)
      == if created.rooms == [] then Err(ArgumentCountMismatch)
         else Ok(Scanned(stored).(rooms := ReadBackRooms(created.rooms, created.id)))
  {
    var allRooms := rooms + RoomRowsOf(created.rooms, created.id);
    CorrectedReadsCreatedLot(flats, rooms, places, stored, created, firstRoomId);
    FreshRowIsFound(flats, stored, true, stored.isConstructor);
    AsWrittenLosesRoomlessLots(flats + [stored], allRooms, places + PlaceRows(created.rooms),
                               created.id, true, stored.isConstructor);
  }
}
