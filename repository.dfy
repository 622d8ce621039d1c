/** The repository's operations over the stored tables (lotrepository.go): Create writes a lot
    with its rooms and living places, GetFlats and GetFlatAd read them back. */
module Repository {
  import opened Outcomes
  import opened Text
  import opened Models
  import opened Conditions
  import opened Stitching
  import opened Placeholders
  import opened Pagination

  /** The room row Create inserts: its own id, the lot's id and the inserted columns. */
  function StoredRoom(room: Room, flatId: int): Room {
    Room(room.id, flatId, room.maxResidents, room.area, [])
  }

  /** The living-place row Create inserts: its own id, the room's id and the berth count. */
  function StoredPlace(place: LivingPlace, roomId: int): LivingPlace {
    LivingPlace(place.id, roomId, place.numOfBerths)
  }

  function PlaceRowsOf(places: seq<LivingPlace>, roomId: int): (r: seq<LivingPlace>)
    ensures |r| == |places|
    ensures forall j :: 0 <= j < |r| ==> r[j].id == places[j].id && r[j].roomId == roomId
  {
    seq(|places|, j requires 0 <= j < |places| => StoredPlace(places[j], roomId))
  }

  function RoomRowsOf(rooms: seq<Room>, flatId: int): (r: seq<Room>)
    ensures |r| == |rooms|
    ensures forall i :: 0 <= i < |r| ==> r[i].id == rooms[i].id && r[i].flatId == flatId
  {
    seq(|rooms|, i requires 0 <= i < |rooms| => StoredRoom(rooms[i], flatId))
  }

  /** The living-place rows of a lot's rooms, room after room. */
  function PlaceRows(rooms: seq<Room>): seq<LivingPlace>
    decreases |rooms|
  {
    if rooms == [] then []
    else
      var last := rooms[|rooms| - 1];
      PlaceRows(rooms[..|rooms| - 1]) + PlaceRowsOf(last.livingPlaces, last.id)
  }

  /** Ids start, start + 1, ... in order: what a serial column hands out when no other session
      draws from its sequence in between. */
  predicate Numbered(ids: seq<int>, start: int) {
    forall n :: 0 <= n < |ids| ==> ids[n] == start + n
  }

  function PlaceIds(places: seq<LivingPlace>): (r: seq<int>)
    ensures |r| == |places|
  {
    seq(|places|, n requires 0 <= n < |places| => places[n].id)
  }

  /** The in-memory result of Create differs from the lot it was given only in its ids and its cell
      id: FlatID and RoomID of the rooms and places are left as they were. */
  ghost predicate SameRoom(created: Room, room: Room) {
    && created == room.(id := created.id, livingPlaces := created.livingPlaces)
    && |created.livingPlaces| == |room.livingPlaces|
    && forall j :: 0 <= j < |room.livingPlaces| ==>
         created.livingPlaces[j] == room.livingPlaces[j].(id := created.livingPlaces[j].id)
  }

  ghost predicate SameLot(created: Lot, lot: Lot, cellId: CellId) {
    && created == lot.(id := created.id, coordinates := lot.coordinates.(cellId := cellId), rooms := created.rooms)
    && |created.rooms| == |lot.rooms|
    && forall i :: 0 <= i < |lot.rooms| ==> SameRoom(created.rooms[i], lot.rooms[i])
  }

  /** The three tables, rows in insertion order, each with the id its serial column hands out
      next when this is the only session writing; the stored rows carry no nested children. */
  class Database {
    var flats: seq<Lot>
    var rooms: seq<Room>
    var places: seq<LivingPlace>
    var nextFlatId: int
    var nextRoomId: int
    var nextPlaceId: int
    /** Column defaults of the flats columns Create does not insert. */
    const defaultPrice: int
    const defaultVisible: bool
    const defaultConstructor: bool

    /** Ids already handed out lie below the next ones, and every foreign key names a handed-out id. */
    ghost predicate Valid()
      reads this
    {
      && (forall i :: 0 <= i < |flats| ==> flats[i].id < nextFlatId && flats[i].rooms == [])
      && (forall i :: 0 <= i < |rooms| ==>
            rooms[i].id < nextRoomId && rooms[i].flatId < nextFlatId && rooms[i].livingPlaces == [])
      && (forall i :: 0 <= i < |places| ==> places[i].id < nextPlaceId && places[i].roomId < nextRoomId)
    }

    constructor (defaultPrice: int, defaultVisible: bool, defaultConstructor: bool)
      ensures Valid()
      ensures flats == [] && rooms == [] && places == []
      ensures nextFlatId == 1 && nextRoomId == 1 && nextPlaceId == 1
      ensures this.defaultPrice == defaultPrice && this.defaultVisible == defaultVisible
      ensures this.defaultConstructor == defaultConstructor
    {
      flats, rooms, places := [], [], [];
      nextFlatId, nextRoomId, nextPlaceId := 1, 1, 1;
      this.defaultPrice := defaultPrice;
      this.defaultVisible := defaultVisible;
      this.defaultConstructor := defaultConstructor;
    }

    /** The flats row Create inserts for a lot: the inserted columns, the defaults for the rest. */
    function StoredFlat(lot: Lot, id: int): Lot {
      lot.(id := id, price := defaultPrice, isVisible := defaultVisible, isConstructor := defaultConstructor,
           rooms := [])
    }

    /** INSERT INTO flats (...) RETURNING id. */
    method InsertFlat(lot: Lot) returns (id: int)
      requires Valid()
      modifies this
      ensures Valid()
      ensures id == old(nextFlatId) && nextFlatId == id + 1
      ensures flats == old(flats) + [StoredFlat(lot, id)]
      ensures rooms == old(rooms) && places == old(places)
      ensures nextRoomId == old(nextRoomId) && nextPlaceId == old(nextPlaceId)
    {
      id := nextFlatId;
      flats := flats + [StoredFlat(lot, id)];
      nextFlatId := nextFlatId + 1;
    }

    /** INSERT INTO rooms (flat_id, ...) RETURNING id. */
    method InsertRoom(flatId: int, room: Room) returns (id: int)
      requires Valid() && flatId < nextFlatId
      modifies this
      ensures Valid()
      ensures id == old(nextRoomId) && nextRoomId == id + 1
      ensures rooms == old(rooms) + [StoredRoom(room.(id := id), flatId)]
      ensures flats == old(flats) && places == old(places)
      ensures nextFlatId == old(nextFlatId) && nextPlaceId == old(nextPlaceId)
    {
      id := nextRoomId;
      rooms := rooms + [StoredRoom(room.(id := id), flatId)];
      nextRoomId := nextRoomId + 1;
    }

    /** INSERT INTO living_places (roomid, numofberths) RETURNING id. */
    method InsertPlace(roomId: int, place: LivingPlace) returns (id: int)
      requires Valid() && roomId < nextRoomId
      modifies this
      ensures Valid()
      ensures id == old(nextPlaceId) && nextPlaceId == id + 1
      ensures places == old(places) + [StoredPlace(place.(id := id), roomId)]
      ensures flats == old(flats) && rooms == old(rooms)
      ensures nextFlatId == old(nextFlatId) && nextRoomId == old(nextRoomId)
    {
      id := nextPlaceId;
      places := places + [StoredPlace(place.(id := id), roomId)];
      nextPlaceId := nextPlaceId + 1;
    }
  }

  /** One pass of the outer loop of Create (lines 293-316): insert the room under the lot's id,
      then each of its living places under the room's new id, writing the new ids back. */
  method CreateRoom(db: Database, flatId: int, room: Room) returns (created: Room)
    requires db.Valid() && flatId < db.nextFlatId
    modifies db
    ensures db.Valid()
    ensures SameRoom(created, room)
    ensures created.id == old(db.nextRoomId)
    ensures Numbered(PlaceIds(created.livingPlaces), old(db.nextPlaceId))
    ensures db.rooms == old(db.rooms) + [StoredRoom(created, flatId)]
    ensures db.places == old(db.places) + PlaceRowsOf(created.livingPlaces, created.id)
    ensures db.flats == old(db.flats)
    ensures db.nextFlatId == old(db.nextFlatId) && db.nextRoomId == old(db.nextRoomId) + 1
    ensures db.nextPlaceId == old(db.nextPlaceId) + |room.livingPlaces|
  {
    var id := db.InsertRoom(flatId, room);
    created := room.(id := id);
    var j := 0;
    while j < |created.livingPlaces|
      invariant 0 <= j <= |created.livingPlaces| == |room.livingPlaces|
      invariant created == room.(id := id, livingPlaces := created.livingPlaces)
      invariant forall k :: 0 <= k < j ==> created.livingPlaces[k] == room.livingPlaces[k].(id := old(db.nextPlaceId) + k)
      invariant forall k :: j <= k < |room.livingPlaces| ==> created.livingPlaces[k] == room.livingPlaces[k]
      invariant db.Valid() && id < db.nextRoomId
      invariant db.places == old(db.places) + PlaceRowsOf(created.livingPlaces[..j], id)
      invariant db.rooms == old(db.rooms) + [StoredRoom(created, flatId)]
      invariant db.flats == old(db.flats)
      invariant db.nextFlatId == old(db.nextFlatId) && db.nextRoomId == old(db.nextRoomId) + 1
      invariant db.nextPlaceId == old(db.nextPlaceId) + j
    {
      var placeId := db.InsertPlace(id, created.livingPlaces[j]);
      ghost var before := created.livingPlaces;
      created := created.(livingPlaces := created.livingPlaces[j := created.livingPlaces[j].(id := placeId)]);
      assert created.livingPlaces[..j] == before[..j];
      assert PlaceRowsOf(created.livingPlaces[..j + 1], id)
        == PlaceRowsOf(created.livingPlaces[..j], id) + [StoredPlace(created.livingPlaces[j], id)];
      j := j + 1;
    }
    assert created.livingPlaces[..j] == created.livingPlaces;
  }

  function RoomIds(rooms: seq<Room>): (r: seq<int>)
    ensures |r| == |rooms|
  {
    seq(|rooms|, n requires 0 <= n < |rooms| => rooms[n].id)
  }

  /** The rows of one more room follow the rows of the rooms before it. */
  lemma RowsSnoc(rooms: seq<Room>, room: Room, flatId: int)
    ensures RoomRowsOf(rooms + [room], flatId) == RoomRowsOf(rooms, flatId) + [StoredRoom(room, flatId)]
    ensures RoomIds(rooms + [room]) == RoomIds(rooms) + [room.id]
    ensures PlaceRows(rooms + [room]) == PlaceRows(rooms) + PlaceRowsOf(room.livingPlaces, room.id)
    ensures PlaceIds(PlaceRows(rooms + [room])) == PlaceIds(PlaceRows(rooms)) + PlaceIds(room.livingPlaces)
  {
    assert (rooms + [room])[..|rooms|] == rooms;
    assert PlaceIds(PlaceRowsOf(room.livingPlaces, room.id)) == PlaceIds(room.livingPlaces);
  }

  lemma NumberedAppend(a: seq<int>, b: seq<int>, start: int)
    requires Numbered(a, start) && Numbered(b, start + |a|)
    ensures Numbered(a + b, start)
  {
  }

  /** The outer loop of Create (lines 292-317) over the lot's rooms: the rooms come back in their
      order, each carrying the ids generated for it and its living places. */
  method CreateRooms(db: Database, flatId: int, rooms: seq<Room>) returns (created: seq<Room>)
    requires db.Valid() && flatId < db.nextFlatId
    modifies db
    ensures db.Valid()
    ensures |created| == |rooms|
    ensures forall k :: 0 <= k < |rooms| ==> SameRoom(created[k], rooms[k])
    ensures Numbered(RoomIds(created), old(db.nextRoomId))
    ensures Numbered(PlaceIds(PlaceRows(created)), old(db.nextPlaceId))
    ensures db.flats == old(db.flats)
    ensures db.rooms == old(db.rooms) + RoomRowsOf(created, flatId)
    ensures db.places == old(db.places) + PlaceRows(created)
    ensures db.nextFlatId == old(db.nextFlatId) && db.nextRoomId == old(db.nextRoomId) + |rooms|
    ensures db.nextPlaceId == old(db.nextPlaceId) + |PlaceRows(created)|
  {
    ghost var flats0, rooms0, places0 := db.flats, db.rooms, db.places;
    ghost var nextFlat0, nextRoom0, nextPlace0 := db.nextFlatId, db.nextRoomId, db.nextPlaceId;
    created := [];
    var i := 0;
    while i < |rooms|
      invariant 0 <= i <= |rooms| && |created| == i
      invariant forall k :: 0 <= k < i ==> SameRoom(created[k], rooms[k])
      invariant Numbered(RoomIds(created), nextRoom0)
      invariant Numbered(PlaceIds(PlaceRows(created)), nextPlace0)
      invariant db.Valid() && flatId < db.nextFlatId
      invariant db.flats == flats0 && db.nextFlatId == nextFlat0
      invariant db.rooms == rooms0 + RoomRowsOf(created, flatId) && db.nextRoomId == nextRoom0 + i
      invariant db.places == places0 + PlaceRows(created)
      invariant db.nextPlaceId == nextPlace0 + |PlaceRows(created)|
    {
      var room := CreateRoom(db, flatId, rooms[i]);
      RowsSnoc(created, room, flatId);
      NumberedAppend(PlaceIds(PlaceRows(created)), PlaceIds(room.livingPlaces), nextPlace0);
      NumberedAppend(RoomIds(created), [room.id], nextRoom0);
      created := created + [room];
      i := i + 1;
    }
  }

  /** Create (lines 256-321): with the derived cell id given, insert the lot, then every room under
      the lot's new id and every living place under its room's new id, writing each new id back
      into the lot. */
  method Create(db: Database, lot: Lot, cellId: CellId) returns (created: Lot)
    requires db.Valid()
    modifies db
    ensures db.Valid()
    ensures SameLot(created, lot, cellId)
    ensures created.id == old(db.nextFlatId)
    ensures Numbered(RoomIds(created.rooms), old(db.nextRoomId))
    ensures Numbered(PlaceIds(PlaceRows(created.rooms)), old(db.nextPlaceId))
    ensures db.flats == old(db.flats) + [db.StoredFlat(created, created.id)]
    ensures db.rooms == old(db.rooms) + RoomRowsOf(created.rooms, created.id)
    ensures db.places == old(db.places) + PlaceRows(created.rooms)
    ensures db.nextFlatId == old(db.nextFlatId) + 1
    ensures db.nextRoomId == old(db.nextRoomId) + |lot.rooms|
    ensures db.nextPlaceId == old(db.nextPlaceId) + |PlaceRows(created.rooms)|
  {
    created := lot.(coordinates := lot.coordinates.(cellId := cellId));
    var id := db.InsertFlat(created);
    created := created.(id := id);
    var rooms := CreateRooms(db, id, created.rooms);
    created := created.(rooms := rooms);
  }
}
