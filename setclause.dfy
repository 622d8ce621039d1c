/** The SET clauses UpdateFlat and CreateAd build from a partial-update map
    (lotrepository.go, lines 324-461). */
module SetClause {
  import opened Outcomes
  import opened Text

  /** The dynamic values a field map holds; the `%f` rendering of a float is not modelled, so a
      float arrives with its rendered text. */
  datatype FieldValue =
    | IntValue(i: int)
    | StringValue(s: string)
    | BoolValue(b: bool)
    | FloatValue(formatted: string)
    | OtherValue  // any other dynamic type: the type assertion to string panics

  /** One partial update: the row id and the column -> new value map. */
  datatype FieldUpdate = FieldUpdate(id: int, fields: map<string, FieldValue>)

  /** The promotion request: the listing's update and one update per room. */
  datatype UpdateRequest = UpdateRequest(lot: FieldUpdate, rooms: seq<FieldUpdate>)

  /** A statement sent to the database: the SQL text and its single argument $1. */
  datatype Statement = Exec(sql: string, arg: int)

  /** What an update does: the statements it commits, or the error that aborts it. */
  datatype Outcome = Done(statements: seq<Statement>) | Failed(error: Error)

  const AssignOpen := " = '"
  const AssignClose := "'"
  const ListSep := ", "
  const EmptyPlaceholder := "' '"
  const UpdateFlatsHead := "UPDATE flats SET "
  const UpdateRoomsHead := "UPDATE rooms SET "
  const ById := " WHERE id = $1"
  const ConstructorColumn := "is_constructor"

  predicate Supported(fields: map<string, FieldValue>) {
    forall k :: k in fields ==> !fields[k].OtherValue?
  }

  /** The text a supported value is written as: the type switch, then "' '" for an empty text. */
  function Rendered(v: FieldValue): (r: string)
    requires !v.OtherValue?
    ensures |r| > 0
  {
    var text := match v
      case IntValue(i) => Itoa(i)
      case StringValue(s) => s
      case BoolValue(b) => FormatBool(b)
      case FloatValue(f) => f;
    if text == "" then EmptyPlaceholder else text
  }

  /** One assignment of the SET list: key = 'text'. */
  function Assignment(key: string, text: string): string {
    key + AssignOpen + text + AssignClose
  }

  /** The assignments for the fields, in the order the map is visited. */
  function Assignments(fields: map<string, FieldValue>, order: seq<string>): (r: seq<string>)
    requires Visits(order, fields)
    requires forall i :: 0 <= i < |order| ==> !fields[order[i]].OtherValue?
    ensures |r| == |order|
  {
    seq(|order|, i requires 0 <= i < |order| => Assignment(order[i], Rendered(fields[order[i]])))
  }

  /** The SET list the loop and the final slice produce, or how they fail: an unsupported value
      panics in the type assertion, an empty map panics in data[0:len(data)-2]. */
  function SetClauseText(fields: map<string, FieldValue>, order: seq<string>): Result<string>
    requires Visits(order, fields)
  {
    if !Supported(fields) then Err(UnsupportedValue)
    else if |fields| == 0 then Err(SliceOutOfRange)
    else Ok(Join(Assignments(fields, order), ListSep))
  }

  lemma AssignmentsSnoc(fields: map<string, FieldValue>, order: seq<string>, i: nat)
    requires i < |order| && Visits(order, fields)
    requires forall j :: 0 <= j <= i ==> !fields[order[j]].OtherValue?
    ensures Assignments(fields, order[..i + 1])
      == Assignments(fields, order[..i]) + [Assignment(order[i], Rendered(fields[order[i]]))]
  {
    assert order[..i + 1][..i] == order[..i];
  }

  /** The type switch of lines 344-355 and the empty-text replacement of lines 357-359. */
  method ValueText(value: FieldValue) returns (r: Option<string>)
    ensures r.None? <==> value.OtherValue?
    ensures r.Some? ==> r.value == Rendered(value)
  {
    var text: string;
    match value {
      case IntValue(n) => text := Itoa(n);
      case StringValue(s) => text := s;
      case BoolValue(b) => text := FormatBool(b);
      case FloatValue(f) => text := f;
      case OtherValue => return None;
    }
    if text == "" {
      text := EmptyPlaceholder;
    }
    r := Some(text);
  }

  /** The loop of lines 343-363 (and its copies at 397-417 and 429-449) with the slice after it. */
  method RenderSetClause(fields: map<string, FieldValue>, order: seq<string>) returns (r: Result<string>)
    requires Enumerates(order, fields)
    ensures r == SetClauseText(fields, order)
  {
    EnumerationSize(order, fields);
    var data := "";
    var i := 0;
    while i < |order|
      invariant 0 <= i <= |order|
      invariant forall j :: 0 <= j < i ==> !fields[order[j]].OtherValue?
      invariant data == Terminated(Assignments(fields, order[..i]), ListSep)
    {
      var key := order[i];
      var text := ValueText(fields[key]);
      if text.None? {
        return Err(UnsupportedValue);
      }
      AssignmentsSnoc(fields, order, i);
      data := data + Assignment(key, text.value) + ListSep;
      i := i + 1;
    }
    assert order[..i] == order;
    assert Supported(fields) by {
      forall k | k in fields ensures !fields[k].OtherValue? {
        var j := EnumerationIndex(order, fields, k);
      }
    }
    if |data| < 2 {
      return Err(SliceOutOfRange);
    }
    TerminatedIsJoinedPlusSep(Assignments(fields, order), ListSep);
    r := Ok(data[..|data| - 2]);
  }

  /** Every field of the map is assigned its rendered value somewhere in the SET list. */
  lemma SetClauseHasEveryField(fields: map<string, FieldValue>, order: seq<string>, k: string)
    requires Enumerates(order, fields) && SetClauseText(fields, order).Ok? && k in fields
    ensures !fields[k].OtherValue?
    ensures Contains(SetClauseText(fields, order).value, Assignment(k, Rendered(fields[k])))
  {
    var i := EnumerationIndex(order, fields, k);
    JoinContainsPart(Assignments(fields, order), ListSep, i);
  }

  /** The SET list holds one assignment per field of the map. */
  lemma SetClauseSize(fields: map<string, FieldValue>, order: seq<string>)
    requires Enumerates(order, fields) && Supported(fields)
    ensures |Assignments(fields, order)| == |fields|
  {
    EnumerationSize(order, fields);
  }

  /** The trailing ", " is gone: the list ends with the closing quote of its last assignment. */
  lemma SetClauseEndsWithQuote(fields: map<string, FieldValue>, order: seq<string>)
    requires Visits(order, fields) && SetClauseText(fields, order).Ok? && |order| > 0
    ensures EndsWith(SetClauseText(fields, order).value, AssignClose)
    ensures !EndsWith(SetClauseText(fields, order).value, ListSep)
  {
    var parts := Assignments(fields, order);
    var text := SetClauseText(fields, order).value;
    var last := parts[|parts| - 1];
    JoinEndsWithLast(parts, ListSep);
    assert last == order[|order| - 1] + AssignOpen + Rendered(fields[order[|order| - 1]]) + AssignClose;
    EndsWithConcat(order[|order| - 1] + AssignOpen + Rendered(fields[order[|order| - 1]]), AssignClose);
    assert text[|text| - 1] == last[|last| - 1] == '\'';
    DiffersAt(text, ListSep, 1);
  }

  /** An empty string is written as the quoted blank "' '", so the column receives '' ''. */
  lemma EmptyStringAssignment(key: string)
    ensures Assignment(key, Rendered(StringValue(""))) == key + " = '' ''"
  {
    assert Rendered(StringValue("")) == EmptyPlaceholder;
  }

  /** A boolean is written as the text ParseBool reads back. */
  lemma BoolRoundTrip(b: bool)
    ensures ParseBool(Rendered(BoolValue(b))) == Some(b)
  {
  }

  /** Different integers are written as different texts. */
  lemma IntRenderingInjective(a: int, b: int)
    requires Rendered(IntValue(a)) == Rendered(IntValue(b))
    ensures a == b
  {
    ItoaInjective(a, b);
  }

  /** UpdateFlat (lines 324-374): nothing for an empty map, otherwise one UPDATE of the listing. */
  function UpdateFlatOutcome(id: int, fields: map<string, FieldValue>, order: seq<string>): Outcome
    requires Visits(order, fields)
  {
    if |fields| == 0 then Done([])
    else match SetClauseText(fields, order)
      case Err(e) => Failed(e)
      case Ok(clause) => Done([Exec(UpdateFlatsHead + clause + ById, id)])
  }

  method UpdateFlat(id: int, fields: map<string, FieldValue>, order: seq<string>) returns (r: Outcome)
    requires Enumerates(order, fields)
    ensures r == UpdateFlatOutcome(id, fields, order)
    ensures r.Failed? <==> !Supported(fields)
    ensures r.Done? ==> |r.statements| == (if |fields| == 0 then 0 else 1)
  {
    if |fields| == 0 {
      return Done([]);
    }
    var clause := RenderSetClause(fields, order);
    match clause {
      case Err(e) => r := Failed(e);
      case Ok(c) => r := Done([Exec(UpdateFlatsHead + c + ById, id)]);
    }
  }

  /** The listing's map after line 394 marks it as an advertisement. */
  function Promoted(fields: map<string, FieldValue>): (r: map<string, FieldValue>)
    ensures r.Keys == fields.Keys + {ConstructorColumn}
    ensures r[ConstructorColumn] == BoolValue(false)
    ensures forall k :: k in fields && k != ConstructorColumn ==> r[k] == fields[k]
  {
    fields[ConstructorColumn := BoolValue(false)]
  }

  ghost predicate RoomOrders(rooms: seq<FieldUpdate>, orders: seq<seq<string>>) {
    |orders| == |rooms| && forall i :: 0 <= i < |rooms| ==> Visits(orders[i], rooms[i].fields)
  }

  lemma RoomOrdersPrefix(rooms: seq<FieldUpdate>, orders: seq<seq<string>>, n: nat)
    requires RoomOrders(rooms, orders) && n <= |rooms|
    ensures RoomOrders(rooms[..n], orders[..n])
  {
  }

  function NonEmptyCount(rooms: seq<FieldUpdate>): (n: nat)
    ensures n <= |rooms|
  {
    if |rooms| == 0 then 0
    else NonEmptyCount(rooms[..|rooms| - 1]) + (if |rooms[|rooms| - 1].fields| == 0 then 0 else 1)
  }

  /** The room loop of lines 426-457 as written: every room is rendered, so a room with an empty
      map panics in the slice. */
  function RoomUpdatesAsWritten(rooms: seq<FieldUpdate>, orders: seq<seq<string>>): (r: Result<seq<Statement>>)
    requires RoomOrders(rooms, orders)
    ensures r.Ok? <==> forall i :: 0 <= i < |rooms| ==> |rooms[i].fields| > 0 && Supported(rooms[i].fields)
    ensures r.Ok? ==> |r.value| == |rooms|
    ensures r.Err? ==> r.error == UnsupportedValue || r.error == SliceOutOfRange
    decreases |rooms|
  {
    if |rooms| == 0 then Ok([])
    else
      var n := |rooms| - 1;
      RoomOrdersPrefix(rooms, orders, n);
      assert forall i :: 0 <= i < n ==> rooms[..n][i] == rooms[i];
      match RoomUpdatesAsWritten(rooms[..n], orders[..n])
      case Err(e) => Err(e)
      case Ok(prefix) =>
        match SetClauseText(rooms[n].fields, orders[n])
        case Err(e) => Err(e)
        case Ok(clause) => Ok(prefix + [Exec(UpdateRoomsHead + clause + ById, rooms[n].id)])
  }

  /** The i-th UPDATE of the room loop as written is bound to the i-th room's id. */
  lemma {:induction false} RoomStatementsBound(rooms: seq<FieldUpdate>, orders: seq<seq<string>>, i: nat)
    requires RoomOrders(rooms, orders) && RoomUpdatesAsWritten(rooms, orders).Ok? && i < |rooms|
    ensures RoomUpdatesAsWritten(rooms, orders).value[i].arg == rooms[i].id
    decreases |rooms|
  {
    var n := |rooms| - 1;
    RoomOrdersPrefix(rooms, orders, n);
    if i < n {
      RoomStatementsBound(rooms[..n], orders[..n], i);
    }
  }

  /** The room loop with rooms that carry no field skipped, as UpdateFlat skips an empty map. */
  function RoomUpdates(rooms: seq<FieldUpdate>, orders: seq<seq<string>>): (r: Result<seq<Statement>>)
    requires RoomOrders(rooms, orders)
    ensures r.Ok? <==> forall i :: 0 <= i < |rooms| ==> Supported(rooms[i].fields)
    ensures r.Ok? ==> |r.value| == NonEmptyCount(rooms)
    ensures r.Err? ==> r.error == UnsupportedValue
    decreases |rooms|
  {
    if |rooms| == 0 then Ok([])
    else
      var n := |rooms| - 1;
      RoomOrdersPrefix(rooms, orders, n);
      assert forall i :: 0 <= i < n ==> rooms[..n][i] == rooms[i];
      match RoomUpdates(rooms[..n], orders[..n])
      case Err(e) => Err(e)
      case Ok(prefix) =>
        if |rooms[n].fields| == 0 then Ok(prefix)
        else match SetClauseText(rooms[n].fields, orders[n])
          case Err(e) => Err(e)
          case Ok(clause) => Ok(prefix + [Exec(UpdateRoomsHead + clause + ById, rooms[n].id)])
  }

  /** Where no room has an empty map, the corrected loop does what the loop as written does. */
  lemma {:induction false} RoomUpdatesAgree(rooms: seq<FieldUpdate>, orders: seq<seq<string>>)
    requires RoomOrders(rooms, orders)
    requires forall i :: 0 <= i < |rooms| ==> |rooms[i].fields| > 0
    ensures RoomUpdates(rooms, orders) == RoomUpdatesAsWritten(rooms, orders)
    decreases |rooms|
  {
    if |rooms| > 0 {
      var n := |rooms| - 1;
      RoomOrdersPrefix(rooms, orders, n);
      RoomUpdatesAgree(rooms[..n], orders[..n]);
    }
  }

  /** CreateAd (lines 377-461) with a given room loop: nothing when the listing's map is empty,
      otherwise the listing's UPDATE with is_constructor forced to false, then the rooms'. */
  function CreateAdWith(req: UpdateRequest, lotOrder: seq<string>, rooms: Result<seq<Statement>>): Outcome
    requires Visits(lotOrder, Promoted(req.lot.fields))
  {
    if |req.lot.fields| == 0 then Done([])
    else match SetClauseText(Promoted(req.lot.fields), lotOrder)
      case Err(e) => Failed(e)
      case Ok(clause) =>
        match rooms
        case Err(e) => Failed(e)
        case Ok(statements) => Done([Exec(UpdateFlatsHead + clause + ById, req.lot.id)] + statements)
  }

  /** CreateAd as written: a room with an empty map aborts the whole call. */
  function CreateAdAsWritten(req: UpdateRequest, lotOrder: seq<string>, roomOrders: seq<seq<string>>): (r: Outcome)
    requires Visits(lotOrder, Promoted(req.lot.fields)) && RoomOrders(req.rooms, roomOrders)
    ensures r.Failed? <==>
      (|req.lot.fields| > 0
       && (!Supported(Promoted(req.lot.fields))
           || exists i :: 0 <= i < |req.rooms| && (|req.rooms[i].fields| == 0 || !Supported(req.rooms[i].fields))))
    ensures r.Done? ==> |r.statements| == (if |req.lot.fields| == 0 then 0 else 1 + |req.rooms|)
  {
    CreateAdWith(req, lotOrder, RoomUpdatesAsWritten(req.rooms, roomOrders))
  }

  /** CreateAd as evidently intended: a room with an empty map is left alone. */
  function CreateAdOutcome(req: UpdateRequest, lotOrder: seq<string>, roomOrders: seq<seq<string>>): (r: Outcome)
    requires Visits(lotOrder, Promoted(req.lot.fields)) && RoomOrders(req.rooms, roomOrders)
    ensures r.Failed? <==>
      (|req.lot.fields| > 0
       && (!Supported(Promoted(req.lot.fields)) || exists i :: 0 <= i < |req.rooms| && !Supported(req.rooms[i].fields)))
    ensures r.Done? ==> |r.statements| == (if |req.lot.fields| == 0 then 0 else 1 + NonEmptyCount(req.rooms))
  {
    CreateAdWith(req, lotOrder, RoomUpdates(req.rooms, roomOrders))
  }

  /** A listing with one field and a room without any: as written the promotion aborts on the
      room's slice; corrected, the listing is promoted and the room left alone. */
  lemma AsWrittenEmptyRoomAborts()
    ensures var req := UpdateRequest(FieldUpdate(1, map["price" := IntValue(100)]), [FieldUpdate(7, map[])]);
      && CreateAdAsWritten(req, ["price", ConstructorColumn], [[]]) == Failed(SliceOutOfRange)
      && CreateAdOutcome(req, ["price", ConstructorColumn], [[]]).Done?
      && |CreateAdOutcome(req, ["price", ConstructorColumn], [[]]).statements| == 1
  {
    var req := UpdateRequest(FieldUpdate(1, map["price" := IntValue(100)]), [FieldUpdate(7, map[])]);
    var promoted := Promoted(req.lot.fields);
    assert promoted.Keys == {"price", ConstructorColumn};
    assert |promoted| == 2;
    assert Supported(promoted);
    assert RoomUpdatesAsWritten(req.rooms, [[]]) == Err(SliceOutOfRange) by {
      assert req.rooms[..0] == [];
    }
  }

  /** Promotion writes is_constructor = 'false' into the listing's UPDATE, bound to the listing's
      id, and then sends one UPDATE per room, bound to that room's id. */
  lemma CreateAdPromotes(req: UpdateRequest, lotOrder: seq<string>, roomOrders: seq<seq<string>>)
    requires Enumerates(lotOrder, Promoted(req.lot.fields)) && RoomOrders(req.rooms, roomOrders)
    requires CreateAdAsWritten(req, lotOrder, roomOrders).Done? && |req.lot.fields| > 0
    ensures var statements := CreateAdAsWritten(req, lotOrder, roomOrders).statements;
      && |statements| == 1 + |req.rooms|
      && statements[0].arg == req.lot.id
      && Contains(statements[0].sql, Assignment(ConstructorColumn, "false"))
      && forall i :: 0 <= i < |req.rooms| ==> statements[i + 1].arg == req.rooms[i].id
  {
    var promoted := Promoted(req.lot.fields);
    SetClauseHasEveryField(promoted, lotOrder, ConstructorColumn);
    var clause := SetClauseText(promoted, lotOrder).value;
    ContainsWithin(UpdateFlatsHead, clause, ById, Assignment(ConstructorColumn, "false"));
    forall i | 0 <= i < |req.rooms|
      ensures CreateAdAsWritten(req, lotOrder, roomOrders).statements[i + 1].arg == req.rooms[i].id
    {
      RoomStatementsBound(req.rooms, roomOrders, i);
    }
  }

  /** Where every room carries fields, CreateAd as written does what the corrected one does. */
  lemma CreateAdAgrees(req: UpdateRequest, lotOrder: seq<string>, roomOrders: seq<seq<string>>)
    requires Visits(lotOrder, Promoted(req.lot.fields)) && RoomOrders(req.rooms, roomOrders)
    requires forall i :: 0 <= i < |req.rooms| ==> |req.rooms[i].fields| > 0
    ensures CreateAdAsWritten(req, lotOrder, roomOrders) == CreateAdOutcome(req, lotOrder, roomOrders)
  {
    RoomUpdatesAgree(req.rooms, roomOrders);
  }

  ghost predicate RoomEnumerations(rooms: seq<FieldUpdate>, orders: seq<seq<string>>) {
    |orders| == |rooms| && forall i :: 0 <= i < |rooms| ==> Enumerates(orders[i], rooms[i].fields)
  }

  lemma EnumerationsVisit(rooms: seq<FieldUpdate>, orders: seq<seq<string>>)
    requires RoomEnumerations(rooms, orders)
    ensures RoomOrders(rooms, orders)
  {
    forall i | 0 <= i < |rooms| ensures Visits(orders[i], rooms[i].fields) {
      assert Enumerates(orders[i], rooms[i].fields);
    }
  }

  /** The room loop of lines 426-457: every room is rendered, and the first failure ends it. */
  method UpdateRooms(rooms: seq<FieldUpdate>, orders: seq<seq<string>>) returns (r: Result<seq<Statement>>)
    requires RoomEnumerations(rooms, orders)
    ensures RoomOrders(rooms, orders)
    ensures r == RoomUpdatesAsWritten(rooms, orders)
  {
    EnumerationsVisit(rooms, orders);
    var statements: seq<Statement> := [];
    var i := 0;
    while i < |rooms|
      invariant 0 <= i <= |rooms|
      invariant RoomOrders(rooms[..i], orders[..i])
      invariant RoomUpdatesAsWritten(rooms[..i], orders[..i]) == Ok(statements)
    {
      var room := rooms[i];
      RoomOrdersPrefix(rooms, orders, i + 1);
      assert rooms[..i + 1][..i] == rooms[..i];
      assert orders[..i + 1][..i] == orders[..i];
      assert Enumerates(orders[i], room.fields);
      var clause := RenderSetClause(room.fields, orders[i]);
      if clause.Err? {
        RoomUpdatesFailFrom(rooms, orders, i + 1);
        assert rooms[..|rooms|] == rooms && orders[..|rooms|] == orders;
        return Err(clause.error);
      }
      assert RoomUpdatesAsWritten(rooms[..i + 1], orders[..i + 1])
        == Ok(statements + [Exec(UpdateRoomsHead + clause.value + ById, room.id)]);
      statements := statements + [Exec(UpdateRoomsHead + clause.value + ById, room.id)];
      i := i + 1;
    }
    assert rooms[..i] == rooms && orders[..i] == orders;
    r := Ok(statements);
  }

  /** CreateAd (lines 377-461) as written, with the promoted map passed on as a value. */
  method CreateAd(req: UpdateRequest, lotOrder: seq<string>, roomOrders: seq<seq<string>>) returns (r: Outcome)
    requires Enumerates(lotOrder, Promoted(req.lot.fields))
    requires RoomEnumerations(req.rooms, roomOrders)
    ensures RoomOrders(req.rooms, roomOrders)
    ensures r == CreateAdAsWritten(req, lotOrder, roomOrders)
  {
    EnumerationsVisit(req.rooms, roomOrders);
    if |req.lot.fields| == 0 {
      return Done([]);
    }
    var fields := Promoted(req.lot.fields);
    var clause := RenderSetClause(fields, lotOrder);
    if clause.Err? {
      return Failed(clause.error);
    }
    var lotUpdate := Exec(UpdateFlatsHead + clause.value + ById, req.lot.id);
    var rooms := UpdateRooms(req.rooms, roomOrders);
    if rooms.Err? {
      return Failed(rooms.error);
    }
    r := Done([lotUpdate] + rooms.value);
  }

  /** Once a prefix of the rooms fails, the whole room loop fails with the same error. */
  lemma {:induction false} RoomUpdatesFailFrom(rooms: seq<FieldUpdate>, orders: seq<seq<string>>, n: nat)
    requires RoomOrders(rooms, orders) && n <= |rooms|
    requires RoomOrders(rooms[..n], orders[..n]) && RoomUpdatesAsWritten(rooms[..n], orders[..n]).Err?
    ensures RoomUpdatesAsWritten(rooms, orders) == RoomUpdatesAsWritten(rooms[..n], orders[..n])
    decreases |rooms| - n
  {
    if n < |rooms| {
      RoomOrdersPrefix(rooms, orders, n + 1);
      assert rooms[..n + 1][..n] == rooms[..n];
      assert orders[..n + 1][..n] == orders[..n];
      RoomUpdatesFailFrom(rooms, orders, n + 1);
    } else {
      assert rooms[..n] == rooms && orders[..n] == orders;
    }
  }
}
