/** The batched "dictionary join" of GetFlats and GetFlatAd: child rows fetched in one query are
    grouped by their parent key in a map and then attached to every parent (lotrepository.go,
    lines 133-147 and 231-248). */
module Stitching {
  import opened Text
  import opened Models

  /** The elements of s whose key is k, in the order of s. */
  function Select<T, K(==)>(s: seq<T>, key: T -> K, k: K): (r: seq<T>)
    ensures |r| <= |s|
    ensures forall x :: x in r ==> x in s && key(x) == k
    decreases |s|
  {
    if s == [] then []
    else Select(s[..|s| - 1], key, k) + (if key(s[|s| - 1]) == k then [s[|s| - 1]] else [])
  }

  /** Selecting from two batches one after the other keeps the batches' order. */
  lemma {:induction false} SelectAppend<T, K>(a: seq<T>, b: seq<T>, key: T -> K, k: K)
    ensures Select(a + b, key, k) == Select(a, key, k) + Select(b, key, k)
    decreases |b|
  {
    if b == [] {
      assert a + b == a;
      assert Select(a, key, k) + Select(b, key, k) == Select(a, key, k);
    } else {
      var init := b[..|b| - 1];
      var last := b[|b| - 1];
      var tail := if key(last) == k then [last] else [];
      SelectAppend(a, init, key, k);
      assert (a + b)[..|a + b| - 1] == a + init;
      assert (a + b)[|a + b| - 1] == last;
      assert Select(a + b, key, k) == Select(a + init, key, k) + tail;
      assert Select(b, key, k) == Select(init, key, k) + tail;
    }
  }

  /** No element has the key: the group is empty. */
  lemma {:induction false} SelectNone<T, K>(s: seq<T>, key: T -> K, k: K)
    requires forall i :: 0 <= i < |s| ==> key(s[i]) != k
    ensures Select(s, key, k) == []
    decreases |s|
  {
    if s != [] {
      SelectNone(s[..|s| - 1], key, k);
    }
  }

  /** Every element has the key: the group is the whole batch. */
  lemma {:induction false} SelectAll<T, K>(s: seq<T>, key: T -> K, k: K)
    requires forall i :: 0 <= i < |s| ==> key(s[i]) == k
    ensures Select(s, key, k) == s
    decreases |s|
  {
    if s != [] {
      SelectAll(s[..|s| - 1], key, k);
      assert s[..|s| - 1] + [s[|s| - 1]] == s;
    }
  }

  /** Rows appended under a fresh key form exactly that key's group. */
  lemma FreshGroup<T, K>(before: seq<T>, added: seq<T>, key: T -> K, k: K)
    requires forall i :: 0 <= i < |before| ==> key(before[i]) != k
    requires forall i :: 0 <= i < |added| ==> key(added[i]) == k
    ensures Select(before + added, key, k) == added
  {
    SelectAppend(before, added, key, k);
    SelectNone(before, key, k);
    SelectAll(added, key, k);
  }

  /** Every element lands in the group of its own key, as often as it occurs, and in no other
      group: the groups partition the batch. */
  lemma {:induction false} SelectCount<T, K>(s: seq<T>, key: T -> K, k: K, x: T)
    ensures multiset(Select(s, key, k))[x] == if key(x) == k then multiset(s)[x] else 0
    decreases |s|
  {
    if s != [] {
      var init := s[..|s| - 1];
      SelectCount(init, key, k, x);
      assert s == init + [s[|s| - 1]];
    }
  }

  /** A pre-filter that keeps every element of the group does not change the group. */
  lemma {:induction false} SelectAfterFilter<T, K>(s: seq<T>, keep: T -> bool, key: T -> K, k: K)
    requires forall x :: key(x) == k ==> keep(x)
    ensures Select(Filter(s, keep), key, k) == Select(s, key, k)
    decreases |s|
  {
    if s != [] {
      var init := s[..|s| - 1];
      SelectAfterFilter(init, keep, key, k);
      var last := s[|s| - 1];
      assert Select(s, key, k) == Select(init, key, k) + (if key(last) == k then [last] else []);
      if keep(last) {
        assert Filter(s, keep) == Filter(init, keep) + [last];
        SelectAppend(Filter(init, keep), [last], key, k);
        assert Select([last], key, k) == (if key(last) == k then [last] else []) by {
          assert [last][..0] == [];
        }
      } else {
        assert Filter(s, keep) == Filter(init, keep);
      }
    }
  }

  /** The elements of s that satisfy keep, in order. */
  function Filter<T>(s: seq<T>, keep: T -> bool): (r: seq<T>)
    ensures forall x :: x in r ==> x in s && keep(x)
    decreases |s|
  {
    if s == [] then [] else Filter(s[..|s| - 1], keep) + (if keep(s[|s| - 1]) then [s[|s| - 1]] else [])
  }

  function RoomsOf(rooms: seq<Room>, flatId: int): seq<Room> {
    Select(rooms, FlatIdOf, flatId)
  }

  function PlacesOf(places: seq<LivingPlace>, roomId: int): seq<LivingPlace> {
    Select(places, RoomIdOf, roomId)
  }

  /** The string key GetFlatAd groups living places by. */
  function RoomKey(p: LivingPlace): string {
    Itoa(p.roomId)
  }

  /** Grouping by the decimal text of the room id is grouping by the room id. */
  lemma {:induction false} TextKeyIsIntKey(places: seq<LivingPlace>, roomId: int)
    ensures Select(places, RoomKey, Itoa(roomId)) == PlacesOf(places, roomId)
    decreases |places|
  {
    if places != [] {
      var last := places[|places| - 1];
      TextKeyIsIntKey(places[..|places| - 1], roomId);
      if RoomKey(last) == Itoa(roomId) {
        ItoaInjective(last.roomId, roomId);
      }
    }
  }

  /** Lines 133-147: group the fetched rooms by flat id, then give every lot the rooms of its id.
      Lots keep their order and all their other fields; a lot without rooms gets none. */
  method AttachRooms(data: seq<Lot>, rooms: seq<Room>) returns (stitched: seq<Lot>)
    ensures |stitched| == |data|
    ensures forall i :: 0 <= i < |data| ==> stitched[i] == data[i].(rooms := RoomsOf(rooms, data[i].id))
  {
    var dictRooms: map<int, seq<Room>> := map[];
    var j := 0;
    while j < |rooms|
      invariant 0 <= j <= |rooms|
      invariant forall k :: k in dictRooms ==> dictRooms[k] == RoomsOf(rooms[..j], k)
      invariant forall k :: k !in dictRooms ==> RoomsOf(rooms[..j], k) == []
    {
      var room := rooms[j];
      assert rooms[..j + 1][..j] == rooms[..j];
      var group := if room.flatId in dictRooms then dictRooms[room.flatId] else [];
      dictRooms := dictRooms[room.flatId := group + [room]];
      j := j + 1;
    }
    assert rooms[..j] == rooms;
    stitched := data;
    var index := 0;
    while index < |stitched|
      invariant 0 <= index <= |stitched| == |data|
      invariant forall i :: 0 <= i < index ==> stitched[i] == data[i].(rooms := RoomsOf(rooms, data[i].id))
      invariant forall i :: index <= i < |data| ==> stitched[i] == data[i]
    {
      var lot := stitched[index];
      var group := if lot.id in dictRooms then dictRooms[lot.id] else [];
      stitched := stitched[index := lot.(rooms := group)];
      index := index + 1;
    }
  }

  /** Lines 231-248: group the fetched living places by the decimal text of their room id, then
      give every room the places of its id.  Rooms keep their order and all their other fields. */
  method AttachLivingPlaces(rooms: seq<Room>, places: seq<LivingPlace>) returns (stitched: seq<Room>)
    ensures |stitched| == |rooms|
    ensures forall i :: 0 <= i < |rooms| ==>
      stitched[i] == rooms[i].(livingPlaces := PlacesOf(places, rooms[i].id))
  {
    var dictWithLPlaces: map<string, seq<LivingPlace>> := map[];
    var j := 0;
    while j < |places|
      invariant 0 <= j <= |places|
      invariant forall k :: k in dictWithLPlaces ==> dictWithLPlaces[k] == Select(places[..j], RoomKey, k)
      invariant forall k :: k !in dictWithLPlaces ==> Select(places[..j], RoomKey, k) == []
    {
      var lp := places[j];
      assert places[..j + 1][..j] == places[..j];
      var key := Itoa(lp.roomId);
      var group := if key in dictWithLPlaces then dictWithLPlaces[key] else [];
      dictWithLPlaces := dictWithLPlaces[key := group + [lp]];
      j := j + 1;
    }
    assert places[..j] == places;
    stitched := rooms;
    var i := 0;
    while i < |stitched|
      invariant 0 <= i <= |stitched| == |rooms|
      invariant forall m :: 0 <= m < i ==> stitched[m] == rooms[m].(livingPlaces := PlacesOf(places, rooms[m].id))
      invariant forall m :: i <= m < |rooms| ==> stitched[m] == rooms[m]
    {
      var key := Itoa(stitched[i].id);
      TextKeyIsIntKey(places, stitched[i].id);
      var group := if key in dictWithLPlaces then dictWithLPlaces[key] else [];
      stitched := stitched[i := stitched[i].(livingPlaces := group)];
      i := i + 1;
    }
  }
}
