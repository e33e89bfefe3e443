/**
 The records of the dungeon's maps as the program keeps them: structures reached
 through pointers, told apart by the place they were allocated for. The heap is
 the set `live` of records allocated and not yet freed; the program reaches a
 record's fields only by following a pointer with RoomAt or MapAt, which ask
 that its record is in the heap.
 */
module MapRecords {
  import opened MapTables
  import opened MapWorld

  // ----- Records -----

  /** A `struct MAP_LEVEL`; the place it was allocated for tells it from all others. */
  class Room {
    var isFirst: int
    var mask: int
    ghost const at: (int, int)

    constructor (ghost i: int, ghost n: int)
      ensures at == (i, n)
    {
      at := (i, n);
    }
  }

  /** A `struct MAP`. Its six by six room pointers, kept row after row, are
      filled in when it is allocated and never change. */
  class MapRec {
    var mapId: int
    var mapName: Bytes
    var drawing: Bytes
    var levelDisp: array?<byte>
    var levelMask: Grid<int>
    const level: seq<Room>
    ghost const index: int

    constructor (rooms: seq<Room>, ghost i: int)
      ensures level == rooms && index == i
    {
      level := rooms;
      index := i;
      levelDisp := null;
    }
  }

  /** Following a pointer to a room. */
  function RoomAt(r: Room, ghost live: set<object>): (same: Room)
    requires r in live
    ensures same == r
  {
    r
  }

  /** Following a pointer to a map. */
  function MapAt(m: MapRec, ghost live: set<object>): (same: MapRec)
    requires m in live
    ensures same == m
  {
    m
  }

  ghost predicate RoomsLive(level: seq<Room>, live: set<object>) {
    forall n :: 0 <= n < |level| ==> level[n] in live
  }

  ghost predicate LevelPart(level: seq<Room>, i: int) {
    forall n :: 0 <= n < |level| ==> level[n].at == (i, n)
  }

  ghost predicate IsLevel(level: seq<Room>, i: int) {
    |level| == 36 && LevelPart(level, i)
  }

  ghost function RoomsOf(level: seq<Room>): set<Room> {
    set r | r in level
  }

  ghost predicate AllFirst(level: seq<Room>)
    reads level
  {
    forall n :: 0 <= n < |level| ==> level[n].isFirst == 1
  }

  ghost function VisitedOf(level: seq<Room>): set<Pos>
    requires |level| == 36
    reads level
  {
    set j, k | 0 <= j < 6 && 0 <= k < 6 && level[6 * j + k].isFirst == 0 :: Pos(j, k)
  }

  ghost function MasksOf(level: seq<Room>): (g: Grid<int>)
    requires |level| == 36
    reads level
    ensures IsGrid(g)
    ensures forall j, k :: 0 <= j < 6 && 0 <= k < 6 ==> g[j][k] == level[6 * j + k].mask
  {
    seq(6, j requires 0 <= j < 6 reads level =>
      seq(6, k requires 0 <= k < 6 reads level => level[6 * j + k].mask))
  }

  /** Map `i` is allocated with all its rooms. */
  ghost predicate LiveMap(m: MapRec, i: int, live: set<object>) {
    m in live && m.index == i && IsLevel(m.level, i) && RoomsOf(m.level) <= live
  }

  ghost predicate LiveMaps(ms: seq<MapRec>, live: set<object>) {
    forall i :: 0 <= i < |ms| ==> LiveMap(ms[i], i, live)
  }

  /** Exactly the records of these maps. */
  ghost function Owned(ms: seq<MapRec>): set<object> {
    if ms == [] then {}
    else Owned(ms[..|ms| - 1]) + {ms[|ms| - 1]} + RoomsOf(ms[|ms| - 1].level)
  }

  lemma OwnedAppend(ms: seq<MapRec>, m: MapRec)
    ensures Owned(ms + [m]) == Owned(ms) + {m} + RoomsOf(m.level)
  {
    assert (ms + [m])[..|ms|] == ms;
  }

  lemma LevelAppend(level: seq<Room>, room: Room, i: int)
    requires LevelPart(level, i) && room.at == (i, |level|)
    ensures LevelPart(level + [room], i)
    ensures RoomsOf(level + [room]) == RoomsOf(level) + {room}
  {
  }

  lemma UnionCount(a: set<object>, b: set<object>)
    requires a !! b
    ensures |a + b| == |a| + |b|
  {
  }

  lemma {:induction false} OwnedBelow(ms: seq<MapRec>, live: set<object>)
    requires LiveMaps(ms, live)
    ensures forall m: MapRec :: m in Owned(ms) ==> 0 <= m.index < |ms|
    ensures forall r: Room :: r in Owned(ms) ==> 0 <= r.at.0 < |ms|
  {
    if ms != [] {
      OwnedBelow(ms[..|ms| - 1], live);
      assert LiveMap(ms[|ms| - 1], |ms| - 1, live);
    }
  }

  lemma {:induction false} LevelCount(level: seq<Room>, i: int)
    requires LevelPart(level, i)
    ensures |RoomsOf(level)| == |level|
  {
    if level != [] {
      var n := |level| - 1;
      LevelCount(level[..n], i);
      assert level == level[..n] + [level[n]];
      LevelAppend(level[..n], level[n], i);
      assert level[n] !in level[..n];
    }
  }

  /** Six live maps are 222 records: six maps and 216 rooms, no two the same. */
  lemma {:induction false} OwnedCount(ms: seq<MapRec>, live: set<object>)
    requires LiveMaps(ms, live)
    ensures |Owned(ms)| == 37 * |ms|
  {
    if ms != [] {
      var n := |ms| - 1;
      var init, m := ms[..n], ms[n];
      OwnedCount(init, live);
      OwnedBelow(init, live);
      assert LiveMap(m, n, live);
      LevelCount(m.level, n);
      var rooms: set<object> := RoomsOf(m.level);
      assert Owned(init) !! rooms by {
        forall r | r in RoomsOf(m.level) ensures r !in Owned(init) {
          assert r.at.0 == n;
        }
      }
      assert m !in Owned(init) && m !in rooms;
      UnionCount(Owned(init), {m});
      UnionCount(Owned(init) + {m}, rooms);
    }
  }

  lemma {:induction false} OwnedPrefix(ms: seq<MapRec>, n: nat)
    requires n <= |ms|
    ensures Owned(ms[..n]) <= Owned(ms)
  {
    if n < |ms| {
      OwnedPrefix(ms[..|ms| - 1], n);
      assert ms[..|ms| - 1][..n] == ms[..n];
    } else {
      assert ms[..n] == ms;
    }
  }

  // With the maps before it freed, map `i` is still whole, and freeing it
  // leaves the maps after it.
  lemma FreeStep(ms: seq<MapRec>, i: nat, all: set<object>)
    requires LiveMaps(ms, all) && i < |ms|
    ensures var rest := Owned(ms) - Owned(ms[..i]);
            && LiveMap(ms[i], i, rest)
            && rest - RoomsOf(ms[i].level) - {ms[i]} == Owned(ms) - Owned(ms[..i + 1])
  {
    assert LiveMap(ms[i], i, all);
    assert ms[..i + 1] == ms[..i] + [ms[i]];
    OwnedAppend(ms[..i], ms[i]);
    OwnedPrefix(ms, i + 1);
    OwnedBelow(ms[..i], all);
    forall r | r in RoomsOf(ms[i].level) ensures r !in Owned(ms[..i]) {
      assert r.at.0 == i;
    }
  }

  /** No two maps share a record. */
  lemma Apart(a: MapRec, i: int, b: MapRec, j: int, live: set<object>)
    requires LiveMap(a, i, live) && LiveMap(b, j, live) && i != j
    ensures a != b && RoomsOf(a.level) !! RoomsOf(b.level)
  {
    assert forall r :: r in RoomsOf(a.level) ==> r.at.0 == i;
    assert forall r :: r in RoomsOf(b.level) ==> r.at.0 == j;
  }

  // ----- The order of freeing -----

  /** The rooms of a map, row by row, and then the map. */
  ghost function FreeMapOrder(m: MapRec): seq<object> {
    m.level + [m]
  }

  ghost function FreeOrder(ms: seq<MapRec>): seq<object> {
    if ms == [] then [] else FreeOrder(ms[..|ms| - 1]) + FreeMapOrder(ms[|ms| - 1])
  }

  lemma NoneFreed(ms: seq<MapRec>)
    ensures Owned(ms[..0]) == {} && FreeOrder(ms[..0]) == []
  {
  }

  lemma FreeOrderStep(ms: seq<MapRec>, i: nat)
    requires i < |ms|
    ensures FreeOrder(ms[..i + 1]) == FreeOrder(ms[..i]) + FreeMapOrder(ms[i])
  {
    assert ms[..i + 1][..i] == ms[..i];
  }

  lemma {:induction false} FreeOrderOwned(ms: seq<MapRec>)
    ensures forall o :: o in FreeOrder(ms) <==> o in Owned(ms)
  {
    if ms != [] {
      FreeOrderOwned(ms[..|ms| - 1]);
    }
  }

  ghost predicate NoRepeats(os: seq<object>) {
    forall a, b :: 0 <= a < b < |os| ==> os[a] != os[b]
  }

  lemma MapOrderOnce(m: MapRec, i: int)
    requires IsLevel(m.level, i)
    ensures NoRepeats(FreeMapOrder(m))
  {
  }

  lemma JoinOnce(os: seq<object>, more: seq<object>)
    requires NoRepeats(os) && NoRepeats(more)
    requires forall b :: 0 <= b < |more| ==> more[b] !in os
    ensures NoRepeats(os + more)
  {
  }

  /** Every record of the maps is freed exactly once, and nothing else is. */
  lemma {:induction false} FreedOnce(ms: seq<MapRec>, live: set<object>)
    requires LiveMaps(ms, live)
    ensures NoRepeats(FreeOrder(ms)) && |FreeOrder(ms)| == 37 * |ms|
    ensures forall o :: o in FreeOrder(ms) <==> o in Owned(ms)
  {
    FreeOrderOwned(ms);
    if ms != [] {
      var n := |ms| - 1;
      FreedOnce(ms[..n], live);
      OwnedBelow(ms[..n], live);
      assert LiveMap(ms[n], n, live);
      MapOrderOnce(ms[n], n);
      forall b | 0 <= b < 37 ensures FreeMapOrder(ms[n])[b] !in FreeOrder(ms[..n]) {
        assert b < 36 ==> ms[n].level[b] in RoomsOf(ms[n].level);
      }
      JoinOnce(FreeOrder(ms[..n]), FreeMapOrder(ms[n]));
    }
  }

  /** A map's rooms are freed one after the other, and the map right after them. */
  lemma {:induction false} RoomsBeforeMap(ms: seq<MapRec>, i: nat, live: set<object>)
    requires LiveMaps(ms, live) && i < |ms|
    ensures |FreeOrder(ms)| == 37 * |ms|
    ensures FreeOrder(ms)[37 * i..37 * i + 36] == ms[i].level && FreeOrder(ms)[37 * i + 36] == ms[i]
  {
    FreedOnce(ms, live);
    var n := |ms| - 1;
    FreedOnce(ms[..n], live);
    assert LiveMap(ms[n], n, live);
    if i < n {
      RoomsBeforeMap(ms[..n], i, live);
    }
  }

  // ----- One floor's records -----

  ghost predicate Ready(m: MapRec, f: Floor, d: array<byte>)
    requires FloorOk(f)
    reads m
  {
    m.mapName == f.name && m.drawing == Encode(f.level) && m.levelDisp == d && m.levelMask == f.mask
  }

  /** The masks of a level, from its table. */
  method SetMasks(level: seq<Room>, table: Grid<int>, ghost i: int, ghost live: set<object>)
    requires IsLevel(level, i) && RoomsLive(level, live) && IsGrid(table)
    modifies level
    ensures MasksOf(level) == table
    ensures VisitedOf(level) == old(VisitedOf(level))
  {
    for j := 0 to 6
      invariant forall n :: 0 <= n < 36 ==> level[n].isFirst == old(level[n].isFirst)
      invariant forall a, b :: 0 <= a < j && 0 <= b < 6 ==> level[6 * a + b].mask == table[a][b]
    {
      for k := 0 to 6
        invariant forall n :: 0 <= n < 36 ==> level[n].isFirst == old(level[n].isFirst)
        invariant forall a, b :: 0 <= a < j && 0 <= b < 6 ==> level[6 * a + b].mask == table[a][b]
        invariant forall b :: 0 <= b < k ==> level[6 * j + b].mask == table[j][b]
      {
        RoomAt(level[6 * j + k], live).mask := table[j][k];
      }
    }
    assert forall j :: 0 <= j < 6 ==> MasksOf(level)[j] == table[j];
  }

  /** The flag of a room, cleared when it is entered. */
  method MarkVisited(level: seq<Room>, p: Pos, ghost i: int, ghost live: set<object>)
    requires IsLevel(level, i) && RoomsLive(level, live) && InGrid(p)
    modifies level[6 * p.row + p.col]
    ensures VisitedOf(level) == old(VisitedOf(level)) + {p}
    ensures MasksOf(level) == old(MasksOf(level))
  {
    var n := 6 * p.row + p.col;
    assert forall k :: 0 <= k < 36 && k != n ==> level[k] != level[n];
    RoomAt(level[n], live).isFirst := 0;
    assert forall j :: 0 <= j < 6 ==> MasksOf(level)[j] == old(MasksOf(level))[j];
  }

  /** The mask of a room, changed when its event is spent. */
  method PutMask(level: seq<Room>, p: Pos, v: int, ghost i: int, ghost live: set<object>)
    requires IsLevel(level, i) && RoomsLive(level, live) && InGrid(p)
    modifies level[6 * p.row + p.col]
    ensures VisitedOf(level) == old(VisitedOf(level))
    ensures MasksOf(level) == SetAt(old(MasksOf(level)), p, v)
  {
    var n := 6 * p.row + p.col;
    assert forall k :: 0 <= k < 36 && k != n ==> level[k] != level[n];
    RoomAt(level[n], live).mask := v;
    assert forall j :: 0 <= j < 6 ==> MasksOf(level)[j] == SetAt(old(MasksOf(level)), p, v)[j];
  }

  lemma NoneVisited(level: seq<Room>)
    requires |level| == 36 && AllFirst(level)
    ensures VisitedOf(level) == {}
  {
  }

  /** Name, drawing, buffer and masks of a floor, with only its start room visited. */
  method Wire(m: MapRec, f: Floor, d: array<byte>, ghost i: int, ghost live: set<object>)
    requires FloorOk(f) && IsLevel(m.level, i) && AllFirst(m.level)
    requires m in live && RoomsLive(m.level, live)
    modifies m, m.level
    ensures Ready(m, f, d)
    ensures VisitedOf(m.level) == {f.start} && MasksOf(m.level) == f.mask
  {
    hide VisitedOf, MasksOf, RoomOk;
    NoneVisited(m.level);
    MapAt(m, live).mapName := f.name;
    MapAt(m, live).drawing := Encode(f.level);
    MapAt(m, live).levelDisp := d;
    MapAt(m, live).levelMask := f.mask;
    MarkVisited(MapAt(m, live).level, f.start, i, live);
    SetMasks(MapAt(m, live).level, MapAt(m, live).levelMask, i, live);
  }
}
