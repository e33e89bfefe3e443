/**
 The process state of the dungeon: the global table of maps, the two display
 buffers, the save file and the player's record. `live` is the heap of records
 allocated and not yet freed, `freed` the records freed so far, in order.
 */
module MapDungeon {
  import opened Wrappers

  import opened MapTables
  import opened SaveFile
  import opened MapWorld
  import opened MapHistory
  import opened MapRuns
  import opened MapMoves
  import opened MapScreen
  import opened MapRecords
  import opened MapEngine

  lemma RevealPlain(g: Grid<Glyph>, d: Bytes, visited: set<Pos>)
    requires IsGrid(g) && |d| == 84 && DrawingBytes(d)
    ensures DrawingBytes(Reveal(g, d, visited))
  {
    forall k | 0 <= k < 84 ensures DrawingByte(Encode(g)[k]) {
    }
  }

  lemma MoveInGrid(s: Session, mode: Mode)
    requires Steady(s)
    ensures var u := Move(s, mode).user;
            u.mapId == s.user.mapId && InGrid(Here(u))
  {
    MoveObeys(s, mode);
  }

  class Dungeon {
    const t: Tower
    const disp0: array<byte>
    const disp1: array<byte>
    const screen: Screen
    var maps: seq<MapRec>
    var file: Option<Bytes>
    const user: Player
    ghost var live: set<object>
    ghost var freed: seq<object>
    ghost var running: bool

    // ----- The invariant -----

    ghost predicate Loaded() {
      && disp0 != disp1 && disp0.Length == 84 && disp1.Length == 84
      && screen.Valid()
    }

    /** Buffers and save file hold nothing that a text stream would translate
        or a console would obey. */
    ghost predicate Plain()
      reads this, disp0, disp1
    {
      && DrawingBytes(disp0[..]) && DrawingBytes(disp1[..])
      && (file.Some? ==> DrawingBytes(file.value))
    }

    ghost predicate Allocated()
      reads this
    {
      |maps| == 6 && LiveMaps(maps, live) && live == Owned(maps)
    }

    ghost predicate Valid()
      reads this, maps, disp0, disp1
    {
      && Loaded() && Plain()
      && (if running then Allocated() && Ready(maps[0], t[0], disp0) && Ready(maps[1], t[1], disp1)
          else live == {})
    }

    ghost function SessionNow(): Session
      requires Allocated()
      reads this, live, user
    {
      assert LiveMap(maps[0], 0, live) && LiveMap(maps[1], 1, live);
      Session(
        [VisitedOf(maps[0].level), VisitedOf(maps[1].level)],
        [MasksOf(maps[0].level), MasksOf(maps[1].level)],
        user.at)
    }

    ghost function Abs(): World
      requires Valid()
      reads this, live, maps, disp0, disp1, user
    {
      World([disp0[..], disp1[..]], file, if running then Some(SessionNow()) else None)
    }

    /** A new process, with whatever save file it finds. */
    constructor (tower: Tower, saved: Option<Bytes>)
      requires saved.Some? ==> DrawingBytes(saved.value)
      ensures Valid() && !running && t == tower
      ensures Abs() == World(Templates(tower), saved, None)
      ensures fresh(disp0) && fresh(disp1) && fresh(screen) && fresh(screen.cells) && fresh(user)
    {
      t := tower;
      var first0, first1 := Encode(tower[0].first), Encode(tower[1].first);
      disp0 := new byte[84](k requires 0 <= k < 84 => first0[k]);
      disp1 := new byte[84](k requires 0 <= k < 84 => first1[k]);
      screen := new Screen();
      maps, file, live, freed, running := [], saved, {}, [], false;
      user := new Player();
      new;
      assert disp0[..] == first0 && disp1[..] == first1;
    }

    // ----- Allocation -----

    method MallocRoom(ghost i: int, ghost n: int) returns (room: Room)
      modifies this`live
      ensures fresh(room) && room.at == (i, n) && room.isFirst == 1
      ensures live == old(live) + {room}
    {
      room := new Room(i, n);
      live := live + {room};
      RoomAt(room, live).isFirst := 1;
    }

    method MallocMap(i: int) returns (m: MapRec)
      modifies this`live
      ensures fresh(m) && m.index == i && m.mapId == i && IsLevel(m.level, i)
      ensures fresh(RoomsOf(m.level)) && AllFirst(m.level)
      ensures live == old(live) + {m} + RoomsOf(m.level)
    {
      var level: seq<Room> := [];
      for j := 0 to 6
        invariant |level| == 6 * j && LevelPart(level, i)
        invariant fresh(RoomsOf(level)) && AllFirst(level)
        invariant live == old(live) + RoomsOf(level)
      {
        for k := 0 to 6
          invariant |level| == 6 * j + k && LevelPart(level, i)
          invariant fresh(RoomsOf(level)) && AllFirst(level)
          invariant live == old(live) + RoomsOf(level)
        {
          var room := MallocRoom(i, 6 * j + k);
          LevelAppend(level, room, i);
          level := level + [room];
        }
      }
      m := new MapRec(level, i);
      live := live + {m};
      MapAt(m, live).mapId := i;
    }

    method MallocMaps()
      requires live == {}
      modifies this`maps, this`live
      ensures Allocated() && fresh(live)
      ensures forall i :: 0 <= i < 6 ==> AllFirst(maps[i].level) && maps[i].mapId == i
    {
      var ms: seq<MapRec> := [];
      for i := 0 to 6
        invariant |ms| == i && fresh(live)
        invariant LiveMaps(ms, live) && live == Owned(ms)
        invariant forall a :: 0 <= a < i ==> AllFirst(ms[a].level) && ms[a].mapId == a
      {
        var m := MallocMap(i);
        OwnedAppend(ms, m);
        ms := ms + [m];
      }
      maps := ms;
    }

    // ----- map_init -----

    method LoadFile()
      requires Loaded() && Plain()
      modifies disp0, disp1
      ensures [disp0[..], disp1[..]] == Load(old([disp0[..], disp1[..]]), file)
      ensures Plain()
    {
      hide TextRead;
      if file.Some? {
        TextReadExactly(file.value);
        var text := TextRead(file.value);
        ghost var was0, was1 := disp0[..], disp1[..];
        ReadInto(disp0, text);
        ReadInto(disp1, if |text| >= 84 then text[84..] else []);
        assert disp0[..] == Fread(was0, text) && disp1[..] == Fread(was1, Rest(was0, text));
      }
    }

    method WireTwo(map0: MapRec, map1: MapRec)
      requires Loaded() && IsLevel(map0.level, 0) && IsLevel(map1.level, 1)
      requires AllFirst(map0.level) && AllFirst(map1.level)
      requires map0 != map1 && map0 in live && map1 in live
      requires RoomsLive(map0.level, live) && RoomsLive(map1.level, live)
      modifies map0, map1, map0.level, map1.level
      ensures Ready(map0, t[0], disp0) && Ready(map1, t[1], disp1)
      ensures VisitedOf(map0.level) == {t[0].start} && MasksOf(map0.level) == t[0].mask
      ensures VisitedOf(map1.level) == {t[1].start} && MasksOf(map1.level) == t[1].mask
    {
      hide VisitedOf, MasksOf, FloorOk;
      assert forall r :: r in map0.level ==> r.at.0 == 0;
      assert forall r :: r in map1.level ==> r.at.0 == 1;
      Wire(map0, t[0], disp0, 0, live);
      Wire(map1, t[1], disp1, 1, live);
    }

    // The first two maps, wired to their floors.
    method WireMaps()
      requires Loaded() && Allocated() && AllFirst(maps[0].level) && AllFirst(maps[1].level)
      requires disp0 as object !in live && disp1 as object !in live && this !in live && user as object !in live
      modifies live
      ensures Ready(maps[0], t[0], disp0) && Ready(maps[1], t[1], disp1)
      ensures SessionNow() == Session([{t[0].start}, {t[1].start}], [t[0].mask, t[1].mask], user.at)
    {
      var map0, map1 := maps[0], maps[1];
      assert LiveMap(map0, 0, live) && LiveMap(map1, 1, live);
      Apart(map0, 0, map1, 1, live);
      assert forall n :: 0 <= n < 36 ==> map0.level[n] in RoomsOf(map0.level);
      assert forall n :: 0 <= n < 36 ==> map1.level[n] in RoomsOf(map1.level);
      WireTwo(map0, map1);
    }

    /** Starting a session: every record is allocated anew, the explored display
        is read back, and only the start rooms count as visited. */
    method MapInit()
      requires Valid() && !running
      modifies this`maps, this`live, this`running, disp0, disp1
      ensures Valid() && running && Abs() == InitAt(t, old(Abs()), user.at)
      ensures fresh(live)
    {
      hide VisitedOf, MasksOf, Load, Ready, LiveMaps, Owned, DrawingBytes;
      ghost var was := Abs();
      MallocMaps();
      assert fresh(live) && Plain();
      LoadFile();
      running := true;
      WireMaps();
      assert Abs().disp == Load(was.disp, file);
    }

    /** A running session keeps exactly 222 records alive. */
    lemma HeapCount()
      requires Valid() && running
      ensures |live| == 222
    {
      OwnedCount(maps, live);
    }

    // ----- map_clean -----

    /** Opening the save file empties it; then the displays are written, of which
        this many bytes have reached it. */
    method Save(reached: nat)
      requires Loaded() && reached <= SAVE_SIZE
      modifies this`file
      ensures file == Some((disp0[..] + disp1[..])[..reached])
    {
      file := Some([]);
      file := Some((disp0[..] + disp1[..])[..reached]);
    }

    method Free(o: object)
      requires o in live
      modifies this`live, this`freed
      ensures live == old(live) - {o} && freed == old(freed) + [o]
    {
      live := live - {o};
      freed := freed + [o];
    }

    /** The rooms of a map, then the map itself, which is still allocated while
        its rooms are looked up. */
    method FreeMap(m: MapRec, ghost i: int)
      requires LiveMap(m, i, live)
      modifies this`live, this`freed
      ensures live == old(live) - RoomsOf(m.level) - {m}
      ensures freed == old(freed) + FreeMapOrder(m)
    {
      for j := 0 to 6
        invariant m in live && live == old(live) - RoomsOf(m.level[..6 * j])
        invariant freed == old(freed) + m.level[..6 * j]
      {
        for k := 0 to 6
          invariant m in live && live == old(live) - RoomsOf(m.level[..6 * j + k])
          invariant freed == old(freed) + m.level[..6 * j + k]
        {
          ghost var n := 6 * j + k;
          assert m.level[..n + 1] == m.level[..n] + [m.level[n]];
          LevelAppend(m.level[..n], m.level[n], i);
          assert m.level[n] in RoomsOf(m.level);
          assert m.level[n] !in RoomsOf(m.level[..n]);
          Free(MapAt(m, live).level[6 * j + k]);
        }
      }
      assert m.level[..36] == m.level;
      Free(m);
    }

    method FreeMaps()
      requires Allocated()
      modifies this`live, this`freed
      ensures live == {} && freed == old(freed) + FreeOrder(maps)
    {
      hide Owned, FreeOrder, FreeMapOrder, LiveMap;
      ghost var all := live;
      NoneFreed(maps);
      for i := 0 to 6
        invariant live == Owned(maps) - Owned(maps[..i])
        invariant freed == old(freed) + FreeOrder(maps[..i])
      {
        FreeStep(maps, i, all);
        FreeOrderStep(maps, i);
        FreeMap(maps[i], i);
      }
      assert maps[..6] == maps;
    }

    /** Ending a session: both displays are saved, and every record is freed. */
    method MapClean()
      requires Valid() && running
      modifies this`live, this`freed, this`running, this`file
      ensures Valid() && !running && Abs() == Clean(old(Abs()))
      ensures live == {} && freed == old(freed) + FreeOrder(maps)
    {
      Save(SAVE_SIZE);
      assert (disp0[..] + disp1[..])[..SAVE_SIZE] == disp0[..] + disp1[..];
      FreeMaps();
      running := false;
    }

    /** What MapClean frees: all that was live, each record once. */
    lemma FreesAll()
      requires Valid() && running
      ensures NoRepeats(FreeOrder(maps)) && |FreeOrder(maps)| == 222
      ensures forall o :: o in FreeOrder(maps) <==> o in live
    {
      FreedOnce(maps, live);
    }

    // ----- chk_dispMap, show_current_map -----

    method ChkDispMap()
      requires Valid() && running && (user.at.mapId == 0 || user.at.mapId == 1)
      modifies disp0, disp1
      ensures Valid() && Abs() == Show(t, old(Abs()))
    {
      assert LiveMap(maps[0], 0, live) && LiveMap(maps[1], 1, live);
      ghost var was := Abs();
      var m := maps[user.at.mapId];
      assert forall n :: 0 <= n < 36 ==> m.level[n] in RoomsOf(m.level);
      RevealPlain(t[user.at.mapId].level, m.levelDisp[..], VisitedOf(m.level));
      CopyVisited(MapAt(m, live).levelDisp, t[user.at.mapId].level, MapAt(m, live).drawing, MapAt(m, live).level, live);
      assert Abs().disp == Show(t, was).disp;
    }

    method PrintCurrent()
      requires Valid() && running && (user.at.mapId == 0 || user.at.mapId == 1) && InGrid(Here(user.at))
      modifies screen, screen.cells
      ensures Valid() && Abs() == old(Abs())
      ensures MapDrawn(t, Abs(), old(screen.Picture()), screen.Picture(), old(screen.colour))
      ensures screen.colour == CC_WHITE
    {
      assert LiveMap(maps[0], 0, live) && LiveMap(maps[1], 1, live);
      var m := maps[user.at.mapId];
      assert FloorOk(t[user.at.mapId]);
      PrintMap(screen, MapAt(m, live).mapName, MapAt(m, live).levelDisp, user.at);
    }

    /** The map as it has been explored, brought up to date and put on the screen. */
    method ShowCurrentMap()
      requires Valid() && running && (user.at.mapId == 0 || user.at.mapId == 1) && InGrid(Here(user.at))
      modifies disp0, disp1, screen, screen.cells
      ensures Valid() && Abs() == Show(t, old(Abs()))
      ensures MapDrawn(t, Abs(), old(screen.Picture()), screen.Picture(), old(screen.colour))
      ensures screen.colour == CC_WHITE
    {
      hide MapDrawn, Show, Plain, Owned, VisitedOf, MasksOf;
      ChkDispMap();
      PrintCurrent();
    }

    // ----- d_movePos -----

    // The move itself, on the records of the player's floor.
    method MoveHere(mode: Mode)
      requires Allocated() && Steady(SessionNow())
      modifies user, maps[user.at.mapId].level
      ensures SessionNow() == Move(old(SessionNow()), mode)
    {
      hide VisitedOf, MasksOf, Spent, Chosen, Owned;
      assert LiveMap(maps[0], 0, live) && LiveMap(maps[1], 1, live);
      Apart(maps[0], 0, maps[1], 1, live);
      var m := maps[user.at.mapId];
      assert forall n :: 0 <= n < 36 ==> m.level[n] in RoomsOf(m.level);
      MoveRooms(MapAt(m, live).level, user, mode, user.at.mapId, live);
    }

    method MoveOnly(mode: Mode)
      requires Valid() && running && Steady(SessionNow())
      modifies user, maps[user.at.mapId].level
      ensures Valid() && Abs() == old(Abs()).(session := Some(Move(old(SessionNow()), mode)))
    {
      MoveHere(mode);
    }

    /** The animation after a move, which ends by displaying the map. */
    method MoveAnim()
      requires Valid() && running && (user.at.mapId == 0 || user.at.mapId == 1) && InGrid(Here(user.at))
      modifies disp0, disp1, screen, screen.cells
      ensures Valid() && Abs() == Show(t, old(Abs()))
      ensures MapDrawn(t, Abs(), old(screen.Picture()), screen.Picture(), old(screen.colour))
      ensures screen.colour == CC_WHITE
    {
      hide MapDrawn, Show, Plain, Owned, VisitedOf, MasksOf;
      ShowCurrentMap();
    }

    /** A move, and its animation. */
    method MovePos(mode: Mode)
      requires Valid() && running && Steady(SessionNow())
      modifies user, maps[user.at.mapId].level, disp0, disp1, screen, screen.cells
      ensures Valid() && Abs() == MoveShown(t, old(Abs()), mode)
      ensures Moves(old(SessionNow()), mode, SessionNow())
      ensures MapDrawn(t, Abs(), old(screen.Picture()), screen.Picture(), old(screen.colour))
      ensures screen.colour == CC_WHITE
    {
      hide MapDrawn, Show, Move, Moves, Plain, Owned, VisitedOf, MasksOf;
      MoveInGrid(SessionNow(), mode);
      MoveObeys(SessionNow(), mode);
      MoveOnly(mode);
      MoveAnim();
    }

    // ----- Events -----

    /** Entering the dungeon: the player's record is saved at the start of the
        lower floor and loaded again, and a session begins. */
    method EnterDungeon()
      requires Valid() && !running
      modifies this`maps, this`live, this`running, disp0, disp1, user
      ensures Valid() && Abs() == Init(t, old(Abs()))
    {
      user.at := User(0, 1, 1);
      MapInit();
    }

    // Up or down, into the room of the other floor with the same row and column.
    method ChangeFloor(go: bool)
      requires Valid() && running && Steady(SessionNow())
      modifies user
      ensures Valid() && Abs() == old(Abs()).(session := Some(Climb(old(SessionNow()), go)))
      ensures !go ==> user.at == old(user.at)
    {
      hide VisitedOf, MasksOf, Plain, Owned, DrawingBytes;
      assert LiveMap(maps[0], 0, live) && LiveMap(maps[1], 1, live);
      if go {
        var room := MapAt(maps[user.at.mapId], live).level[6 * user.at.y + user.at.x];
        assert room in RoomsOf(maps[user.at.mapId].level);
        if RoomAt(room, live).mask == STAIR_UP {
          user.at := user.at.(mapId := user.at.mapId + 1);
        } else {
          user.at := user.at.(mapId := user.at.mapId - 1);
        }
      }
    }

    /** On a stair: the floor is changed if the player says so, and the player
        steps off the stair in the first open direction. */
    method TakeStair(go: bool)
      requires Valid() && running && Steady(SessionNow()) && Steady(Climb(SessionNow(), go))
      modifies user, live, disp0, disp1, screen, screen.cells
      ensures Valid() && Abs() == MoveShown(t, old(Abs()).(session := Some(Climb(old(SessionNow()), go))), MoveAuto)
      ensures MapDrawn(t, Abs(), old(screen.Picture()), screen.Picture(), old(screen.colour))
      ensures screen.colour == CC_WHITE
    {
      ChangeFloor(go);
      assert LiveMap(maps[user.at.mapId], user.at.mapId, live);
      MovePos(MoveAuto);
    }

    /** An event inside a session, which leaves the map on the screen. */
    method PerformInside(e: Event)
      requires Valid() && WorldOk(t, Abs()) && Enabled(t, Abs(), e) && !Boundary(e)
      modifies disp0, disp1, user, live, screen, screen.cells
      ensures Valid() && Abs() == Step(t, old(Abs()), e)
      ensures MapDrawn(t, Abs(), old(screen.Picture()), screen.Picture(), old(screen.colour))
      ensures screen.colour == CC_WHITE
    {
      hide MapDrawn, SessionOk, Show, Move, Climb, Plain, Owned, VisitedOf, MasksOf;
      StandsInside(t, SessionNow());
      match e {
        case Walk(mode) => MovePos(mode);
        case Stair(go) =>
          ClimbOk(t, SessionNow(), go);
          StandsInside(t, Climb(SessionNow(), go));
          TakeStair(go);
        case Look => ShowCurrentMap();
      }
    }

    /** Any event of a living process, as the program carries it out. */
    method Perform(e: Event)
      requires Valid() && WorldOk(t, Abs()) && Enabled(t, Abs(), e) && !Death(e)
      modifies this`maps, this`live, this`freed, this`running, this`file, disp0, disp1, user, live, screen, screen.cells
      ensures Valid() && Abs() == Step(t, old(Abs()), e) && WorldOk(t, Abs())
      ensures if Boundary(e) then screen.Picture() == old(screen.Picture())
              else MapDrawn(t, Abs(), old(screen.Picture()), screen.Picture(), old(screen.colour))
      ensures Boundary(e) || screen.colour == CC_WHITE
    {
      hide MapDrawn, SessionOk, Show, MoveShown, Climb, Plain, Owned, VisitedOf, MasksOf, Load;
      if e == Enter {
        EnterDungeon();
      } else if e == Quit {
        MapClean();
      } else {
        PerformInside(e);
      }
    }

    /** The process dies, perhaps inside a save, and the next one starts. */
    method Restart(e: Event) returns (next: Dungeon)
      requires Valid() && WorldOk(t, Abs()) && Enabled(t, Abs(), e) && Death(e)
      modifies this`file
      ensures fresh(next) && next.t == t
      ensures next.Valid() && next.Abs() == Step(t, old(Abs()), e)
    {
      hide SessionOk, Owned, Templates;
      if e.CrashInSave? {
        Save(e.written);
      }
      next := new Dungeon(t, file);
    }

    /** One more event of a run: the run goes on from state to state, and after an
        event inside a session the map on the screen is what the journal says. */
    method PerformInRun(e: Event, ghost es: seq<Event>, ghost ws: seq<World>)
      requires Valid() && IsRun(t, es, ws) && ws[|es|] == Abs()
      requires WorldOk(t, Abs()) && Enabled(t, Abs(), e) && !Death(e)
      modifies this`maps, this`live, this`freed, this`running, this`file, disp0, disp1, user, live, screen, screen.cells
      ensures Valid() && IsRun(t, es + [e], ws + [Abs()])
      ensures running ==> forall m, p :: 0 <= m < 2 && InGrid(p) ==>
                MaskTells(t, JournalOf(es + [e], ws + [Abs()]), SessionNow(), m, p)
      ensures !Boundary(e) ==>
                && 0 <= user.at.mapId < 2
                && forall r, c :: 0 <= r < HEIGHT_SIZE && 0 <= c < WIDTH_SIZE ==>
                     screen.cells[r, c] ==
                     TellsCell(t, JournalOf(es + [e], ws + [Abs()]), user.at,
                               old(screen.colour), old(screen.cells[r, c]), r, c)
    {
      hide MapCell, SessionOk, Plain, Owned, VisitedOf, MasksOf, TellsCell, MaskTells, IsRun, Step, Enabled;
      ghost var before, colour := screen.Picture(), screen.colour;
      Perform(e);
      RunExtends(t, es, ws, e, Abs());
      ghost var later := ws + [Abs()];
      assert later[|es + [e]|] == Abs();
      MasksOfRun(t, es + [e], later);
      if !Boundary(e) {
        ScreenIsJournal(t, es + [e], later, before, screen.Picture(), colour);
      }
    }
  }
}
