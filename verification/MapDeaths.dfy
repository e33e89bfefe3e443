/**
 What dying costs: a process that ends between saves, or inside one, after the
 file has been emptied and before all of it has been written.
 */
module MapDeaths {
  import opened Wrappers

  import opened MapTables
  import opened SaveFile
  import opened MapWorld
  import opened MapHistory
  import opened MapRuns
  import opened MapClaims

  // ----- Whole and torn glyphs -----

  /** Two NULs after each row, the start room drawn, and every other byte blank
      or the floor's own. */
  ghost predicate Fragment(f: Floor, d: Bytes)
    requires FloorOk(f)
  {
    && |d| == 84
    && (forall k :: 0 <= k < 84 ==> d[k] == Encode(f.level)[k] || (IsRoomByte(k) && d[k] == SPACE))
    && (forall i :: 0 <= i < 6 ==> d[14 * i + 12] == 0 && d[14 * i + 13] == 0)
    && d[ByteOf(f.start)] != SPACE && d[ByteOf(f.start) + 1] != SPACE
  }

  ghost predicate RoomWhole(f: Floor, d: Bytes, p: Pos)
    requires FloorOk(f) && |d| == 84 && InGrid(p)
  {
    var k := ByteOf(p);
    && (|| (d[k] == SPACE && d[k + 1] == SPACE)
        || (d[k] == GlyphByte(At(f.level, p), false) && d[k + 1] == GlyphByte(At(f.level, p), true)))
    && (At(f.mask, p) == BLOCKED ==> d[k] == SPACE && d[k + 1] == SPACE)
  }

  /** A drawing without torn glyphs: each room blank or whole, and walls blank. */
  ghost predicate Whole(f: Floor, d: Bytes)
    requires FloorOk(f)
  {
    |d| == 84 && forall p :: InGrid(p) ==> RoomWhole(f, d, p)
  }

  /** The bytes of a room come together. */
  ghost predicate Paired(bytes: set<int>) {
    forall p :: InGrid(p) ==> (ByteOf(p) in bytes <==> ByteOf(p) + 1 in bytes)
  }

  lemma HintsPaired(f: Floor)
    requires FloorOk(f)
    ensures Paired(Hints(f))
  {
    forall p | InGrid(p) ensures ByteOf(p) in Hints(f) <==> ByteOf(p) + 1 in Hints(f) {
      ByteOfCell(p);
    }
  }

  lemma StartDrawn(f: Floor)
    requires FloorOk(f)
    ensures var k := ByteOf(f.start); 0 <= k < 83 && Encode(f.level)[k] != SPACE && Encode(f.level)[k + 1] != SPACE
  {
    ByteOfCell(f.start);
    assert RoomOk(f, f.start);
  }

  lemma PadsAreNul(g: Grid<Glyph>, bytes: set<int>)
    requires IsGrid(g)
    ensures forall i :: 0 <= i < 6 ==> Image(g, bytes)[14 * i + 12] == 0 && Image(g, bytes)[14 * i + 13] == 0
  {
    forall i | 0 <= i < 6 ensures !IsRoomByte(14 * i + 12) && !IsRoomByte(14 * i + 13) {
    }
  }

  lemma ImageFragment(f: Floor, bytes: set<int>)
    requires FloorOk(f) && Hints(f) <= bytes
    ensures Fragment(f, Image(f.level, bytes))
  {
    hide RoomOk, Hints, ByteOf, CellOf;
    FirstIsImage(f);
    StartDrawn(f);
    PadsAreNul(f.level, bytes);
    ByteOfCell(f.start);
  }

  lemma RoomWholeExactly(f: Floor, bytes: set<int>, p: Pos)
    requires FloorOk(f) && bytes <= Drawn(f.level) && InGrid(p)
    ensures RoomWhole(f, Image(f.level, bytes), p) <==> (ByteOf(p) in bytes <==> ByteOf(p) + 1 in bytes)
  {
    hide ByteOf, CellOf, IsRoomByte;
    ByteOfCell(p);
    assert RoomOk(f, p);
  }

  lemma ImageWholeExactly(f: Floor, bytes: set<int>)
    requires FloorOk(f) && bytes <= Drawn(f.level)
    ensures Whole(f, Image(f.level, bytes)) <==> Paired(bytes)
  {
    hide RoomWhole, Image, RoomOk, Drawn;
    forall p | InGrid(p)
      ensures RoomWhole(f, Image(f.level, bytes), p) <==> (ByteOf(p) in bytes <==> ByteOf(p) + 1 in bytes)
    {
      RoomWholeExactly(f, bytes, p);
    }
  }

  predicate EvenCuts(es: seq<Event>) {
    forall i :: 0 <= i < |es| ==> (es[i].CrashInSave? ==> es[i].written % 2 == 0)
  }

  lemma EvenPair(h: Journal, m: int, k: int, j: int)
    requires CellOf(k) == CellOf(j) && Known(h, m, k)
    requires forall i :: 0 <= i < |h| ==>
      (Spares(h[i].event, Offset(m, k)) ==> Spares(h[i].event, Offset(m, j)))
    ensures Known(h, m, j)
  {
    var v, s :| Seen(h, m, k, v, s) && KnownSince(h, s, Offset(m, k));
    assert Seen(h, m, j, v, s) && KnownSince(h, s, Offset(m, j));
  }

  lemma EvenSpares(e: Event, m: int, k: int)
    requires k % 2 == 0 && (e.CrashInSave? ==> e.written % 2 == 0)
    ensures Spares(e, Offset(m, k)) <==> Spares(e, Offset(m, k + 1))
  {
  }

  lemma EvenCutsPairRoom(es: seq<Event>, ws: seq<World>, m: int, p: Pos)
    requires |ws| == |es| + 1 && EvenCuts(es) && InGrid(p)
    ensures Known(JournalOf(es, ws), m, ByteOf(p)) <==> Known(JournalOf(es, ws), m, ByteOf(p) + 1)
  {
    hide Known, CellOf, Offset, ByteOf, Spares;
    ByteOfCell(p);
    var h, k := JournalOf(es, ws), ByteOf(p);
    forall i | 0 <= i < |h| ensures Spares(h[i].event, Offset(m, k)) <==> Spares(h[i].event, Offset(m, k + 1)) {
      EvenSpares(es[i], m, k);
    }
    if Known(h, m, k) {
      EvenPair(h, m, k, k + 1);
    }
    if Known(h, m, k + 1) {
      EvenPair(h, m, k + 1, k);
    }
  }

  lemma EvenCutsPair(es: seq<Event>, ws: seq<World>, m: int)
    requires |ws| == |es| + 1 && EvenCuts(es)
    ensures Paired(KnownBytes(JournalOf(es, ws), m))
  {
    hide Known, EvenCuts, JournalOf, ByteOf;
    forall p | InGrid(p)
      ensures ByteOf(p) in KnownBytes(JournalOf(es, ws), m) <==> ByteOf(p) + 1 in KnownBytes(JournalOf(es, ws), m)
    {
      ByteOfCell(p);
      EvenCutsPairRoom(es, ws, m, p);
    }
  }

  /** In every reachable state, in or between sessions, a display is made of the
      floor's own bytes; and no glyph in it is torn, if every process that died
      while saving had written an even number of bytes. */
  lemma GlyphIntegrity(t: seq<Floor>, es: seq<Event>, ws: seq<World>, n: nat, m: int)
    requires TowerOk(t) && IsRun(t, es, ws) && n <= |es| && 0 <= m < 2
    ensures |ws[n].disp| == 2 && Fragment(t[m], ws[n].disp[m])
    ensures EvenCuts(es[..n]) ==> Whole(t[m], ws[n].disp[m])
  {
    hide CanStep, Fragment, Whole, Image, KnownBytes, Hints, Drawn, FloorOk;
    RunPrefix(t, es, ws, n);
    var bytes := DisplayDraws(t, es[..n], ws[..n + 1], m);
    ImageFragment(t[m], bytes);
    ImageWholeExactly(t[m], bytes);
    HintsPaired(t[m]);
    if EvenCuts(es[..n]) {
      EvenCutsPair(es[..n], ws[..n + 1], m);
    }
  }

  /** While a session runs, no glyph is torn exactly when the explored bytes of
      each room come together. */
  lemma WholeExactly(t: seq<Floor>, es: seq<Event>, ws: seq<World>, m: int)
    requires TowerOk(t) && IsRun(t, es, ws) && ws[|es|].session.Some? && 0 <= m < 2
    ensures |ws[|es|].disp| == 2
    ensures Whole(t[m], ws[|es|].disp[m]) <==> Paired(Hints(t[m]) + KnownBytes(JournalOf(es, ws), m))
  {
    hide CanStep, Whole, Image, KnownBytes, Hints, Drawn;
    DisplayIsImage(t, es, ws, m);
    KnownIsDrawn(t, es, ws, m);
    ImageWholeExactly(t[m], Hints(t[m]) + KnownBytes(JournalOf(es, ws), m));
  }

  // ----- What a death costs -----

  // A session runs before it is closed, and after the dungeon is entered.
  lemma SessionRuns(t: seq<Floor>, es: seq<Event>, ws: seq<World>, n: nat)
    requires TowerOk(t) && IsRun(t, es, ws) && n < |es|
    ensures es[n] == Quit || es[n].CrashInSave? ==> ws[n].session.Some?
    ensures es[n] == Enter ==> ws[n + 1].session.Some?
  {
    hide SessionOk;
    assert CanStep(t, ws[n], es[n], ws[n + 1]);
  }

  /** Across a clean shutdown nothing on display is lost to whatever follows,
      except to a process that dies while saving: a byte that was no hint, and
      whose room is not entered again, is on display in a later session exactly
      if every such process got beyond it. */
  lemma NothingLost(t: seq<Floor>, es: seq<Event>, ws: seq<World>, n: nat, m: int, k: int)
    requires TowerOk(t) && IsRun(t, es, ws) && n < |es| && es[n] == Quit
    requires ws[|es|].session.Some? && 0 <= m < 2
    requires |ws[n].disp| == 2 && |ws[n].disp[m]| == 84 && k in Shown(ws[n].disp[m])
    ensures |ws[|es|].disp| == 2 && |ws[|es|].disp[m]| == 84
    ensures var later := JournalOf(es, ws)[n + 1..];
            && (Spared(later, Offset(m, k)) ==> k in Shown(ws[|es|].disp[m]))
            && (k !in Hints(t[m]) && Unvisited(later, m, CellOf(k)) ==>
                  (k in Shown(ws[|es|].disp[m]) <==> Spared(later, Offset(m, k))))
  {
    hide CanStep, Known, Spared, Unvisited, Hints, Shown;
    SessionRuns(t, es, ws, n);
    var h := JournalOf(es, ws);
    RunPrefix(t, es, ws, n);
    DisplayedExactly(t, es, ws, m);
    DisplayedExactly(t, es[..n], ws[..n + 1], m);
    if k !in Hints(t[m]) {
      QuitThenCrash(h[..n], h[n], h[n + 1..], m, k);
      assert h == h[..n] + [h[n]] + h[n + 1..];
    }
  }

  lemma AfterDeath(h: Journal, n: nat, m: int)
    requires |h| == n + 2 && Death(h[n].event) && h[n + 1].event == Enter
    ensures h[n].event == Crash ==> KnownBytes(h, m) == KeptBytes(h[..n], m)
    ensures h[n].event.CrashInSave? ==>
              KnownBytes(h, m) == set k | k in KnownBytes(h[..n], m) && Offset(m, k) < h[n].event.written
  {
    hide Known, Kept;
    var h0, h1 := h[..n], h[..n + 1];
    assert h1 == h0 + [h[n]] && h == h1 + [h[n + 1]];
    forall k ensures Known(h, m, k) <==>
      Spares(h[n].event, Offset(m, k)) && if h[n].event.Crash? then Kept(h0, m, k) else Known(h0, m, k)
    {
      KnownExtends(h0, h[n], m, k);
      KnownExtends(h1, h[n + 1], m, k);
    }
  }

  /** A crash costs exactly what was explored since the last save: the session
      after it shows the bytes that had been kept. */
  lemma CrashCosts(t: seq<Floor>, es: seq<Event>, ws: seq<World>, n: nat, m: int)
    requires TowerOk(t) && IsRun(t, es, ws) && |es| == n + 2 && es[n] == Crash && es[n + 1] == Enter
    requires 0 <= m < 2
    ensures |ws[|es|].disp| == 2 && |ws[|es|].disp[m]| == 84
    ensures Shown(ws[|es|].disp[m]) == Hints(t[m]) + KeptBytes(JournalOf(es, ws)[..n], m)
  {
    hide CanStep, Known, Kept, Hints, Shown;
    SessionRuns(t, es, ws, n + 1);
    DisplayedExactly(t, es, ws, m);
    AfterDeath(JournalOf(es, ws), n, m);
  }

  /** A death inside the save costs exactly what had not been written: of all
      that was on display, hints apart, the next session shows the bytes that
      the save had got beyond. */
  lemma CutCosts(t: seq<Floor>, es: seq<Event>, ws: seq<World>, n: nat, m: int)
    requires TowerOk(t) && IsRun(t, es, ws) && |es| == n + 2 && es[n].CrashInSave? && es[n + 1] == Enter
    requires 0 <= m < 2
    ensures |ws[n].disp| == 2 && |ws[n].disp[m]| == 84 && |ws[|es|].disp| == 2 && |ws[|es|].disp[m]| == 84
    ensures Shown(ws[|es|].disp[m]) ==
            Hints(t[m]) + set k | k in Shown(ws[n].disp[m]) && Offset(m, k) < es[n].written
  {
    hide CanStep, Known, Kept, Hints, Shown;
    SessionRuns(t, es, ws, n);
    SessionRuns(t, es, ws, n + 1);
    RunPrefix(t, es, ws, n);
    DisplayedExactly(t, es, ws, m);
    DisplayedExactly(t, es[..n], ws[..n + 1], m);
    AfterDeath(JournalOf(es, ws), n, m);
  }

  /** A process that dies as soon as it has opened the save file, before any
      byte reaches it, takes all that was ever explored with it. */
  lemma EmptiedSave(t: seq<Floor>, es: seq<Event>, ws: seq<World>, n: nat)
    requires TowerOk(t) && IsRun(t, es, ws) && |es| == n + 2 && es[n] == CrashInSave(0) && es[n + 1] == Enter
    ensures ws[|es|].disp == Templates(t)
  {
    assert CanStep(t, ws[n], es[n], ws[n + 1]);
    assert CanStep(t, ws[n + 1], es[n + 1], ws[n + 2]);
    assert ws[n + 1].file == Some([]);
    assert forall d: Bytes :: Fread(d, []) == d;
  }

  lemma WholeShown(t: seq<Floor>, es: seq<Event>, ws: seq<World>, m: int)
    requires TowerOk(t) && IsRun(t, es, ws) && ws[|es|].session.Some? && 0 <= m < 2
    ensures |ws[|es|].disp| == 2 && |ws[|es|].disp[m]| == 84
    ensures Hints(t[m]) <= Shown(ws[|es|].disp[m]) <= Drawn(t[m].level)
    ensures Whole(t[m], ws[|es|].disp[m]) <==> Paired(Shown(ws[|es|].disp[m]))
  {
    hide CanStep, Whole, Paired, KnownBytes, Hints, Drawn, Shown;
    DisplayedExactly(t, es, ws, m);
    KnownIsDrawn(t, es, ws, m);
    WholeExactly(t, es, ws, m);
  }

  lemma CutPaired(f: Floor, shown: set<int>, m: int, written: int, after: set<int>)
    requires FloorOk(f) && Hints(f) <= shown <= Drawn(f.level) && Paired(shown)
    requires after == Hints(f) + set k | k in shown && Offset(m, k) < written
    ensures var k := written - 1 - 84 * m;
            Paired(after) <==> !(k % 2 == 0 && k in shown && k !in Hints(f))
  {
    var k := written - 1 - 84 * m;
    HintsPaired(f);
    forall p | InGrid(p)
      ensures (ByteOf(p) in after <==> ByteOf(p) + 1 in after) <==> !(ByteOf(p) == k && k in shown && k !in Hints(f))
    {
    }
    if k % 2 == 0 && k in shown {
      CellsAndBytes(k);
    }
    forall p | InGrid(p) ensures ByteOf(p) % 2 == 0 {
      ByteOfCell(p);
    }
  }

  /** When a death inside the save tears a glyph: exactly when its last byte
      written is the first of a room that was on display and is no hint. */
  lemma TornExactly(t: seq<Floor>, es: seq<Event>, ws: seq<World>, n: nat, m: int)
    requires TowerOk(t) && IsRun(t, es, ws) && |es| == n + 2 && es[n].CrashInSave? && es[n + 1] == Enter
    requires 0 <= m < 2 && |ws[n].disp| == 2 && Whole(t[m], ws[n].disp[m])
    ensures |ws[|es|].disp| == 2
    ensures Whole(t[m], ws[|es|].disp[m]) <==>
            var k := es[n].written - 1 - 84 * m;
            !(k % 2 == 0 && k in Shown(ws[n].disp[m]) && k !in Hints(t[m]))
  {
    hide CanStep, Hints, Drawn, Shown, Whole, Paired;
    SessionRuns(t, es, ws, n);
    SessionRuns(t, es, ws, n + 1);
    RunPrefix(t, es, ws, n);
    WholeShown(t, es[..n], ws[..n + 1], m);
    CutCosts(t, es, ws, n, m);
    WholeShown(t, es, ws, m);
    CutPaired(t[m], Shown(ws[n].disp[m]), m, es[n].written, Shown(ws[|es|].disp[m]));
  }

  // ----- Such a death in the game itself -----

  lemma FirstSteps() returns (w1: World, w2: World)
    ensures TowerOk(GameTower())
    ensures var t := GameTower();
            CanStep(t, Installed(t), Enter, w1) && CanStep(t, w1, Walk(MoveDown), w2)
    ensures Where(w1) == Some(Place(0, Pos(1, 1))) && Where(w2) == Some(Place(0, Pos(2, 1)))
  {
    GameTowerOk();
    var t := GameTower();
    w1 := Init(t, Installed(t));
    assert CanStep(t, Installed(t), Enter, w1);
    w2 := Step(t, w1, Walk(MoveDown));
  }

  lemma LaterSteps(t: seq<Floor>, w3: World, w4: World, w5: World, w6: World, written: nat)
    requires TowerOk(t) && Shaped(w3) && w3.session.None? && written <= SAVE_SIZE
    requires w4 == Init(t, w3) && w5 == Cut(t, w4, written) && w6 == Init(t, w5)
    ensures CanStep(t, w3, Enter, w4) && CanStep(t, w4, CrashInSave(written), w5) && CanStep(t, w5, Enter, w6)
    ensures Where(w5) == None && Where(w4) == Where(w6) == Some(Place(0, Pos(1, 1)))
  {
    hide SessionOk, Load;
    InitOk(t, w3);
    InitOk(t, w5);
  }

  // A session of the game's tower that walks down once and is closed, and one
  // that dies in the save after it.
  lemma TwoSessions(written: nat) returns (ws: seq<World>)
    requires written <= SAVE_SIZE
    ensures TowerOk(GameTower())
    ensures IsRun(GameTower(), [Enter, Walk(MoveDown), Quit, Enter, CrashInSave(written), Enter], ws)
    ensures Where(ws[2]) == Some(Place(0, Pos(2, 1))) && Where(ws[3]) == Where(ws[5]) == None
    ensures Where(ws[4]) == Where(ws[6]) == Some(Place(0, Pos(1, 1)))
  {
    hide SessionOk, Move, Load;
    var t := GameTower();
    var w1, w2 := FirstSteps();
    var w3 := Clean(w2);
    var w4 := Init(t, w3);
    var w5 := Cut(t, w4, written);
    var w6 := Init(t, w5);
    assert CanStep(t, w2, Quit, w3);
    LaterSteps(t, w3, w4, w5, w6, written);
    ws := [Installed(t), w1, w2, w3, w4, w5, w6];
    hide CanStep;
  }

  /** The room that is walked to in that run, by its bytes. */
  predicate WalkedTo(k: int) {
    k == ByteOf(Pos(2, 1)) || k == ByteOf(Pos(2, 1)) + 1
  }

  ghost predicate GameRun(es: seq<Event>, ws: seq<World>, written: nat) {
    && TowerOk(GameTower()) && written <= SAVE_SIZE
    && es == [Enter, Walk(MoveDown), Quit, Enter, CrashInSave(written), Enter]
    && IsRun(GameTower(), es, ws)
    && Where(ws[2]) == Some(Place(0, Pos(2, 1))) && Where(ws[3]) == Where(ws[5]) == None
    && Where(ws[4]) == Where(ws[6]) == Some(Place(0, Pos(1, 1)))
  }

  // A room entered by the last event is known.
  lemma SeenAtOnce(h: Journal, m: int, k: int)
    requires h != [] && h[|h| - 1].at == Some(Place(m, CellOf(k))) && !Boundary(h[|h| - 1].event)
    ensures Known(h, m, k)
  {
    var s := |h| - 1;
    assert Seen(h, m, k, s, s) && KnownSince(h, s, Offset(m, k));
  }

  lemma FirstRoomOnly(k: int)
    requires WalkedTo(k)
    ensures FloorOk(Lower()) && k !in Hints(Lower())
    ensures 0 <= k < 84 && IsRoomByte(k) && CellOf(k) == Pos(2, 1)
  {
    LowerOk();
  }

  lemma ShownFirst(es: seq<Event>, ws: seq<World>, written: nat, k: int)
    requires GameRun(es, ws, written) && WalkedTo(k)
    ensures |ws[2].disp| == 2 && |ws[2].disp[0]| == 84
    ensures k in Shown(ws[2].disp[0]) && k !in Hints(Lower())
  {
    hide CanStep, Shown, TowerOk, Hints, Known, GameTower;
    RunPrefix(GameTower(), es, ws, 2);
    assert JournalOf(es[..2], ws[..3])[1] == Entry(Walk(MoveDown), Some(Place(0, Pos(2, 1))));
    SeenAtOnce(JournalOf(es[..2], ws[..3]), 0, k);
    FirstRoomOnly(k);
    DisplayedExactly(GameTower(), es[..2], ws[..3], 0);
  }

  lemma LaterEntries(es: seq<Event>, ws: seq<World>, written: nat, k: int)
    requires GameRun(es, ws, written) && WalkedTo(k)
    ensures |ws| == |es| + 1
    ensures var later := JournalOf(es, ws)[3..];
            Unvisited(later, 0, CellOf(k)) && (Spared(later, Offset(0, k)) <==> written > k)
  {
    hide CanStep, TowerOk;
    var later := JournalOf(es, ws)[3..];
    assert later == [Entry(Enter, Where(ws[4])), Entry(CrashInSave(written), None), Entry(Enter, Where(ws[6]))];
    assert Spared(later, Offset(0, k)) <==> Spares(later[1].event, k);
  }

  lemma ShownThereafter(es: seq<Event>, ws: seq<World>, written: nat, k: int)
    requires GameRun(es, ws, written) && WalkedTo(k)
    ensures |ws[6].disp| == 2 && |ws[6].disp[0]| == 84
    ensures k in Shown(ws[6].disp[0]) <==> written > k
  {
    hide CanStep, Shown, TowerOk, Hints, Unvisited, Spared, JournalOf;
    ShownFirst(es, ws, written, k);
    LaterEntries(es, ws, written, k);
    NothingLost(GameTower(), es, ws, 2, 0, k);
  }

  lemma TornThereafter(es: seq<Event>, ws: seq<World>, written: nat)
    requires GameRun(es, ws, written) && written == ByteOf(Pos(2, 1)) + 1
    ensures |ws[6].disp| == 2 && !Whole(Lower(), ws[6].disp[0])
  {
    hide CanStep, Shown, TowerOk, Hints, Whole;
    var t, k := GameTower(), ByteOf(Pos(2, 1));
    ShownFirst(es, ws, written, k);
    GlyphIntegrity(t, es, ws, 4, 0);
    RunPrefix(t, es, ws, 4);
    NothingLost(t, es[..4], ws[..5], 2, 0, k);
    var later := JournalOf(es[..4], ws[..5])[3..];
    assert later == [Entry(Enter, Where(ws[4]))];
    TornExactly(t, es, ws, 4, 0);
  }

  /** A closed session, and what a later death inside the save makes of it: the
      glyph of the room walked to comes back whole, torn or not at all. */
  lemma TornInTheGame(written: nat) returns (es: seq<Event>, ws: seq<World>)
    requires written <= SAVE_SIZE
    ensures TowerOk(GameTower()) && es == [Enter, Walk(MoveDown), Quit, Enter, CrashInSave(written), Enter]
    ensures IsRun(GameTower(), es, ws)
    ensures |ws[2].disp| == |ws[6].disp| == 2 && |ws[2].disp[0]| == |ws[6].disp[0]| == 84
    ensures var k := ByteOf(Pos(2, 1));
            && k in Shown(ws[2].disp[0]) && k + 1 in Shown(ws[2].disp[0])
            && (k in Shown(ws[6].disp[0]) <==> written > k)
            && (k + 1 in Shown(ws[6].disp[0]) <==> written > k + 1)
    ensures written == ByteOf(Pos(2, 1)) + 1 ==> !Whole(Lower(), ws[6].disp[0])
  {
    var t, k := GameTower(), ByteOf(Pos(2, 1));
    es := [Enter, Walk(MoveDown), Quit, Enter, CrashInSave(written), Enter];
    ws := TwoSessions(written);
    hide Shown, Whole, IsRun, TowerOk;
    ShownFirst(es, ws, written, k);
    ShownFirst(es, ws, written, k + 1);
    ShownThereafter(es, ws, written, k);
    ShownThereafter(es, ws, written, k + 1);
    if written == k + 1 {
      TornThereafter(es, ws, written);
    }
  }
}
