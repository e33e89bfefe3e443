/**
 What a player can rely on, drawn from the match between display and journal.
 */
module MapClaims {
  import opened Wrappers

  import opened MapTables
  import opened SaveFile
  import opened MapWorld
  import opened MapHistory
  import opened MapRuns

  // ----- Rooms that can be reached -----

  predicate Adjacent(p: Pos, q: Pos) {
    || (p.row == q.row && (p.col - q.col == 1 || q.col - p.col == 1))
    || (p.col == q.col && (p.row - q.row == 1 || q.row - p.row == 1))
  }

  ghost predicate Path(f: Floor, ps: seq<Pos>)
    requires FloorOk(f)
  {
    && |ps| > 0 && ps[0] == f.start
    && (forall i :: 0 <= i < |ps| ==> Open(f, ps[i]))
    && (forall i :: 0 < i < |ps| ==> Adjacent(ps[i - 1], ps[i]))
  }

  /** A walk through open rooms leads to the room from the floor's start. */
  ghost predicate Reachable(f: Floor, p: Pos)
    requires FloorOk(f)
  {
    exists ps :: Path(f, ps) && ps[|ps| - 1] == p
  }

  lemma StartReachable(f: Floor)
    requires FloorOk(f)
    ensures Reachable(f, f.start)
  {
    assert Path(f, [f.start]);
  }

  lemma NextReachable(f: Floor, p: Pos, q: Pos)
    requires FloorOk(f) && Reachable(f, p) && Open(f, q) && Adjacent(p, q)
    ensures Reachable(f, q)
  {
    var ps :| Path(f, ps) && ps[|ps| - 1] == p;
    var qs := ps + [q];
    assert Path(f, qs) && qs[|qs| - 1] == q;
  }

  ghost predicate AllReachable(t: seq<Floor>, s: Session)
    requires TowerOk(t) && SessionOk(t, s)
  {
    && (forall p :: p in s.visited[0] ==> Reachable(t[0], p))
    && (forall p :: p in s.visited[1] ==> Reachable(t[1], p))
  }

  lemma StepsReachable(t: seq<Floor>, s: Session, after: Session)
    requires TowerOk(t) && SessionOk(t, s) && AllReachable(t, s) && SessionOk(t, after)
    requires after.user.mapId == s.user.mapId && Open(t[s.user.mapId], Here(after.user))
    requires Here(after.user) == Here(s.user) || Adjacent(Here(s.user), Here(after.user))
    requires forall p :: p in after.visited[0] ==> p in s.visited[0] || (after.user.mapId == 0 && p == Here(after.user))
    requires forall p :: p in after.visited[1] ==> p in s.visited[1] || (after.user.mapId == 1 && p == Here(after.user))
    ensures AllReachable(t, after)
  {
    if Here(after.user) != Here(s.user) {
      NextReachable(t[s.user.mapId], Here(s.user), Here(after.user));
    }
  }

  /** A move never jumps: it ends where it began or one room away. */
  lemma MoveIsStep(t: seq<Floor>, s: Session, mode: Mode)
    requires TowerOk(t) && SessionOk(t, s)
    ensures Steady(s)
    ensures var there := Here(Move(s, mode).user);
            && Open(t[s.user.mapId], there)
            && (there == Here(s.user) || Adjacent(Here(s.user), there))
  {
    StandsInside(t, s);
    MoveOk(t, s, mode);
  }

  lemma MoveReachable(t: seq<Floor>, s: Session, mode: Mode)
    requires TowerOk(t) && SessionOk(t, s) && AllReachable(t, s)
    ensures Steady(s) && SessionOk(t, Move(s, mode)) && AllReachable(t, Move(s, mode))
  {
    StandsInside(t, s);
    MoveOk(t, s, mode);
    MoveIsStep(t, s, mode);
    MoveVisits(t, s, mode);
    StepsReachable(t, s, Move(s, mode));
  }

  ghost predicate OnFoot(t: seq<Floor>, w: World)
    requires TowerOk(t)
  {
    WorldOk(t, w) && (w.session.Some? ==> AllReachable(t, w.session.value))
  }

  lemma StepReachable(t: seq<Floor>, w: World, e: Event)
    requires TowerOk(t) && OnFoot(t, w) && Enabled(t, w, e)
    ensures OnFoot(t, Step(t, w, e))
  {
    hide Reachable;
    StartReachable(t[0]);
    StartReachable(t[1]);
    match e {
      case Walk(mode) => MoveReachable(t, w.session.value, mode);
      case Stair(go) =>
        ClimbOk(t, w.session.value, go);
        MoveReachable(t, Climb(w.session.value, go), MoveAuto);
      case _ =>
    }
  }

  lemma {:induction false} RunReachable(t: seq<Floor>, es: seq<Event>, ws: seq<World>, n: nat)
    requires TowerOk(t) && IsRun(t, es, ws) && n <= |es|
    ensures OnFoot(t, ws[n])
    decreases n
  {
    hide Reachable, SessionOk, Enabled, Step;
    if n > 0 {
      RunReachable(t, es, ws, n - 1);
      assert CanStep(t, ws[n - 1], es[n - 1], ws[n]);
      StepReachable(t, ws[n - 1], es[n - 1]);
    }
  }

  /** The player stands only in open rooms that a walk from the floor's start
      leads to. */
  lemma StoodReachable(t: seq<Floor>, es: seq<Event>, ws: seq<World>, v: int, m: int, p: Pos)
    requires TowerOk(t) && IsRun(t, es, ws) && Stood(JournalOf(es, ws), v, m, p)
    ensures 0 <= m < 2 && Open(t[m], p) && Reachable(t[m], p)
  {
    RunReachable(t, es, ws, v + 1);
  }

  lemma KnownReachable(t: seq<Floor>, es: seq<Event>, ws: seq<World>, m: int, k: int)
    requires TowerOk(t) && IsRun(t, es, ws) && Known(JournalOf(es, ws), m, k)
    ensures 0 <= m < 2 && Open(t[m], CellOf(k)) && Reachable(t[m], CellOf(k))
  {
    var h := JournalOf(es, ws);
    var v, s :| Seen(h, m, k, v, s) && KnownSince(h, s, Offset(m, k));
    StoodReachable(t, es, ws, v, m, CellOf(k));
  }

  // ----- What is on display -----

  lemma KnownIsDrawn(t: seq<Floor>, es: seq<Event>, ws: seq<World>, m: int)
    requires TowerOk(t) && IsRun(t, es, ws) && 0 <= m < 2
    ensures Hints(t[m]) + KnownBytes(JournalOf(es, ws), m) <= Drawn(t[m].level)
  {
    hide CanStep, Known, Reachable;
    FirstIsImage(t[m]);
    forall k | k in KnownBytes(JournalOf(es, ws), m) ensures k in Drawn(t[m].level) {
      KnownReachable(t, es, ws, m, k);
      assert RoomOk(t[m], CellOf(k));
    }
  }

  lemma DisplayIsImage(t: seq<Floor>, es: seq<Event>, ws: seq<World>, m: int)
    requires TowerOk(t) && IsRun(t, es, ws) && ws[|es|].session.Some? && 0 <= m < 2
    ensures |ws[|es|].disp| == 2 && ws[|es|].disp[m] == KnownImage(t, JournalOf(es, ws), m)
  {
    hide CanStep, FileMatches, FlagsMatch, KnownImage;
    ExploredExactly(t, es, ws);
  }

  /** While a session runs, a byte is on display exactly when it is a hint or
      explored. */
  lemma DisplayedExactly(t: seq<Floor>, es: seq<Event>, ws: seq<World>, m: int)
    requires TowerOk(t) && IsRun(t, es, ws) && ws[|es|].session.Some? && 0 <= m < 2
    ensures |ws[|es|].disp| == 2 && |ws[|es|].disp[m]| == 84
    ensures Shown(ws[|es|].disp[m]) == Hints(t[m]) + KnownBytes(JournalOf(es, ws), m)
  {
    hide CanStep, KnownBytes, Hints, Drawn, Shown, Image;
    KnownIsDrawn(t, es, ws, m);
    DisplayIsImage(t, es, ws, m);
    ShownImage(t[m].level, Hints(t[m]) + KnownBytes(JournalOf(es, ws), m));
  }

  /** No room is drawn that cannot be walked to, hints apart. */
  lemma DisplayedReachable(t: seq<Floor>, es: seq<Event>, ws: seq<World>, m: int, k: int)
    requires TowerOk(t) && IsRun(t, es, ws) && ws[|es|].session.Some? && 0 <= m < 2
    requires |ws[|es|].disp| == 2 && |ws[|es|].disp[m]| == 84
    requires k in Shown(ws[|es|].disp[m]) && k !in Hints(t[m])
    ensures Reachable(t[m], CellOf(k))
  {
    hide CanStep, Shown, Hints, Reachable;
    DisplayedExactly(t, es, ws, m);
    KnownReachable(t, es, ws, m, k);
  }

  /** In or between sessions, a display draws the hints and perhaps what is
      known besides. */
  lemma DisplayDraws(t: seq<Floor>, es: seq<Event>, ws: seq<World>, m: int)
    returns (bytes: set<int>)
    requires TowerOk(t) && IsRun(t, es, ws) && 0 <= m < 2
    ensures |ws[|es|].disp| == 2 && ws[|es|].disp[m] == Image(t[m].level, bytes)
    ensures bytes <= Drawn(t[m].level)
    ensures bytes == Hints(t[m]) || bytes == Hints(t[m]) + KnownBytes(JournalOf(es, ws), m)
  {
    hide CanStep, FileMatches, FlagsMatch, Image, Hints, Drawn, KnownBytes;
    ExploredExactly(t, es, ws);
    KnownIsDrawn(t, es, ws, m);
    FirstIsImage(t[m]);
    bytes := if DisplayMatches(t, JournalOf(es, ws), ws[|es|].disp)
             then Hints(t[m]) + KnownBytes(JournalOf(es, ws), m) else Hints(t[m]);
  }

  // ----- Order of visits and showings -----

  datatype Op = Visit(p: Pos) | Display

  /** Visits and showings of one floor in any order. */
  function Play(g: Grid<Glyph>, d: Bytes, visited: set<Pos>, ops: seq<Op>): (after: Bytes)
    requires IsGrid(g) && |d| == 84
    ensures |after| == 84
    decreases |ops|
  {
    if ops == [] then d
    else
      match ops[0]
      case Visit(p) => Play(g, d, visited + {p}, ops[1..])
      case Display => Play(g, Reveal(g, d, visited), visited, ops[1..])
  }

  function Visits(ops: seq<Op>): set<Pos> {
    if ops == [] then {}
    else (match ops[0] case Visit(p) => {p} case Display => {}) + Visits(ops[1..])
  }

  lemma RevealTwice(g: Grid<Glyph>, d: Bytes, early: set<Pos>, late: set<Pos>)
    requires IsGrid(g) && |d| == 84 && early <= late
    ensures Reveal(g, Reveal(g, d, early), late) == Reveal(g, d, late)
  {
  }

  /** However visits and showings are interleaved, a closing showing leaves the
      display that the visits alone determine. */
  lemma {:induction false} OrderIrrelevant(g: Grid<Glyph>, d: Bytes, visited: set<Pos>, ops: seq<Op>)
    requires IsGrid(g) && |d| == 84
    ensures Play(g, d, visited, ops + [Display]) == Reveal(g, d, visited + Visits(ops))
    decreases |ops|
  {
    var all := ops + [Display];
    if ops == [] {
      assert Play(g, d, visited, all) == Play(g, Reveal(g, d, visited), visited, []);
      assert visited + Visits(ops) == visited;
    } else {
      assert all[1..] == ops[1..] + [Display];
      match ops[0] {
        case Visit(p) =>
          OrderIrrelevant(g, d, visited + {p}, ops[1..]);
          assert visited + {p} + Visits(ops[1..]) == visited + Visits(ops);
        case Display =>
          OrderIrrelevant(g, Reveal(g, d, visited), visited, ops[1..]);
          assert visited + Visits(ops[1..]) == visited + Visits(ops);
          RevealTwice(g, d, visited, visited + Visits(ops));
      }
    }
  }
}
