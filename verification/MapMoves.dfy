/**
 Where the player goes, and what becomes of the events of the rooms, told on the
 tables of the floors by rows and columns: the law of one move, and from it the
 journals that can be played, the player's floor and the masks in every run.
 */
module MapMoves {
  import opened Wrappers

  import opened MapTables
  import opened MapWorld
  import opened MapHistory
  import opened MapRuns

  // ----- One move -----

  /** Where a move leads: one row or column on, unless that room is walled off;
      an automatic move takes the first open one of right, left, below, above. */
  ghost predicate Lands(mask: Grid<int>, from: Pos, mode: Mode, to: Pos)
    requires IsGrid(mask) && Interior(from)
  {
    var r, c := from.row, from.col;
    match mode
    case MoveUp => if mask[r - 1][c] == BLOCKED then to == from else to.row == r - 1 && to.col == c
    case MoveDown => if mask[r + 1][c] == BLOCKED then to == from else to.row == r + 1 && to.col == c
    case MoveLeft => if mask[r][c - 1] == BLOCKED then to == from else to.row == r && to.col == c - 1
    case MoveRight => if mask[r][c + 1] == BLOCKED then to == from else to.row == r && to.col == c + 1
    case MoveAuto =>
      if mask[r][c + 1] != BLOCKED then to.row == r && to.col == c + 1
      else if mask[r][c - 1] != BLOCKED then to.row == r && to.col == c - 1
      else if mask[r + 1][c] != BLOCKED then to.row == r + 1 && to.col == c
      else if mask[r - 1][c] != BLOCKED then to.row == r - 1 && to.col == c
      else to == from
  }

  lemma TargetLands(mask: Grid<int>, from: Pos, mode: Mode)
    requires IsGrid(mask) && Interior(from)
    ensures Lands(mask, from, mode, Target(mask, from, mode))
  {
  }

  /** The masks of a floor after its room `from` has been left: its event is
      spent unless it is a stair, and no other mask has changed. */
  ghost predicate Leaves(mask: Grid<int>, from: Pos, after: Grid<int>)
    requires IsGrid(mask) && Interior(from)
  {
    && IsGrid(after)
    && forall r, c :: 0 <= r < 6 && 0 <= c < 6 ==>
         after[r][c] ==
           if r == from.row && c == from.col && mask[r][c] != STAIR_UP && mask[r][c] != STAIR_DOWN then NONE
           else mask[r][c]
  }

  /** The flags of a floor after the player has gone from a room to another. */
  ghost predicate Marks(visited: set<Pos>, from: Pos, to: Pos, after: set<Pos>) {
    forall p :: p in after <==> p in visited || (p == to && to != from)
  }

  /** A move, on the flags, masks and position of the session. */
  ghost predicate Moves(s: Session, mode: Mode, after: Session)
    requires Steady(s)
  {
    var m, o := s.user.mapId, 1 - s.user.mapId;
    && |after.visited| == 2 && |after.mask| == 2
    && after.user.mapId == m && Lands(s.mask[m], Here(s.user), mode, Here(after.user))
    && Leaves(s.mask[m], Here(s.user), after.mask[m])
    && Marks(s.visited[m], Here(s.user), Here(after.user), after.visited[m])
    && after.mask[o] == s.mask[o] && after.visited[o] == s.visited[o]
  }

  lemma FootingMoves(f: Footing, mode: Mode)
    requires IsGrid(f.mask) && Interior(Here(f.user))
    ensures var g := Chosen(Spent(f), mode);
            && g.user.mapId == f.user.mapId && Lands(f.mask, Here(f.user), mode, Here(g.user))
            && Leaves(f.mask, Here(f.user), g.mask) && Marks(f.visited, Here(f.user), Here(g.user), g.visited)
  {
    TargetLands(Spent(f).mask, Here(f.user), mode);
    forall r, c | 0 <= r < 6 && 0 <= c < 6
      ensures Spent(f).mask[r][c] ==
        if Pos(r, c) == Here(f.user) && !IsStair(f.mask[r][c]) then NONE else f.mask[r][c]
    {
      assert At(Spent(f).mask, Pos(r, c)) == Spent(f).mask[r][c];
    }
  }

  /** Every move obeys the law. */
  lemma MoveObeys(s: Session, mode: Mode)
    requires Steady(s)
    ensures Moves(s, mode, Move(s, mode))
  {
    hide Spent, Chosen, Lands, Leaves, Marks;
    var m := s.user.mapId;
    FootingMoves(Footing(s.visited[m], s.mask[m], s.user), mode);
  }

  // ----- What an event leads to -----

  predicate StairAt(mask: Grid<int>, p: Pos)
    requires IsGrid(mask) && InGrid(p)
  {
    mask[p.row][p.col] == STAIR_UP || mask[p.row][p.col] == STAIR_DOWN
  }

  /** By the tables an event leads from one place to the other. Off a stair the
      player walks; on a stair the floor changes exactly if the player takes it,
      and either way an automatic move follows. */
  ghost predicate Leads(t: seq<Floor>, from: Place, e: Event, to: Place)
    requires TowerOk(t)
  {
    && 0 <= from.floor < 2 && Interior(from.room)
    && match e
       case Walk(mode) =>
         && mode != MoveAuto && !StairAt(t[from.floor].mask, from.room)
         && to.floor == from.floor && Lands(t[from.floor].mask, from.room, mode, to.room)
       case Stair(go) =>
         && StairAt(t[from.floor].mask, from.room)
         && to.floor == (if go then 1 - from.floor else from.floor)
         && Lands(t[to.floor].mask, from.room, MoveAuto, to.room)
       case Look => to == from
       case _ => false
  }

  // Spent events change neither walls nor stairs.
  lemma SameLanding(table: Grid<int>, mask: Grid<int>, from: Pos, mode: Mode, to: Pos)
    requires MaskOk(table, mask) && Interior(from)
    ensures Lands(mask, from, mode, to) <==> Lands(table, from, mode, to)
    ensures StairAt(mask, from) <==> StairAt(table, from)
    ensures StairAt(mask, from) ==> mask[from.row][from.col] == table[from.row][from.col]
  {
    forall p | InGrid(p)
      ensures mask[p.row][p.col] == BLOCKED <==> table[p.row][p.col] == BLOCKED
      ensures StairAt(mask, p) <==> StairAt(table, p)
      ensures StairAt(mask, p) ==> mask[p.row][p.col] == table[p.row][p.col]
    {
      assert MaskKept(At(table, p), At(mask, p));
    }
    var r, c := from.row, from.col;
    assert InGrid(Pos(r, c + 1)) && InGrid(Pos(r, c - 1)) && InGrid(Pos(r + 1, c)) && InGrid(Pos(r - 1, c));
  }

  lemma LandsOnce(mask: Grid<int>, from: Pos, mode: Mode, a: Pos, b: Pos)
    requires IsGrid(mask) && Interior(from) && Lands(mask, from, mode, a)
    ensures Lands(mask, from, mode, b) <==> a == b
  {
  }

  /** Moving a steady session about in the tower. */
  lemma MoveLands(t: seq<Floor>, s: Session, mode: Mode, to: Pos)
    requires TowerOk(t) && SessionOk(t, s)
    ensures Steady(s)
    ensures Here(Move(s, mode).user) == to <==> Lands(t[s.user.mapId].mask, Here(s.user), mode, to)
  {
    StandsInside(t, s);
    MoveObeys(s, mode);
    var m, from, there := s.user.mapId, Here(s.user), Here(Move(s, mode).user);
    SameLanding(t[m].mask, s.mask[m], from, mode, there);
    LandsOnce(t[m].mask, from, mode, there, to);
  }

  lemma StairSeen(t: seq<Floor>, s: Session)
    requires TowerOk(t) && SessionOk(t, s)
    ensures Steady(s) && (OnStair(s) <==> StairAt(t[s.user.mapId].mask, Here(s.user)))
  {
    StandsInside(t, s);
    SameLanding(t[s.user.mapId].mask, s.mask[s.user.mapId], Here(s.user), MoveAuto, Here(s.user));
  }

  lemma WalkLeads(t: seq<Floor>, w: World, mode: Mode, from: Place, to: Place)
    requires TowerOk(t) && WorldOk(t, w) && Where(w) == Some(from)
    ensures Leads(t, from, Walk(mode), to) <==>
            Enabled(t, w, Walk(mode)) && Where(Step(t, w, Walk(mode))) == Some(to)
  {
    hide SessionOk, Lands, Move;
    var s := w.session.value;
    StandsInside(t, s);
    MoveOk(t, s, mode);
    MoveLands(t, s, mode, to.room);
    StairSeen(t, s);
  }

  lemma StairLeads(t: seq<Floor>, w: World, go: bool, from: Place, to: Place)
    requires TowerOk(t) && WorldOk(t, w) && Where(w) == Some(from)
    ensures Leads(t, from, Stair(go), to) <==>
            Enabled(t, w, Stair(go)) && Where(Step(t, w, Stair(go))) == Some(to)
  {
    hide SessionOk, Lands, Move, Climb;
    var s := w.session.value;
    StairSeen(t, s);
    StandsInside(t, s);
    if OnStair(s) {
      ClimbOk(t, s, go);
      MoveOk(t, Climb(s, go), MoveAuto);
      MoveLands(t, Climb(s, go), MoveAuto, to.room);
    }
  }

  /** An event inside a session can happen, and leaves the player there, exactly
      if the tables say that it leads there. */
  lemma LeadsExactly(t: seq<Floor>, w: World, e: Event, from: Place, to: Place)
    requires TowerOk(t) && WorldOk(t, w) && Where(w) == Some(from) && !Boundary(e)
    ensures Leads(t, from, e, to) <==> Enabled(t, w, e) && Where(Step(t, w, e)) == Some(to)
  {
    match e {
      case Walk(mode) => WalkLeads(t, w, mode, from, to);
      case Stair(go) => StairLeads(t, w, go, from, to);
      case Look => StandsInside(t, w.session.value);
    }
  }

  // ----- The journals that can be played -----

  /** What one entry of a journal may say, told by where the player was before. */
  ghost predicate EntryLed(t: seq<Floor>, before: Option<Place>, e: Entry)
    requires TowerOk(t)
  {
    match e.event
    case Enter => before == None && e.at == Some(Place(0, Pos(1, 1)))
    case Quit => before.Some? && e.at == None
    case Crash => e.at == None
    case CrashInSave(written) => before.Some? && written <= SAVE_SIZE && e.at == None
    case _ => before.Some? && e.at.Some? && Leads(t, before.value, e.event, e.at.value)
  }

  ghost function Before(h: Journal, i: nat): Option<Place>
    requires i <= |h|
  {
    if i == 0 then None else h[i - 1].at
  }

  /** Every entry of the journal follows from the one before it by the tables. */
  ghost predicate Led(t: seq<Floor>, h: Journal)
    requires TowerOk(t)
  {
    forall i :: 0 <= i < |h| ==> EntryLed(t, Before(h, i), h[i])
  }

  lemma InsideStays(t: seq<Floor>, w: World, e: Event)
    requires TowerOk(t) && WorldOk(t, w) && !Boundary(e) && Enabled(t, w, e)
    ensures Where(Step(t, w, e)).Some?
  {
  }

  lemma StepLed(t: seq<Floor>, w: World, e: Entry)
    requires TowerOk(t) && WorldOk(t, w)
    ensures EntryLed(t, Where(w), e) <==> Enabled(t, w, e.event) && Where(Step(t, w, e.event)) == e.at
  {
    hide Leads, SessionOk, Move, MoveShown, Load;
    if !Boundary(e.event) && w.session.Some? {
      var from := Where(w).value;
      if e.at.Some? {
        LeadsExactly(t, w, e.event, from, e.at.value);
      } else if Enabled(t, w, e.event) {
        InsideStays(t, w, e.event);
      }
    }
  }

  lemma WhereBefore(es: seq<Event>, ws: seq<World>, i: nat)
    requires |ws| == |es| + 1 && ws[0].session == None && i <= |es|
    ensures Before(JournalOf(es, ws), i) == Where(ws[i])
  {
  }

  /** A run tells such a journal. */
  lemma RunIsLed(t: seq<Floor>, es: seq<Event>, ws: seq<World>)
    requires TowerOk(t) && IsRun(t, es, ws)
    ensures Led(t, JournalOf(es, ws))
  {
    hide EntryLed, WorldOk, Enabled, Step;
    var h := JournalOf(es, ws);
    forall i | 0 <= i < |h| ensures EntryLed(t, Before(h, i), h[i]) {
      assert CanStep(t, ws[i], es[i], ws[i + 1]);
      WhereBefore(es, ws, i);
      StepLed(t, ws[i], h[i]);
    }
  }

  function EventsOf(h: Journal): (es: seq<Event>)
    ensures |es| == |h|
  {
    seq(|h|, i requires 0 <= i < |h| => h[i].event)
  }

  lemma EventsGrow(h: Journal)
    requires h != []
    ensures var n := |h| - 1; EventsOf(h) == EventsOf(h[..n]) + [h[n].event]
  {
  }

  lemma JournalGrows(es: seq<Event>, ws: seq<World>, e: Event, after: World)
    requires |ws| == |es| + 1
    ensures JournalOf(es + [e], ws + [after]) == JournalOf(es, ws) + [Entry(e, Where(after))]
  {
  }

  lemma LedPrefix(t: seq<Floor>, h: Journal)
    requires TowerOk(t) && Led(t, h) && h != []
    ensures var n := |h| - 1; Led(t, h[..n]) && Before(h[..n], n) == Before(h, n) && EntryLed(t, Before(h, n), h[n])
  {
    hide EntryLed;
    var n := |h| - 1;
    assert forall i :: 0 <= i <= n ==> Before(h[..n], i) == Before(h, i);
  }

  lemma NextLed(t: seq<Floor>, h: Journal, ws: seq<World>, n: nat) returns (after: World)
    requires TowerOk(t) && n < |h| && EntryLed(t, Before(h, n), h[n])
    requires IsRun(t, EventsOf(h[..n]), ws) && JournalOf(EventsOf(h[..n]), ws) == h[..n]
    ensures CanStep(t, ws[n], h[n].event, after) && Where(after) == h[n].at
  {
    hide EntryLed, Enabled, Step, SessionOk;
    RunOk(t, EventsOf(h[..n]), ws, n);
    WhereBefore(EventsOf(h[..n]), ws, n);
    assert Before(h[..n], n) == Before(h, n);
    StepLed(t, ws[n], h[n]);
    after := Step(t, ws[n], h[n].event);
  }

  lemma EmptyRun(t: seq<Floor>)
    requires TowerOk(t)
    ensures IsRun(t, EventsOf([]), [Installed(t)]) && JournalOf(EventsOf([]), [Installed(t)]) == []
  {
  }

  lemma LongerRun(t: seq<Floor>, h: Journal, before: seq<World>) returns (ws: seq<World>)
    requires TowerOk(t) && Led(t, h) && h != []
    requires var n := |h| - 1; IsRun(t, EventsOf(h[..n]), before) && JournalOf(EventsOf(h[..n]), before) == h[..n]
    ensures IsRun(t, EventsOf(h), ws) && JournalOf(EventsOf(h), ws) == h
  {
    hide EntryLed, CanStep, EventsOf, JournalOf, Led;
    var n := |h| - 1;
    LedPrefix(t, h);
    var w := NextLed(t, h, before, n);
    EventsGrow(h);
    RunExtends(t, EventsOf(h[..n]), before, h[n].event, w);
    JournalGrows(EventsOf(h[..n]), before, h[n].event, w);
    assert h == h[..n] + [Entry(h[n].event, h[n].at)];
    ws := before + [w];
  }

  /** And such a journal can be played. */
  lemma {:induction false} LedIsRun(t: seq<Floor>, h: Journal) returns (ws: seq<World>)
    requires TowerOk(t) && Led(t, h)
    ensures IsRun(t, EventsOf(h), ws) && JournalOf(EventsOf(h), ws) == h
    decreases |h|
  {
    hide EntryLed, CanStep, EventsOf, JournalOf, Led, TowerOk;
    if h == [] {
      EmptyRun(t);
      ws := [Installed(t)];
    } else {
      LedPrefix(t, h);
      var before := LedIsRun(t, h[..|h| - 1]);
      ws := LongerRun(t, h, before);
    }
  }

  /** The journals of runs, known by the tables alone. */
  lemma JournalsExactly(t: seq<Floor>, h: Journal)
    requires TowerOk(t)
    ensures Led(t, h) <==> exists es, ws :: IsRun(t, es, ws) && JournalOf(es, ws) == h
  {
    hide CanStep, EntryLed;
    if Led(t, h) {
      var ws := LedIsRun(t, h);
    }
    forall es, ws | IsRun(t, es, ws) && JournalOf(es, ws) == h ensures Led(t, h) {
      RunIsLed(t, es, ws);
    }
  }

  // ----- The player's floor -----

  /** How often a stair has been taken since the dungeon was entered. */
  ghost function Flights(h: Journal): nat {
    if h == [] || Boundary(h[|h| - 1].event) then 0
    else Flights(h[..|h| - 1]) + if h[|h| - 1].event == Stair(true) then 1 else 0
  }

  /** The player's floor is the parity of the stairs taken. */
  lemma {:induction false} FloorIsParity(t: seq<Floor>, h: Journal)
    requires TowerOk(t) && Led(t, h) && h != [] && h[|h| - 1].at.Some?
    ensures h[|h| - 1].at.value.floor == Flights(h) % 2
    decreases |h|
  {
    hide StairAt, Lands, Led;
    var n := |h| - 1;
    LedPrefix(t, h);
    if !Boundary(h[n].event) {
      FloorIsParity(t, h[..n]);
    }
  }

  // ----- The events of the rooms -----

  ghost predicate LeftAt(h: Journal, m: int, p: Pos, i: int) {
    0 < i < |h| && h[i].event.Walk? && h[i - 1].at == Some(Place(m, p))
  }

  /** The player has walked out of the room, or into one of its walls, since the
      running session began. */
  ghost predicate Left(h: Journal, m: int, p: Pos) {
    exists i :: LeftAt(h, m, p, i) && SameSession(h, i - 1, |h| - 1)
  }

  lemma LeftExtends(h: Journal, e: Entry, m: int, p: Pos)
    ensures Left(h + [e], m, p) <==>
            || (e.event.Walk? && Before(h, |h|) == Some(Place(m, p)))
            || (!Boundary(e.event) && Left(h, m, p))
  {
    var all := h + [e];
    assert forall i :: 0 <= i < |h| ==> all[i] == h[i];
    assert all[|h|] == e;
    if Left(all, m, p) {
      var i :| LeftAt(all, m, p, i) && SameSession(all, i - 1, |h|);
      assert !Boundary(all[|h|].event);
      if i < |h| {
        assert LeftAt(h, m, p, i) && SameSession(h, i - 1, |h| - 1);
      }
    }
    if e.event.Walk? && Before(h, |h|) == Some(Place(m, p)) {
      assert LeftAt(all, m, p, |h|) && SameSession(all, |h| - 1, |h|);
    }
    if !Boundary(e.event) && Left(h, m, p) {
      var i :| LeftAt(h, m, p, i) && SameSession(h, i - 1, |h| - 1);
      assert LeftAt(all, m, p, i) && SameSession(all, i - 1, |h|);
    }
  }

  /** The mask of a room: none once its event has been spent, else the table's. */
  ghost predicate MaskTells(t: seq<Floor>, h: Journal, s: Session, m: int, p: Pos)
    requires TowerOk(t) && 0 <= m < 2 && InGrid(p)
  {
    && |s.mask| == 2 && IsGrid(s.mask[m])
    && s.mask[m][p.row][p.col] == if Left(h, m, p) then NONE else t[m].mask[p.row][p.col]
  }

  lemma WalkMask(t: seq<Floor>, s: Session, mode: Mode, m: int, p: Pos)
    requires TowerOk(t) && SessionOk(t, s) && !OnStair(s) && 0 <= m < 2 && InGrid(p)
    ensures Steady(s)
    ensures var after := Move(s, mode).mask;
            && |after| == 2 && IsGrid(after[m])
            && after[m][p.row][p.col] ==
               if m == s.user.mapId && p == Here(s.user) then NONE else s.mask[m][p.row][p.col]
  {
    hide Lands, Marks, Move;
    StandsInside(t, s);
    MoveObeys(s, mode);
  }

  lemma StairMask(t: seq<Floor>, s: Session, go: bool, m: int, p: Pos)
    requires TowerOk(t) && SessionOk(t, s) && OnStair(s) && 0 <= m < 2 && InGrid(p)
    ensures Steady(Climb(s, go))
    ensures var after := Move(Climb(s, go), MoveAuto).mask;
            && |after| == 2 && IsGrid(after[m])
            && after[m][p.row][p.col] == s.mask[m][p.row][p.col]
  {
    hide Lands, Marks, Move;
    var up := Climb(s, go);
    ClimbOk(t, s, go);
    StairSeen(t, s);
    StairSeen(t, up);
    assert StairsOk(t[0].mask, t[1].mask, Here(s.user), t[1].start);
    MoveObeys(up, MoveAuto);
  }

  lemma StepMask(t: seq<Floor>, h: Journal, w: World, e: Event, m: int, p: Pos)
    requires TowerOk(t) && WorldOk(t, w) && Enabled(t, w, e) && 0 <= m < 2 && InGrid(p)
    requires Before(h, |h|) == Where(w) && (w.session.Some? ==> MaskTells(t, h, w.session.value, m, p))
    ensures var after := Step(t, w, e);
            after.session.Some? ==> MaskTells(t, h + [Entry(e, Where(after))], after.session.value, m, p)
  {
    hide Left, SessionOk, Move, Load;
    LeftExtends(h, Entry(e, Where(Step(t, w, e))), m, p);
    match e {
      case Walk(mode) => WalkMask(t, w.session.value, mode, m, p);
      case Stair(go) => StairMask(t, w.session.value, go, m, p);
      case _ =>
    }
  }

  lemma {:induction false} MaskSoFar(t: seq<Floor>, es: seq<Event>, ws: seq<World>, n: nat, m: int, p: Pos)
    requires TowerOk(t) && IsRun(t, es, ws) && n <= |es| && 0 <= m < 2 && InGrid(p)
    ensures ws[n].session.Some? ==> MaskTells(t, JournalOf(es, ws)[..n], ws[n].session.value, m, p)
    decreases n
  {
    hide MaskTells, WorldOk, Step, Enabled;
    if n > 0 {
      var h := JournalOf(es, ws);
      MaskSoFar(t, es, ws, n - 1, m, p);
      assert CanStep(t, ws[n - 1], es[n - 1], ws[n]);
      WhereBefore(es, ws, n - 1);
      StepMask(t, h[..n - 1], ws[n - 1], es[n - 1], m, p);
      assert h[..n] == h[..n - 1] + [Entry(es[n - 1], Where(ws[n]))];
    }
  }

  /** In every run: the event of a room is spent exactly if the table has none
      there or the player has left the room by walking in this session; otherwise
      it is the table's. */
  lemma MasksTellJournal(t: seq<Floor>, es: seq<Event>, ws: seq<World>, m: int, p: Pos)
    requires TowerOk(t) && IsRun(t, es, ws) && ws[|es|].session.Some? && 0 <= m < 2 && InGrid(p)
    ensures var h, s := JournalOf(es, ws), ws[|es|].session.value;
            && |s.mask| == 2 && IsGrid(s.mask[m])
            && (s.mask[m][p.row][p.col] == NONE <==> t[m].mask[p.row][p.col] == NONE || Left(h, m, p))
            && (s.mask[m][p.row][p.col] != NONE ==> s.mask[m][p.row][p.col] == t[m].mask[p.row][p.col])
  {
    hide CanStep, Left;
    MaskSoFar(t, es, ws, |es|, m, p);
    assert JournalOf(es, ws)[..|es|] == JournalOf(es, ws);
  }

  lemma MasksOfRun(t: seq<Floor>, es: seq<Event>, ws: seq<World>)
    requires TowerOk(t) && IsRun(t, es, ws)
    ensures |ws| == |es| + 1
    ensures ws[|es|].session.Some? ==> forall m, p :: 0 <= m < 2 && InGrid(p) ==>
              MaskTells(t, JournalOf(es, ws), ws[|es|].session.value, m, p)
  {
    hide CanStep, MaskTells;
    assert JournalOf(es, ws)[..|es|] == JournalOf(es, ws);
    forall m, p | 0 <= m < 2 && InGrid(p)
      ensures ws[|es|].session.Some? ==> MaskTells(t, JournalOf(es, ws), ws[|es|].session.value, m, p)
    {
      MaskSoFar(t, es, ws, |es|, m, p);
    }
  }
}
