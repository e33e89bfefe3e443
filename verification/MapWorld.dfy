/**
 The dungeon on values: sessions, moves between rooms, the display of the map,
 and the saving and loading of what has been explored.
 */
module MapWorld {
  import opened Wrappers

  import opened MapTables
  import opened SaveFile

  /** The player's floor and room, as in the `user` record. */
  datatype User = User(mapId: int, x: int, y: int)

  /** What `map_init` allocates and `map_clean` frees, for the two floors that
      have tables: which rooms have been entered, and the masks. */
  datatype Session = Session(visited: seq<set<Pos>>, mask: seq<Grid<int>>, user: User)

  /** Display buffers, save file, and the session if one is running. */
  datatype World = World(disp: seq<Bytes>, file: Option<Bytes>, session: Option<Session>)

  datatype Mode = MoveUp | MoveDown | MoveLeft | MoveRight | MoveAuto

  // ----- Starting and ending -----

  /** The program's static data as it is loaded. */
  function Templates(t: seq<Floor>): (disp: seq<Bytes>)
    requires TowerOk(t)
    ensures |disp| == 2 && |disp[0]| == 84 && |disp[1]| == 84
  {
    [Encode(t[0].first), Encode(t[1].first)]
  }

  function Installed(t: seq<Floor>): World
    requires TowerOk(t)
  {
    World(Templates(t), None, None)
  }

  ghost predicate Shaped(w: World) {
    && |w.disp| == 2 && |w.disp[0]| == 84 && |w.disp[1]| == 84
  }

  function Load(disp: seq<Bytes>, file: Option<Bytes>): (after: seq<Bytes>)
    requires |disp| == 2 && |disp[0]| == 84 && |disp[1]| == 84
    ensures |after| == 2 && |after[0]| == 84 && |after[1]| == 84
  {
    match file
    case None => disp
    case Some(raw) =>
      var text := TextRead(raw);
      [Fread(disp[0], text), Fread(disp[1], Rest(disp[0], text))]
  }

  /** `map_init`, with the player's record wherever it was loaded to. */
  function InitAt(t: seq<Floor>, w: World, user: User): World
    requires TowerOk(t) && Shaped(w)
  {
    World(Load(w.disp, w.file), w.file,
      Some(Session([{t[0].start}, {t[1].start}], [t[0].mask, t[1].mask], user)))
  }

  /** Entering the dungeon: the record is saved and loaded again first, which
      puts the player at the start of the lower floor. */
  function Init(t: seq<Floor>, w: World): World
    requires TowerOk(t) && Shaped(w)
  {
    InitAt(t, w, User(0, 1, 1))
  }

  /** `map_clean`. */
  function Clean(w: World): World
    requires Shaped(w)
  {
    World(w.disp, Some(w.disp[0] + w.disp[1]), None)
  }

  /** The process ends while no save is under way, and a new one is loaded. */
  function Kill(t: seq<Floor>, w: World): World
    requires TowerOk(t)
  {
    World(Templates(t), w.file, None)
  }

  const SAVE_SIZE := 168

  /** The process ends inside `map_clean`, which has emptied the file on opening
      it and of whose two displays so many bytes have reached the file. */
  function Cut(t: seq<Floor>, w: World, written: nat): World
    requires TowerOk(t) && Shaped(w) && written <= SAVE_SIZE
  {
    World(Templates(t), Some((w.disp[0] + w.disp[1])[..written]), None)
  }

  // ----- Showing the map -----

  /** `chk_dispMap` on one floor. */
  function Reveal(g: Grid<Glyph>, disp: Bytes, visited: set<Pos>): (after: Bytes)
    requires IsGrid(g) && |disp| == 84
    ensures |after| == 84
  {
    seq(84, k requires 0 <= k < 84 => if IsRoomByte(k) && CellOf(k) in visited then Encode(g)[k] else disp[k])
  }

  function Show(t: seq<Floor>, w: World): World
    requires TowerOk(t) && Shaped(w) && w.session.Some?
    requires |w.session.value.visited| == 2 && 0 <= w.session.value.user.mapId < 2
  {
    var s := w.session.value;
    var m := s.user.mapId;
    w.(disp := w.disp[m := Reveal(t[m].level, w.disp[m], s.visited[m])])
  }

  // ----- Moving -----

  function Here(u: User): Pos {
    Pos(u.y, u.x)
  }

  function Put(u: User, p: Pos): User {
    u.(x := p.col, y := p.row)
  }

  function SetAt(g: Grid<int>, p: Pos, v: int): (after: Grid<int>)
    requires IsGrid(g) && InGrid(p)
    ensures IsGrid(after) && forall q :: InGrid(q) ==> At(after, q) == if q == p then v else At(g, q)
  {
    g[p.row := g[p.row][p.col := v]]
  }

  predicate IsStair(mask: int) {
    mask == STAIR_UP || mask == STAIR_DOWN
  }

  predicate MaskKept(table: int, mask: int) {
    mask == table || (mask == NONE && table != BLOCKED && !IsStair(table))
  }

  /** Masks may only have changed from an event to none: walls and stairs stay. */
  ghost predicate MaskOk(table: Grid<int>, mask: Grid<int>) {
    && IsGrid(table) && IsGrid(mask)
    && forall p :: InGrid(p) ==> MaskKept(At(table, p), At(mask, p))
  }

  /** The rooms of a floor that can be entered. */
  ghost predicate Open(f: Floor, p: Pos)
    requires FloorOk(f)
  {
    InGrid(p) && At(f.mask, p) != BLOCKED
  }

  /** What holds in every session: the player stands in an open room that has
      been visited, only open rooms have been, and a player on the upper floor
      has the stair of the lower one behind him. */
  ghost predicate SessionOk(t: seq<Floor>, s: Session)
    requires TowerOk(t)
  {
    && |s.visited| == 2 && |s.mask| == 2
    && MaskOk(t[0].mask, s.mask[0]) && MaskOk(t[1].mask, s.mask[1])
    && (forall p :: p in s.visited[0] ==> Open(t[0], p))
    && (forall p :: p in s.visited[1] ==> Open(t[1], p))
    && t[0].start in s.visited[0] && t[1].start in s.visited[1]
    && (s.user.mapId == 0 || s.user.mapId == 1)
    && Here(s.user) in s.visited[s.user.mapId]
    && (s.user.mapId == 1 ==> t[1].start in s.visited[0])
  }

  function Neighbour(p: Pos, mode: Mode): Pos
    requires mode != MoveAuto
  {
    match mode
    case MoveUp => Pos(p.row - 1, p.col)
    case MoveDown => Pos(p.row + 1, p.col)
    case MoveLeft => Pos(p.row, p.col - 1)
    case MoveRight => Pos(p.row, p.col + 1)
  }

  predicate Free(mask: Grid<int>, p: Pos)
    requires IsGrid(mask) && InGrid(p)
  {
    At(mask, p) != BLOCKED
  }

  /** Where a move leads: to the neighbouring room unless it is walled off; an
      automatic move tries right, left, down and up. */
  function Target(mask: Grid<int>, p: Pos, mode: Mode): Pos
    requires IsGrid(mask) && Interior(p)
  {
    match mode
    case MoveAuto =>
      if Free(mask, Neighbour(p, MoveRight)) then Neighbour(p, MoveRight)
      else if Free(mask, Neighbour(p, MoveLeft)) then Neighbour(p, MoveLeft)
      else if Free(mask, Neighbour(p, MoveDown)) then Neighbour(p, MoveDown)
      else if Free(mask, Neighbour(p, MoveUp)) then Neighbour(p, MoveUp)
      else p
    case _ => if Free(mask, Neighbour(p, mode)) then Neighbour(p, mode) else p
  }

  /** What a move reads and changes: the flags and masks of the player's floor,
      and the player's room. */
  datatype Footing = Footing(visited: set<Pos>, mask: Grid<int>, user: User)

  /** The event of the room that is left is spent, unless it is a stair. */
  function Spent(f: Footing): Footing
    requires IsGrid(f.mask) && InGrid(Here(f.user))
  {
    if IsStair(At(f.mask, Here(f.user))) then f else f.(mask := SetAt(f.mask, Here(f.user), NONE))
  }

  function Entered(f: Footing, p: Pos): Footing {
    f.(visited := f.visited + {p}, user := Put(f.user, p))
  }

  function Chosen(f: Footing, mode: Mode): Footing
    requires IsGrid(f.mask) && Interior(Here(f.user))
  {
    var there := Target(f.mask, Here(f.user), mode);
    if there == Here(f.user) then f else Entered(f, there)
  }

  /** All that a move needs to stay inside its tables. */
  ghost predicate Steady(s: Session) {
    && |s.visited| == 2 && |s.mask| == 2 && 0 <= s.user.mapId < 2
    && IsGrid(s.mask[s.user.mapId]) && Interior(Here(s.user))
  }

  /** `d_movePos` up to its closing animation. */
  function Move(s: Session, mode: Mode): Session
    requires Steady(s)
  {
    var m := s.user.mapId;
    var f := Chosen(Spent(Footing(s.visited[m], s.mask[m], s.user)), mode);
    Session(s.visited[m := f.visited], s.mask[m := f.mask], f.user)
  }

  lemma StandsInside(t: seq<Floor>, s: Session)
    requires TowerOk(t) && SessionOk(t, s)
    ensures Steady(s) && At(s.mask[s.user.mapId], Here(s.user)) != BLOCKED
  {
    var m := s.user.mapId;
    assert Open(t[m], Here(s.user));
    assert RoomOk(t[m], Here(s.user));
  }

  /** Going up or down: the player stands in the room of the other floor that
      has the same row and column. */
  function Climb(s: Session, go: bool): Session
    requires |s.mask| == 2 && 0 <= s.user.mapId < 2
    requires IsGrid(s.mask[s.user.mapId]) && InGrid(Here(s.user))
  {
    var stair := At(s.mask[s.user.mapId], Here(s.user));
    if go then s.(user := s.user.(mapId := if stair == STAIR_UP then s.user.mapId + 1 else s.user.mapId - 1)) else s
  }

  // ----- One event -----

  datatype Event =
    | Enter
    | Walk(mode: Mode)
    | Stair(go: bool)
    | Look
    | Quit
    | Crash
    | CrashInSave(written: nat)

  ghost predicate WorldOk(t: seq<Floor>, w: World)
    requires TowerOk(t)
  {
    && Shaped(w)
    && (w.session.Some? ==> SessionOk(t, w.session.value))
  }

  predicate OnStair(s: Session)
    requires |s.mask| == 2 && 0 <= s.user.mapId < 2
    requires IsGrid(s.mask[s.user.mapId]) && InGrid(Here(s.user))
  {
    IsStair(At(s.mask[s.user.mapId], Here(s.user)))
  }

  /** What the game lets happen: a dungeon is entered when none is running; on a
      stair the only choice is whether to take it, elsewhere it is a direction. */
  ghost predicate Enabled(t: seq<Floor>, w: World, e: Event)
    requires TowerOk(t) && WorldOk(t, w)
  {
    match e
    case Enter => w.session.None?
    case Walk(mode) => w.session.Some? && mode != MoveAuto && !OnStair(w.session.value)
    case Stair(go) => w.session.Some? && OnStair(w.session.value)
    case Look => w.session.Some?
    case Quit => w.session.Some?
    case Crash => true
    case CrashInSave(written) => w.session.Some? && written <= SAVE_SIZE
  }

  /** `d_movePos` as a whole: the move, and the display of the map after it. */
  function MoveShown(t: seq<Floor>, w: World, mode: Mode): (after: World)
    requires TowerOk(t) && Shaped(w) && w.session.Some? && Steady(w.session.value)
  {
    Show(t, w.(session := Some(Move(w.session.value, mode))))
  }

  lemma InitOk(t: seq<Floor>, w: World)
    requires TowerOk(t) && Shaped(w)
    ensures WorldOk(t, Init(t, w))
  {
  }

  /** The same invariant, of what a move reads and changes. */
  ghost predicate FootingOk(f: Floor, foot: Footing)
    requires FloorOk(f)
  {
    && MaskOk(f.mask, foot.mask)
    && (forall p :: p in foot.visited ==> Open(f, p))
    && Here(foot.user) in foot.visited
  }

  lemma FootingInside(f: Floor, foot: Footing)
    requires FloorOk(f) && FootingOk(f, foot)
    ensures Interior(Here(foot.user)) && At(foot.mask, Here(foot.user)) != BLOCKED
  {
    assert Open(f, Here(foot.user));
    assert RoomOk(f, Here(foot.user));
  }

  lemma SpentOk(f: Floor, foot: Footing)
    requires FloorOk(f) && FootingOk(f, foot)
    ensures InGrid(Here(foot.user)) && FootingOk(f, Spent(foot))
  {
    FootingInside(f, foot);
  }

  lemma ChosenOk(f: Floor, foot: Footing, mode: Mode)
    requires FloorOk(f) && FootingOk(f, foot)
    ensures Interior(Here(foot.user)) && FootingOk(f, Chosen(foot, mode))
    ensures foot.visited <= Chosen(foot, mode).visited
  {
    FootingInside(f, foot);
  }

  lemma FootingFits(t: seq<Floor>, s: Session, foot: Footing)
    requires TowerOk(t) && SessionOk(t, s)
    requires foot.user.mapId == s.user.mapId && s.visited[s.user.mapId] <= foot.visited
    requires FootingOk(t[s.user.mapId], foot)
    ensures var m := s.user.mapId;
            SessionOk(t, Session(s.visited[m := foot.visited], s.mask[m := foot.mask], foot.user))
  {
    if s.user.mapId == 0 { } else { }
  }

  /** A move keeps the invariant and the floor. */
  lemma MoveOk(t: seq<Floor>, s: Session, mode: Mode)
    requires TowerOk(t) && SessionOk(t, s)
    ensures Steady(s) && SessionOk(t, Move(s, mode))
    ensures Move(s, mode).user.mapId == s.user.mapId
  {
    hide MaskOk, RoomOk, Target;
    StandsInside(t, s);
    var m := s.user.mapId;
    var foot := Footing(s.visited[m], s.mask[m], s.user);
    SpentOk(t[m], foot);
    ChosenOk(t[m], Spent(foot), mode);
    FootingFits(t, s, Chosen(Spent(foot), mode));
  }

  lemma ClimbOk(t: seq<Floor>, s: Session, go: bool)
    requires TowerOk(t) && SessionOk(t, s) && OnStair(s)
    ensures SessionOk(t, Climb(s, go))
    ensures Climb(s, go).user.mapId == (if go then 1 - s.user.mapId else s.user.mapId)
    ensures Here(Climb(s, go).user) == Here(s.user)
    ensures go ==> Here(s.user) == t[1].start
  {
    StandsInside(t, s);
    assert StairsOk(t[0].mask, t[1].mask, Here(s.user), t[1].start);
  }

  lemma MoveShownOk(t: seq<Floor>, w: World, mode: Mode)
    requires TowerOk(t) && WorldOk(t, w) && w.session.Some?
    ensures Steady(w.session.value) && WorldOk(t, MoveShown(t, w, mode))
  {
    hide SessionOk, Move, MaskOk;
    MoveOk(t, w.session.value, mode);
  }

  /** One event. Every move ends by showing the map. */
  function Step(t: seq<Floor>, w: World, e: Event): (after: World)
    requires TowerOk(t) && WorldOk(t, w) && Enabled(t, w, e)
    ensures WorldOk(t, after)
  {
    match e
    case Enter =>
      InitOk(t, w);
      Init(t, w)
    case Walk(mode) =>
      MoveShownOk(t, w, mode);
      MoveShown(t, w, mode)
    case Stair(go) =>
      ClimbOk(t, w.session.value, go);
      var v := w.(session := Some(Climb(w.session.value, go)));
      MoveShownOk(t, v, MoveAuto);
      MoveShown(t, v, MoveAuto)
    case Look => Show(t, w)
    case Quit => Clean(w)
    case Crash => Kill(t, w)
    case CrashInSave(written) => Cut(t, w, written)
  }
}
