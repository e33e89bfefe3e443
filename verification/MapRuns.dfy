/**
 Runs of the game from a fresh installation: sessions, moves, crashes in and
 out of saves, and restarts in any order the game allows. The display buffers
 and the save file always hold what the journal of the run says they should,
 although the flags that drive them are rebuilt for every session.
 */
module MapRuns {
  import opened Wrappers

  import opened MapTables
  import opened SaveFile
  import opened MapWorld
  import opened MapHistory

  ghost predicate CanStep(t: seq<Floor>, w: World, e: Event, after: World)
    requires TowerOk(t)
  {
    WorldOk(t, w) && Enabled(t, w, e) && after == Step(t, w, e)
  }

  /** A run from a fresh installation: the events, and the states between them. */
  ghost predicate IsRun(t: seq<Floor>, es: seq<Event>, ws: seq<World>)
    requires TowerOk(t)
  {
    && |ws| == |es| + 1 && ws[0] == Installed(t)
    && forall i :: 0 <= i < |es| ==> CanStep(t, ws[i], es[i], ws[i + 1])
  }

  /** In every state of a run the player stands on an open, visited room inside
      the walls of one of the two floors, so no step is ever stuck on its tables. */
  lemma RunOk(t: seq<Floor>, es: seq<Event>, ws: seq<World>, n: nat)
    requires TowerOk(t) && IsRun(t, es, ws) && n <= |es|
    ensures WorldOk(t, ws[n])
  {
    if n > 0 {
      assert CanStep(t, ws[n - 1], es[n - 1], ws[n]);
    }
  }

  ghost function Where(w: World): Option<Place> {
    match w.session
    case None => None
    case Some(s) => Some(Place(s.user.mapId, Here(s.user)))
  }

  /** The journal of a run. */
  ghost function JournalOf(es: seq<Event>, ws: seq<World>): (h: Journal)
    requires |ws| == |es| + 1
    ensures |h| == |es|
  {
    seq(|es|, i requires 0 <= i < |es| => Entry(es[i], Where(ws[i + 1])))
  }

  lemma RunPrefix(t: seq<Floor>, es: seq<Event>, ws: seq<World>, n: nat)
    requires TowerOk(t) && IsRun(t, es, ws) && n <= |es|
    ensures IsRun(t, es[..n], ws[..n + 1])
    ensures JournalOf(es[..n], ws[..n + 1]) == JournalOf(es, ws)[..n]
  {
  }

  lemma RunExtends(t: seq<Floor>, es: seq<Event>, ws: seq<World>, e: Event, after: World)
    requires TowerOk(t) && IsRun(t, es, ws) && CanStep(t, ws[|es|], e, after)
    ensures |ws| == |es| + 1 && IsRun(t, es + [e], ws + [after])
  {
    hide CanStep;
  }

  // ----- What the buffers should hold -----

  ghost function KnownBytes(h: Journal, m: int): set<int> {
    set k | 0 <= k < 84 && IsRoomByte(k) && Known(h, m, k)
  }

  ghost function KeptBytes(h: Journal, m: int): set<int> {
    set k | 0 <= k < 84 && IsRoomByte(k) && Kept(h, m, k)
  }

  ghost function KnownImage(t: seq<Floor>, h: Journal, m: int): (image: Bytes)
    requires TowerOk(t) && 0 <= m < 2
    ensures |image| == 84
  {
    Image(t[m].level, Hints(t[m]) + KnownBytes(h, m))
  }

  ghost function KeptImage(t: seq<Floor>, h: Journal, m: int): (image: Bytes)
    requires TowerOk(t) && 0 <= m < 2
    ensures |image| == 84
  {
    Image(t[m].level, Hints(t[m]) + KeptBytes(h, m))
  }

  ghost predicate DisplayMatches(t: seq<Floor>, h: Journal, disp: seq<Bytes>)
    requires TowerOk(t)
  {
    disp == [KnownImage(t, h, 0), KnownImage(t, h, 1)]
  }

  ghost predicate NothingKeptFrom(h: Journal, m: int, off: int) {
    forall k :: 0 <= k < 84 && Offset(m, k) >= off ==> !Kept(h, m, k)
  }

  /** The file holds the kept images as far as the last save got, and nothing
      beyond that counts as kept. */
  ghost predicate FileMatches(t: seq<Floor>, h: Journal, file: Option<Bytes>)
    requires TowerOk(t)
  {
    match file
    case None => forall m, k :: !Kept(h, m, k)
    case Some(raw) =>
      && |raw| <= SAVE_SIZE
      && raw == (KeptImage(t, h, 0) + KeptImage(t, h, 1))[..|raw|]
      && NothingKeptFrom(h, 0, |raw|) && NothingKeptFrom(h, 1, |raw|)
  }

  predicate SavedWhole(file: Option<Bytes>) {
    file.Some? && |file.value| == SAVE_SIZE
  }

  /** The flags of the running session: the start rooms, and the rooms in which
      the player has stood since it began. */
  ghost predicate FlagsMatch(t: seq<Floor>, h: Journal, visited: seq<set<Pos>>)
    requires TowerOk(t)
  {
    && |visited| == 2
    && (forall p :: p in visited[0] <==> p == t[0].start || StoodNow(h, 0, p))
    && (forall p :: p in visited[1] <==> p == t[1].start || StoodNow(h, 1, p))
  }

  ghost predicate Matches(t: seq<Floor>, h: Journal, w: World)
    requires TowerOk(t)
  {
    && FileMatches(t, h, w.file)
    && (DisplayMatches(t, h, w.disp) || (w.session.None? && w.disp == Templates(t)))
    && (match w.session
        case Some(s) => FlagsMatch(t, h, s.visited)
        case None =>
          && (forall m, k :: Known(h, m, k) <==> Kept(h, m, k))
          && (SavedWhole(w.file) || w.disp == Templates(t)))
  }

  // ----- Each event keeps the match -----

  lemma RevealImage(g: Grid<Glyph>, bytes: set<int>, visited: set<Pos>, more: set<int>)
    requires IsGrid(g)
    requires forall k :: 0 <= k < 84 && IsRoomByte(k) ==> (k in more <==> k in bytes || CellOf(k) in visited)
    ensures Reveal(g, Image(g, bytes), visited) == Image(g, more)
  {
  }

  // Only known bytes tell two known images apart.
  lemma SameKnown(t: seq<Floor>, h: Journal, after: Journal, m: int)
    requires TowerOk(t) && 0 <= m < 2
    requires forall k :: Known(after, m, k) <==> Known(h, m, k)
    ensures KnownImage(t, after, m) == KnownImage(t, h, m)
  {
    assert KnownBytes(after, m) == KnownBytes(h, m);
  }

  lemma SameKept(t: seq<Floor>, h: Journal, after: Journal, m: int)
    requires TowerOk(t) && 0 <= m < 2
    requires forall k :: Kept(after, m, k) <==> Kept(h, m, k)
    ensures KeptImage(t, after, m) == KeptImage(t, h, m)
  {
    assert KeptBytes(after, m) == KeptBytes(h, m);
  }

  lemma KeptEqualsKnown(t: seq<Floor>, h: Journal, m: int)
    requires TowerOk(t) && 0 <= m < 2
    requires forall k :: Known(h, m, k) <==> Kept(h, m, k)
    ensures KnownImage(t, h, m) == KeptImage(t, h, m)
  {
    assert KnownBytes(h, m) == KeptBytes(h, m);
  }

  // An entry that shows nothing and is no death leaves the known image as it was.
  lemma QuietEntry(t: seq<Floor>, h: Journal, e: Entry, m: int)
    requires TowerOk(t) && 0 <= m < 2 && Boundary(e.event) && !Death(e.event)
    ensures forall k :: Known(h + [e], m, k) <==> Known(h, m, k)
    ensures KnownImage(t, h + [e], m) == KnownImage(t, h, m)
  {
    forall k ensures Known(h + [e], m, k) <==> Known(h, m, k) {
      KnownExtends(h, e, m, k);
    }
    SameKnown(t, h, h + [e], m);
  }

  // An entry that saves nothing leaves the file as it was.
  lemma FileUntouched(t: seq<Floor>, h: Journal, e: Entry, file: Option<Bytes>)
    requires TowerOk(t) && FileMatches(t, h, file) && !Saves(e.event)
    ensures FileMatches(t, h + [e], file)
    ensures forall m, k :: Kept(h + [e], m, k) <==> Kept(h, m, k)
  {
    forall m, k ensures Kept(h + [e], m, k) <==> Kept(h, m, k) {
      KeptExtends(h, e, m, k);
    }
    SameKept(t, h, h + [e], 0);
    SameKept(t, h, h + [e], 1);
  }

  /** Up to an offset in the save file a floor has been read back. */
  ghost predicate ReadBack(saved: Bytes, before: Bytes, after: Bytes, m: int, n: int) {
    && |saved| == |before| == |after| == 84
    && forall k :: 0 <= k < 84 ==> after[k] == if Offset(m, k) < n then saved[k] else before[k]
  }

  // Reading back as much of a floor as was saved gives all that is kept of it.
  lemma LoadedFloor(t: seq<Floor>, h: Journal, m: int, n: int, before: Bytes, after: Bytes)
    requires TowerOk(t) && 0 <= m < 2 && ReadBack(KeptImage(t, h, m), before, after, m, n)
    requires NothingKeptFrom(h, m, n) && (n == SAVE_SIZE || before == Encode(t[m].first))
    ensures after == KeptImage(t, h, m)
  {
    hide Kept, Hints;
    FirstIsImage(t[m]);
    forall k | 0 <= k < 84 ensures after[k] == KeptImage(t, h, m)[k] {
    }
  }

  lemma LoadReads(a: Bytes, b: Bytes, raw: Bytes, disp: seq<Bytes>)
    requires |a| == |b| == 84 && DrawingBytes(a) && DrawingBytes(b)
    requires |raw| <= SAVE_SIZE && raw == (a + b)[..|raw|]
    requires |disp| == 2 && |disp[0]| == |disp[1]| == 84
    ensures ReadBack(a, disp[0], Load(disp, Some(raw))[0], 0, |raw|)
    ensures ReadBack(b, disp[1], Load(disp, Some(raw))[1], 1, |raw|)
  {
    hide TextRead, Fread, Rest, DrawingBytes;
    TornRoundTrip(a, b, |raw|, disp[0], disp[1]);
  }

  lemma LoadMatches(t: seq<Floor>, h: Journal, w: World)
    requires TowerOk(t) && Shaped(w) && w.session.None? && Matches(t, h, w)
    ensures DisplayMatches(t, h, Load(w.disp, w.file))
  {
    hide Known, Kept, DrawingBytes;
    KeptEqualsKnown(t, h, 0);
    KeptEqualsKnown(t, h, 1);
    match w.file {
      case None =>
        LoadedFloor(t, h, 0, 0, w.disp[0], w.disp[0]);
        LoadedFloor(t, h, 1, 0, w.disp[1], w.disp[1]);
      case Some(raw) =>
        hide Load, ReadBack, Image;
        ImageIsDrawing(t[0].level, Hints(t[0]) + KeptBytes(h, 0));
        ImageIsDrawing(t[1].level, Hints(t[1]) + KeptBytes(h, 1));
        LoadReads(KeptImage(t, h, 0), KeptImage(t, h, 1), raw, w.disp);
        var after := Load(w.disp, w.file);
        LoadedFloor(t, h, 0, |raw|, w.disp[0], after[0]);
        LoadedFloor(t, h, 1, |raw|, w.disp[1], after[1]);
    }
  }

  lemma EnterMatches(t: seq<Floor>, h: Journal, w: World)
    requires TowerOk(t) && WorldOk(t, w) && w.session.None? && Matches(t, h, w)
    ensures Matches(t, h + [Entry(Enter, Some(Place(0, Pos(1, 1))))], Init(t, w))
  {
    hide Known, Kept, Load, Image;
    var e := Entry(Enter, Some(Place(0, Pos(1, 1))));
    LoadMatches(t, h, w);
    FileUntouched(t, h, e, w.file);
    QuietEntry(t, h, e, 0);
    QuietEntry(t, h, e, 1);
    forall m, p ensures StoodNow(h + [e], m, p) <==> m == 0 && p == Pos(1, 1) {
      StoodNowExtends(h, e, m, p);
    }
  }

  lemma WholeFile(t: seq<Floor>, h: Journal)
    requires TowerOk(t)
    ensures FileMatches(t, h, Some(KeptImage(t, h, 0) + KeptImage(t, h, 1)))
  {
    var raw := KeptImage(t, h, 0) + KeptImage(t, h, 1);
    assert raw[..|raw|] == raw;
  }

  lemma QuitMatches(t: seq<Floor>, h: Journal, w: World)
    requires TowerOk(t) && WorldOk(t, w) && w.session.Some? && Matches(t, h, w)
    ensures Matches(t, h + [Entry(Quit, None)], Clean(w))
  {
    hide Known, Kept, SessionOk, FileMatches, KnownImage, KeptImage;
    var e := Entry(Quit, None);
    QuietEntry(t, h, e, 0);
    QuietEntry(t, h, e, 1);
    forall m, k
      ensures Known(h + [e], m, k) <==> Known(h, m, k)
      ensures Kept(h + [e], m, k) <==> Known(h, m, k)
    {
      KnownExtends(h, e, m, k);
      KeptExtends(h, e, m, k);
    }
    KeptEqualsKnown(t, h + [e], 0);
    KeptEqualsKnown(t, h + [e], 1);
    WholeFile(t, h + [e]);
  }

  lemma CrashMatches(t: seq<Floor>, h: Journal, w: World)
    requires TowerOk(t) && WorldOk(t, w) && Matches(t, h, w)
    ensures Matches(t, h + [Entry(Crash, None)], Kill(t, w))
  {
    hide Known, Kept, SessionOk, FileMatches;
    var e := Entry(Crash, None);
    FileUntouched(t, h, e, w.file);
    forall m, k ensures Known(h + [e], m, k) <==> Kept(h + [e], m, k) {
      KnownExtends(h, e, m, k);
      KeptExtends(h, e, m, k);
    }
  }

  // As far as a save got, the file holds what was known, which is now kept.
  lemma CutFloor(t: seq<Floor>, h: Journal, e: Entry, m: int)
    requires TowerOk(t) && 0 <= m < 2 && e.event.CrashInSave?
    ensures forall k :: 0 <= k < 84 && Offset(m, k) < e.event.written ==>
              KeptImage(t, h + [e], m)[k] == KnownImage(t, h, m)[k]
    ensures NothingKeptFrom(h + [e], m, e.event.written)
  {
    forall k ensures Kept(h + [e], m, k) <==> Known(h, m, k) && Offset(m, k) < e.event.written {
      KeptExtends(h, e, m, k);
    }
  }

  lemma CutFile(t: seq<Floor>, h: Journal, e: Entry, disp: seq<Bytes>)
    requires TowerOk(t) && DisplayMatches(t, h, disp) && e.event.CrashInSave? && e.event.written <= SAVE_SIZE
    ensures |disp| == 2 && FileMatches(t, h + [e], Some((disp[0] + disp[1])[..e.event.written]))
  {
    hide Kept, KnownImage, KeptImage, NothingKeptFrom;
    CutFloor(t, h, e, 0);
    CutFloor(t, h, e, 1);
    var n := e.event.written;
    var raw, kept := (disp[0] + disp[1])[..n], KeptImage(t, h + [e], 0) + KeptImage(t, h + [e], 1);
    forall i | 0 <= i < n ensures raw[i] == kept[i] {
      assert i < 84 ==> Offset(0, i) == i;
      assert i >= 84 ==> Offset(1, i - 84) == i;
    }
    assert raw == kept[..n];
  }

  lemma CutMatches(t: seq<Floor>, h: Journal, w: World, written: nat)
    requires TowerOk(t) && WorldOk(t, w) && w.session.Some? && written <= SAVE_SIZE && Matches(t, h, w)
    ensures Matches(t, h + [Entry(CrashInSave(written), None)], Cut(t, w, written))
  {
    hide Known, Kept, SessionOk, FileMatches;
    var e := Entry(CrashInSave(written), None);
    forall m, k ensures Known(h + [e], m, k) <==> Kept(h + [e], m, k) {
      KnownExtends(h, e, m, k);
      KeptExtends(h, e, m, k);
    }
    CutFile(t, h, e, w.disp);
  }

  lemma StartHinted(f: Floor, k: int)
    requires FloorOk(f) && 0 <= k < 84 && IsRoomByte(k) && CellOf(k) == f.start
    ensures k in Hints(f)
  {
  }

  lemma ShownFloor(t: seq<Floor>, h: Journal, s: Session, e: Entry)
    requires TowerOk(t) && SessionOk(t, s) && FlagsMatch(t, h + [e], s.visited)
    requires !Boundary(e.event) && e.at == Some(Place(s.user.mapId, Here(s.user)))
    ensures var m := s.user.mapId;
            Reveal(t[m].level, KnownImage(t, h, m), s.visited[m]) == KnownImage(t, h + [e], m)
  {
    var m := s.user.mapId;
    FirstIsImage(t[m]);
    forall k | 0 <= k < 84 && IsRoomByte(k) ensures
      k in Hints(t[m]) + KnownBytes(h + [e], m) <==> k in Hints(t[m]) + KnownBytes(h, m) || CellOf(k) in s.visited[m]
    {
      KnownExtends(h, e, m, k);
      assert (h + [e])[|h|] == e;
      if CellOf(k) == t[m].start {
        StartHinted(t[m], k);
      }
    }
    RevealImage(t[m].level, Hints(t[m]) + KnownBytes(h, m), s.visited[m], Hints(t[m]) + KnownBytes(h + [e], m));
  }

  lemma OtherFloor(t: seq<Floor>, h: Journal, e: Entry, m: int)
    requires TowerOk(t) && 0 <= m < 2
    requires !Boundary(e.event) && e.at.Some? && e.at.value.floor != m
    ensures KnownImage(t, h + [e], m) == KnownImage(t, h, m)
  {
    forall k ensures Known(h + [e], m, k) <==> Known(h, m, k) {
      KnownExtends(h, e, m, k);
      assert (h + [e])[|h|] == e;
    }
    SameKnown(t, h, h + [e], m);
  }

  /** The player's room is marked, and no other has been. */
  ghost predicate Gained(before: seq<set<Pos>>, s: Session) {
    && |before| == |s.visited| == 2
    && (forall p :: p in s.visited[0] <==> p in before[0] || (s.user.mapId == 0 && p == Here(s.user)))
    && (forall p :: p in s.visited[1] <==> p in before[1] || (s.user.mapId == 1 && p == Here(s.user)))
  }

  lemma FlagsGain(t: seq<Floor>, h: Journal, before: seq<set<Pos>>, s: Session, e: Entry)
    requires TowerOk(t) && FlagsMatch(t, h, before) && Gained(before, s)
    requires !Boundary(e.event) && e.at == Some(Place(s.user.mapId, Here(s.user)))
    ensures FlagsMatch(t, h + [e], s.visited)
  {
    forall m, p ensures StoodNow(h + [e], m, p) <==> e.at == Some(Place(m, p)) || StoodNow(h, m, p) {
      StoodNowExtends(h, e, m, p);
    }
  }

  lemma DisplayGain(t: seq<Floor>, h: Journal, disp: seq<Bytes>, s: Session, e: Entry)
    requires TowerOk(t) && SessionOk(t, s) && FlagsMatch(t, h + [e], s.visited) && DisplayMatches(t, h, disp)
    requires !Boundary(e.event) && e.at == Some(Place(s.user.mapId, Here(s.user)))
    ensures var m := s.user.mapId;
            DisplayMatches(t, h + [e], disp[m := Reveal(t[m].level, disp[m], s.visited[m])])
  {
    hide FlagsMatch, MaskOk, Reveal, KnownImage;
    ShownFloor(t, h, s, e);
    OtherFloor(t, h, e, 1 - s.user.mapId);
  }

  // An entry inside a session: the flags have gained the room now stood in, and
  // the floor it is on has been shown.
  lemma ShowMatches(t: seq<Floor>, h: Journal, w: World, s: Session, e: Entry)
    requires TowerOk(t) && Shaped(w) && w.session.Some? && Matches(t, h, w)
    requires SessionOk(t, s) && Gained(w.session.value.visited, s)
    requires !Boundary(e.event) && e.at == Some(Place(s.user.mapId, Here(s.user)))
    ensures Matches(t, h + [e], Show(t, w.(session := Some(s))))
  {
    hide FileMatches, FlagsMatch, DisplayMatches, Gained, MaskOk;
    FileUntouched(t, h, e, w.file);
    FlagsGain(t, h, w.session.value.visited, s, e);
    DisplayGain(t, h, w.disp, s, e);
  }

  // A move marks the room it ends in, and no other.
  lemma MoveVisits(t: seq<Floor>, s: Session, mode: Mode)
    requires TowerOk(t) && SessionOk(t, s)
    ensures Steady(s) && Gained(s.visited, Move(s, mode))
  {
    StandsInside(t, s);
  }

  lemma MovedMatches(t: seq<Floor>, h: Journal, w: World, mode: Mode, e: Entry)
    requires TowerOk(t) && Shaped(w) && w.session.Some? && Matches(t, h, w)
    requires SessionOk(t, w.session.value) && Steady(w.session.value) && !Boundary(e.event)
    requires e.at == Where(MoveShown(t, w, mode))
    ensures Matches(t, h + [e], MoveShown(t, w, mode))
  {
    hide Matches, Gained, MaskOk, Move;
    var s := w.session.value;
    MoveOk(t, s, mode);
    MoveVisits(t, s, mode);
    ShowMatches(t, h, w, Move(s, mode), e);
  }

  lemma WalkMatches(t: seq<Floor>, h: Journal, w: World, mode: Mode)
    requires TowerOk(t) && WorldOk(t, w) && Enabled(t, w, Walk(mode)) && Matches(t, h, w)
    ensures var after := Step(t, w, Walk(mode));
            Matches(t, h + [Entry(Walk(mode), Where(after))], after)
  {
    hide Matches, SessionOk, MoveShown;
    StandsInside(t, w.session.value);
    MovedMatches(t, h, w, mode, Entry(Walk(mode), Where(MoveShown(t, w, mode))));
  }

  // Changing floors moves no flag and draws nothing.
  lemma ClimbMatches(t: seq<Floor>, h: Journal, w: World, go: bool)
    requires TowerOk(t) && w.session.Some? && SessionOk(t, w.session.value)
    requires Steady(w.session.value) && Matches(t, h, w)
    ensures Matches(t, h, w.(session := Some(Climb(w.session.value, go))))
  {
    hide FileMatches, FlagsMatch, DisplayMatches;
  }

  lemma StairMatches(t: seq<Floor>, h: Journal, w: World, go: bool)
    requires TowerOk(t) && WorldOk(t, w) && Enabled(t, w, Stair(go)) && Matches(t, h, w)
    ensures var after := Step(t, w, Stair(go));
            Matches(t, h + [Entry(Stair(go), Where(after))], after)
  {
    hide Matches, SessionOk, MoveShown, Climb;
    var s := w.session.value;
    StandsInside(t, s);
    ClimbOk(t, s, go);
    StandsInside(t, Climb(s, go));
    var v := w.(session := Some(Climb(s, go)));
    ClimbMatches(t, h, w, go);
    MovedMatches(t, h, v, MoveAuto, Entry(Stair(go), Where(MoveShown(t, v, MoveAuto))));
  }

  lemma LookMatches(t: seq<Floor>, h: Journal, w: World)
    requires TowerOk(t) && WorldOk(t, w) && Enabled(t, w, Look) && Matches(t, h, w)
    ensures Matches(t, h + [Entry(Look, Where(Step(t, w, Look)))], Step(t, w, Look))
  {
    hide Matches, MaskOk;
    var s := w.session.value;
    assert w.(session := Some(s)) == w;
    ShowMatches(t, h, w, s, Entry(Look, Some(Place(s.user.mapId, Here(s.user)))));
  }

  /** Each event carries the match from one state to the next. */
  lemma StepMatches(t: seq<Floor>, h: Journal, w: World, e: Event, after: World)
    requires TowerOk(t) && CanStep(t, w, e, after) && Matches(t, h, w)
    ensures Matches(t, h + [Entry(e, Where(after))], after)
  {
    hide Matches, WorldOk;
    match e {
      case Enter => EnterMatches(t, h, w);
      case Walk(mode) => WalkMatches(t, h, w, mode);
      case Stair(go) => StairMatches(t, h, w, go);
      case Look => LookMatches(t, h, w);
      case Quit => QuitMatches(t, h, w);
      case Crash => CrashMatches(t, h, w);
      case CrashInSave(written) => CutMatches(t, h, w, written);
    }
  }

  lemma FreshMatches(t: seq<Floor>, es: seq<Event>, ws: seq<World>)
    requires TowerOk(t) && IsRun(t, es, ws)
    ensures Matches(t, JournalOf(es, ws)[..0], ws[0])
  {
    assert forall m, k :: !Known([], m, k) && !Kept([], m, k);
  }

  lemma NextMatches(t: seq<Floor>, es: seq<Event>, ws: seq<World>, n: nat)
    requires TowerOk(t) && IsRun(t, es, ws) && n < |es|
    requires Matches(t, JournalOf(es, ws)[..n], ws[n])
    ensures Matches(t, JournalOf(es, ws)[..n + 1], ws[n + 1])
  {
    hide Matches, CanStep;
    var h := JournalOf(es, ws);
    assert h[..n + 1] == h[..n] + [Entry(es[n], Where(ws[n + 1]))];
    StepMatches(t, h[..n], ws[n], es[n], ws[n + 1]);
  }

  lemma {:induction false} ExploredSoFar(t: seq<Floor>, es: seq<Event>, ws: seq<World>, n: nat)
    requires TowerOk(t) && IsRun(t, es, ws) && n <= |es|
    ensures Matches(t, JournalOf(es, ws)[..n], ws[n])
    decreases n
  {
    hide *;
    if n == 0 {
      FreshMatches(t, es, ws);
    } else {
      ExploredSoFar(t, es, ws, n - 1);
      NextMatches(t, es, ws, n - 1);
    }
  }

  /** In every run, through any number of sessions, crashes and restarts, the
      display buffers, the save file and the flags hold exactly what the
      journal says. */
  lemma ExploredExactly(t: seq<Floor>, es: seq<Event>, ws: seq<World>)
    requires TowerOk(t) && IsRun(t, es, ws)
    ensures Matches(t, JournalOf(es, ws), ws[|es|])
  {
    hide Matches, CanStep;
    ExploredSoFar(t, es, ws, |es|);
    assert JournalOf(es, ws)[..|es|] == JournalOf(es, ws);
  }
}
