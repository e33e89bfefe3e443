/**
 What has been explored, told by a journal alone: which event happened, and
 where the player stood after it. A byte of a room's glyph is explored when the
 player stood in the room and, later in the same session, its floor was shown,
 unless the process has died since without the session being closed first. It
 stays in the save file until a process dies while saving before it got there.
 */
module MapHistory {
  import opened Wrappers

  import opened MapTables
  import opened MapWorld

  datatype Place = Place(floor: int, room: Pos)
  datatype Entry = Entry(event: Event, at: Option<Place>)
  type Journal = seq<Entry>

  /** The process has ended without the session being closed. */
  predicate Death(e: Event) {
    e.Crash? || e.CrashInSave?
  }

  predicate Boundary(e: Event) {
    e == Enter || e == Quit || Death(e)
  }

  /** The save file has been written, or begun to be. */
  predicate Saves(e: Event) {
    e == Quit || e.CrashInSave?
  }

  /** Where a byte of a floor's drawing stands in the save file. */
  function Offset(m: int, k: int): int {
    84 * m + k
  }

  ghost predicate SameSession(h: Journal, from: int, to: int) {
    forall i :: 0 <= from < i <= to < |h| ==> !Boundary(h[i].event)
  }

  ghost predicate NoDeath(h: Journal, from: int, to: int) {
    forall i :: 0 <= from < i < to <= |h| ==> !Death(h[i].event)
  }

  predicate Spares(e: Event, off: int) {
    e.CrashInSave? ==> off < e.written
  }

  /** No process has died while saving, after entry `s`, before reaching the
      byte at this offset. */
  ghost predicate SparedSince(h: Journal, s: int, off: int) {
    forall i :: 0 <= s < i < |h| ==> Spares(h[i].event, off)
  }

  ghost predicate Stood(h: Journal, v: int, m: int, p: Pos) {
    0 <= v < |h| && h[v].at == Some(Place(m, p))
  }

  /** Entry `s` showed the map of floor `m`; every event inside a session does. */
  ghost predicate ShownAt(h: Journal, s: int, m: int) {
    0 <= s < |h| && !Boundary(h[s].event) && h[s].at.Some? && h[s].at.value.floor == m
  }

  /** Standing in the room of a byte, then showing its floor, all in one session. */
  ghost predicate Seen(h: Journal, m: int, k: int, v: int, s: int) {
    v <= s && Stood(h, v, m, CellOf(k)) && ShownAt(h, s, m) && SameSession(h, v, s)
  }

  /** The process of entry `s` saved its displays later, or began to. */
  ghost predicate SavedSince(h: Journal, s: int) {
    exists c :: 0 <= s < c < |h| && Saves(h[c].event) && NoDeath(h, s, c)
  }

  ghost predicate KnownSince(h: Journal, s: int, off: int) {
    SparedSince(h, s, off) && (NoDeath(h, s, |h|) || SavedSince(h, s))
  }

  /** The byte belongs on the display of a running session. */
  ghost predicate Known(h: Journal, m: int, k: int) {
    exists v, s :: Seen(h, m, k, v, s) && KnownSince(h, s, Offset(m, k))
  }

  ghost predicate KeptSince(h: Journal, s: int, off: int) {
    SparedSince(h, s, off) && SavedSince(h, s)
  }

  /** The byte belongs in the save file. */
  ghost predicate Kept(h: Journal, m: int, k: int) {
    exists v, s :: Seen(h, m, k, v, s) && KeptSince(h, s, Offset(m, k))
  }

  /** The player has stood in the room since the running session began. */
  ghost predicate StoodNow(h: Journal, m: int, p: Pos) {
    exists v :: Stood(h, v, m, p) && SameSession(h, v, |h| - 1)
  }

  // ----- One more entry -----

  lemma SeenExtends(h: Journal, e: Entry, m: int, k: int, v: int, s: int)
    requires s < |h|
    ensures Seen(h + [e], m, k, v, s) <==> Seen(h, m, k, v, s)
  {
    assert forall i :: 0 <= i < |h| ==> (h + [e])[i] == h[i];
  }

  lemma SavedExtends(h: Journal, e: Entry, s: int)
    requires 0 <= s < |h|
    ensures SavedSince(h + [e], s) <==> SavedSince(h, s) || (Saves(e.event) && NoDeath(h, s, |h|))
    ensures NoDeath(h + [e], s, |h| + 1) <==> NoDeath(h, s, |h|) && !Death(e.event)
  {
    var all := h + [e];
    assert forall i :: 0 <= i < |h| ==> all[i] == h[i];
    assert all[|h|] == e;
    if SavedSince(h, s) {
      var c :| 0 <= s < c < |h| && Saves(h[c].event) && NoDeath(h, s, c);
      assert Saves(all[c].event) && NoDeath(all, s, c);
    }
    if Saves(e.event) && NoDeath(h, s, |h|) {
      assert Saves(all[|h|].event) && NoDeath(all, s, |h|);
    }
    if SavedSince(all, s) {
      var c :| 0 <= s < c < |all| && Saves(all[c].event) && NoDeath(all, s, c);
      assert NoDeath(h, s, c);
    }
  }

  lemma SparedExtends(h: Journal, e: Entry, s: int, off: int)
    requires 0 <= s < |h|
    ensures SparedSince(h + [e], s, off) <==> SparedSince(h, s, off) && Spares(e.event, off)
  {
    var all := h + [e];
    assert forall i :: 0 <= i < |h| ==> all[i] == h[i];
    assert all[|h|] == e;
  }

  lemma SinceExtends(h: Journal, e: Entry, s: int, off: int)
    requires 0 <= s < |h|
    ensures KeptSince(h + [e], s, off) <==>
            Spares(e.event, off) && if Saves(e.event) then KnownSince(h, s, off) else KeptSince(h, s, off)
    ensures KnownSince(h + [e], s, off) <==>
            Spares(e.event, off) && if e.event.Crash? then KeptSince(h, s, off) else KnownSince(h, s, off)
  {
    SavedExtends(h, e, s);
    SparedExtends(h, e, s, off);
  }

  /** A save keeps all that is known, as far as it gets, and nothing else;
      no other event changes what is kept. */
  ghost predicate KeptNext(h: Journal, e: Entry, m: int, k: int) {
    Spares(e.event, Offset(m, k)) && if Saves(e.event) then Known(h, m, k) else Kept(h, m, k)
  }

  lemma KeptExtends(h: Journal, e: Entry, m: int, k: int)
    ensures Kept(h + [e], m, k) <==> KeptNext(h, e, m, k)
  {
    var all, off := h + [e], Offset(m, k);
    if Kept(all, m, k) {
      var v, s :| Seen(all, m, k, v, s) && KeptSince(all, s, off);
      SeenExtends(h, e, m, k, v, s);
      SinceExtends(h, e, s, off);
    }
    if Saves(e.event) && Known(h, m, k) {
      var v, s :| Seen(h, m, k, v, s) && KnownSince(h, s, off);
      SeenExtends(h, e, m, k, v, s);
      SinceExtends(h, e, s, off);
    } else if !Saves(e.event) && Kept(h, m, k) {
      var v, s :| Seen(h, m, k, v, s) && KeptSince(h, s, off);
      SeenExtends(h, e, m, k, v, s);
      SinceExtends(h, e, s, off);
    }
  }

  /** A crash leaves what was kept, and one while saving what was known as far
      as the save got; a showing adds the rooms of its floor in which the player
      has stood since the session began. */
  ghost predicate KnownNext(h: Journal, e: Entry, m: int, k: int) {
    || (Spares(e.event, Offset(m, k)) && if e.event.Crash? then Kept(h, m, k) else Known(h, m, k))
    || (ShownAt(h + [e], |h|, m) && StoodNow(h + [e], m, CellOf(k)))
  }

  lemma KnownNextIs(h: Journal, e: Entry, m: int, k: int)
    requires KnownNext(h, e, m, k)
    ensures Known(h + [e], m, k)
  {
    var all, off := h + [e], Offset(m, k);
    if ShownAt(all, |h|, m) && StoodNow(all, m, CellOf(k)) {
      var v :| Stood(all, v, m, CellOf(k)) && SameSession(all, v, |h|);
      assert Seen(all, m, k, v, |h|) && KnownSince(all, |h|, off);
    } else if e.event.Crash? {
      var v, s :| Seen(h, m, k, v, s) && KeptSince(h, s, off);
      SeenExtends(h, e, m, k, v, s);
      SinceExtends(h, e, s, off);
    } else {
      var v, s :| Seen(h, m, k, v, s) && KnownSince(h, s, off);
      SeenExtends(h, e, m, k, v, s);
      SinceExtends(h, e, s, off);
    }
  }

  lemma KnownExtends(h: Journal, e: Entry, m: int, k: int)
    ensures Known(h + [e], m, k) <==> KnownNext(h, e, m, k)
  {
    var all, off := h + [e], Offset(m, k);
    if Known(all, m, k) {
      var v, s :| Seen(all, m, k, v, s) && KnownSince(all, s, off);
      if s < |h| {
        SeenExtends(h, e, m, k, v, s);
        SinceExtends(h, e, s, off);
      } else {
        assert Stood(all, v, m, CellOf(k)) && SameSession(all, v, |h|);
      }
    }
    if KnownNext(h, e, m, k) {
      KnownNextIs(h, e, m, k);
    }
  }

  /** A boundary ends the session; anything else adds the room now stood in. */
  lemma StoodNowExtends(h: Journal, e: Entry, m: int, p: Pos)
    ensures StoodNow(h + [e], m, p) <==>
            e.at == Some(Place(m, p)) || (!Boundary(e.event) && StoodNow(h, m, p))
  {
    var all := h + [e];
    assert forall i :: 0 <= i < |h| ==> all[i] == h[i];
    assert all[|h|] == e;
    if StoodNow(all, m, p) {
      var v :| Stood(all, v, m, p) && SameSession(all, v, |h|);
      if v < |h| {
        assert !Boundary(all[|h|].event);
        assert Stood(h, v, m, p) && SameSession(h, v, |h| - 1);
      }
    }
    if e.at == Some(Place(m, p)) {
      assert Stood(all, |h|, m, p) && SameSession(all, |h|, |h|);
    }
    if !Boundary(e.event) && StoodNow(h, m, p) {
      var v :| Stood(h, v, m, p) && SameSession(h, v, |h| - 1);
      assert Stood(all, v, m, p) && SameSession(all, v, |h|);
    }
  }

  // ----- Durability -----

  /** No process of these entries has died while saving before it reached the byte. */
  ghost predicate Spared(more: Journal, off: int) {
    forall i :: 0 <= i < |more| ==> Spares(more[i].event, off)
  }

  /** The player does not stand in the room in these entries. */
  ghost predicate Unvisited(more: Journal, m: int, p: Pos) {
    forall i :: 0 <= i < |more| ==> more[i].at != Some(Place(m, p))
  }

  lemma KeptIsKnown(h: Journal, m: int, k: int)
    requires Kept(h, m, k)
    ensures Known(h, m, k)
  {
    var v, s :| Seen(h, m, k, v, s) && KeptSince(h, s, Offset(m, k));
    assert KnownSince(h, s, Offset(m, k));
  }

  /** What is kept stays kept, unless a later process dies while saving it. */
  lemma {:induction false} KeptWhileSpared(h: Journal, more: Journal, m: int, k: int)
    requires Kept(h, m, k) && Spared(more, Offset(m, k))
    ensures Kept(h + more, m, k)
    decreases |more|
  {
    if more == [] {
      assert h + more == h;
    } else {
      var e := more[|more| - 1];
      var init := more[..|more| - 1];
      KeptWhileSpared(h, init, m, k);
      KeptIsKnown(h + init, m, k);
      KeptExtends(h + init, e, m, k);
      assert h + init + [e] == h + more;
    }
  }

  /** And then only standing in the room again can bring it back. */
  lemma LostUntilRevisited(h: Journal, more: Journal, m: int, k: int)
    requires Unvisited(more, m, CellOf(k)) && !Spared(more, Offset(m, k))
    ensures !Known(h + more, m, k)
  {
    var all, off := h + more, Offset(m, k);
    var i :| 0 <= i < |more| && !Spares(more[i].event, off);
    assert forall j :: |h| <= j < |all| ==> all[j] == more[j - |h|];
    forall v, s | Seen(all, m, k, v, s) ensures !SparedSince(all, s, off) {
      assert v < |h|;
      assert Boundary(all[|h| + i].event);
    }
  }

  /** When a kept byte survives: as long as its room is not entered again,
      exactly if no later process dies while saving before reaching it. */
  lemma KeptExactly(h: Journal, more: Journal, m: int, k: int)
    requires Kept(h, m, k) && Unvisited(more, m, CellOf(k))
    ensures Kept(h + more, m, k) <==> Spared(more, Offset(m, k))
    ensures Known(h + more, m, k) <==> Spared(more, Offset(m, k))
  {
    if Spared(more, Offset(m, k)) {
      KeptWhileSpared(h, more, m, k);
      KeptIsKnown(h + more, m, k);
    } else {
      LostUntilRevisited(h, more, m, k);
      if Kept(h + more, m, k) {
        KeptIsKnown(h + more, m, k);
      }
    }
  }

  /** Closing a session makes all that is known durable: whatever follows, it is
      lost only to a process that dies while saving it. */
  lemma QuitThenCrash(h: Journal, quit: Entry, more: Journal, m: int, k: int)
    requires quit.event == Quit && Known(h, m, k)
    ensures Spared(more, Offset(m, k)) ==> Kept(h + [quit] + more, m, k) && Known(h + [quit] + more, m, k)
    ensures Unvisited(more, m, CellOf(k)) ==> (Known(h + [quit] + more, m, k) <==> Spared(more, Offset(m, k)))
  {
    KeptExtends(h, quit, m, k);
    if Spared(more, Offset(m, k)) {
      KeptWhileSpared(h + [quit], more, m, k);
      KeptIsKnown(h + [quit] + more, m, k);
    } else if Unvisited(more, m, CellOf(k)) {
      LostUntilRevisited(h + [quit], more, m, k);
    }
  }

  /** While no process dies nothing is forgotten. */
  lemma {:induction false} KnownGrows(h: Journal, more: Journal, m: int, k: int)
    requires Known(h, m, k)
    requires forall i :: 0 <= i < |more| ==> !Death(more[i].event)
    ensures Known(h + more, m, k)
    decreases |more|
  {
    if more == [] {
      assert h + more == h;
    } else {
      var e := more[|more| - 1];
      var init := more[..|more| - 1];
      KnownGrows(h, init, m, k);
      KnownExtends(h + init, e, m, k);
      assert h + init + [e] == h + more;
    }
  }
}
