/**
 What the menus promise for every keyboard trace: a pause is transparent to the
 menu it interrupts, pauses do not nest, flips come in pairs, markers and
 cursors agree, and the start menu answers what was chosen in it.
 */
module UiProps {
  import opened UiModel

  // ----- Below a flipped screen no menu pauses -----

  ghost predicate VolumesInRange(u: Ui) {
    0 <= u.bgm <= 10 && 0 <= u.se <= 10
  }

  /** All that a menu shown on buffer 1 may change: the keyboard, buffer 1
      itself and the volumes. */
  ghost predicate InnerKeeps(u: Ui, v: Ui) {
    && v.screen == u.screen == 1
    && v.buf0 == u.buf0
    && v.flips == u.flips && v.depth == u.depth && v.peak == u.peak
    && v.joins == u.joins && v.logins == u.logins
    && (VolumesInRange(u) ==> VolumesInRange(v))
  }

  ghost predicate RowsFit(rows: seq<string>) {
    forall i :: 0 <= i < |rows| ==> |rows[i]| > 0
  }

  lemma {:induction false} SelectInner(u: Ui, x: int, y: int, cur: int, rows: seq<string>)
    requires u.screen == 1 && RowsFit(rows)
    ensures InnerKeeps(u, SelectLoop(u, x, y, cur, rows).u)
    decreases |u.input|
  {
    var k := KeyInput(u, cur, 0, |rows| - 1);
    if k.out == Again && 0 <= k.cur < |rows| {
      var marked := Mark(rows, k.cur);
      SelectInner(Paint(k.u, Lines(x, y, marked, k.cur)), x, y, k.cur, marked);
    }
  }

  lemma {:induction false} SoundInner(u: Ui, x: int, y: int, bgm: int, se: int, cur: int)
    requires u.screen == 1
    ensures InnerKeeps(u, SoundLoop(u, x, y, bgm, se, cur).u)
    ensures SoundLoop(u, x, y, bgm, se, cur).out != Fault
    decreases |u.input|
  {
    var k := KeyInput(u, cur, 0, 2);
    if k.out == Again {
      SoundInner(Paint(k.u, SoundLines(x, y, bgm, se, k.cur, RED)), x, y, bgm, se, k.cur);
    }
  }

  /** The volume keys touch nothing but the volumes and the active buffer, on
      either buffer. */
  ghost predicate VolumeKeeps(u: Ui, v: Ui) {
    && v.screen == u.screen
    && (u.screen == 0 ==> v.buf1 == u.buf1)
    && (u.screen == 1 ==> v.buf0 == u.buf0)
    && v.flips == u.flips && v.depth == u.depth && v.peak == u.peak
    && v.joins == u.joins && v.logins == u.logins
    && (VolumesInRange(u) ==> VolumesInRange(v))
  }

  lemma VolumeKeepsKey(u: Ui, music: bool, x: int, y: int)
    ensures VolumeKeeps(u, KeyInputSound(u, music, x, y).u)
  {
  }

  lemma {:induction false} VolumeKeepsAll(u: Ui, music: bool, x: int, y: int)
    ensures VolumeKeeps(u, VolumeLoop(u, music, x, y).u)
    decreases |u.input|
  {
    hide KeyInputSound;
    VolumeKeepsKey(u, music, x, y);
    var k := KeyInputSound(u, music, x, y);
    if k.out == Again {
      VolumeKeepsAll(k.u, music, x, y);
    }
  }

  lemma ToggleSoundInner(u: Ui, x: int, y: int)
    requires u.screen == 1
    ensures InnerKeeps(u, ToggleSound(u, x, y).u)
    ensures ToggleSound(u, x, y).out != Fault
  {
    var v := Paint(u, [Wipe(x, y, 20, 3)]);
    SoundInner(v, x, y, u.bgm, u.se, 0);
    var k := SoundLoop(v, x, y, u.bgm, u.se, 0);
    VolumeKeepsAll(k.u, k.cur == 0, x, y);
  }

  lemma {:induction false} ToggleInner(u: Ui, x: int, y: int)
    requires u.screen == 1
    ensures InnerKeeps(u, ToggleAll(u, x, y).u)
    ensures ToggleAll(u, x, y).out != Fault
    decreases |u.input|
  {
    ToggleSoundInner(u, x, y);
    var t := ToggleSound(u, x, y);
    if t.out == Done && t.more {
      ToggleInner(t.u, x, y);
    }
  }

  // ----- A pause from the front buffer -----

  /** How a pause that has returned, or anything that may pause, leaves the
      menu below: the front buffer, the counters of account calls and the
      nesting are as they were, and every flip has been taken back. */
  ghost predicate Transparent(u: Ui, v: Ui) {
    && v.screen == u.screen == 0
    && v.buf0 == u.buf0
    && v.joins == u.joins && v.logins == u.logins
    && v.depth == u.depth
    && (VolumesInRange(u) ==> VolumesInRange(v))
  }

  /** Even when the keyboard runs out half way, no second pause was opened. */
  ghost predicate NoNesting(u: Ui, v: Ui) {
    && v.peak <= (if u.depth + 1 > u.peak then u.depth + 1 else u.peak)
    && v.joins == u.joins && v.logins == u.logins
  }

  lemma {:induction false} InnerNoFault(u: Ui, x: int, y: int, cur: int, rows: seq<string>)
    requires u.screen == 1 && RowsFit(rows) && 0 <= cur < |rows|
    ensures SelectLoop(u, x, y, cur, rows).out != Fault
    decreases |u.input|, 0
  {
    var k := KeyInput(u, cur, 0, |rows| - 1);
    if k.out == Again {
      var marked := Mark(rows, k.cur);
      InnerNoFault(Paint(k.u, Lines(x, y, marked, k.cur)), x, y, k.cur, marked);
    }
  }

  lemma MenuInner(u: Ui, x: int, y: int, cur: int, rows: seq<string>, col: int)
    requires u.screen == 1 && RowsFit(rows) && 0 <= cur < |rows|
    ensures InnerKeeps(u, SelectMenu(u, x, y, cur, rows, col).u)
    ensures SelectMenu(u, x, y, cur, rows, col).out != Fault
  {
    var w := Paint(u, [Wipe(x, y, col, |rows|)]);
    SelectInner(w, x, y, cur, rows);
    InnerNoFault(w, x, y, cur, rows);
  }

  // What the last two calls of the pause menu make of its state.
  lemma PauseEnds(u: Ui, v: Ui, s: SelectResult, t: UiResult)
    requires u.screen == 0 && v == Paint(Flip(Enter(u)), [Border(24, 10)])
    requires InnerKeeps(v, s.u) && InnerKeeps(s.u, t.u)
    ensures NoNesting(u, t.u) && t.u.buf0 == u.buf0
    ensures var w := Leave(Flip(Blank(t.u)));
            Transparent(u, w) && NoNesting(u, w) && w.flips == u.flips + 2 && w.buf1 == []
  {
  }

  /** The pause menu: two flips, the front buffer untouched, the back buffer
      left blank, and no pause inside it. */
  lemma PauseTransparent(u: Ui)
    requires u.screen == 0
    ensures var p := MenuPause(u);
            && p.out != Fault
            && NoNesting(u, p.u) && p.u.buf0 == u.buf0
            && (p.out == Done ==> Transparent(u, p.u) && p.u.flips == u.flips + 2 && p.u.buf1 == [])
    decreases |u.input|, 1
  {
    hide SelectLoop, ToggleAll, KeyInput, Pad;
    var v := Paint(Flip(Enter(u)), [Border(24, 10)]);
    var rows := Pad(PAUSE_TEXT);
    MenuInner(v, 30, 12, 0, rows, 20);
    var s := SelectMenu(v, 30, 12, 0, rows, 20);
    if s.out == Done && s.cur == 0 {
      ToggleInner(s.u, 31, 13);
      PauseEnds(u, v, s, ToggleAll(s.u, 31, 13));
    } else {
      PauseEnds(u, v, s, UiResult(s.out, s.u));
    }
  }

  lemma KeyScreen(u: Ui, cur: int, lo: int, hi: int)
    ensures var k := KeyInput(u, cur, lo, hi);
            && NoNesting(u, k.u)
            && (u.screen == 1 ==> InnerKeeps(u, k.u))
            && (u.screen == 0 && k.out == Again ==>
                  Transparent(u, k.u) && (k.u.flips == u.flips || k.u.flips == u.flips + 2))
            && (u.screen == 0 && k.out == Done ==> k.u == u.(input := k.u.input) && k.cur == cur)
  {
    if u.screen == 0 && u.input != [] && u.input[0] == Key(KEY_ESC) {
      PauseTransparent(u.(input := u.input[1..]));
    }
  }

  /** One key leaves an in-range cursor in range, unless it is the escape key
      on buffer 1; and it writes outside no rows. */
  lemma KeyKeepsRange(u: Ui, cur: int, lo: int, hi: int)
    requires lo <= cur <= hi
    ensures var k := KeyInput(u, cur, lo, hi);
            && k.out != Fault
            && (lo <= k.cur <= hi || (k.cur == ESC_CURSOR && k.out == Done && u.screen == 1))
            && (k.out != Again && k.cur != cur ==> k.cur == ESC_CURSOR)
  {
    if u.screen == 0 && u.input != [] && u.input[0] == Key(KEY_ESC) {
      PauseTransparent(u.(input := u.input[1..]));
    }
  }

  // ----- Markers and cursors -----

  /** The menu's text with exactly one marked row. */
  ghost predicate MarkedAt(rows: seq<string>, base: seq<string>, cur: int) {
    && 0 <= cur < |rows| == |base|
    && (forall i :: 0 <= i < |rows| ==> |rows[i]| == |base[i]| > 0)
    && (forall i :: 0 <= i < |rows| ==> (rows[i][0] == '>' <==> i == cur))
    && (forall i :: 0 <= i < |rows| ==> rows[i][1..] == base[i][1..])
  }

  /** The text either was never redrawn, or carries the marker of `cur`. */
  ghost predicate MarkerAgrees(r: SelectResult, cur: int, rows: seq<string>) {
    (r.rows == rows && r.cur == cur) || MarkedAt(r.rows, rows, r.cur)
  }

  lemma MarkMarks(rows: seq<string>, base: seq<string>, cur: int)
    requires RowsFit(rows) && 0 <= cur < |rows| == |base|
    requires forall i :: 0 <= i < |rows| ==> |base[i]| == |rows[i]| && rows[i][1..] == base[i][1..]
    ensures MarkedAt(Mark(rows, cur), base, cur)
  {
    forall i | 0 <= i < |rows| ensures Mark(rows, cur)[i][1..] == base[i][1..] {
      assert Mark(rows, cur)[i][1..] == rows[i][1..];
    }
  }

  lemma MarkedTrans(rows: seq<string>, mid: seq<string>, base: seq<string>)
    requires |mid| == |base| && forall i :: 0 <= i < |mid| ==> |mid[i]| == |base[i]| > 0 && mid[i][1..] == base[i][1..]
    ensures forall c :: MarkedAt(rows, mid, c) ==> MarkedAt(rows, base, c)
  {
  }

  /** A menu entered with a cursor on one of its rows never writes outside
      them; it ends on a row whose marker, once drawn, is the only one, or at
      the escape cursor, and the escape cursor only on buffer 1. */
  lemma {:induction false} MarkerFollowsCursor(u: Ui, x: int, y: int, cur: int, rows: seq<string>)
    requires RowsFit(rows) && 0 <= cur < |rows|
    ensures var r := SelectLoop(u, x, y, cur, rows);
            && r.out != Fault
            && (0 <= r.cur < |rows| ==> MarkerAgrees(r, cur, rows))
            && (0 <= r.cur < |rows| || (r.cur == ESC_CURSOR && r.out == Done && u.screen == 1))
            && (r.cur == ESC_CURSOR ==> r.rows == rows || exists c :: MarkedAt(r.rows, rows, c))
    decreases |u.input|
  {
    hide KeyInput, Mark;
    KeyKeepsRange(u, cur, 0, |rows| - 1);
    var k := KeyInput(u, cur, 0, |rows| - 1);
    if k.out == Again {
      var marked := Mark(rows, k.cur);
      var v := Paint(k.u, Lines(x, y, marked, k.cur));
      MarkMarks(rows, rows, k.cur);
      KeyScreen(u, cur, 0, |rows| - 1);
      MarkerFollowsCursor(v, x, y, k.cur, marked);
      var r := SelectLoop(v, x, y, k.cur, marked);
      assert r == SelectLoop(u, x, y, cur, rows);
      MarkedTrans(r.rows, marked, rows);
      assert r.rows == marked ==> MarkedAt(r.rows, rows, k.cur);
    }
  }
}
