/**
 What the menus leave on the console buffers, draw by draw.
 */
module UiDraws {
  import opened Wrappers

  import opened UiModel
  import opened UiProps
  import opened UiKeys
  import opened UiStart
  import opened UiSound

  function Buffer(u: Ui, screen: Bit): seq<Draw> {
    if screen == 0 then u.buf0 else u.buf1
  }

  /** Draws were added, all of them texts, and none taken away. */
  ghost predicate AddsTexts(before: seq<Draw>, after: seq<Draw>) {
    before <= after && forall i :: |before| <= i < |after| ==> after[i].Line?
  }

  /** Waiting for a key, and a pause while waiting, draw nothing on the buffer
      of the menu that waits. */
  lemma KeyDrawsNothing(u: Ui, cur: int, lo: int, hi: int)
    ensures Buffer(KeyInput(u, cur, lo, hi).u, u.screen) == Buffer(u, u.screen)
  {
    if u.screen == 0 && u.input != [] && u.input[0] == Key(KEY_ESC) {
      PauseTransparent(u.(input := u.input[1..]));
    }
  }

  // ----- Menus of rows -----

  /** A menu's text stands at the start of its rows, and NULs fill them up. */
  lemma PadHolds(text: seq<string>, i: nat)
    requires i < |text| && |text[i]| <= MAX_ARRAY_SIZE
    ensures text[i] <= Pad(text)[i] && forall j :: |text[i]| <= j < MAX_ARRAY_SIZE ==> Pad(text)[i][j] == '\0'
  {
  }

  ghost predicate RowDrawn(d: Draw, x: int, y: int, text: string, chosen: bool) {
    && d.Line? && d.x == x && d.y == y && d.text == text
    && (d.colour == RED <==> chosen) && (d.colour == WHITE <==> !chosen)
  }

  /** The last draws are these rows, one under the other, the one at `c` in red
      and the others in white. */
  ghost predicate RowsDrawn(buffer: seq<Draw>, x: int, y: int, rows: seq<string>, c: int) {
    && |buffer| >= |rows|
    && forall i :: 0 <= i < |rows| ==> RowDrawn(buffer[|buffer| - |rows| + i], x, y + i, rows[i], i == c)
  }

  lemma LinesDrawn(buffer: seq<Draw>, x: int, y: int, rows: seq<string>, c: int)
    ensures RowsDrawn(buffer + Lines(x, y, rows, c), x, y, rows, c)
    ensures AddsTexts(buffer, buffer + Lines(x, y, rows, c))
  {
  }

  ghost predicate ShowsRow(r: SelectResult, screen: Bit, x: int, y: int, rows: seq<string>, c: int) {
    && MarkedAt(r.rows, rows, c) && RowsDrawn(Buffer(r.u, screen), x, y, r.rows, c)
    && (r.cur == c || r.cur == ESC_CURSOR)
  }

  /** From a buffer on, a menu has only added texts. Either it was never redrawn,
      or its rows are the last thing on its buffer, one of them marked and that
      one alone in red, and that is the row it ended on unless by escape. */
  ghost predicate ShowsRows(base: seq<Draw>, r: SelectResult, screen: Bit,
        x: int, y: int, cur: int, rows: seq<string>)
  {
    && AddsTexts(base, Buffer(r.u, screen))
    && (|| (r.rows == rows && Buffer(r.u, screen) == base && (r.cur == cur || r.cur == ESC_CURSOR))
        || (exists c :: ShowsRow(r, screen, x, y, rows, c)))
  }

  lemma ShowsJoin(base: seq<Draw>, mid: seq<Draw>, r: SelectResult, screen: Bit,
        x: int, y: int, cur: int, rows: seq<string>, next: int, marked: seq<string>)
    requires MarkedAt(marked, rows, next) && AddsTexts(base, mid) && RowsDrawn(mid, x, y, marked, next)
    requires ShowsRows(mid, r, screen, x, y, next, marked)
    ensures ShowsRows(base, r, screen, x, y, cur, rows)
  {
    hide RowsDrawn;
    if r.rows == marked && Buffer(r.u, screen) == mid && (r.cur == next || r.cur == ESC_CURSOR) {
      assert ShowsRow(r, screen, x, y, rows, next);
    } else {
      var c :| ShowsRow(r, screen, x, y, marked, c);
      MarkedTrans(r.rows, marked, rows);
      assert ShowsRow(r, screen, x, y, rows, c);
    }
  }

  lemma NeverDrawn(base: seq<Draw>, r: SelectResult, screen: Bit, x: int, y: int, cur: int, rows: seq<string>)
    requires r.rows == rows && Buffer(r.u, screen) == base && (r.cur == cur || r.cur == ESC_CURSOR)
    ensures ShowsRows(base, r, screen, x, y, cur, rows)
  {
  }

  // A turn of the menu's loop that starts on a row or at the escape cursor.
  lemma AnyTurn(u: Ui, x: int, y: int, cur: int, rows: seq<string>, k: KeyResult)
    requires RowsFit(rows) && ESC_CURSOR <= cur < |rows| && |rows| > 0 && k == KeyInput(u, cur, 0, |rows| - 1)
    ensures k.out == Again && 0 <= k.cur ==>
      && k.cur < |rows| && k.u.screen == u.screen
      && SelectLoop(u, x, y, cur, rows) ==
         SelectLoop(Paint(k.u, Lines(x, y, Mark(rows, k.cur), k.cur)), x, y, k.cur, Mark(rows, k.cur))
    ensures k.out == Again && k.cur < 0 ==> SelectLoop(u, x, y, cur, rows).out == Fault
    ensures k.out != Again ==>
      && SelectLoop(u, x, y, cur, rows) == SelectResult(k.out, k.u, k.cur, rows)
      && (k.cur == cur || k.cur == ESC_CURSOR)
  {
    KeyScreen(u, cur, 0, |rows| - 1);
    if 0 <= cur {
      SelectTurn(u, x, y, cur, rows, k);
    }
  }

  lemma {:induction false} LoopOnTop(u: Ui, x: int, y: int, cur: int, rows: seq<string>)
    requires RowsFit(rows) && ESC_CURSOR <= cur < |rows| && |rows| > 0
    ensures var r := SelectLoop(u, x, y, cur, rows);
            r.out != Fault ==> ShowsRows(Buffer(u, u.screen), r, u.screen, x, y, cur, rows)
    decreases |u.input|
  {
    hide KeyInput, ShowsRows, RowsDrawn, MarkedAt, AddsTexts, Lines, Mark;
    KeyDrawsNothing(u, cur, 0, |rows| - 1);
    var k := KeyInput(u, cur, 0, |rows| - 1);
    AnyTurn(u, x, y, cur, rows, k);
    if k.out != Again {
      NeverDrawn(Buffer(u, u.screen), SelectLoop(u, x, y, cur, rows), u.screen, x, y, cur, rows);
    } else if 0 <= k.cur {
      var marked := Mark(rows, k.cur);
      var v := Paint(k.u, Lines(x, y, marked, k.cur));
      MarkMarks(rows, rows, k.cur);
      LinesDrawn(Buffer(k.u, u.screen), x, y, marked, k.cur);
      LoopOnTop(v, x, y, k.cur, marked);
      var r := SelectLoop(v, x, y, k.cur, marked);
      if r.out != Fault {
        ShowsJoin(Buffer(u, u.screen), Buffer(v, u.screen), r, u.screen, x, y, cur, rows, k.cur, marked);
      }
    }
  }

  /** Through any number of pauses and until its end a menu, on either buffer,
      adds its cleared area, and then only its rows; the last of them are what the
      player sees, one marked and that one alone in red. */
  lemma MenuOnTop(u: Ui, x: int, y: int, cur: int, rows: seq<string>, col: int)
    requires RowsFit(rows) && ESC_CURSOR <= cur < |rows| && |rows| > 0
    ensures var r := SelectMenu(u, x, y, cur, rows, col);
            r.out != Fault ==>
              ShowsRows(Buffer(u, u.screen) + [Wipe(x, y, col, |rows|)], r, u.screen, x, y, cur, rows)
  {
    LoopOnTop(Paint(u, [Wipe(x, y, col, |rows|)]), x, y, cur, rows);
  }

  // ----- How often a menu is redrawn -----

  /** The polls after which a menu is redrawn: all up to the one that ends it,
      those of a pause over it counted as the one that opened it. */
  function Turns(polls: seq<Poll>, screen: Bit): nat
    decreases |polls|
  {
    if polls == [] then 0
    else if polls[0] == Key(EXTEND_KEY) then
      match Getch(polls[1..])
      case None => 0
      case Some((_, rest)) => 1 + Turns(rest, screen)
    else if polls[0] == Key(KEY_Z) then 0
    else if polls[0] == Key(KEY_ESC) then
      if screen == 1 then 0
      else
        match PauseKeys(polls[1..])
        case None => 0
        case Some(rest) => 1 + Turns(rest, screen)
    else 1 + Turns(polls[1..], screen)
  }

  lemma KeyTurns(u: Ui, cur: int, lo: int, hi: int)
    ensures var k := KeyInput(u, cur, lo, hi);
            Turns(u.input, u.screen) == if k.out == Again then 1 + Turns(k.u.input, u.screen) else 0
  {
    hide PauseKeys, MenuPause;
    if u.screen == 0 && u.input != [] {
      PauseReads(u.(input := u.input[1..]));
    }
  }

  /** Each of these polls redraws all the rows, no other does. */
  lemma {:induction false} LoopRedraws(u: Ui, x: int, y: int, cur: int, rows: seq<string>)
    requires RowsFit(rows) && ESC_CURSOR <= cur < |rows| && |rows| > 0
    ensures var r := SelectLoop(u, x, y, cur, rows);
            r.out != Fault ==>
              |Buffer(r.u, u.screen)| == |Buffer(u, u.screen)| + |rows| * Turns(u.input, u.screen)
    decreases |u.input|
  {
    hide KeyInput, Turns, Mark;
    KeyDrawsNothing(u, cur, 0, |rows| - 1);
    KeyTurns(u, cur, 0, |rows| - 1);
    var k := KeyInput(u, cur, 0, |rows| - 1);
    AnyTurn(u, x, y, cur, rows, k);
    if k.out == Again && 0 <= k.cur {
      var marked := Mark(rows, k.cur);
      MarkMarks(rows, rows, k.cur);
      LoopRedraws(Paint(k.u, Lines(x, y, marked, k.cur)), x, y, k.cur, marked);
      assert |rows| * (1 + Turns(k.u.input, u.screen)) == |rows| + |rows| * Turns(k.u.input, u.screen);
    }
  }

  // ----- The sound menu -----

  /** The last three draws are the two volumes and the exit, one under the other,
      the row at `c` in the given hue and the others in white. */
  ghost predicate SoundDrawn(buffer: seq<Draw>, x: int, y: int, bgm: int, se: int, c: int, hue: int) {
    && |buffer| >= 3
    && var top := buffer[|buffer| - 3..];
       && top[0] == Volume(x, y, bgm, if c == 0 then hue else WHITE)
       && top[1] == Volume(x, y + 1, se, if c == 1 then hue else WHITE)
       && top[2] == Line(x, y + 2, "   -- Exit --", if c == 2 then hue else WHITE)
  }

  lemma SoundLinesDrawn(buffer: seq<Draw>, x: int, y: int, bgm: int, se: int, c: int, hue: int)
    ensures SoundDrawn(buffer + SoundLines(x, y, bgm, se, c, hue), x, y, bgm, se, c, hue)
    ensures buffer <= buffer + SoundLines(x, y, bgm, se, c, hue)
  {
  }

  /** The choice of a volume: never redrawn, or its three lines last, the row it
      ended on in red unless by escape. */
  ghost predicate ShowsSound(base: seq<Draw>, r: KeyResult, screen: Bit, x: int, y: int, bgm: int, se: int, cur: int) {
    && base <= Buffer(r.u, screen)
    && (|| (Buffer(r.u, screen) == base && (r.cur == cur || r.cur == ESC_CURSOR))
        || (exists c :: 0 <= c < 3 && SoundDrawn(Buffer(r.u, screen), x, y, bgm, se, c, RED)
              && (r.cur == c || r.cur == ESC_CURSOR)))
  }

  lemma {:induction false} SoundOnTop(u: Ui, x: int, y: int, bgm: int, se: int, cur: int)
    requires 0 <= cur < 3
    ensures ShowsSound(Buffer(u, u.screen), SoundLoop(u, x, y, bgm, se, cur), u.screen, x, y, bgm, se, cur)
    decreases |u.input|
  {
    hide KeyInput, SoundDrawn, SoundLines;
    KeyDrawsNothing(u, cur, 0, 2);
    KeyKeepsRange(u, cur, 0, 2);
    KeyScreen(u, cur, 0, 2);
    var k := KeyInput(u, cur, 0, 2);
    if k.out == Again {
      SoundLinesDrawn(Buffer(k.u, u.screen), x, y, bgm, se, k.cur, RED);
      SoundOnTop(Paint(k.u, SoundLines(x, y, bgm, se, k.cur, RED)), x, y, bgm, se, k.cur);
    }
  }

  /** The turning of a volume: nothing drawn and nothing turned, or last the two
      volumes as they now are, the one that is turned in yellow. */
  ghost predicate ShowsVolumes(u: Ui, v: Ui, x: int, y: int, row: int) {
    && v.screen == u.screen && Buffer(u, u.screen) <= Buffer(v, u.screen)
    && (|| (Buffer(v, u.screen) == Buffer(u, u.screen) && VolumesOf(v) == VolumesOf(u))
        || SoundDrawn(Buffer(v, u.screen), x, y, v.bgm, v.se, row, YELLOW))
  }

  lemma VolumeKeyDraws(u: Ui, music: bool, x: int, y: int)
    ensures var k := KeyInputSound(u, music, x, y);
            && k.u.screen == u.screen
            && (k.out != Again ==> Buffer(k.u, u.screen) == Buffer(u, u.screen) && VolumesOf(k.u) == VolumesOf(u))
            && (k.out == Again ==>
                  Buffer(k.u, u.screen) ==
                  Buffer(u, u.screen) + SoundLines(x, y, k.u.bgm, k.u.se, if music then 0 else 1, YELLOW))
  {
    hide SoundLines, Turn;
  }

  lemma {:induction false} VolumeOnTop(u: Ui, music: bool, x: int, y: int)
    ensures ShowsVolumes(u, VolumeLoop(u, music, x, y).u, x, y, if music then 0 else 1)
    decreases |u.input|
  {
    hide KeyInputSound, SoundDrawn, SoundLines;
    VolumeKeyDraws(u, music, x, y);
    var k := KeyInputSound(u, music, x, y);
    if k.out == Again {
      SoundLinesDrawn(Buffer(u, u.screen), x, y, k.u.bgm, k.u.se, if music then 0 else 1, YELLOW);
      VolumeOnTop(k.u, music, x, y);
    }
  }

  lemma {:induction false} SoundRedraws(u: Ui, x: int, y: int, bgm: int, se: int, cur: int)
    ensures var r := SoundLoop(u, x, y, bgm, se, cur);
            |Buffer(r.u, u.screen)| == |Buffer(u, u.screen)| + 3 * Turns(u.input, u.screen)
    decreases |u.input|
  {
    hide KeyInput, Turns;
    KeyDrawsNothing(u, cur, 0, 2);
    KeyTurns(u, cur, 0, 2);
    KeyScreen(u, cur, 0, 2);
    var k := KeyInput(u, cur, 0, 2);
    if k.out == Again {
      SoundRedraws(Paint(k.u, SoundLines(x, y, bgm, se, k.cur, RED)), x, y, bgm, se, k.cur);
    }
  }

  /** The polls after which the volumes are redrawn: all before Z. */
  function VolumePolls(polls: seq<Poll>): nat
    decreases |polls|
  {
    if polls == [] then 0
    else if polls[0] == Key(EXTEND_KEY) then
      match Getch(polls[1..])
      case None => 0
      case Some((_, rest)) => 1 + VolumePolls(rest)
    else if polls[0] == Key(KEY_Z) then 0
    else 1 + VolumePolls(polls[1..])
  }

  lemma VolumeKeyPolls(u: Ui, music: bool, x: int, y: int)
    ensures var k := KeyInputSound(u, music, x, y);
            VolumePolls(u.input) == if k.out == Again then 1 + VolumePolls(k.u.input) else 0
  {
    hide SoundLines, Turn;
  }

  lemma {:induction false} VolumeRedraws(u: Ui, music: bool, x: int, y: int)
    ensures |Buffer(VolumeLoop(u, music, x, y).u, u.screen)| == |Buffer(u, u.screen)| + 3 * VolumePolls(u.input)
    decreases |u.input|
  {
    hide KeyInputSound, VolumePolls;
    VolumeKeyDraws(u, music, x, y);
    VolumeKeyPolls(u, music, x, y);
    var k := KeyInputSound(u, music, x, y);
    if k.out == Again {
      VolumeRedraws(k.u, music, x, y);
    }
  }

  lemma SoundGrows(u: Ui, x: int, y: int, bgm: int, se: int)
    ensures var k := SoundLoop(u, x, y, bgm, se, 0);
            && Buffer(u, u.screen) <= Buffer(k.u, u.screen)
            && (k.out == Done ==> k.u.screen == u.screen)
  {
    hide SoundLoop, SoundDrawn;
    SoundOnTop(u, x, y, bgm, se, 0);
    if u.screen == 1 {
      SoundInner(u, x, y, bgm, se, 0);
    } else {
      SoundBalanced(u, x, y, bgm, se, 0);
    }
  }

  lemma VolumeGrows(u: Ui, music: bool, x: int, y: int)
    ensures var v := VolumeLoop(u, music, x, y).u;
            v.screen == u.screen && Buffer(u, u.screen) <= Buffer(v, u.screen)
  {
    hide VolumeLoop, SoundDrawn;
    VolumeOnTop(u, music, x, y);
  }

  lemma ToggleSoundClears(u: Ui, x: int, y: int)
    ensures Buffer(u, u.screen) + [Wipe(x, y, 20, 3)] <= Buffer(ToggleSound(u, x, y).u, u.screen)
    ensures ToggleSound(u, x, y).out == Done ==> ToggleSound(u, x, y).u.screen == u.screen
  {
    hide SoundLoop, VolumeLoop;
    var v := Paint(u, [Wipe(x, y, 20, 3)]);
    SoundGrows(v, x, y, u.bgm, u.se);
    var k := SoundLoop(v, x, y, u.bgm, u.se, 0);
    VolumeGrows(k.u, k.cur == 0, x, y);
  }

  /** The sound menu begins by clearing its area, and takes away nothing. */
  lemma {:induction false} ToggleClears(u: Ui, x: int, y: int)
    ensures Buffer(u, u.screen) + [Wipe(x, y, 20, 3)] <= Buffer(ToggleAll(u, x, y).u, u.screen)
    decreases |u.input|
  {
    hide ToggleSound;
    ToggleSoundClears(u, x, y);
    var t := ToggleSound(u, x, y);
    if t.out == Done && t.more {
      ToggleClears(t.u, x, y);
    }
  }

  // ----- Which menus have been opened -----

  /** The draws of a buffer since it was like this. */
  function Since(before: seq<Draw>, after: seq<Draw>): seq<Draw>
    requires before <= after
  {
    after[|before|..]
  }

  lemma Appears(before: seq<Draw>, mid: seq<Draw>, after: seq<Draw>, d: Draw)
    requires before <= mid && mid + [d] <= after
    ensures before <= after && d in Since(before, after)
  {
    assert Since(before, after)[|mid| - |before|] == after[|mid|] == (mid + [d])[|mid|];
  }

  lemma Absent(before: seq<Draw>, first: seq<Draw>, after: seq<Draw>, d: Draw)
    requires AddsTexts(before + first, after) && !d.Line? && d !in first
    ensures before <= after && d !in Since(before, after)
  {
    assert before <= before + first;
    forall i | 0 <= i < |after| - |before| ensures Since(before, after)[i] != d {
      assert Since(before, after)[i] == after[|before| + i];
      assert i < |first| ==> after[|before| + i] == (before + first)[|before| + i] == first[i];
    }
  }

  lemma TextsGrow(before: seq<Draw>, after: seq<Draw>)
    requires AddsTexts(before, after)
    ensures before <= after
  {
  }

  /** The options menu opens the sound menu exactly if the row chosen in it is
      the first. */
  lemma OptionsOpensSound(u: Ui)
    requires u.screen == 0
    ensures var r := MenuOptions(u);
            && u.buf0 + [Wipe(33, 15, 20, 2)] <= r.u.buf0
            && (Wipe(31, 16, 20, 3) in Since(u.buf0, r.u.buf0) <==>
                  var c := FrontKeys(u.input, 0, 2); c.Some? && c.value.0 == 0)
  {
    hide FrontKeys, FrontVolumes, SelectLoop, ToggleAll, Pad, RowsDrawn, MarkedAt, Lines, Since, AddsTexts;
    var rows := Pad(OPTIONS_TEXT);
    var first := [Wipe(33, 15, 20, |rows|)];
    var v := Paint(u, first);
    var s := SelectLoop(v, 33, 15, 0, rows);
    FrontReads(v, 33, 15, 0, rows);
    SelectBalanced(v, 33, 15, 0, rows);
    LoopOnTop(v, 33, 15, 0, rows);
    TextsGrow(u.buf0 + first, s.u.buf0);
    if s.out == Done && s.cur == 0 {
      ToggleClears(s.u, 31, 16);
      Appears(u.buf0, s.u.buf0, ToggleAll(s.u, 31, 16).u.buf0, Wipe(31, 16, 20, 3));
    } else {
      Absent(u.buf0, first, s.u.buf0, Wipe(31, 16, 20, 3));
    }
  }

  /** A pause that waits for keys. */
  ghost predicate ShowsPause(u: Ui, v: Ui) {
    && v.screen == 1 && u.buf1 + [Border(24, 10), Wipe(30, 12, 20, 3)] <= v.buf1
    && u.buf1 <= v.buf1
    && (Wipe(31, 13, 20, 3) in Since(u.buf1, v.buf1) <==>
          var c := MenuKeys(u.input, 0, 3); c.Some? && c.value.0 == 0)
  }

  lemma PauseWaits(u: Ui, s: SelectResult)
    requires u.screen == 0
    requires s == SelectLoop(Paint(Flip(Enter(u)), [Border(24, 10), Wipe(30, 12, 20, 3)]), 30, 12, 0, Pad(PAUSE_TEXT))
    ensures s.u.screen == 1
    ensures s.out != Done ==> ShowsPause(u, s.u)
    ensures s.out == Done && s.cur == 0 ==> ShowsPause(u, ToggleAll(s.u, 31, 13).u)
  {
    hide MenuKeys, SelectLoop, ToggleAll, Pad, RowsDrawn, MarkedAt, Lines, Since, AddsTexts;
    var rows, first := Pad(PAUSE_TEXT), [Border(24, 10), Wipe(30, 12, 20, 3)];
    var w := Paint(Flip(Enter(u)), first);
    SelectReads(w, 30, 12, 0, rows);
    SelectInner(w, 30, 12, 0, rows);
    LoopOnTop(w, 30, 12, 0, rows);
    TextsGrow(u.buf1 + first, s.u.buf1);
    if s.out == Done && s.cur == 0 {
      ToggleInner(s.u, 31, 13);
      ToggleClears(s.u, 31, 13);
      Appears(u.buf1, s.u.buf1, ToggleAll(s.u, 31, 13).u.buf1, Wipe(31, 13, 20, 3));
    } else {
      Absent(u.buf1, first, s.u.buf1, Wipe(31, 13, 20, 3));
    }
  }

  lemma PaintTwice(u: Ui, a: Draw, b: Draw)
    ensures Paint(Paint(u, [a]), [b]) == Paint(u, [a, b])
  {
    assert Buffer(u, u.screen) + [a] + [b] == Buffer(u, u.screen) + [a, b];
  }

  /** While a pause waits, its border and cleared area are on the back buffer, and
      the sound menu's too exactly if its first row has been chosen. */
  lemma PauseShows(u: Ui)
    requires u.screen == 0 && MenuPause(u).out == Starved
    ensures ShowsPause(u, MenuPause(u).u)
  {
    hide SelectLoop, ToggleAll, Pad, ShowsPause, Paint;
    var v := Paint(Flip(Enter(u)), [Border(24, 10)]);
    PaintTwice(Flip(Enter(u)), Border(24, 10), Wipe(30, 12, 20, 3));
    PauseWaits(u, SelectMenu(v, 30, 12, 0, Pad(PAUSE_TEXT), 20));
  }

  /** While the start menu waits, what is on the back buffer is that menu, or the
      question about a new game alone once its first row has been chosen. */
  lemma StartShows(u: Ui, pick: int, confirm: int)
    requires u.screen == 0 && Static(pick, 4) && Static(confirm, 2) && MenuInit(u, pick, confirm).out == Starved
    ensures var buffer := MenuInit(u, pick, confirm).u.buf1;
            if MenuKeys(u.input, pick, 4).None? then
              AddsTexts(u.buf1 + [Border(24, 10), Wipe(28, 12, 20, 4)], buffer)
            else
              AddsTexts([Border(24, 10), Line(30, 12, NEW_GAME_TEXT, WHITE), Wipe(32, 14, 20, 2)], buffer)
  {
    hide MenuKeys, SelectLoop, Pad, RowsDrawn, MarkedAt, Lines, AddsTexts;
    StartMenuReads(u, pick, confirm);
    var v := Paint(Flip(u), [Border(24, 10)]);
    var s := SelectMenu(v, 28, 12, pick, Pad(START_TEXT), 20);
    MenuOnTop(v, 28, 12, pick, Pad(START_TEXT), 20);
    assert v.buf1 + [Wipe(28, 12, 20, 4)] == u.buf1 + [Border(24, 10), Wipe(28, 12, 20, 4)];
    if s.out == Done {
      BackMenu(v, 28, 12, pick, Pad(START_TEXT), 20);
      var w := Paint(Blank(s.u), [Border(24, 10), Line(30, 12, NEW_GAME_TEXT, WHITE)]);
      MenuOnTop(w, 32, 14, confirm, Pad(CONFIRM_TEXT), 20);
      assert w.buf1 + [Wipe(32, 14, 20, 2)] ==
             [Border(24, 10), Line(30, 12, NEW_GAME_TEXT, WHITE), Wipe(32, 14, 20, 2)];
    }
  }
}
