/**
 The menus read from the keyboard alone: which keys a pause swallows, and what
 the remaining ones do to the cursor of the menu underneath.
 */
module UiKeys {
  import opened Modular
  import opened Wrappers

  import opened UiModel
  import opened UiProps

  // ----- Waiting for a code -----

  /** Waiting returns the first code pressed and leaves the polls after it; it
      starves exactly when none is pressed. */
  lemma {:induction false} GetchFirst(polls: seq<Poll>, i: nat)
    requires i <= |polls| && forall j :: 0 <= j < i ==> polls[j] == Idle
    ensures i == |polls| ==> Getch(polls) == None
    ensures i < |polls| && polls[i].Key? ==> Getch(polls) == Some((polls[i].code, polls[i + 1..]))
  {
    if i > 0 {
      GetchFirst(polls[1..], i - 1);
      assert i < |polls| ==> polls[1..][i - 1 + 1..] == polls[i + 1..];
    }
  }

  // ----- What a pause swallows, without cursor, rows or screen -----

  /** A menu of `n` rows on buffer 1: its final cursor and the polls left. */
  function MenuKeys(polls: seq<Poll>, cur: int, n: int): (r: Option<(int, seq<Poll>)>)
    ensures r.Some? ==> |r.value.1| < |polls|
    decreases |polls|
  {
    if polls == [] then None
    else if polls[0] == Key(EXTEND_KEY) then
      match Getch(polls[1..])
      case None => None
      case Some((next, rest)) => MenuKeys(rest, MoveCursor(next, cur, 0, n - 1), n)
    else if polls[0] == Key(KEY_Z) then Some((cur, polls[1..]))
    else if polls[0] == Key(KEY_ESC) then Some((ESC_CURSOR, polls[1..]))
    else MenuKeys(polls[1..], cur, n)
  }

  function VolumeKeys(polls: seq<Poll>): (r: Option<seq<Poll>>)
    ensures r.Some? ==> |r.value| < |polls|
    decreases |polls|
  {
    if polls == [] then None
    else if polls[0] == Key(EXTEND_KEY) then
      match Getch(polls[1..])
      case None => None
      case Some((_, rest)) => VolumeKeys(rest)
    else if polls[0] == Key(KEY_Z) then Some(polls[1..])
    else VolumeKeys(polls[1..])
  }

  function SoundKeys(polls: seq<Poll>): (r: Option<seq<Poll>>)
    ensures r.Some? ==> |r.value| < |polls|
    decreases |polls|
  {
    match MenuKeys(polls, 0, 3)
    case None => None
    case Some((row, rest)) =>
      if row == 2 then Some(rest)
      else if row == ESC_CURSOR then SoundKeys(rest)
      else
        match VolumeKeys(rest)
        case None => None
        case Some(after) => SoundKeys(after)
  }

  function PauseKeys(polls: seq<Poll>): (r: Option<seq<Poll>>)
    ensures r.Some? ==> |r.value| < |polls|
  {
    match MenuKeys(polls, 0, 3)
    case None => None
    case Some((row, rest)) => if row == 0 then SoundKeys(rest) else Some(rest)
  }

  /** A menu's result is what the keyboard alone says it is, unless it started
      from the escape cursor and has written outside its rows. */
  ghost predicate MenuReads(polls: seq<Poll>, cur: int, n: int, r: SelectResult) {
    || (r.out == Fault && cur == ESC_CURSOR)
    || (match MenuKeys(polls, cur, n)
        case None => r.out == Starved
        case Some((row, rest)) => r.out == Done && r.cur == row && r.u.input == rest)
  }

  lemma {:induction false} SelectReads(u: Ui, x: int, y: int, cur: int, rows: seq<string>)
    requires u.screen == 1 && RowsFit(rows) && ESC_CURSOR <= cur < |rows| && |rows| > 0
    ensures MenuReads(u.input, cur, |rows|, SelectLoop(u, x, y, cur, rows))
    decreases |u.input|
  {
    var k := KeyInput(u, cur, 0, |rows| - 1);
    if k.out == Again && 0 <= k.cur {
      var marked := Mark(rows, k.cur);
      SelectReads(Paint(k.u, Lines(x, y, marked, k.cur)), x, y, k.cur, marked);
    }
  }

  lemma {:induction false} SoundReads(u: Ui, x: int, y: int, bgm: int, se: int, cur: int)
    requires u.screen == 1
    ensures var r := SoundLoop(u, x, y, bgm, se, cur);
            match MenuKeys(u.input, cur, 3)
            case None => r.out == Starved
            case Some((row, rest)) => r.out == Done && r.cur == row && r.u.input == rest
    decreases |u.input|
  {
    var k := KeyInput(u, cur, 0, 2);
    if k.out == Again {
      SoundReads(Paint(k.u, SoundLines(x, y, bgm, se, k.cur, RED)), x, y, bgm, se, k.cur);
    }
  }

  lemma {:induction false} VolumeReads(u: Ui, music: bool, x: int, y: int)
    ensures var r := VolumeLoop(u, music, x, y);
            match VolumeKeys(u.input)
            case None => r.out == Starved
            case Some(rest) => r.out == Done && r.u.input == rest
    decreases |u.input|
  {
    var k := KeyInputSound(u, music, x, y);
    if k.out == Again {
      VolumeReads(k.u, music, x, y);
    }
  }

  lemma {:induction false} MenuKeysRow(polls: seq<Poll>, cur: int, n: int)
    requires 0 <= cur < n
    ensures var r := MenuKeys(polls, cur, n); r.Some? ==> ESC_CURSOR <= r.value.0 < n
    decreases |polls|
  {
    if polls != [] {
      if polls[0] == Key(EXTEND_KEY) {
        var g := Getch(polls[1..]);
        if g.Some? {
          MenuKeysRow(g.value.1, MoveCursor(g.value.0, cur, 0, n - 1), n);
        }
      } else {
        MenuKeysRow(polls[1..], cur, n);
      }
    }
  }

  lemma {:induction false} ToggleReads(u: Ui, x: int, y: int)
    requires u.screen == 1
    ensures var r := ToggleAll(u, x, y);
            match SoundKeys(u.input)
            case None => r.out == Starved
            case Some(rest) => r.out == Done && r.u.input == rest
    decreases |u.input|
  {
    var v := Paint(u, [Wipe(x, y, 20, 3)]);
    SoundReads(v, x, y, u.bgm, u.se, 0);
    SoundInner(v, x, y, u.bgm, u.se, 0);
    MenuKeysRow(u.input, 0, 3);
    var k := SoundLoop(v, x, y, u.bgm, u.se, 0);
    VolumeReads(k.u, k.cur == 0, x, y);
    VolumeKeepsAll(k.u, k.cur == 0, x, y);
    var t := ToggleSound(u, x, y);
    if t.out == Done && t.more {
      ToggleReads(t.u, x, y);
    }
  }

  /** What a pause leaves of the keyboard depends on the keyboard alone. */
  lemma PauseReads(u: Ui)
    requires u.screen == 0
    ensures match PauseKeys(u.input)
            case None => MenuPause(u).out == Starved
            case Some(rest) => MenuPause(u).out == Done && MenuPause(u).u.input == rest
  {
    var v := Paint(Flip(Enter(u)), [Border(24, 10)]);
    var rows := Pad(PAUSE_TEXT);
    var w := Paint(v, [Wipe(30, 12, 20, |rows|)]);
    SelectReads(w, 30, 12, 0, rows);
    SelectInner(w, 30, 12, 0, rows);
    var s := SelectMenu(v, 30, 12, 0, rows, 20);
    if s.out == Done && s.cur == 0 {
      ToggleReads(s.u, 31, 13);
    }
  }

  // ----- Only Z leaves the sound menu -----

  lemma TailKeeps(polls: seq<Poll>, p: Poll)
    requires polls != [] && p !in polls
    ensures p !in polls[1..]
  {
    forall i | 0 <= i < |polls| - 1 ensures polls[1..][i] != p {
      assert polls[1..][i] == polls[i + 1];
    }
  }

  /** Waiting for a code brings up no poll that was not there. */
  lemma {:induction false} GetchKeeps(polls: seq<Poll>, p: Poll)
    requires p !in polls
    ensures var g := Getch(polls); g.Some? ==> p !in g.value.1
  {
    if polls != [] {
      TailKeeps(polls, p);
      if polls[0].Idle? {
        GetchKeeps(polls[1..], p);
      }
    }
  }

  lemma {:induction false} MenuWithoutZ(polls: seq<Poll>, cur: int, n: int)
    requires Key(KEY_Z) !in polls
    ensures var r := MenuKeys(polls, cur, n); r.Some? ==> r.value.0 == ESC_CURSOR && Key(KEY_Z) !in r.value.1
    decreases |polls|
  {
    if polls != [] {
      TailKeeps(polls, Key(KEY_Z));
      if polls[0] == Key(EXTEND_KEY) {
        GetchKeeps(polls[1..], Key(KEY_Z));
        var g := Getch(polls[1..]);
        if g.Some? {
          MenuWithoutZ(g.value.1, MoveCursor(g.value.0, cur, 0, n - 1), n);
        }
      } else {
        MenuWithoutZ(polls[1..], cur, n);
      }
    }
  }

  /** On the back buffer escape only starts the sound menu over. */
  lemma {:induction false} SoundNeedsZ(polls: seq<Poll>)
    requires Key(KEY_Z) !in polls
    ensures SoundKeys(polls) == None
    decreases |polls|
  {
    MenuWithoutZ(polls, 0, 3);
    var r := MenuKeys(polls, 0, 3);
    if r.Some? {
      SoundNeedsZ(r.value.1);
    }
  }

  lemma PauseWithoutZ(polls: seq<Poll>)
    requires Key(KEY_Z) !in polls
    ensures var r := PauseKeys(polls); r.Some? ==> Key(KEY_Z) !in r.value
  {
    MenuWithoutZ(polls, 0, 3);
  }

  // What a key other than Z leaves in the keyboard, on the front buffer.
  lemma KeyWithoutZ(u: Ui, cur: int, lo: int, hi: int)
    requires u.screen == 0 && Key(KEY_Z) !in u.input
    ensures var k := KeyInput(u, cur, lo, hi);
            k.out != Done && (k.out == Again ==> Key(KEY_Z) !in k.u.input)
  {
    if u.input != [] {
      TailKeeps(u.input, Key(KEY_Z));
      GetchKeeps(u.input[1..], Key(KEY_Z));
      PauseWithoutZ(u.input[1..]);
      PauseReads(u.(input := u.input[1..]));
    }
  }

  lemma {:induction false} SoundLoopNeedsZ(u: Ui, x: int, y: int, bgm: int, se: int, cur: int)
    requires u.screen == 0 && Key(KEY_Z) !in u.input
    ensures SoundLoop(u, x, y, bgm, se, cur).out != Done
    decreases |u.input|
  {
    KeyWithoutZ(u, cur, 0, 2);
    KeyScreen(u, cur, 0, 2);
    var k := KeyInput(u, cur, 0, 2);
    if k.out == Again {
      SoundLoopNeedsZ(Paint(k.u, SoundLines(x, y, bgm, se, k.cur, RED)), x, y, bgm, se, k.cur);
    }
  }

  /** The sound menu is left by Z alone, on either buffer and through any
      number of pauses opened over it. */
  lemma ToggleNeedsZ(u: Ui, x: int, y: int)
    requires Key(KEY_Z) !in u.input
    ensures ToggleAll(u, x, y).out != Done
  {
    if u.screen == 1 {
      ToggleReads(u, x, y);
      SoundNeedsZ(u.input);
    } else {
      SoundLoopNeedsZ(Paint(u, [Wipe(x, y, 20, 3)]), x, y, u.bgm, u.se, 0);
    }
  }

  // ----- The cursor as a sum of arrows -----

  function Step(code: int): int {
    if code == KEY_LEFT || code == KEY_UP then -1
    else if code == KEY_RIGHT || code == KEY_DOWN then 1
    else 0
  }

  /** Downs and rights minus ups and lefts, of the keys that reach the menu
      itself: those of a pause opened over it do not count. */
  function OwnSteps(polls: seq<Poll>, screen: Bit): int
    decreases |polls|
  {
    if polls == [] then 0
    else if polls[0] == Key(EXTEND_KEY) then
      match Getch(polls[1..])
      case None => 0
      case Some((next, rest)) => Step(next) + OwnSteps(rest, screen)
    else if polls[0] == Key(KEY_Z) then 0
    else if polls[0] == Key(KEY_ESC) then
      if screen == 1 then 0
      else
        match PauseKeys(polls[1..])
        case None => 0
        case Some(rest) => OwnSteps(rest, screen)
    else OwnSteps(polls[1..], screen)
  }

  /** One arrow is one step around a ring of rows. */
  lemma MoveWraps(code: int, cur: int, lo: int, hi: int)
    requires lo <= cur <= hi
    ensures MoveCursor(code, cur, lo, hi) == lo + (cur - lo + Step(code)) % (hi - lo + 1)
    ensures lo <= MoveCursor(code, cur, lo, hi) <= hi
  {
    var n := hi - lo + 1;
    var d := cur - lo + Step(code);
    if d == -1 {
      ModShift(n - 1, -1, n);
    } else if d == n {
      ModShift(0, 1, n);
    } else {
      ModShift(d, 0, n);
    }
  }

  // One turn of the menu's loop.
  lemma SelectTurn(u: Ui, x: int, y: int, cur: int, rows: seq<string>, k: KeyResult)
    requires RowsFit(rows) && 0 <= cur < |rows| && k == KeyInput(u, cur, 0, |rows| - 1)
    ensures k.out != Fault
    ensures k.out == Again ==>
      && 0 <= k.cur < |rows|
      && k.u.screen == u.screen
      && SelectLoop(u, x, y, cur, rows) ==
         SelectLoop(Paint(k.u, Lines(x, y, Mark(rows, k.cur), k.cur)), x, y, k.cur, Mark(rows, k.cur))
    ensures k.out != Again ==>
      && SelectLoop(u, x, y, cur, rows) == SelectResult(k.out, k.u, k.cur, rows)
      && (k.cur == cur || k.cur == ESC_CURSOR)
  {
    KeyKeepsRange(u, cur, 0, |rows| - 1);
    KeyScreen(u, cur, 0, |rows| - 1);
  }

  lemma StepsJoin(all: int, later: int, mid: int, end: int, n: int)
    requires n > 0 && mid == (all - later) % n && end == (mid + later) % n
    ensures end == all % n
  {
    ModStep(all - later, later, n);
  }

  // One key and the steps still to come make up the steps so far expected.
  lemma KeySteps(u: Ui, cur: int, n: int)
    requires 0 <= cur < n
    ensures var k := KeyInput(u, cur, 0, n - 1);
            && (k.out == Again ==>
                  k.cur == (cur + OwnSteps(u.input, u.screen) - OwnSteps(k.u.input, u.screen)) % n)
            && (k.out != Again ==> OwnSteps(u.input, u.screen) == 0)
  {
    ModShift(cur, 0, n);
    if u.input != [] && u.input[0] == Key(EXTEND_KEY) {
      var g := Getch(u.input[1..]);
      if g.Some? {
        MoveWraps(g.value.0, cur, 0, n - 1);
      }
    } else if u.input != [] && u.input[0] == Key(KEY_ESC) && u.screen == 0 {
      PauseReads(u.(input := u.input[1..]));
    }
  }
  // One turn of the menu's loop, and the steps it has taken.
  lemma CountedTurn(u: Ui, x: int, y: int, cur: int, rows: seq<string>)
    returns (again: bool, v: Ui, next: int, marked: seq<string>)
    requires RowsFit(rows) && 0 <= cur < |rows|
    ensures again ==>
      && |v.input| < |u.input|
      && |marked| == |rows| && RowsFit(marked) && 0 <= next < |rows|
      && SelectLoop(u, x, y, cur, rows) == SelectLoop(v, x, y, next, marked)
      && next == (cur + OwnSteps(u.input, u.screen) - OwnSteps(v.input, v.screen)) % |rows|
    ensures !again ==>
      var r := SelectLoop(u, x, y, cur, rows);
      r.cur == ESC_CURSOR || r.cur == (cur + OwnSteps(u.input, u.screen)) % |rows|
  {
    hide KeyInput, SelectLoop, OwnSteps;
    var k := KeyInput(u, cur, 0, |rows| - 1);
    KeySteps(u, cur, |rows|);
    SelectTurn(u, x, y, cur, rows, k);
    again := k.out == Again;
    v, next, marked := k.u, cur, rows;
    if again {
      next, marked := k.cur, Mark(rows, k.cur);
      v := Paint(k.u, Lines(x, y, marked, k.cur));
    } else {
      ModShift(cur, 0, |rows|);
    }
  }

  /** However long the menu is open, and however often it is paused, its
      cursor is the starting row moved by the menu's own arrows, modulo the
      number of rows. */
  lemma {:induction false} CursorIsSumOfArrows(u: Ui, x: int, y: int, cur: int, rows: seq<string>)
    requires RowsFit(rows) && 0 <= cur < |rows|
    ensures var r := SelectLoop(u, x, y, cur, rows);
            r.cur != ESC_CURSOR ==> r.cur == (cur + OwnSteps(u.input, u.screen)) % |rows|
    decreases |u.input|
  {
    var again, v, next, marked := CountedTurn(u, x, y, cur, rows);
    if again {
      CursorIsSumOfArrows(v, x, y, next, marked);
      var end := SelectLoop(v, x, y, next, marked).cur;
      if end != ESC_CURSOR {
        StepsJoin(cur + OwnSteps(u.input, u.screen), OwnSteps(v.input, v.screen), next, end, |rows|);
      }
    }
  }
}
