/**
 Whole menus: menus opened on the front buffer and interrupted by pauses, the
 start menu, and the loop that shows it until an account call has been made.
 */
module UiStart {
  import opened Wrappers

  import opened UiModel
  import opened UiProps
  import opened UiKeys

  // ----- Menus on the front buffer -----

  /** A menu opened on the front buffer, with any number of pauses over it:
      once it returns, the front buffer is active again, each flip has its
      counterpart, and no pause is left open. */
  ghost predicate Balanced(u: Ui, v: Ui) {
    && v.screen == u.screen == 0
    && v.flips >= u.flips && (v.flips - u.flips) % 2 == 0
    && v.depth == u.depth
    && (VolumesInRange(u) ==> VolumesInRange(v))
  }

  // One turn of a menu's loop on the front buffer.
  lemma FrontTurn(u: Ui, x: int, y: int, cur: int, rows: seq<string>)
    returns (again: bool, v: Ui, next: int, marked: seq<string>)
    requires u.screen == 0 && RowsFit(rows) && 0 <= cur < |rows|
    ensures NoNesting(u, v)
    ensures again ==>
      && |v.input| < |u.input| && Balanced(u, v)
      && |marked| == |rows| && RowsFit(marked) && 0 <= next < |rows|
      && SelectLoop(u, x, y, cur, rows) == SelectLoop(v, x, y, next, marked)
    ensures !again ==>
      var r := SelectLoop(u, x, y, cur, rows);
      r.u == v && r.cur == cur && (r.out == Starved || (r.out == Done && Balanced(u, v)))
  {
    var k := KeyInput(u, cur, 0, |rows| - 1);
    SelectTurn(u, x, y, cur, rows, k);
    KeyScreen(u, cur, 0, |rows| - 1);
    again := k.out == Again;
    v, next, marked := k.u, cur, rows;
    if again {
      next, marked := k.cur, Mark(rows, k.cur);
      v := Paint(k.u, Lines(x, y, marked, k.cur));
    }
  }

  lemma BalancedJoin(u: Ui, v: Ui, w: Ui)
    requires Balanced(u, v) && NoNesting(u, v) && NoNesting(v, w)
    ensures NoNesting(u, w)
    ensures Balanced(v, w) ==> Balanced(u, w)
  {
  }

  lemma {:induction false} SelectBalanced(u: Ui, x: int, y: int, cur: int, rows: seq<string>)
    requires u.screen == 0 && RowsFit(rows) && 0 <= cur < |rows|
    ensures var r := SelectLoop(u, x, y, cur, rows);
            && r.out != Fault && 0 <= r.cur < |rows|
            && NoNesting(u, r.u)
            && (r.out == Done ==> Balanced(u, r.u))
    decreases |u.input|
  {
    var again, v, next, marked := FrontTurn(u, x, y, cur, rows);
    if again {
      SelectBalanced(v, x, y, next, marked);
      BalancedJoin(u, v, SelectLoop(v, x, y, next, marked).u);
    }
  }

  lemma {:induction false} SoundBalanced(u: Ui, x: int, y: int, bgm: int, se: int, cur: int)
    requires u.screen == 0 && 0 <= cur < 3
    ensures var r := SoundLoop(u, x, y, bgm, se, cur);
            && r.out != Fault && 0 <= r.cur < 3
            && NoNesting(u, r.u)
            && (r.out == Done ==> Balanced(u, r.u))
    decreases |u.input|
  {
    KeyKeepsRange(u, cur, 0, 2);
    KeyScreen(u, cur, 0, 2);
    var k := KeyInput(u, cur, 0, 2);
    if k.out == Again {
      SoundBalanced(Paint(k.u, SoundLines(x, y, bgm, se, k.cur, RED)), x, y, bgm, se, k.cur);
    }
  }

  lemma ToggleSoundBalanced(u: Ui, x: int, y: int)
    requires u.screen == 0
    ensures var t := ToggleSound(u, x, y);
            && t.out != Fault
            && NoNesting(u, t.u)
            && (t.out == Done ==> Balanced(u, t.u))
  {
    var v := Paint(u, [Wipe(x, y, 20, 3)]);
    SoundBalanced(v, x, y, u.bgm, u.se, 0);
    var k := SoundLoop(v, x, y, u.bgm, u.se, 0);
    VolumeKeepsAll(k.u, k.cur == 0, x, y);
  }

  lemma {:induction false} ToggleBalanced(u: Ui, x: int, y: int)
    requires u.screen == 0
    ensures var r := ToggleAll(u, x, y);
            && r.out != Fault
            && NoNesting(u, r.u)
            && (r.out == Done ==> Balanced(u, r.u))
    decreases |u.input|
  {
    ToggleSoundBalanced(u, x, y);
    var t := ToggleSound(u, x, y);
    if t.out == Done && t.more {
      ToggleBalanced(t.u, x, y);
      BalancedJoin(u, t.u, ToggleAll(t.u, x, y).u);
    }
  }

  /** The options menu faults on no trace, opens at most one pause at a time,
      and returns to the front buffer. */
  lemma OptionsBalanced(u: Ui)
    requires u.screen == 0
    ensures var r := MenuOptions(u);
            && r.out != Fault
            && NoNesting(u, r.u)
            && (r.out == Done ==> Balanced(u, r.u))
  {
    var rows := Pad(OPTIONS_TEXT);
    var v := Paint(u, [Wipe(33, 15, 20, |rows|)]);
    SelectBalanced(v, 33, 15, 0, rows);
    var s := SelectLoop(v, 33, 15, 0, rows);
    if s.out == Done && s.cur == 0 {
      ToggleBalanced(s.u, 31, 16);
    }
  }

  /** Escape pressed twice over a menu on the front buffer: the pause opens and
      closes, and the menu has lost two keys, gained two flips and nothing else. */
  lemma EscapeTwice(u: Ui, cur: int, lo: int, hi: int, rest: seq<Poll>)
    requires u.screen == 0 && u.input == [Key(KEY_ESC), Key(KEY_ESC)] + rest
    ensures var k := KeyInput(u, cur, lo, hi);
            && k.out == Again && k.cur == cur && k.u.input == rest
            && Transparent(u, k.u) && k.u.flips == u.flips + 2
  {
    var v := u.(input := u.input[1..]);
    PauseReads(v);
    PauseTransparent(v);
    assert v.input == [Key(KEY_ESC)] + rest;
    assert v.input[1..] == rest;
  }

  // ----- Writes outside the rows -----

  /** A poll after which a menu on buffer 1 redraws with the cursor unmoved. */
  predicate RedrawsInPlace(polls: seq<Poll>) {
    && polls != []
    && polls[0] != Key(KEY_Z) && polls[0] != Key(KEY_ESC)
    && (polls[0] == Key(EXTEND_KEY) ==>
          var g := Getch(polls[1..]);
          g.Some? && Step(g.value.0) == 0)
  }

  /** A menu reached with a row's cursor or the escape cursor writes outside its
      rows exactly when it starts from the escape cursor and the first poll
      redraws it there. */
  lemma FaultExactly(u: Ui, x: int, y: int, cur: int, rows: seq<string>, col: int)
    requires u.screen == 1 && RowsFit(rows) && ESC_CURSOR <= cur < |rows| && |rows| > 0
    ensures SelectMenu(u, x, y, cur, rows, col).out == Fault <==>
            cur == ESC_CURSOR && RedrawsInPlace(u.input)
  {
    var v := Paint(u, [Wipe(x, y, col, |rows|)]);
    if cur == ESC_CURSOR {
      var k := KeyInput(v, cur, 0, |rows| - 1);
      if k.out == Again && 0 <= k.cur {
        var marked := Mark(rows, k.cur);
        InnerNoFault(Paint(k.u, Lines(x, y, marked, k.cur)), x, y, k.cur, marked);
      }
    } else {
      InnerNoFault(v, x, y, cur, rows);
    }
  }

  /** The same, when a menu returns: on one of its rows or at the escape cursor,
      and at a row again if no escape code was left in the keyboard. */
  lemma {:induction false} SelectEnds(u: Ui, x: int, y: int, cur: int, rows: seq<string>)
    requires u.screen == 1 && RowsFit(rows) && ESC_CURSOR <= cur < |rows| && |rows| > 0
    ensures var r := SelectLoop(u, x, y, cur, rows);
            && (r.out == Done ==> ESC_CURSOR <= r.cur < |rows|)
            && (r.out == Done && 0 <= cur && Key(KEY_ESC) !in u.input ==>
                  0 <= r.cur && Key(KEY_ESC) !in r.u.input)
    decreases |u.input|
  {
    var k := KeyInput(u, cur, 0, |rows| - 1);
    if u.input != [] && Key(KEY_ESC) !in u.input {
      TailKeeps(u.input, Key(KEY_ESC));
      GetchKeeps(u.input[1..], Key(KEY_ESC));
    }
    if k.out == Again && 0 <= k.cur {
      var marked := Mark(rows, k.cur);
      SelectEnds(Paint(k.u, Lines(x, y, marked, k.cur)), x, y, k.cur, marked);
    }
  }

  // ----- The start menu -----

  ghost predicate Static(cur: int, n: int) {
    ESC_CURSOR <= cur < n
  }

  /** One showing of the start menu. The two menus in it run on the back buffer. */
  ghost predicate StartOutcome(u: Ui, r: StartResult) {
    && (r.out != Done ==> r.u.joins == u.joins && r.u.logins == u.logins)
    && (r.out == Done ==>
          && r.u.screen == 0 && r.u.flips == u.flips + 2
          && r.u.buf0 == u.buf0 && r.u.buf1 == []
          && r.u.depth == u.depth && r.u.peak == u.peak
          && Static(r.pick, 4) && Static(r.confirm, 2)
          && r.u.joins == u.joins + (if r.pick == 0 && r.confirm == 0 then 1 else 0)
          && r.u.logins == u.logins + (if r.pick == 1 then 1 else 0)
          && (r.code == 0 <==> r.u.joins + r.u.logins == u.joins + u.logins + 1)
          && (r.code == 1 <==> r.pick == 0 && r.confirm == 1)
          && (r.code == -1 || r.code == 0 || r.code == 1))
  }

  // A menu on buffer 1, whole.
  lemma BackMenu(u: Ui, x: int, y: int, cur: int, rows: seq<string>, col: int)
    requires u.screen == 1 && RowsFit(rows) && ESC_CURSOR <= cur < |rows| && |rows| > 0
    ensures var r := SelectMenu(u, x, y, cur, rows, col);
            && InnerKeeps(u, r.u)
            && (r.out == Done ==> ESC_CURSOR <= r.cur < |rows|)
            && (r.out == Done && 0 <= cur && Key(KEY_ESC) !in u.input ==>
                  0 <= r.cur && Key(KEY_ESC) !in r.u.input)
  {
    var v := Paint(u, [Wipe(x, y, col, |rows|)]);
    SelectInner(v, x, y, cur, rows);
    SelectEnds(v, x, y, cur, rows);
  }

  /** The start menu from any cursors its own runs can leave behind. */
  lemma StartMenuOutcome(u: Ui, pick: int, confirm: int)
    requires u.screen == 0 && Static(pick, 4) && Static(confirm, 2)
    ensures StartOutcome(u, MenuInit(u, pick, confirm))
  {
    var v := Paint(Flip(u), [Border(24, 10)]);
    var rows := Pad(START_TEXT);
    BackMenu(v, 28, 12, pick, rows, 20);
    var s := SelectMenu(v, 28, 12, pick, rows, 20);
    if s.out == Done && s.cur == 0 {
      var w := Paint(Blank(s.u), [Border(24, 10), Line(30, 12, NEW_GAME_TEXT, WHITE)]);
      BackMenu(w, 32, 14, confirm, Pad(CONFIRM_TEXT), 20);
    }
  }

  /** With its cursors on rows, and no escape code to come, the start menu never
      writes outside its rows and leaves its cursors on rows. */
  lemma StartMenuSafe(u: Ui, pick: int, confirm: int)
    requires u.screen == 0 && 0 <= pick < 4 && 0 <= confirm < 2
    ensures MenuInit(u, pick, confirm).out != Fault
    ensures Key(KEY_ESC) !in u.input ==>
              var r := MenuInit(u, pick, confirm);
              r.out == Done ==> 0 <= r.pick < 4 && 0 <= r.confirm < 2 && Key(KEY_ESC) !in r.u.input
  {
    var v := Paint(Flip(u), [Border(24, 10)]);
    var rows := Pad(START_TEXT);
    BackMenu(v, 28, 12, pick, rows, 20);
    FaultExactly(v, 28, 12, pick, rows, 20);
    var s := SelectMenu(v, 28, 12, pick, rows, 20);
    if s.out == Done && s.cur == 0 {
      var w := Paint(Blank(s.u), [Border(24, 10), Line(30, 12, NEW_GAME_TEXT, WHITE)]);
      BackMenu(w, 32, 14, confirm, Pad(CONFIRM_TEXT), 20);
      FaultExactly(w, 32, 14, confirm, Pad(CONFIRM_TEXT), 20);
    }
  }

  // The first menu of the start menu, read from the keyboard.
  lemma StartMenuReads(u: Ui, pick: int, confirm: int)
    requires u.screen == 0 && Static(pick, 4)
    ensures var v := Paint(Flip(u), [Border(24, 10)]);
            var s := SelectMenu(v, 28, 12, pick, Pad(START_TEXT), 20);
            && MenuReads(v.input, pick, 4, s)
            && (s.out == Done && s.cur == ESC_CURSOR ==>
                  MenuInit(u, pick, confirm) == StartResult(Done, Flip(Blank(s.u)), ESC_CURSOR, confirm, -1))
  {
    var v := Paint(Flip(u), [Border(24, 10)]);
    var rows := Pad(START_TEXT);
    SelectReads(Paint(v, [Wipe(28, 12, 20, |rows|)]), 28, 12, pick, rows);
  }

  /** Exactly when one showing of the start menu writes outside its rows, told
      by its two static cursors and the keyboard. */
  lemma StartMenuFaultsExactly(u: Ui, pick: int, confirm: int)
    requires u.screen == 0 && Static(pick, 4) && Static(confirm, 2)
    ensures MenuInit(u, pick, confirm).out == Fault <==>
      || (pick == ESC_CURSOR && RedrawsInPlace(u.input))
      || (confirm == ESC_CURSOR
          && var first := MenuKeys(u.input, pick, 4);
             first.Some? && first.value.0 == 0 && RedrawsInPlace(first.value.1))
  {
    StartMenuReads(u, pick, confirm);
    var v := Paint(Flip(u), [Border(24, 10)]);
    var rows := Pad(START_TEXT);
    BackMenu(v, 28, 12, pick, rows, 20);
    FaultExactly(v, 28, 12, pick, rows, 20);
    var s := SelectMenu(v, 28, 12, pick, rows, 20);
    if s.out == Done && s.cur == 0 {
      var w := Paint(Blank(s.u), [Border(24, 10), Line(30, 12, NEW_GAME_TEXT, WHITE)]);
      FaultExactly(w, 32, 14, confirm, Pad(CONFIRM_TEXT), 20);
    }
  }

  /** The question about a new game, read from the keyboard. */
  ghost predicate ConfirmReads(polls: seq<Poll>, confirm: int, r: StartResult) {
    match MenuKeys(polls, confirm, 2)
    case None => r.out == Starved
    case Some((answer, rest)) =>
      && r.out == Done && r.u.input == rest
      && r.pick == 0 && r.confirm == answer && (r.code == 0 <==> answer == 0)
  }

  /** One showing of the start menu, read from the keyboard. */
  ghost predicate StartReads(polls: seq<Poll>, pick: int, confirm: int, r: StartResult) {
    match MenuKeys(polls, pick, 4)
    case None => r.out == Starved
    case Some((row, rest)) =>
      if row == 0 then ConfirmReads(rest, confirm, r)
      else
        && r.out == Done && r.u.input == rest
        && r.pick == row && r.confirm == confirm && (r.code == 0 <==> row == 1)
  }

  lemma StartMenuAnswers(u: Ui, pick: int, confirm: int)
    requires u.screen == 0 && Static(pick, 4) && Static(confirm, 2)
    requires MenuInit(u, pick, confirm).out != Fault
    ensures StartReads(u.input, pick, confirm, MenuInit(u, pick, confirm))
  {
    var v := Paint(Flip(u), [Border(24, 10)]);
    StartMenuReads(u, pick, confirm);
    BackMenu(v, 28, 12, pick, Pad(START_TEXT), 20);
    var s := SelectMenu(v, 28, 12, pick, Pad(START_TEXT), 20);
    if s.out == Done && s.cur == 0 {
      var w := Paint(Blank(s.u), [Border(24, 10), Line(30, 12, NEW_GAME_TEXT, WHITE)]);
      SelectReads(Paint(w, [Wipe(32, 14, 20, |CONFIRM_TEXT|)]), 32, 14, confirm, Pad(CONFIRM_TEXT));
    }
  }

  /** Whether the start-up loop writes outside the rows of a menu, told by the
      two static cursors and the keyboard: some menu of it starts at the escape
      cursor and is redrawn there. */
  predicate StartFaults(polls: seq<Poll>, pick: int, confirm: int)
    decreases |polls|
  {
    || (pick == ESC_CURSOR && RedrawsInPlace(polls))
    || match MenuKeys(polls, pick, 4)
       case None => false
       case Some((row, rest)) =>
         if row != 0 then row != 1 && StartFaults(rest, row, confirm)
         else
           || (confirm == ESC_CURSOR && RedrawsInPlace(rest))
           || match MenuKeys(rest, confirm, 2)
              case None => false
              case Some((answer, after)) => answer != 0 && StartFaults(after, 0, answer)
  }

  /** Exactly when the start-up loop writes outside its rows, for every keyboard. */
  lemma {:induction false} StartUpFaultsExactly(u: Ui, pick: int, confirm: int)
    requires u.screen == 0 && Static(pick, 4) && Static(confirm, 2)
    ensures InitLoop(u, pick, confirm).out == Fault <==> StartFaults(u.input, pick, confirm)
    decreases |u.input|
  {
    StartMenuFaultsExactly(u, pick, confirm);
    var r := MenuInit(u, pick, confirm);
    if r.out != Fault {
      StartMenuAnswers(u, pick, confirm);
      StartMenuOutcome(u, pick, confirm);
      if r.out == Done && r.code != 0 {
        StartUpFaultsExactly(r.u, r.pick, r.confirm);
      }
    }
  }

  /** Start-up, for every keyboard: at most one account call is ever made, and
      the loop ends exactly by making one, on the front buffer. */
  lemma {:induction false} StartUpMakesOneCall(u: Ui, pick: int, confirm: int)
    requires u.screen == 0 && Static(pick, 4) && Static(confirm, 2)
    ensures var r := InitLoop(u, pick, confirm);
            && r.u.joins >= u.joins && r.u.logins >= u.logins
            && r.u.joins + r.u.logins == u.joins + u.logins + (if r.out == Done then 1 else 0)
            && (r.out == Done ==>
                  && r.code == 0 && r.u.screen == 0
                  && (r.u.flips - u.flips) % 2 == 0
                  && r.u.buf0 == u.buf0 && r.u.depth == u.depth)
    decreases |u.input|
  {
    StartMenuOutcome(u, pick, confirm);
    var r := MenuInit(u, pick, confirm);
    if r.out == Done && r.code != 0 {
      StartUpMakesOneCall(r.u, r.pick, r.confirm);
    }
  }

  /** Without the escape key start-up is safe. */
  lemma {:induction false} StartUpSafeWithoutEscape(u: Ui, pick: int, confirm: int)
    requires u.screen == 0 && 0 <= pick < 4 && 0 <= confirm < 2
    requires Key(KEY_ESC) !in u.input
    ensures InitLoop(u, pick, confirm).out != Fault
    decreases |u.input|
  {
    StartMenuOutcome(u, pick, confirm);
    StartMenuSafe(u, pick, confirm);
    var r := MenuInit(u, pick, confirm);
    if r.out == Done && r.code != 0 {
      StartUpSafeWithoutEscape(r.u, r.pick, r.confirm);
    }
  }

  /** With it, it is not: escape leaves the start menu with its static cursor at
      the escape cursor, and the menu shown next writes before its first row
      unless an arrow, Z or a further escape comes first. */
  lemma EscapeThenRedrawFaults(u: Ui, pick: int, confirm: int)
    requires u.screen == 0 && Static(pick, 4) && Static(confirm, 2)
    requires u.input != [] && u.input[0] == Key(KEY_ESC) && RedrawsInPlace(u.input[1..])
    ensures InitLoop(u, pick, confirm).out == Fault
  {
    StartMenuFaultsExactly(u, pick, confirm);
    StartMenuReads(u, pick, confirm);
    StartMenuOutcome(u, pick, confirm);
    StartMenuFaultsExactly(MenuInit(u, pick, confirm).u, ESC_CURSOR, confirm);
  }
}
