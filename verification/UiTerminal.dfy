/**
 The menu engine as the program runs it: shared console state updated in place,
 the cursor reached through a pointer, and the first column of a character
 array rewritten on every redraw. Each method is proved to do to that state
 what the functions of UiModel say.
 */
module UiTerminal {
  import opened Wrappers

  import opened UiModel
  import opened UiProps

  /** The `int` behind a cursor pointer. */
  class Cursor {
    var v: int

    constructor (start: int)
      ensures v == start
    {
      v := start;
    }
  }

  /** A menu's `char str[][MAX_ARRAY_SIZE]`. */
  ghost function RowsOf(str: array2<char>): (rows: seq<string>)
    reads str
    ensures |rows| == str.Length0
    ensures forall i :: 0 <= i < |rows| ==> |rows[i]| == str.Length1
  {
    seq(str.Length0, i requires 0 <= i < str.Length0 reads str =>
      seq(str.Length1, j requires 0 <= j < str.Length1 reads str => str[i, j]))
  }

  function LineOf(str: array2<char>, i: nat): (s: string)
    requires i < str.Length0
    reads str
    ensures s == RowsOf(str)[i]
  {
    seq(str.Length1, j requires 0 <= j < str.Length1 reads str => str[i, j])
  }

  method NewRows(text: seq<string>) returns (str: array2<char>)
    ensures fresh(str) && str.Length1 == MAX_ARRAY_SIZE && RowsOf(str) == Pad(text)
  {
    str := new char[|text|, MAX_ARRAY_SIZE]((i, j) =>
      if 0 <= i < |text| && 0 <= j < |text[i]| then text[i][j] else '\0');
    assert forall i :: 0 <= i < |text| ==> RowsOf(str)[i] == Pad(text)[i];
  }

  // ----- What a loop has still to do once a key has answered -----

  ghost function SelectTail(out: Sig, u: Ui, x: int, y: int, cur: int, rows: seq<string>): SelectResult
    requires RowsFit(rows)
  {
    if out != Again then SelectResult(out, u, cur, rows)
    else if !(0 <= cur < |rows|) then SelectResult(Fault, u, cur, Unmark(rows))
    else
      var marked := Mark(rows, cur);
      SelectLoop(Paint(u, Lines(x, y, marked, cur)), x, y, cur, marked)
  }

  ghost function SoundTail(out: Sig, u: Ui, x: int, y: int, bgm: int, se: int, cur: int): KeyResult {
    if out != Again then KeyResult(out, u, cur)
    else SoundLoop(Paint(u, SoundLines(x, y, bgm, se, cur, RED)), x, y, bgm, se, cur)
  }

  ghost function VolumeTail(out: Sig, u: Ui, music: bool, x: int, y: int): UiResult {
    if out != Again then UiResult(out, u) else VolumeLoop(u, music, x, y)
  }

  // One redraw and one key of a menu's loop.
  lemma SelectTurn(u: Ui, x: int, y: int, cur: int, rows: seq<string>, marked: seq<string>, k: KeyResult)
    requires RowsFit(rows) && 0 <= cur < |rows| && marked == Mark(rows, cur)
    requires k == KeyInput(Paint(u, Lines(x, y, marked, cur)), cur, 0, |rows| - 1)
    ensures SelectTail(Again, u, x, y, cur, rows) == SelectTail(k.out, k.u, x, y, k.cur, marked)
  {
    hide KeyInput;
  }

  class Terminal {
    var input: seq<Poll>
    var screen: Bit
    var buf0: seq<Draw>
    var buf1: seq<Draw>
    var bgm: int
    var se: int
    ghost var flips: nat
    ghost var joins: nat
    ghost var logins: nat
    ghost var depth: int
    ghost var peak: int

    /** The static cursors of the start menu. */
    const pick: Cursor
    const confirm: Cursor

    ghost function Snap(): Ui
      reads this
    {
      Ui(input, screen, buf0, buf1, bgm, se, flips, joins, logins, depth, peak)
    }

    /** The program at its start: front buffer active, volumes 7 and 10, start
        menu on its first row with the second answer preselected. */
    constructor (keyboard: seq<Poll>)
      ensures Snap() == Ui(keyboard, 0, [], [], 7, 10, 0, 0, 0, 0, 0)
      ensures fresh(pick) && fresh(confirm) && pick != confirm
      ensures pick.v == 0 && confirm.v == 1
    {
      input, screen, buf0, buf1, bgm, se := keyboard, 0, [], [], 7, 10;
      flips, joins, logins, depth, peak := 0, 0, 0, 0, 0;
      pick := new Cursor(0);
      confirm := new Cursor(1);
    }

    // ----- Console primitives -----

    method ScreenFlipping()
      modifies this
      ensures Snap() == Flip(old(Snap()))
    {
      screen := if screen == 0 then 1 else 0;
      flips := flips + 1;
    }

    method ScreenClear()
      modifies this
      ensures Snap() == Blank(old(Snap()))
    {
      if screen == 0 { buf0 := []; } else { buf1 := []; }
    }

    method Print(d: Draw)
      modifies this
      ensures Snap() == Paint(old(Snap()), [d])
    {
      if screen == 0 { buf0 := buf0 + [d]; } else { buf1 := buf1 + [d]; }
    }

    method GetKey() returns (code: Option<int>)
      modifies this
      ensures match Getch(old(input))
              case None => code == None && Snap() == old(Snap()).(input := [])
              case Some((c, rest)) => code == Some(c) && Snap() == old(Snap()).(input := rest)
    {
      while input != [] && input[0].Idle?
        invariant Snap() == old(Snap()).(input := input)
        invariant Getch(input) == Getch(old(input))
      {
        input := input[1..];
      }
      if input == [] { return None; }
      code := Some(input[0].code);
      input := input[1..];
    }

    // ----- keyInput -----

    method KeyInput(cursor: Cursor, lo: int, hi: int) returns (out: Sig)
      modifies this, cursor
      ensures var k := UiModel.KeyInput(old(Snap()), old(cursor.v), lo, hi);
              out == k.out && Snap() == k.u && cursor.v == k.cur
      decreases |input|, 0
    {
      if input == [] { return Starved; }
      var poll := input[0];
      input := input[1..];
      if poll.Key? {
        if poll.code == EXTEND_KEY {
          var next := GetKey();
          match next {
            case None => return Starved;
            case Some(code) =>
              if code == KEY_LEFT || code == KEY_UP {
                if cursor.v > lo { cursor.v := cursor.v - 1; } else { cursor.v := hi; }
              } else if code == KEY_RIGHT || code == KEY_DOWN {
                if cursor.v < hi { cursor.v := cursor.v + 1; } else { cursor.v := lo; }
              }
          }
        } else if poll.code == KEY_Z {
          return Done;
        } else if poll.code == KEY_ESC {
          if screen != 1 {
            var p := MenuPause();
            return if p == Done then Again else p;
          } else {
            cursor.v := ESC_CURSOR;
            return Done;
          }
        }
      }
      return Again;
    }

    // ----- show_select_menu -----

    method Blot(str: array2<char>)
      requires str.Length1 > 0
      modifies str
      ensures RowsOf(str) == Unmark(old(RowsOf(str)))
    {
      for i := 0 to str.Length0
        invariant forall a, b :: 0 <= a < str.Length0 && 0 <= b < str.Length1 ==>
          str[a, b] == if a < i && b == 0 then ' ' else old(str[a, b])
      {
        str[i, 0] := ' ';
      }
      assert forall a :: 0 <= a < str.Length0 ==> RowsOf(str)[a] == Unmark(old(RowsOf(str)))[a];
    }

    method PutMarker(str: array2<char>, row: int, ghost was: seq<string>)
      requires str.Length1 > 0 && 0 <= row < str.Length0 == |was|
      requires RowsFit(was) && RowsOf(str) == Unmark(was)
      modifies str
      ensures RowsOf(str) == Mark(was, row)
    {
      ghost var before := RowsOf(str);
      str[row, 0] := '>';
      forall a | 0 <= a < str.Length0 ensures RowsOf(str)[a] == Mark(was, row)[a] {
        assert before[a] == Unmark(was)[a];
        assert RowsOf(str)[a] == if a == row then before[a][0 := '>'] else before[a];
      }
    }

    method PrintRows(x: int, y: int, str: array2<char>, cur: int)
      modifies this
      ensures Snap() == Paint(old(Snap()), Lines(x, y, RowsOf(str), cur))
    {
      ghost var all := Lines(x, y, RowsOf(str), cur);
      for i := 0 to str.Length0
        invariant Snap() == Paint(old(Snap()), all[..i])
      {
        Print(Line(x, y + i, LineOf(str, i), if cur == i then RED else WHITE));
        assert all[..i + 1] == all[..i] + [all[i]];
      }
      assert all[..|all|] == all;
    }

    /** One redraw: every row unmarked, the cursor's row marked, all rows printed. */
    method Redraw(x: int, y: int, cur: int, str: array2<char>)
      requires str.Length1 > 0 && 0 <= cur < str.Length0
      modifies this, str
      ensures RowsOf(str) == Mark(old(RowsOf(str)), cur)
      ensures Snap() == Paint(old(Snap()), Lines(x, y, Mark(old(RowsOf(str)), cur), cur))
    {
      ghost var was := RowsOf(str);
      Blot(str);
      PutMarker(str, cur, was);
      PrintRows(x, y, str, cur);
    }

    /** The next key of a menu, after its rows have been redrawn. */
    method RedrawAndWait(x: int, y: int, cursor: Cursor, str: array2<char>) returns (out: Sig)
      requires str.Length1 > 0 && 0 <= cursor.v < str.Length0
      modifies this, cursor, str
      ensures SelectTail(out, Snap(), x, y, cursor.v, RowsOf(str)) ==
              old(SelectTail(Again, Snap(), x, y, cursor.v, RowsOf(str)))
      ensures |input| <= old(|input|) && (out == Again || out == Done ==> |input| < old(|input|))
      decreases |input|, 1
    {
      ghost var u, cur, rows := Snap(), cursor.v, RowsOf(str);
      Redraw(x, y, cursor.v, str);
      ghost var v, marked := Snap(), RowsOf(str);
      out := KeyInput(cursor, 0, str.Length0 - 1);
      SelectTurn(u, x, y, cur, rows, marked, KeyResult(out, Snap(), cursor.v));
    }

    method ShowSelectMenu(x: int, y: int, cursor: Cursor, str: array2<char>, col: int) returns (out: Sig)
      requires str.Length1 > 0
      modifies this, cursor, str
      ensures var r := SelectMenu(old(Snap()), x, y, old(cursor.v), old(RowsOf(str)), col);
              && out == r.out && Snap() == r.u && cursor.v == r.cur && RowsOf(str) == r.rows
      decreases |input|, 2
    {
      ghost var r := SelectMenu(Snap(), x, y, cursor.v, RowsOf(str), col);
      Print(Wipe(x, y, col, str.Length0));
      ghost var size := |input|;
      assert r == SelectLoop(Snap(), x, y, cursor.v, RowsOf(str));
      out := KeyInput(cursor, 0, str.Length0 - 1);
      while out == Again
        invariant |input| <= size && (out == Again || out == Done ==> |input| < size)
        invariant SelectTail(out, Snap(), x, y, cursor.v, RowsOf(str)) == r
        decreases |input|, out == Again
      {
        if !(0 <= cursor.v < str.Length0) {
          Blot(str);
          return Fault;
        }
        out := RedrawAndWait(x, y, cursor, str);
      }
    }

    // ----- toggleSound -----

    method PrintSound(x: int, y: int, musicText: int, effectText: int, cur: int, hue: int)
      modifies this
      ensures Snap() == Paint(old(Snap()), SoundLines(x, y, musicText, effectText, cur, hue))
    {
      Print(Volume(x, y, musicText, if cur == 0 then hue else WHITE));
      Print(Volume(x, y + 1, effectText, if cur == 1 then hue else WHITE));
      Print(Line(x, y + 2, "   -- Exit --", if cur == 2 then hue else WHITE));
    }

    method KeyInputSound(music: bool, x: int, y: int) returns (out: Sig)
      modifies this
      ensures var k := UiModel.KeyInputSound(old(Snap()), music, x, y); out == k.out && Snap() == k.u
    {
      if input == [] { return Starved; }
      var poll := input[0];
      input := input[1..];
      if poll.Key? {
        if poll.code == EXTEND_KEY {
          var next := GetKey();
          match next {
            case None => return Starved;
            case Some(code) =>
              if music { bgm := Turn(code, bgm); } else { se := Turn(code, se); }
          }
        } else if poll.code == KEY_Z {
          return Done;
        }
      }
      PrintSound(x, y, bgm, se, if music then 0 else 1, YELLOW);
      return Again;
    }

    method ToggleSound(x: int, y: int) returns (out: Sig, more: bool)
      modifies this
      ensures var t := UiModel.ToggleSound(old(Snap()), x, y);
              && out == t.out && Snap() == t.u && (out == Done ==> more == t.more)
      decreases |input|, 2
    {
      var musicText, effectText := bgm, se;
      var cursor := new Cursor(0);
      ghost var u := Snap();
      more := true;
      Print(Wipe(x, y, 20, 3));
      ghost var k := SoundLoop(Snap(), x, y, musicText, effectText, 0);
      ghost var size := |input|;
      out := KeyInput(cursor, 0, 2);
      while out == Again
        invariant |input| <= size && (out == Again || out == Done ==> |input| < size)
        invariant SoundTail(out, Snap(), x, y, musicText, effectText, cursor.v) == k
        decreases |input|, out == Again
      {
        PrintSound(x, y, musicText, effectText, cursor.v, RED);
        out := KeyInput(cursor, 0, 2);
      }
      if out != Done { return; }
      if cursor.v == 0 || cursor.v == 1 {
        var music := cursor.v == 0;
        ghost var v := VolumeLoop(Snap(), music, x, y);
        out := KeyInputSound(music, x, y);
        while out == Again
          invariant VolumeTail(out, Snap(), music, x, y) == v
          decreases |input|, out == Again
        {
          out := KeyInputSound(music, x, y);
        }
      } else {
        more := cursor.v != 2;
      }
    }

    // ----- menu_pause, menu_options -----

    method OpenPause()
      modifies this
      ensures Snap() == Paint(Flip(Enter(old(Snap()))), [Border(24, 10)])
    {
      depth := depth + 1;
      peak := if depth > peak then depth else peak;
      ScreenFlipping();
      Print(Border(24, 10));
    }

    method ClosePause()
      modifies this
      ensures Snap() == Leave(Flip(Blank(old(Snap()))))
    {
      ScreenClear();
      ScreenFlipping();
      depth := depth - 1;
    }

    method MenuPause() returns (out: Sig)
      modifies this
      ensures var p := UiModel.MenuPause(old(Snap())); out == p.out && Snap() == p.u
      decreases |input|, 4
    {
      var cursor := new Cursor(0);
      var str := NewRows(PAUSE_TEXT);
      OpenPause();
      out := ShowSelectMenu(30, 12, cursor, str, 20);
      if out != Done { return; }
      if cursor.v == 0 {
        out := ToggleUntilLeft(31, 13);
        if out != Done { return; }
      }
      ClosePause();
    }

    method ToggleUntilLeft(x: int, y: int) returns (out: Sig)
      modifies this
      ensures var t := ToggleAll(old(Snap()), x, y); out == t.out && Snap() == t.u
      decreases |input|, 3
    {
      ghost var t := ToggleAll(Snap(), x, y);
      ghost var size := |input|;
      var more;
      out, more := ToggleSound(x, y);
      while out == Done && more
        invariant |input| <= size && (out == Done ==> |input| < size)
        invariant out != Again
        invariant (if out == Done && more then ToggleAll(Snap(), x, y) else UiResult(out, Snap())) == t
        decreases |input|, out == Done && more
      {
        out, more := ToggleSound(x, y);
      }
    }

    method MenuOptions() returns (out: Sig)
      modifies this
      ensures var r := UiModel.MenuOptions(old(Snap())); out == r.out && Snap() == r.u
    {
      var cursor := new Cursor(0);
      var str := NewRows(OPTIONS_TEXT);
      out := ShowSelectMenu(33, 15, cursor, str, 20);
      if out == Done && cursor.v == 0 {
        out := ToggleUntilLeft(31, 16);
      }
    }

    // ----- menu_init and its loop -----

    method AskNewGame(str2: array2<char>) returns (out: Sig, code: int)
      requires str2.Length1 == MAX_ARRAY_SIZE && RowsOf(str2) == Pad(CONFIRM_TEXT)
      modifies this, confirm, str2
      ensures var r := NewGame(old(Snap()), old(confirm.v));
              && out == r.out && Snap() == r.u && confirm.v == r.confirm && code == r.code
    {
      code := -1;
      ghost var u := Snap();
      ScreenClear();
      Print(Border(24, 10));
      Print(Line(30, 12, NEW_GAME_TEXT, WHITE));
      assert Snap() == Paint(Blank(u), [Border(24, 10), Line(30, 12, NEW_GAME_TEXT, WHITE)]);
      out := ShowSelectMenu(32, 14, confirm, str2, 20);
      if out != Done { return; }
      if confirm.v == 0 {
        ScreenClear();
        ScreenFlipping();
        joins := joins + 1;
        return Done, 0;
      } else if confirm.v == 1 {
        code := 1;
      }
      ScreenClear();
      ScreenFlipping();
    }

    method MenuInit() returns (out: Sig, code: int)
      requires pick != confirm
      modifies this, pick, confirm
      ensures var r := UiModel.MenuInit(old(Snap()), old(pick.v), old(confirm.v));
              && out == r.out && Snap() == r.u && pick.v == r.pick && confirm.v == r.confirm && code == r.code
    {
      code := -1;
      var str := NewRows(START_TEXT);
      var str2 := NewRows(CONFIRM_TEXT);
      ScreenFlipping();
      Print(Border(24, 10));
      out := ShowSelectMenu(28, 12, pick, str, 20);
      if out != Done { return; }
      if pick.v == 0 {
        out, code := AskNewGame(str2);
        return;
      } else if pick.v == 1 {
        ScreenClear();
        ScreenFlipping();
        logins := logins + 1;
        return Done, 0;
      }
      ScreenClear();
      ScreenFlipping();
    }

    method StartUp() returns (out: Sig)
      requires pick != confirm
      modifies this, pick, confirm
      ensures var r := InitLoop(old(Snap()), old(pick.v), old(confirm.v));
              && out == r.out && Snap() == r.u && pick.v == r.pick && confirm.v == r.confirm
    {
      ghost var r := InitLoop(Snap(), pick.v, confirm.v);
      var code;
      out, code := MenuInit();
      while out == Done && code != 0
        invariant (if out == Done && code != 0 then InitLoop(Snap(), pick.v, confirm.v)
                   else StartResult(out, Snap(), pick.v, confirm.v, code)) == r
        decreases |input|, out == Done && code != 0
      {
        out, code := MenuInit();
      }
    }
  }
}
