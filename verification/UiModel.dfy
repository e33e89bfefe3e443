/**
 The menu engine on values: what `keyInput`, `show_select_menu`, `menu_pause`,
 `menu_init` and the sound menu do to the keyboard, to the cursor under the
 caller's pointer, to the rows of the menu and to the two console buffers.

 The keyboard is a finite trace of polls. A call that needs a key after the
 trace has run out is Starved: the program would still be waiting.
 */
module UiModel {
  import opened Wrappers

  const KEY_Z := 122
  const KEY_ESC := 27
  const EXTEND_KEY := 224
  const KEY_UP := 72
  const KEY_DOWN := 80
  const KEY_LEFT := 75
  const KEY_RIGHT := 77

  /** The cursor value `_ESC`, outside every menu's rows. */
  const ESC_CURSOR := -1

  const MAX_ARRAY_SIZE := 512

  const RED := 12
  const YELLOW := 14
  const WHITE := 15

  /** One look at the keyboard: nothing pressed, or a code waiting. */
  datatype Poll = Idle | Key(code: int)

  /** What is written to a console buffer between two clearings. */
  datatype Draw =
    | Wipe(x: int, y: int, col: int, row: int)
    | Border(x: int, y: int)
    | Line(x: int, y: int, text: string, colour: int)
    | Volume(x: int, y: int, level: int, colour: int)

  /** The index of the active buffer, `nScreenIndex`. */
  type Bit = b: int | b == 0 || b == 1

  /** The state that the menus share. `flips`, `joins`, `logins`, `depth` and
      `peak` count calls: buffer flips, account calls, and the pause menus
      open now and at most so far. */
  datatype Ui = Ui(
    input: seq<Poll>,
    screen: Bit,
    buf0: seq<Draw>,
    buf1: seq<Draw>,
    bgm: int,
    se: int,
    flips: nat,
    joins: nat,
    logins: nat,
    depth: int,
    peak: int)

  /** How a call or one turn of a loop ends. Fault: a write outside the rows. */
  datatype Sig = Again | Done | Starved | Fault

  datatype UiResult = UiResult(out: Sig, u: Ui)
  datatype KeyResult = KeyResult(out: Sig, u: Ui, cur: int)
  datatype SelectResult = SelectResult(out: Sig, u: Ui, cur: int, rows: seq<string>)
  datatype ToggleResult = ToggleResult(out: Sig, u: Ui, more: bool)
  datatype StartResult = StartResult(out: Sig, u: Ui, pick: int, confirm: int, code: int)

  // ----- Console primitives -----

  function Flip(u: Ui): Ui {
    u.(screen := if u.screen == 0 then 1 else 0, flips := u.flips + 1)
  }

  function Blank(u: Ui): Ui {
    if u.screen == 0 then u.(buf0 := []) else u.(buf1 := [])
  }

  function Paint(u: Ui, ds: seq<Draw>): Ui {
    if u.screen == 0 then u.(buf0 := u.buf0 + ds) else u.(buf1 := u.buf1 + ds)
  }

  function Enter(u: Ui): Ui {
    u.(depth := u.depth + 1, peak := if u.depth + 1 > u.peak then u.depth + 1 else u.peak)
  }

  function Leave(u: Ui): Ui {
    u.(depth := u.depth - 1)
  }

  /** `_getch` waits for the next code. */
  function Getch(polls: seq<Poll>): (r: Option<(int, seq<Poll>)>)
    ensures r.Some? ==> |r.value.1| < |polls|
  {
    if polls == [] then None
    else if polls[0].Key? then Some((polls[0].code, polls[1..]))
    else Getch(polls[1..])
  }

  // ----- keyInput -----

  function MoveCursor(code: int, cur: int, lo: int, hi: int): int {
    if code == KEY_LEFT || code == KEY_UP then if cur > lo then cur - 1 else hi
    else if code == KEY_RIGHT || code == KEY_DOWN then if cur < hi then cur + 1 else lo
    else cur
  }

  function KeyInput(u: Ui, cur: int, lo: int, hi: int): (r: KeyResult)
    ensures |r.u.input| <= |u.input|
    ensures r.out == Again || r.out == Done ==> |r.u.input| < |u.input|
    decreases |u.input|, 0
  {
    if u.input == [] then KeyResult(Starved, u, cur)
    else
      var v := u.(input := u.input[1..]);
      match u.input[0]
      case Idle => KeyResult(Again, v, cur)
      case Key(code) =>
        if code == EXTEND_KEY then
          match Getch(v.input)
          case None => KeyResult(Starved, v.(input := []), cur)
          case Some((next, rest)) => KeyResult(Again, v.(input := rest), MoveCursor(next, cur, lo, hi))
        else if code == KEY_Z then KeyResult(Done, v, cur)
        else if code == KEY_ESC then
          if v.screen != 1 then
            var p := MenuPause(v);
            KeyResult(if p.out == Done then Again else p.out, p.u, cur)
          else KeyResult(Done, v, ESC_CURSOR)
        else KeyResult(Again, v, cur)
  }

  // ----- show_select_menu -----

  /** Rows with their first column blanked, and the sign put on one of them. */
  function Unmark(rows: seq<string>): seq<string>
    requires forall i :: 0 <= i < |rows| ==> |rows[i]| > 0
  {
    seq(|rows|, i requires 0 <= i < |rows| => rows[i][0 := ' '])
  }

  function Mark(rows: seq<string>, cur: int): seq<string>
    requires forall i :: 0 <= i < |rows| ==> |rows[i]| > 0
    requires 0 <= cur < |rows|
  {
    seq(|rows|, i requires 0 <= i < |rows| => rows[i][0 := if i == cur then '>' else ' '])
  }

  function Lines(x: int, y: int, rows: seq<string>, cur: int): seq<Draw> {
    seq(|rows|, i requires 0 <= i < |rows| => Line(x, y + i, rows[i], if cur == i then RED else WHITE))
  }

  function SelectLoop(u: Ui, x: int, y: int, cur: int, rows: seq<string>): (r: SelectResult)
    requires forall i :: 0 <= i < |rows| ==> |rows[i]| > 0
    ensures |r.u.input| <= |u.input|
    ensures r.out != Again
    ensures r.out == Done ==> |r.u.input| < |u.input|
    ensures |r.rows| == |rows| && forall i :: 0 <= i < |rows| ==> |r.rows[i]| == |rows[i]|
    decreases |u.input|, 1
  {
    var k := KeyInput(u, cur, 0, |rows| - 1);
    if k.out != Again then SelectResult(k.out, k.u, k.cur, rows)
    else if !(0 <= k.cur < |rows|) then SelectResult(Fault, k.u, k.cur, Unmark(rows))
    else
      var marked := Mark(rows, k.cur);
      SelectLoop(Paint(k.u, Lines(x, y, marked, k.cur)), x, y, k.cur, marked)
  }

  function SelectMenu(u: Ui, x: int, y: int, cur: int, rows: seq<string>, col: int): (r: SelectResult)
    requires forall i :: 0 <= i < |rows| ==> |rows[i]| > 0
    ensures |r.u.input| <= |u.input|
    ensures r.out != Again
    ensures r.out == Done ==> |r.u.input| < |u.input|
    ensures |r.rows| == |rows| && forall i :: 0 <= i < |rows| ==> |r.rows[i]| == |rows[i]|
    decreases |u.input|, 2
  {
    SelectLoop(Paint(u, [Wipe(x, y, col, |rows|)]), x, y, cur, rows)
  }

  // ----- The sound menu -----

  /** The three lines of the sound menu: two volumes and the exit row. */
  function SoundLines(x: int, y: int, bgm: int, se: int, cur: int, hue: int): seq<Draw> {
    [ Volume(x, y, bgm, if cur == 0 then hue else WHITE),
      Volume(x, y + 1, se, if cur == 1 then hue else WHITE),
      Line(x, y + 2, "   -- Exit --", if cur == 2 then hue else WHITE) ]
  }

  /** `bgm` and `se` are the volumes as they were formatted into the menu's
      text, which a pause opened from here may leave behind. */
  function SoundLoop(u: Ui, x: int, y: int, bgm: int, se: int, cur: int): (r: KeyResult)
    ensures |r.u.input| <= |u.input|
    ensures r.out != Again
    ensures r.out == Done ==> |r.u.input| < |u.input|
    decreases |u.input|, 1
  {
    var k := KeyInput(u, cur, 0, 2);
    if k.out != Again then k
    else SoundLoop(Paint(k.u, SoundLines(x, y, bgm, se, k.cur, RED)), x, y, bgm, se, k.cur)
  }

  /** One step of a volume, held within 0 and 10. */
  function Turn(code: int, volume: int): int {
    if code == KEY_LEFT || code == KEY_UP then if volume > 0 then volume - 1 else 0
    else if code == KEY_RIGHT || code == KEY_DOWN then if volume < 10 then volume + 1 else 10
    else volume
  }

  function TurnChannel(u: Ui, code: int, music: bool): Ui {
    if music then u.(bgm := Turn(code, u.bgm)) else u.(se := Turn(code, u.se))
  }

  function KeyInputSound(u: Ui, music: bool, x: int, y: int): (r: UiResult)
    ensures |r.u.input| <= |u.input|
    ensures r.out == Again || r.out == Done ==> |r.u.input| < |u.input|
    ensures r.out != Fault
  {
    if u.input == [] then UiResult(Starved, u)
    else
      var v := u.(input := u.input[1..]);
      var cur := if music then 0 else 1;
      match u.input[0]
      case Idle => UiResult(Again, Paint(v, SoundLines(x, y, v.bgm, v.se, cur, YELLOW)))
      case Key(code) =>
        if code == EXTEND_KEY then
          match Getch(v.input)
          case None => UiResult(Starved, v.(input := []))
          case Some((next, rest)) =>
            var w := TurnChannel(v.(input := rest), next, music);
            UiResult(Again, Paint(w, SoundLines(x, y, w.bgm, w.se, cur, YELLOW)))
        else if code == KEY_Z then UiResult(Done, v)
        else UiResult(Again, Paint(v, SoundLines(x, y, v.bgm, v.se, cur, YELLOW)))
  }

  function VolumeLoop(u: Ui, music: bool, x: int, y: int): (r: UiResult)
    ensures |r.u.input| <= |u.input|
    ensures r.out == Done || r.out == Starved
    ensures r.out == Done ==> |r.u.input| < |u.input|
    decreases |u.input|
  {
    var k := KeyInputSound(u, music, x, y);
    if k.out != Again then k else VolumeLoop(k.u, music, x, y)
  }

  function ToggleSound(u: Ui, x: int, y: int): (r: ToggleResult)
    ensures |r.u.input| <= |u.input|
    ensures r.out != Again
    ensures r.out == Done ==> |r.u.input| < |u.input|
    decreases |u.input|, 2
  {
    var k := SoundLoop(Paint(u, [Wipe(x, y, 20, 3)]), x, y, u.bgm, u.se, 0);
    if k.out != Done then ToggleResult(k.out, k.u, true)
    else if k.cur == 0 || k.cur == 1 then
      var v := VolumeLoop(k.u, k.cur == 0, x, y);
      ToggleResult(v.out, v.u, true)
    else ToggleResult(Done, k.u, k.cur != 2)
  }

  /** The callers' loop, which calls the sound menu until it answers 0. */
  function ToggleAll(u: Ui, x: int, y: int): (r: UiResult)
    ensures |r.u.input| <= |u.input|
    ensures r.out != Again
    ensures r.out == Done ==> |r.u.input| < |u.input|
    decreases |u.input|, 3
  {
    var t := ToggleSound(u, x, y);
    if t.out == Done && t.more then ToggleAll(t.u, x, y) else UiResult(t.out, t.u)
  }

  // ----- menu_pause, menu_options -----

  /** A menu's text as its fixed-width character array holds it. */
  function Pad(text: seq<string>): (rows: seq<string>)
    ensures |rows| == |text| && forall i :: 0 <= i < |rows| ==> |rows[i]| == MAX_ARRAY_SIZE
  {
    seq(|text|, i requires 0 <= i < |text| =>
      seq(MAX_ARRAY_SIZE, j requires 0 <= j < MAX_ARRAY_SIZE => if j < |text[i]| then text[i][j] else '\0'))
  }

  const PAUSE_TEXT := ["> 사운드 설정", "  ", "  닫기"]
  const OPTIONS_TEXT := ["> 사운드 설정", "  돌아가기"]
  const START_TEXT := ["> 새 게임 시작", "  기존 데이터 불러오기", "  ", "  게임 종료"]
  const CONFIRM_TEXT := ["  예", "> 아니오"]
  const NEW_GAME_TEXT := "새 게임을 시작합니다.\n"

  function MenuPause(u: Ui): (r: UiResult)
    ensures |r.u.input| <= |u.input|
    ensures r.out != Again
    ensures r.out == Done ==> |r.u.input| < |u.input|
    decreases |u.input|, 4
  {
    var s := SelectMenu(Paint(Flip(Enter(u)), [Border(24, 10)]), 30, 12, 0, Pad(PAUSE_TEXT), 20);
    if s.out != Done then UiResult(s.out, s.u)
    else
      var t := if s.cur == 0 then ToggleAll(s.u, 31, 13) else UiResult(Done, s.u);
      if t.out != Done then t else UiResult(Done, Leave(Flip(Blank(t.u))))
  }

  function MenuOptions(u: Ui): (r: UiResult)
    ensures |r.u.input| <= |u.input|
    ensures r.out != Again
  {
    var s := SelectMenu(u, 33, 15, 0, Pad(OPTIONS_TEXT), 20);
    if s.out != Done then UiResult(s.out, s.u)
    else if s.cur == 0 then ToggleAll(s.u, 31, 16)
    else UiResult(Done, s.u)
  }

  // ----- menu_init -----

  /** The question put when a new game is picked, on the first row. */
  function NewGame(u: Ui, confirm: int): (r: StartResult)
    ensures |r.u.input| <= |u.input|
    ensures r.out != Again
    ensures r.out == Done ==> |r.u.input| < |u.input|
  {
    var v := Paint(Blank(u), [Border(24, 10), Line(30, 12, NEW_GAME_TEXT, WHITE)]);
    var c := SelectMenu(v, 32, 14, confirm, Pad(CONFIRM_TEXT), 20);
    if c.out != Done then StartResult(c.out, c.u, 0, c.cur, -1)
    else
      var w := Flip(Blank(c.u));
      if c.cur == 0 then StartResult(Done, w.(joins := w.joins + 1), 0, c.cur, 0)
      else StartResult(Done, w, 0, c.cur, if c.cur == 1 then 1 else -1)
  }

  /** `pick` and `confirm` are the menu's two static cursors. */
  function MenuInit(u: Ui, pick: int, confirm: int): (r: StartResult)
    ensures |r.u.input| <= |u.input|
    ensures r.out != Again
    ensures r.out == Done ==> |r.u.input| < |u.input|
  {
    var s := SelectMenu(Paint(Flip(u), [Border(24, 10)]), 28, 12, pick, Pad(START_TEXT), 20);
    if s.out != Done then StartResult(s.out, s.u, s.cur, confirm, -1)
    else if s.cur == 0 then NewGame(s.u, confirm)
    else
      var w := Flip(Blank(s.u));
      if s.cur == 1 then StartResult(Done, w.(logins := w.logins + 1), s.cur, confirm, 0)
      else StartResult(Done, w, s.cur, confirm, -1)
  }

  /** The start-up loop, which shows the start menu until it answers 0. */
  function InitLoop(u: Ui, pick: int, confirm: int): StartResult
    decreases |u.input|
  {
    var r := MenuInit(u, pick, confirm);
    if r.out == Done && r.code != 0 then InitLoop(r.u, r.pick, r.confirm) else r
  }
}
