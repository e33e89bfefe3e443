/**
 The sound menu, and menus on the front buffer, read from the keyboard alone:
 which row is chosen through any pauses, which polls are left, and what the two
 volumes become.
 */
module UiSound {
  import opened Wrappers

  import opened UiModel
  import opened UiProps
  import opened UiKeys
  import opened UiStart

  datatype Volumes = Volumes(bgm: int, se: int)

  function VolumesOf(u: Ui): Volumes {
    Volumes(u.bgm, u.se)
  }

  // ----- One volume -----

  /** A volume moved by some steps, held at 10 above and at 0 below. */
  function Nudge(v: int, d: int): int {
    if d > 0 then (if v + d > 10 then 10 else v + d)
    else if d < 0 then (if v + d < 0 then 0 else v + d)
    else v
  }

  function Nudged(v: int, ds: seq<int>): int
    decreases |ds|
  {
    if ds == [] then v else Nudged(Nudge(v, ds[0]), ds[1..])
  }

  /** From 0 to 10 this is adding the step and clamping the sum to that range. */
  lemma NudgeClamps(v: int, d: int)
    requires 0 <= v <= 10
    ensures Nudge(v, d) == if v + d < 0 then 0 else if v + d > 10 then 10 else v + d
  {
  }

  /** The steps of the arrows before the first Z. */
  function VolumeArrows(polls: seq<Poll>): seq<int>
    decreases |polls|
  {
    if polls == [] then []
    else if polls[0] == Key(EXTEND_KEY) then
      match Getch(polls[1..])
      case None => []
      case Some((next, rest)) => [Step(next)] + VolumeArrows(rest)
    else if polls[0] == Key(KEY_Z) then []
    else VolumeArrows(polls[1..])
  }

  lemma TurnNudges(code: int, v: int)
    ensures Turn(code, v) == Nudge(v, Step(code))
  {
  }

  // One key for a volume.
  lemma VolumeKeyTurns(u: Ui, music: bool, x: int, y: int)
    ensures var k := KeyInputSound(u, music, x, y);
            var ds := VolumeArrows(u.input);
            && (k.out != Again ==> ds == [] && VolumesOf(k.u) == VolumesOf(u))
            && (k.out == Again ==>
                  || (ds == VolumeArrows(k.u.input) && VolumesOf(k.u) == VolumesOf(u))
                  || (ds != [] && ds[1..] == VolumeArrows(k.u.input)
                      && VolumesOf(k.u) ==
                         if music then Volumes(Nudge(u.bgm, ds[0]), u.se) else Volumes(u.bgm, Nudge(u.se, ds[0]))))
  {
    hide Nudge, Turn, Step, SoundLines;
    if u.input != [] && u.input[0] == Key(EXTEND_KEY) {
      var g := Getch(u.input[1..]);
      if g.Some? {
        TurnNudges(g.value.0, u.bgm);
        TurnNudges(g.value.0, u.se);
      }
    }
  }

  /** The volume keys turn one volume by the arrows before Z, and leave the other. */
  lemma {:induction false} VolumeTurns(u: Ui, music: bool, x: int, y: int)
    ensures VolumesOf(VolumeLoop(u, music, x, y).u) ==
            if music then Volumes(Nudged(u.bgm, VolumeArrows(u.input)), u.se)
            else Volumes(u.bgm, Nudged(u.se, VolumeArrows(u.input)))
    decreases |u.input|
  {
    hide KeyInputSound, VolumeArrows, Nudge;
    VolumeKeyTurns(u, music, x, y);
    var k := KeyInputSound(u, music, x, y);
    if k.out == Again {
      VolumeTurns(k.u, music, x, y);
    }
  }

  // ----- The sound menu on the back buffer -----

  /** The volumes after the keys for the row that was chosen. */
  function Turned(v: Volumes, row: int, polls: seq<Poll>): Volumes {
    if row == 0 then v.(bgm := Nudged(v.bgm, VolumeArrows(polls)))
    else if row == 1 then v.(se := Nudged(v.se, VolumeArrows(polls)))
    else v
  }

  function SoundVolumes(polls: seq<Poll>, v: Volumes): Volumes
    decreases |polls|
  {
    match MenuKeys(polls, 0, 3)
    case None => v
    case Some((row, rest)) =>
      if row == 2 then v
      else if row == ESC_CURSOR then SoundVolumes(rest, v)
      else
        match VolumeKeys(rest)
        case None => Turned(v, row, rest)
        case Some(after) => SoundVolumes(after, Turned(v, row, rest))
  }

  function PauseVolumes(polls: seq<Poll>, v: Volumes): Volumes {
    match MenuKeys(polls, 0, 3)
    case None => v
    case Some((row, rest)) => if row == 0 then SoundVolumes(rest, v) else v
  }

  lemma {:induction false} SelectKeepsVolumes(u: Ui, x: int, y: int, cur: int, rows: seq<string>)
    requires u.screen == 1 && RowsFit(rows)
    ensures VolumesOf(SelectLoop(u, x, y, cur, rows).u) == VolumesOf(u)
    decreases |u.input|
  {
    var k := KeyInput(u, cur, 0, |rows| - 1);
    if k.out == Again && 0 <= k.cur < |rows| {
      var marked := Mark(rows, k.cur);
      SelectKeepsVolumes(Paint(k.u, Lines(x, y, marked, k.cur)), x, y, k.cur, marked);
    }
  }

  lemma {:induction false} SoundKeepsVolumes(u: Ui, x: int, y: int, bgm: int, se: int, cur: int)
    requires u.screen == 1
    ensures VolumesOf(SoundLoop(u, x, y, bgm, se, cur).u) == VolumesOf(u)
    decreases |u.input|
  {
    var k := KeyInput(u, cur, 0, 2);
    if k.out == Again {
      SoundKeepsVolumes(Paint(k.u, SoundLines(x, y, bgm, se, k.cur, RED)), x, y, bgm, se, k.cur);
    }
  }

  ghost predicate VolumeReadsAs(polls: seq<Poll>, t: ToggleResult) {
    match VolumeKeys(polls)
    case None => t.out == Starved
    case Some(after) => t.out == Done && t.more && t.u.input == after
  }

  // One showing of the sound menu on the back buffer.
  lemma ToggleSoundTurns(u: Ui, x: int, y: int)
    requires u.screen == 1
    ensures var t := ToggleSound(u, x, y);
            match MenuKeys(u.input, 0, 3)
            case None => t.out == Starved && VolumesOf(t.u) == VolumesOf(u)
            case Some((row, rest)) =>
              && VolumesOf(t.u) == Turned(VolumesOf(u), row, rest)
              && ESC_CURSOR <= row < 3
              && (row == 2 ==> t.out == Done && !t.more)
              && (row == ESC_CURSOR ==> t.out == Done && t.more && t.u.input == rest)
              && (0 <= row < 2 ==> VolumeReadsAs(rest, t))
  {
    var v := Paint(u, [Wipe(x, y, 20, 3)]);
    SoundReads(v, x, y, u.bgm, u.se, 0);
    SoundKeepsVolumes(v, x, y, u.bgm, u.se, 0);
    MenuKeysRow(u.input, 0, 3);
    var k := SoundLoop(v, x, y, u.bgm, u.se, 0);
    VolumeReads(k.u, k.cur == 0, x, y);
    VolumeTurns(k.u, k.cur == 0, x, y);
  }

  /** On the back buffer the sound menu changes the volumes as the keyboard says. */
  lemma {:induction false} ToggleTurns(u: Ui, x: int, y: int)
    requires u.screen == 1
    ensures VolumesOf(ToggleAll(u, x, y).u) == SoundVolumes(u.input, VolumesOf(u))
    decreases |u.input|
  {
    ToggleSoundTurns(u, x, y);
    ToggleSoundInner(u, x, y);
    var t := ToggleSound(u, x, y);
    if t.out == Done && t.more {
      ToggleTurns(t.u, x, y);
    }
  }

  lemma PauseTurns(u: Ui)
    requires u.screen == 0
    ensures VolumesOf(MenuPause(u).u) == PauseVolumes(u.input, VolumesOf(u))
  {
    var v := Paint(Flip(Enter(u)), [Border(24, 10)]);
    var rows := Pad(PAUSE_TEXT);
    var w := Paint(v, [Wipe(30, 12, 20, |rows|)]);
    SelectReads(w, 30, 12, 0, rows);
    SelectKeepsVolumes(w, 30, 12, 0, rows);
    SelectInner(w, 30, 12, 0, rows);
    var s := SelectMenu(v, 30, 12, 0, rows, 20);
    if s.out == Done && s.cur == 0 {
      ToggleTurns(s.u, 31, 13);
    }
  }

  // ----- Menus on the front buffer -----

  /** A menu of `n` rows on the front buffer: each escape opens a pause, which
      swallows its own keys. */
  function FrontKeys(polls: seq<Poll>, cur: int, n: int): (r: Option<(int, seq<Poll>)>)
    ensures r.Some? ==> |r.value.1| < |polls|
    decreases |polls|
  {
    if polls == [] then None
    else if polls[0] == Key(EXTEND_KEY) then
      match Getch(polls[1..])
      case None => None
      case Some((next, rest)) => FrontKeys(rest, MoveCursor(next, cur, 0, n - 1), n)
    else if polls[0] == Key(KEY_Z) then Some((cur, polls[1..]))
    else if polls[0] == Key(KEY_ESC) then
      match PauseKeys(polls[1..])
      case None => None
      case Some(rest) => FrontKeys(rest, cur, n)
    else FrontKeys(polls[1..], cur, n)
  }

  /** What the pauses over it make of the volumes. */
  function FrontVolumes(polls: seq<Poll>, v: Volumes): Volumes
    decreases |polls|
  {
    if polls == [] then v
    else if polls[0] == Key(EXTEND_KEY) then
      match Getch(polls[1..])
      case None => v
      case Some((_, rest)) => FrontVolumes(rest, v)
    else if polls[0] == Key(KEY_Z) then v
    else if polls[0] == Key(KEY_ESC) then
      match PauseKeys(polls[1..])
      case None => PauseVolumes(polls[1..], v)
      case Some(rest) => FrontVolumes(rest, PauseVolumes(polls[1..], v))
    else FrontVolumes(polls[1..], v)
  }

  // One key on the front buffer.
  lemma FrontKey(u: Ui, cur: int, n: int)
    requires u.screen == 0 && 0 <= cur < n
    ensures var k := KeyInput(u, cur, 0, n - 1);
            && k.out != Fault
            && (k.out == Again ==>
                  && k.u.screen == 0 && 0 <= k.cur < n
                  && FrontKeys(u.input, cur, n) == FrontKeys(k.u.input, k.cur, n)
                  && FrontVolumes(u.input, VolumesOf(u)) == FrontVolumes(k.u.input, VolumesOf(k.u)))
            && (k.out == Done ==> k.cur == cur && FrontKeys(u.input, cur, n) == Some((cur, k.u.input)))
            && (k.out == Starved ==> FrontKeys(u.input, cur, n) == None)
            && (k.out != Again ==> FrontVolumes(u.input, VolumesOf(u)) == VolumesOf(k.u))
  {
    hide PauseKeys, PauseVolumes, MenuPause;
    KeyKeepsRange(u, cur, 0, n - 1);
    KeyScreen(u, cur, 0, n - 1);
    if u.input != [] {
      PauseReads(u.(input := u.input[1..]));
      PauseTurns(u.(input := u.input[1..]));
    }
  }

  /** A menu on the front buffer ends on the row, with the polls and the volumes
      that the keyboard says. */
  ghost predicate FrontReadsAs(u: Ui, cur: int, n: int, out: Sig, v: Ui, row: int) {
    && VolumesOf(v) == FrontVolumes(u.input, VolumesOf(u))
    && match FrontKeys(u.input, cur, n)
       case None => out == Starved
       case Some((chosen, rest)) => out == Done && row == chosen && v.input == rest
  }

  lemma {:induction false} FrontReads(u: Ui, x: int, y: int, cur: int, rows: seq<string>)
    requires u.screen == 0 && RowsFit(rows) && 0 <= cur < |rows|
    ensures var r := SelectLoop(u, x, y, cur, rows);
            FrontReadsAs(u, cur, |rows|, r.out, r.u, r.cur)
    decreases |u.input|
  {
    hide KeyInput, FrontKeys, FrontVolumes;
    FrontKey(u, cur, |rows|);
    var k := KeyInput(u, cur, 0, |rows| - 1);
    SelectTurn(u, x, y, cur, rows, k);
    if k.out == Again {
      var marked := Mark(rows, k.cur);
      FrontReads(Paint(k.u, Lines(x, y, marked, k.cur)), x, y, k.cur, marked);
    }
  }

  lemma {:induction false} FrontSoundReads(u: Ui, x: int, y: int, bgm: int, se: int, cur: int)
    requires u.screen == 0 && 0 <= cur < 3
    ensures var r := SoundLoop(u, x, y, bgm, se, cur);
            FrontReadsAs(u, cur, 3, r.out, r.u, r.cur)
    decreases |u.input|
  {
    hide KeyInput, FrontKeys, FrontVolumes;
    FrontKey(u, cur, 3);
    var k := KeyInput(u, cur, 0, 2);
    if k.out == Again {
      FrontSoundReads(Paint(k.u, SoundLines(x, y, bgm, se, k.cur, RED)), x, y, bgm, se, k.cur);
    }
  }

  // ----- The sound menu on the front buffer -----

  function FrontSoundKeys(polls: seq<Poll>): (r: Option<seq<Poll>>)
    ensures r.Some? ==> |r.value| < |polls|
    decreases |polls|
  {
    match FrontKeys(polls, 0, 3)
    case None => None
    case Some((row, rest)) =>
      if row == 2 then Some(rest)
      else
        match VolumeKeys(rest)
        case None => None
        case Some(after) => FrontSoundKeys(after)
  }

  function FrontSoundVolumes(polls: seq<Poll>, v: Volumes): Volumes
    decreases |polls|
  {
    var w := FrontVolumes(polls, v);
    match FrontKeys(polls, 0, 3)
    case None => w
    case Some((row, rest)) =>
      if row == 2 then w
      else
        match VolumeKeys(rest)
        case None => Turned(w, row, rest)
        case Some(after) => FrontSoundVolumes(after, Turned(w, row, rest))
  }

  // One showing of the sound menu on the front buffer.
  lemma FrontToggleSound(u: Ui, x: int, y: int)
    requires u.screen == 0
    ensures var t := ToggleSound(u, x, y);
            var w := FrontVolumes(u.input, VolumesOf(u));
            match FrontKeys(u.input, 0, 3)
            case None => t.out == Starved && VolumesOf(t.u) == w
            case Some((row, rest)) =>
              && VolumesOf(t.u) == Turned(w, row, rest) && 0 <= row < 3
              && (row == 2 ==> t.out == Done && !t.more && t.u.input == rest)
              && (row != 2 ==> VolumeReadsAs(rest, t))
  {
    hide FrontKeys, FrontVolumes;
    var v := Paint(u, [Wipe(x, y, 20, 3)]);
    FrontSoundReads(v, x, y, u.bgm, u.se, 0);
    SoundBalanced(v, x, y, u.bgm, u.se, 0);
    var k := SoundLoop(v, x, y, u.bgm, u.se, 0);
    VolumeReads(k.u, k.cur == 0, x, y);
    VolumeTurns(k.u, k.cur == 0, x, y);
  }

  /** On the front buffer, too, the sound menu returns and changes the volumes as
      the keyboard says, pauses over it included. */
  lemma {:induction false} FrontToggleReads(u: Ui, x: int, y: int)
    requires u.screen == 0
    ensures var r := ToggleAll(u, x, y);
            && VolumesOf(r.u) == FrontSoundVolumes(u.input, VolumesOf(u))
            && match FrontSoundKeys(u.input)
               case None => r.out == Starved
               case Some(rest) => r.out == Done && r.u.input == rest
    decreases |u.input|
  {
    hide FrontKeys, FrontVolumes, ToggleSound;
    FrontToggleSound(u, x, y);
    ToggleSoundBalanced(u, x, y);
    var t := ToggleSound(u, x, y);
    if t.out == Done && t.more {
      FrontToggleReads(t.u, x, y);
    }
  }

  // ----- The options menu -----

  /** The options menu: the sound menu if the first row is chosen, and the end if
      it is the second. */
  function OptionsKeys(polls: seq<Poll>): Option<seq<Poll>> {
    match FrontKeys(polls, 0, 2)
    case None => None
    case Some((row, rest)) => if row == 0 then FrontSoundKeys(rest) else Some(rest)
  }

  function OptionsVolumes(polls: seq<Poll>, v: Volumes): Volumes {
    var w := FrontVolumes(polls, v);
    match FrontKeys(polls, 0, 2)
    case None => w
    case Some((row, rest)) => if row == 0 then FrontSoundVolumes(rest, w) else w
  }

  /** Whether the options menu returns, the polls it leaves and the volumes. */
  lemma OptionsReads(u: Ui)
    requires u.screen == 0
    ensures var r := MenuOptions(u);
            && VolumesOf(r.u) == OptionsVolumes(u.input, VolumesOf(u))
            && match OptionsKeys(u.input)
               case None => r.out == Starved
               case Some(rest) => r.out == Done && r.u.input == rest
  {
    hide FrontKeys, FrontVolumes, FrontSoundKeys, FrontSoundVolumes, SelectLoop, ToggleAll, Pad;
    var rows := Pad(OPTIONS_TEXT);
    var v := Paint(u, [Wipe(33, 15, 20, |rows|)]);
    FrontReads(v, 33, 15, 0, rows);
    SelectBalanced(v, 33, 15, 0, rows);
    var s := SelectLoop(v, 33, 15, 0, rows);
    if s.out == Done && s.cur == 0 {
      FrontToggleReads(s.u, 31, 16);
    }
  }
}
