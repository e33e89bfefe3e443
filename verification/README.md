# CodeClassy: explored maps, menus and clock arithmetic, verified in Dafny

CodeClassy is a console game. This project models three of its stateful parts
and proves what they keep over whole runs.

**The explored map** (`CodeClassy/map.c`, with the moves of `CodeClassy/dungeon.c`).
Each floor has flags telling which rooms have been entered, rebuilt for every
session, and a byte buffer with the map as the player sees it, saved when a
session ends and read back when the next one starts. `MapTables` holds the
tables of the two floors and their byte layout, `SaveFile` the save file,
`MapWorld` sessions, moves, displays and deaths of the process on values,
`MapHistory` what has been explored, byte by byte, told by a journal of events
alone, `MapRuns` the theorem that the program agrees with the journal in every
run, and `MapMoves` the law of the moves, by rows and columns: which journals can
be played, on which floor the player is, and which rooms still have their events.
`MapClaims`, `MapDeaths`, `MapTour` and `MapScreen` say what follows for
the player: what is on display and can be walked to, what a crash costs, that
the whole map can be explored, and what the screen shows. `MapRecords`,
`MapEngine` and `MapDungeon` are the program itself: records allocated and freed
one by one and reached only through pointers to records not yet freed, flags set
in them, buffers rewritten byte by byte. Their methods are proved to do what
`MapWorld` says; `MapDungeon.Dungeon.Perform` puts them together event by event,
and `MapDungeon.Dungeon.PerformInRun` joins it to the journal and the screen.

The moves are those of `CodeClassy/dungeon.c:111-230`: masks spent when a room is
left, flags cleared when one is entered, walls, stairs, and the automatic step
off a stair. A session begins and ends as in `CodeClassy/home.c:64-75`, with the
player at the position that `CodeClassy/game.c:70` saves. These files are EUC-KR
text; the table below cites the documentation of the moves in
`CodeClassy/map.c` for them, as it cites the callers in `CodeClassy/ui.c` for the
sound menu (`CodeClassy/sound.c:98-198`) and for the loop of
`CodeClassy/init.c:29`.

**The menus** (`CodeClassy/ui.c`, with the sound menu of `CodeClassy/sound.c`).
`keyInput`, `menu_pause`, `show_select_menu` and the sound menu call each other;
only the index of the active console buffer keeps pauses from nesting. The
keyboard is a finite trace of polls, and a call that still waits when the trace
runs out is Starved. `UiModel` gives the menus on values; `UiProps`, `UiKeys`,
`UiStart`, `UiSound` and `UiDraws` give their properties: nesting and markers,
cursors and whole menus read from the keyboard alone, the volumes, and what is
drawn; and `UiTerminal` the program with its shared
state, cursor pointers and character arrays. That the methods of `UiTerminal`
terminate without a bound is part of the result, and so is their frame: a
`KeyInput` that opens a pause may change the terminal and the caller's cursor,
never the caller's rows.

**The clock arithmetic** (`FMOD_64BIT_ADD` and `FMOD_64BIT_SUB` in the FMOD
header): `DspClock`.

Some properties turned out not to hold without a condition; the exact condition
is proved, with an input that fails.

- Explored rooms are not safe once a session has been closed: `map_clean` empties
  the save file when it opens it, so a process that dies before it has written
  the displays back loses what earlier sessions had saved
  (`MapDeaths.EmptiedSave`). A saved byte survives exactly if every process that
  dies inside a later save had got beyond it (`MapHistory.KeptExactly`,
  `MapDeaths.NothingLost`), and a glyph is torn exactly if such a process stops
  between its two bytes (`MapDeaths.TornExactly`, `MapDeaths.TornInTheGame`).
- The start menu writes before its first row after escape: the escape key
  leaves a static cursor at -1, and the next showing marks row -1 unless an
  arrow, Z or another escape comes first (`UiStart.StartMenuFaultsExactly`, for
  the whole loop `UiStart.StartUpFaultsExactly`, with
  `UiStart.EscapeThenRedrawFaults`).
- The addition and the subtraction macro are wrong when the fourth operand is
  the variable named by the first, unless the high word happens not to change
  (`DspClock.HighWordAliasExact`, `DspClock.HighWordAliasSubExact`,
  `DspClock.HighWordAliasBreaks`).

Where comments and code disagree, the code is followed: `map_clean` does not
blank the display buffers (`CodeClassy/map.c:99`), `map_init` does not place the
player (`CodeClassy/map.c:86`), and `keyInput` wraps the cursor instead of
stopping it (`CodeClassy/ui.c:79-80`).

Assumptions: the execution character set is EUC-KR; a text stream folds CR-LF
and ends at Ctrl-Z; `fread` of a short file fills what it can; of a save cut
short some first part of the two displays, in order, has reached the file; the
player's record is loaded as it was saved.

## Model

| member | source | states |
|---|---|---|
| MapRuns.ExploredExactly | CodeClassy/map.c:197-277 | In every run of sessions, moves, showings, restarts and crashes, in a save or not, the display buffers, the save file and the flags hold exactly what the journal says |
| MapRuns.StepMatches | CodeClassy/map.c:8-22 | Each single event, in the order the module's head describes, keeps that agreement |
| MapRuns.RunOk | CodeClassy/map.c:37-46 | In every state of a run the player stands on an open, visited room inside the walls of one of the two floors, and masks have changed only from events to none |
| MapHistory.KnownExtends | CodeClassy/map.c:265-277 | One event changes what is explored exactly so: a crash leaves what was saved, one inside a save what had been explored as far as it got, a showing adds the rooms of its floor stood in since the session began |
| MapHistory.KeptExtends | CodeClassy/map.c:246-252 | A save puts into the file what is explored, as far as it gets, and leaves nothing else in it; no other event changes the file |
| MapHistory.KnownGrows | CodeClassy/map.c:265-277 | While no process dies nothing explored is forgotten |
| MapHistory.KeptExactly | CodeClassy/map.c:246-252 | A saved byte whose room is not entered again stays saved exactly if no later process dies inside its save before reaching it |
| MapHistory.LostUntilRevisited | CodeClassy/map.c:249-252 | What such a process loses is not explored any more until its room is entered again |
| MapHistory.QuitThenCrash | CodeClassy/map.c:246-252 | What a closed session had explored outlasts whatever follows, with the same exact exception |
| MapDeaths.NothingLost | CodeClassy/map.c:101-102 | What is on display when a session is closed is on display in later sessions, a byte no hint and not entered again exactly if every process that died inside a save had got beyond it |
| MapDeaths.CrashCosts | CodeClassy/map.c:214-221 | After a crash outside a save the next session shows exactly the hints and what had been kept |
| MapDeaths.CutCosts | CodeClassy/map.c:249-252 | After a crash inside a save the next session shows exactly the hints and what was on display and had been written |
| MapDeaths.EmptiedSave | CodeClassy/map.c:249 | After a crash right after the file was opened for saving, the next session shows the first displays again, whatever had been explored |
| MapDeaths.TornExactly | CodeClassy/map.c:249-252 | A crash inside a save tears a glyph exactly if the last byte written is the first of a room on display that is no hint |
| MapDeaths.TornInTheGame | CodeClassy/map.c:246-252 | A run of the game in which, by the number of bytes written, a saved room comes back whole, torn or not at all |
| MapDeaths.GlyphIntegrity | CodeClassy/map.c:133-195 | In every reachable state the displays hold only blanks and the floor's own bytes, start rooms are drawn and rows end in two NULs; no glyph is torn if saves were cut at even lengths only |
| MapDeaths.WholeExactly | CodeClassy/map.c:48-52 | In a session no glyph is torn exactly if the journal has both bytes of each room explored or neither |
| MapClaims.DisplayedExactly | CodeClassy/map.c:59-64 | While a session runs, what is on display is exactly what is drawn from the outset and what is explored |
| MapClaims.OrderIrrelevant | CodeClassy/map.c:265-277 | However visits and showings of a floor are interleaved, a closing showing leaves the display that the visits alone determine |
| MapClaims.MoveIsStep | CodeClassy/map.c:37-44 | A move ends where it began or in an adjacent open room |
| MapClaims.StoodReachable | CodeClassy/map.c:37-44 | Every room the player ever stands in can be walked to from its floor's start through open rooms |
| MapClaims.DisplayedReachable | CodeClassy/map.c:59-64 | Every room on display beyond the hints can be walked to |
| MapTour.CoveredIsShown | CodeClassy/map.c:57-64 | A tour that comes by every room of a floor not drawn from the outset leaves its whole drawing on display |
| MapTour.WholeMapExplorable | CodeClassy/map.c:133-195 | One session of the game, with a wall and a declined stair on its way, leaves both floors on display as they are drawn in the source |
| MapMoves.MoveObeys | CodeClassy/map.c:37-46 | A move goes one row or column on, stays put before a wall, spends the event of the room left unless it is a stair, marks the room entered, and changes nothing else |
| MapMoves.LeadsExactly | CodeClassy/map.c:67-78 | An event inside a session can happen, and where it leaves the player, exactly as the tables say: walks and walls, stairs taken and declined with the step off them |
| MapMoves.JournalsExactly | CodeClassy/map.c:8-22 | A journal is that of some run exactly if each of its entries follows from the one before by the tables |
| MapMoves.LedIsRun | CodeClassy/map.c:8-22 | The run of such a journal, entry by entry |
| MapMoves.FloorIsParity | CodeClassy/map.c:77-78 | The player's floor is the parity of the stairs taken since the dungeon was entered |
| MapMoves.MasksTellJournal | CodeClassy/map.c:235-243 | In every run a room has no event exactly if its table has none or the player has walked from it, or into its wall, in this session; otherwise it has the table's |
| MapWorld.MoveOk | CodeClassy/map.c:67-78 | A move keeps the session invariant, so its table lookups stay inside the grid |
| MapWorld.ClimbOk | CodeClassy/map.c:170-195 | On a stair the floor changes exactly if the player takes it, to the same room of the other floor, its stair, and the invariant is kept |
| MapScreen.ScreenTellsJournal | CodeClassy/map.c:279-303 | What the map display prints for each byte of the map is what the journal says: the red player glyph, the floor's byte if explored, or a blank |
| MapScreen.WindowTellsJournal | CodeClassy/map.c:279-303 | Every cell of the window after a display: the title with the floor's name between its signs, the map as the journal says, two NULs after each row, and elsewhere what was there before |
| SaveFile.TextReadExactly | CodeClassy/map.c:214-221 | Bytes written binary come back unchanged from a text stream exactly when they hold no Ctrl-Z and no CR-LF pair |
| SaveFile.TextReadMarks | CodeClassy/map.c:214-221 | A text stream reads a CR-LF pair as LF, wherever it stands, and ends at Ctrl-Z |
| SaveFile.TornRoundTrip | CodeClassy/map.c:214-252 | As much of two saved drawings as reached the file is read back into its places, and the rest of the buffers stays |
| SaveFile.SaveLoadRoundTrip | CodeClassy/map.c:214-252 | Two drawings saved one after the other are read back into both buffers byte for byte |
| MapTables.GameTowerOk | CodeClassy/map.c:133-195 | The game's tables agree room by room, are walled in, and their stairs meet |
| MapTables.DrawingReads | CodeClassy/map.c:48-52 | The bytes of a drawing are its two-byte characters, row by row and column by column, and two NULs end each row |
| MapTables.ShownImage | CodeClassy/map.c:48-64 | A drawing of part of a floor shows exactly that part |
| MapRecords.OwnedCount | CodeClassy/map.c:200-212 | The records of six maps are 222 different ones: 6 maps and 216 rooms |
| MapRecords.FreeStep | CodeClassy/map.c:254-262 | With earlier maps freed, the next one is still whole, and freeing it leaves just the later ones |
| MapRecords.FreedOnce | CodeClassy/map.c:254-262 | The freeing order names every record of the maps exactly once and no other |
| MapRecords.RoomsBeforeMap | CodeClassy/map.c:254-262 | In that order the 36 rooms of a map come one after the other, and the map right after them |
| MapDungeon.Dungeon.MallocMaps | CodeClassy/map.c:200-212 | Everything live afterwards is new and belongs to the six maps, with every flag set |
| MapDungeon.Dungeon.HeapCount | CodeClassy/map.c:200-212 | A running session keeps exactly 222 records alive |
| MapDungeon.Dungeon.MapInit | CodeClassy/map.c:197-244 | The whole state after a session has been set up |
| MapDungeon.Dungeon.FreeMap | CodeClassy/map.c:256-261 | Its rooms are freed once each, row by row, then the map, through pointers to live records only |
| MapDungeon.Dungeon.FreesAll | CodeClassy/map.c:254-262 | The freeing order of a running session names each of its 222 live records once |
| MapDungeon.Dungeon.MapClean | CodeClassy/map.c:246-263 | Both displays are saved, and all records freed in that order, none left |
| MapEngine.CopyVisited | CodeClassy/map.c:265-277 | The in-place copy loop computes the display with the visited rooms revealed |
| MapEngine.PrintRow | CodeClassy/map.c:290-297 | The step-by-two loop prints the 14 bytes of a row once each, in order, in the row's 14 columns, and nothing elsewhere |
| MapDungeon.Dungeon.ShowCurrentMap | CodeClassy/map.c:279-303 | The whole screen and the whole state after the map has been displayed |
| MapDungeon.Dungeon.MovePos | CodeClassy/map.c:13-19 | A move through the room records obeys the law of the moves, does to the whole state what the move on values does, and leaves the map on the screen |
| MapDungeon.Dungeon.Perform | CodeClassy/map.c:11-22 | Every event of a living process is carried out as one step of the runs above, keeping heap and buffer invariants; inside a session it leaves the map on the screen, otherwise the screen as it was |
| MapDungeon.Dungeon.Restart | CodeClassy/map.c:246-252 | A process that dies, inside a save or not, and the one loaded after it are one step of the runs above |
| MapDungeon.Dungeon.PerformInRun | CodeClassy/map.c:8-22 | After any run, the next event extends the run; the masks in the records are what the journal says, and after an event inside a session so is every cell of the screen |
| UiProps.PauseTransparent | CodeClassy/ui.c:287-315 | A pause writes outside no rows, opens no second pause, flips twice, and leaves the menu below with its buffer, account state and nesting untouched and the other buffer blank |
| UiProps.KeyScreen | CodeClassy/ui.c:318-357 | One key keeps buffer parity: on the back buffer nothing but that buffer changes, on the front buffer flips come in pairs |
| UiProps.MarkerFollowsCursor | CodeClassy/ui.c:93-126 | From an in-range cursor no write leaves the rows; the cursor ends on a row, or at the escape cursor on the back buffer only; once drawn, the single marker is the cursor's and no other text has changed |
| UiDraws.MenuOnTop | CodeClassy/ui.c:93-126 | Through pauses and until its end a menu adds its cleared area and then its rows alone, each in its line; of those drawn last one is marked and that one alone in red, and it is the row the menu ends on unless by escape |
| UiDraws.LoopRedraws | CodeClassy/ui.c:106-125 | How often a menu redraws its rows: once for each of its own polls and for each pause over it, and not for the poll that ends it |
| UiDraws.SoundRedraws | CodeClassy/ui.c:302-305 | The same for the choice of a volume |
| UiDraws.VolumeRedraws | CodeClassy/ui.c:302-305 | The same for the turning of a volume |
| UiDraws.PadHolds | CodeClassy/ui.c:199-209 | A menu's text stands at the start of its character array's rows, and NULs fill them up |
| UiDraws.SoundOnTop | CodeClassy/ui.c:302-305 | The sound menu's three lines are drawn last, with the volumes it was opened with and the cursor's line alone in red |
| UiDraws.VolumeOnTop | CodeClassy/ui.c:302-305 | While a volume is turned, both volumes are drawn as they now are, the one that is turned in yellow |
| UiDraws.PauseShows | CodeClassy/ui.c:287-315 | While a pause waits its border and cleared area are on the back buffer, and the sound menu's exactly if its first row was chosen |
| UiDraws.StartShows | CodeClassy/ui.c:194-256 | While the start menu waits the back buffer shows it, or, once its first row was chosen, the question about a new game alone |
| UiDraws.OptionsOpensSound | CodeClassy/ui.c:258-285 | The options menu opens the sound menu exactly if the row chosen in it, through any pauses, is the first |
| UiKeys.GetchFirst | CodeClassy/ui.c:318-326 | Waiting returns the first code pressed, leaves the polls after it, and starves exactly when there is none |
| UiKeys.PauseReads | CodeClassy/ui.c:287-315 | What a pause leaves of the keyboard, and whether it returns, depends on the keyboard alone |
| UiKeys.ToggleNeedsZ | CodeClassy/ui.c:302-305 | While no Z comes the sound menu's loop never returns, on either buffer and through any pauses over it |
| UiKeys.CursorIsSumOfArrows | CodeClassy/ui.c:318-357 | Through any number of pauses, the cursor is the starting row plus the menu's own downs less its own ups, modulo the number of rows |
| UiKeys.MoveWraps | CodeClassy/ui.c:329-340 | For any bounds an arrow moves one step around the ring of rows |
| UiSound.VolumeTurns | CodeClassy/ui.c:302-305 | The volume keys move one volume by the arrows before Z, one step each, held between 0 and 10, and leave the other |
| UiSound.NudgeClamps | CodeClassy/ui.c:302-305 | From 0 to 10 such a step is addition, clamped to that range |
| UiSound.ToggleTurns | CodeClassy/ui.c:302-305 | Over a pause, the sound menu's first row turns the music and its second the effects, as the keyboard alone says |
| UiSound.PauseTurns | CodeClassy/ui.c:287-315 | What a pause makes of the volumes, from the keyboard alone |
| UiSound.FrontReads | CodeClassy/ui.c:93-126 | The row a menu on the front buffer ends on, the polls left and the volumes, from the keyboard alone, pauses over it included |
| UiSound.FrontToggleReads | CodeClassy/ui.c:276-279 | The same for the sound menu on the front buffer |
| UiSound.OptionsReads | CodeClassy/ui.c:258-285 | Whether the options menu returns, the polls it leaves and the volumes, from the keyboard alone: the sound menu after its first row, nothing after its second |
| UiStart.ToggleBalanced | CodeClassy/ui.c:276-279 | The sound menu over the front buffer balances its flips and never nests pauses |
| UiStart.OptionsBalanced | CodeClassy/ui.c:258-285 | The options menu faults on no trace and returns to the front buffer with flips balanced |
| UiStart.EscapeTwice | CodeClassy/ui.c:346-353 | Escape twice over a menu costs two keys and two flips and changes nothing below |
| UiStart.FaultExactly | CodeClassy/ui.c:106-113 | A back-buffer menu writes outside its rows exactly when it starts at the escape cursor and the first poll redraws it there |
| UiStart.StartMenuFaultsExactly | CodeClassy/ui.c:194-256 | When one showing of the start menu writes outside its rows, as an equivalence in its two static cursors and the keyboard |
| UiStart.StartMenuOutcome | CodeClassy/ui.c:194-256 | Two flips, front buffer untouched, code 0 exactly with one account call, code 1 exactly when a new game is declined |
| UiStart.StartMenuSafe | CodeClassy/ui.c:194-256 | From cursors on rows no fault; without escape codes the cursors stay on rows |
| UiStart.StartUpMakesOneCall | CodeClassy/ui.c:194-256 | For every keyboard the start-up loop makes at most one account call and ends exactly by making one |
| UiStart.StartUpSafeWithoutEscape | CodeClassy/ui.c:194-256 | Without escape codes start-up never writes outside its rows |
| UiStart.StartUpFaultsExactly | CodeClassy/ui.c:194-256 | When the start-up loop writes outside a menu's rows, as an equivalence in its two static cursors and the whole keyboard |
| UiStart.EscapeThenRedrawFaults | CodeClassy/ui.c:195-216 | Escape followed by any poll that redraws makes start-up write outside its rows |
| UiTerminal.Terminal.KeyInput | CodeClassy/ui.c:318-357 | The terminal and the cursor after one key |
| UiTerminal.Terminal.ShowSelectMenu | CodeClassy/ui.c:93-126 | The terminal, the cursor and the character array after a menu |
| UiTerminal.Terminal.ToggleUntilLeft | CodeClassy/ui.c:302-305 | The terminal after the loop over the sound menu |
| UiTerminal.Terminal.MenuPause | CodeClassy/ui.c:287-315 | The terminal after a pause |
| UiTerminal.Terminal.MenuInit | CodeClassy/ui.c:194-256 | The terminal, both static cursors and the code after the start menu |
| UiTerminal.Terminal.StartUp | CodeClassy/ui.c:194-256 | The same for the start-up loop that shows it until it answers 0 |
| DspClock.AddIsModular | api/fmod-api-x86/include/fmod.h:1183 | The two words after an addition are the sum modulo 2^64 |
| DspClock.SubIsModular | api/fmod-api-x86/include/fmod.h:1184 | The two words after a subtraction are the difference modulo 2^64 |
| DspClock.CarryMeansOverflow | api/fmod-api-x86/include/fmod.h:1183-1184 | The macros' comparisons are true exactly on overflow and on borrow |
| DspClock.AddSubUndo | api/fmod-api-x86/include/fmod.h:1183-1184 | Addition and subtraction undo each other in either order |
| DspClock.AddAllIsModular | api/fmod-api-x86/include/fmod.h:1158 | Any run of additions leaves the true sum modulo 2^64 |
| DspClock.HighWordAliasExact | api/fmod-api-x86/include/fmod.h:1183 | When the low addend is the target's high word, the sum is right exactly if the high word does not change |
| DspClock.HighWordAliasSubExact | api/fmod-api-x86/include/fmod.h:1184 | When the low subtrahend is the target's high word, the difference is right exactly if the high word does not change |
| DspClock.HighWordAliasBreaks | api/fmod-api-x86/include/fmod.h:1183-1184 | From zero, adding or subtracting with such an operand goes wrong |
| DspClock.Add64 | api/fmod-api-x86/include/fmod.h:1183 | The in-place macro under any sharing of its operands |
| DspClock.Sub64 | api/fmod-api-x86/include/fmod.h:1184 | The in-place macro under any sharing of its operands |
| DspClock.Double | api/fmod-api-x86/include/fmod.h:1183 | A clock added to itself is doubled modulo 2^64 |
| DspClock.Clear | api/fmod-api-x86/include/fmod.h:1184 | A clock subtracted from itself is zero |

## Left out

- Battles, items, enemies, skills and the text dialogues; the enemy selector of `CodeClassy/battle.c:288-362`, a second menu loop of its own kind.
- The main menu and the game it starts; the start-up loop and the options menu stand for its kind of caller.
- Account dialogues: `joinUser` and `Login` are counted and return; what they read from the keyboard is not modelled.
- Colours of text other than the rows of menus and the map, delays, window set-up, sound output.
- Message and fading screens of a move: only the final display of the map is modelled.
- MapScreen.Screen.Put: takes no control codes, which the display buffers are proved never to hold.
- MapDungeon.Dungeon.constructor: the save file it finds is one that the game wrote, or none.
- MapDungeon.Dungeon.MallocMap: a map's rooms are allocated before the map record instead of after, and failing allocation is not modelled.
- MapRecords.MapRec: room pointers are one row-major list of 36 instead of a two-dimensional array.
- MapRecords.RoomAt: a field named without it or MapAt is not checked against the heap; the methods always use them.
- Maps 2 to 5 are allocated and freed; they have no tables in the source either.
- DspClock.Add64: the two words of the target are different variables.
- A save file that cannot be opened for writing.
