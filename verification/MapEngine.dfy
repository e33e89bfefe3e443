/**
 The dungeon as the program runs it: map and room records allocated and freed
 one by one, flags and masks set through pointers, display buffers rewritten
 byte by byte. `live` is the heap: the records allocated and not yet freed.
 Each method is proved to do to this state what the functions of MapWorld say.
 */
module MapEngine {
  import opened MapTables
  import opened SaveFile
  import opened MapWorld
  import opened MapScreen
  import opened MapRecords

  // ----- Byte loops -----

  /** Reading a stream into a buffer. */
  method ReadInto(a: array<byte>, stream: Bytes)
    modifies a
    ensures a[..] == Fread(old(a[..]), stream)
  {
    var n := if |stream| < a.Length then |stream| else a.Length;
    for i := 0 to n
      invariant forall b :: 0 <= b < a.Length ==> a[b] == if b < i then stream[b] else old(a[b])
    {
      a[i] := stream[i];
    }
  }

  /** The two bytes of one room, copied from the drawing. */
  method CopyRoom(d: array<byte>, drawing: Bytes, i: int, j: int)
    requires d.Length == 84 == |drawing| && 0 <= i < 6 && 0 <= j < 6
    modifies d
    ensures forall k :: 0 <= k < 84 ==>
      d[k] == if IsRoomByte(k) && CellOf(k) == Pos(i, j) then drawing[k] else old(d[k])
  {
    d[14 * i + j * 2] := drawing[14 * i + j * 2];
    d[14 * i + j * 2 + 1] := drawing[14 * i + j * 2 + 1];
    ByteOfCell(Pos(i, j));
    forall k | 0 <= k < 84
      ensures d[k] == if IsRoomByte(k) && CellOf(k) == Pos(i, j) then drawing[k] else old(d[k])
    {
      if IsRoomByte(k) {
        CellsAndBytes(k);
      }
    }
  }

  /** `chk_dispMap` on one floor. */
  method CopyVisited(d: array<byte>, g: Grid<Glyph>, drawing: Bytes, level: seq<Room>,
        ghost live: set<object>)
    requires IsGrid(g) && drawing == Encode(g) && d.Length == 84
    requires |level| == 36 && RoomsLive(level, live)
    modifies d
    ensures d[..] == Reveal(g, old(d[..]), VisitedOf(level))
  {
    for i := 0 to 6
      invariant forall k :: 0 <= k < 84 ==>
        d[k] == if IsRoomByte(k) && k / 14 < i && CellOf(k) in VisitedOf(level) then drawing[k] else old(d[k])
    {
      for j := 0 to 6
        invariant forall k :: 0 <= k < 84 ==>
          d[k] == if IsRoomByte(k) && (k / 14 < i || (k / 14 == i && (k % 14) / 2 < j)) && CellOf(k) in VisitedOf(level)
                  then drawing[k] else old(d[k])
      {
        assert Pos(i, j) in VisitedOf(level) <==> level[6 * i + j].isFirst == 0;
        if RoomAt(level[6 * i + j], live).isFirst == 0 {
          CopyRoom(d, drawing, i, j);
        }
      }
    }
  }

  /** One row of the map, two bytes at a time. */
  method PrintRow(screen: Screen, d: array<byte>, i: int)
    requires screen.Valid() && d.Length == 84 && DrawingBytes(d[..]) && 0 <= i < 6
    modifies screen, screen.cells
    ensures screen.colour == old(screen.colour)
    ensures forall r, c :: 0 <= r < HEIGHT_SIZE && 0 <= c < WIDTH_SIZE ==>
      screen.cells[r, c] ==
        if r == MAP_POS_Y + i && MAP_POS_X <= c < MAP_POS_X + 14
        then Cell(d[14 * i + (c - MAP_POS_X)], screen.colour) else old(screen.cells[r, c])
  {
    screen.GotoXY(MAP_POS_X, MAP_POS_Y + i);
    var j := 0;
    while j < 14
      invariant 0 <= j <= 14 && j % 2 == 0
      invariant screen.x == MAP_POS_X + j && screen.y == MAP_POS_Y + i && screen.colour == old(screen.colour)
      invariant forall r, c :: 0 <= r < HEIGHT_SIZE && 0 <= c < WIDTH_SIZE ==>
        screen.cells[r, c] ==
          if r == MAP_POS_Y + i && MAP_POS_X <= c < MAP_POS_X + j
          then Cell(d[14 * i + (c - MAP_POS_X)], screen.colour) else old(screen.cells[r, c])
    {
      assert DrawingByte(d[..][14 * i + j]) && DrawingByte(d[..][14 * i + j + 1]);
      screen.Put(d[14 * i + j]);
      screen.Put(d[14 * i + j + 1]);
      j := j + 2;
    }
  }

  /** `show_current_map` once the display buffer is up to date. */
  method PrintMap(screen: Screen, name: Bytes, d: array<byte>, user: User)
    requires screen.Valid() && d.Length == 84 && DrawingBytes(d[..])
    requires |name| <= 9 && (forall i :: 0 <= i < |name| ==> name[i] >= 32)
    requires InGrid(Here(user))
    modifies screen, screen.cells
    ensures screen.colour == CC_WHITE
    ensures forall r, c :: 0 <= r < HEIGHT_SIZE && 0 <= c < WIDTH_SIZE ==>
      screen.cells[r, c] == MapCell(name, d[..], user, old(screen.colour), old(screen.cells[r, c]), r, c)
  {
    screen.GotoXY(MAP_POS_X, MAP_POS_Y - 1);
    screen.PutAll(Title(name));
    screen.GotoXY(MAP_POS_X, MAP_POS_Y);
    for i := 0 to 6
      invariant screen.colour == old(screen.colour)
      invariant forall r, c :: 0 <= r < HEIGHT_SIZE && 0 <= c < WIDTH_SIZE ==>
        screen.cells[r, c] ==
          if r == MAP_POS_Y - 1 && MAP_POS_X <= c < MAP_POS_X + |Title(name)| then
            Cell(Title(name)[c - MAP_POS_X], old(screen.colour))
          else if MAP_POS_Y <= r < MAP_POS_Y + i && MAP_POS_X <= c < MAP_POS_X + 14 then
            Cell(d[14 * (r - MAP_POS_Y) + (c - MAP_POS_X)], old(screen.colour))
          else old(screen.cells[r, c])
    {
      PrintRow(screen, d, i);
    }
    screen.GotoXY(MAP_POS_X + user.x * 2, MAP_POS_Y + user.y);
    screen.SetFontColor(CC_RED);
    screen.Put(GlyphByte(Solid, false));
    screen.Put(GlyphByte(Solid, true));
    screen.SetFontColor(CC_WHITE);
  }

  // ----- d_movePos on one floor -----

  /** The player's record. */
  class Player {
    var at: User

    constructor ()
    {
    }
  }

  ghost function FootingOf(level: seq<Room>, player: Player): Footing
    requires |level| == 36
    reads level, player
  {
    Footing(VisitedOf(level), MasksOf(level), player.at)
  }

  method SpendEvent(level: seq<Room>, player: Player, ghost i: int, ghost live: set<object>)
    requires IsLevel(level, i) && RoomsLive(level, live) && InGrid(Here(player.at))
    modifies level
    ensures FootingOf(level, player) == Spent(old(FootingOf(level, player)))
  {
    var mask := RoomAt(level[6 * player.at.y + player.at.x], live).mask;
    if mask != STAIR_UP && mask != STAIR_DOWN {
      PutMask(level, Pos(player.at.y, player.at.x), NONE, i, live);
    }
  }

  /** A room is entered unless it is walled off. */
  method TryEnter(level: seq<Room>, player: Player, p: Pos, ghost i: int, ghost live: set<object>) returns (moved: bool)
    requires IsLevel(level, i) && RoomsLive(level, live) && InGrid(p)
    modifies level, player
    ensures moved == Free(old(FootingOf(level, player)).mask, p)
    ensures FootingOf(level, player) ==
            if moved then Entered(old(FootingOf(level, player)), p) else old(FootingOf(level, player))
  {
    moved := RoomAt(level[6 * p.row + p.col], live).mask != BLOCKED;
    if moved {
      MarkVisited(level, p, i, live);
      player.at := Put(player.at, p);
    }
  }

  /** The first open neighbour: right, left, below, above. */
  method ChooseAny(level: seq<Room>, player: Player, ghost i: int, ghost live: set<object>)
    requires IsLevel(level, i) && RoomsLive(level, live) && Interior(Here(player.at))
    modifies level, player
    ensures FootingOf(level, player) == Chosen(old(FootingOf(level, player)), MoveAuto)
  {
    hide VisitedOf, MasksOf;
    ghost var f := FootingOf(level, player);
    var here := Here(player.at);
    var moved := TryEnter(level, player, Pos(here.row, here.col + 1), i, live);
    if !moved {
      moved := TryEnter(level, player, Pos(here.row, here.col - 1), i, live);
      if !moved {
        assert FootingOf(level, player) == f;
        moved := TryEnter(level, player, Pos(here.row + 1, here.col), i, live);
        if !moved {
          assert FootingOf(level, player) == f;
          moved := TryEnter(level, player, Pos(here.row - 1, here.col), i, live);
        }
      }
    }
  }

  method ChooseRoom(level: seq<Room>, player: Player, mode: Mode, ghost i: int, ghost live: set<object>)
    requires IsLevel(level, i) && RoomsLive(level, live) && Interior(Here(player.at))
    modifies level, player
    ensures FootingOf(level, player) == Chosen(old(FootingOf(level, player)), mode)
  {
    var here := Here(player.at);
    var moved;
    match mode {
      case MoveAuto => ChooseAny(level, player, i, live);
      case MoveUp => moved := TryEnter(level, player, Pos(here.row - 1, here.col), i, live);
      case MoveDown => moved := TryEnter(level, player, Pos(here.row + 1, here.col), i, live);
      case MoveLeft => moved := TryEnter(level, player, Pos(here.row, here.col - 1), i, live);
      case MoveRight => moved := TryEnter(level, player, Pos(here.row, here.col + 1), i, live);
    }
  }

  method MoveRooms(level: seq<Room>, player: Player, mode: Mode, ghost i: int, ghost live: set<object>)
    requires IsLevel(level, i) && RoomsLive(level, live) && Interior(Here(player.at))
    modifies level, player
    ensures FootingOf(level, player) == Chosen(Spent(old(FootingOf(level, player))), mode)
  {
    SpendEvent(level, player, i, live);
    ChooseRoom(level, player, mode, i, live);
  }
}
