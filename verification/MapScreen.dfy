/**
 The console as far as the map display writes to it: one byte and one colour a
 column, a cursor and the current text colour.
 */
module MapScreen {
  import opened MapTables
  import opened SaveFile
  import opened MapWorld
  import opened MapHistory
  import opened MapRuns

  const WIDTH_SIZE := 80
  const HEIGHT_SIZE := 30
  const MAP_POS_X := 65
  const MAP_POS_Y := 2
  const CC_RED := 12
  const CC_WHITE := 15

  datatype Cell = Cell(glyph: byte, colour: int)

  class Screen {
    const cells: array2<Cell>
    var x: int
    var y: int
    var colour: int

    ghost predicate Valid() {
      cells.Length0 == HEIGHT_SIZE && cells.Length1 == WIDTH_SIZE
    }

    ghost function Picture(): (p: seq<seq<Cell>>)
      requires Valid()
      reads cells
      ensures |p| == HEIGHT_SIZE && forall r :: 0 <= r < HEIGHT_SIZE ==> |p[r]| == WIDTH_SIZE
      ensures forall r, c :: 0 <= r < HEIGHT_SIZE && 0 <= c < WIDTH_SIZE ==> p[r][c] == cells[r, c]
    {
      seq(HEIGHT_SIZE, r requires 0 <= r < HEIGHT_SIZE reads cells =>
        seq(WIDTH_SIZE, c requires 0 <= c < WIDTH_SIZE reads cells => cells[r, c]))
    }

    constructor ()
      ensures Valid() && fresh(cells)
    {
      cells := new Cell[HEIGHT_SIZE, WIDTH_SIZE]((i, j) => Cell(SPACE, 7));
      x, y, colour := 0, 0, 7;
    }

    method GotoXY(column: int, row: int)
      modifies this
      ensures x == column && y == row && colour == old(colour)
    {
      x, y := column, row;
    }

    method SetFontColor(c: int)
      modifies this
      ensures colour == c && x == old(x) && y == old(y)
    {
      colour := c;
    }

    /** One byte that is no control code, inside the window. */
    method Put(b: byte)
      requires Valid() && (b == 0 || b >= 32)
      requires 0 <= x < WIDTH_SIZE && 0 <= y < HEIGHT_SIZE
      modifies this, cells
      ensures x == old(x) + 1 && y == old(y) && colour == old(colour)
      ensures forall r, c :: 0 <= r < HEIGHT_SIZE && 0 <= c < WIDTH_SIZE ==>
        cells[r, c] == if r == old(y) && c == old(x) then Cell(b, colour) else old(cells[r, c])
    {
      cells[y, x] := Cell(b, colour);
      x := x + 1;
    }

    method PutAll(bs: Bytes)
      requires Valid() && forall i :: 0 <= i < |bs| ==> bs[i] == 0 || bs[i] >= 32
      requires 0 <= x && x + |bs| <= WIDTH_SIZE && 0 <= y < HEIGHT_SIZE
      modifies this, cells
      ensures x == old(x) + |bs| && y == old(y) && colour == old(colour)
      ensures forall r, c :: 0 <= r < HEIGHT_SIZE && 0 <= c < WIDTH_SIZE ==>
        cells[r, c] ==
          if r == old(y) && old(x) <= c < old(x) + |bs| then Cell(bs[c - old(x)], colour) else old(cells[r, c])
    {
      for i := 0 to |bs|
        invariant x == old(x) + i && y == old(y) && colour == old(colour)
        invariant forall r, c :: 0 <= r < HEIGHT_SIZE && 0 <= c < WIDTH_SIZE ==>
          cells[r, c] ==
            if r == old(y) && old(x) <= c < old(x) + i then Cell(bs[c - old(x)], colour) else old(cells[r, c])
      {
        Put(bs[i]);
      }
    }
  }

  /** The line above the map: the floor's name between two pairs of signs. */
  function Title(name: Bytes): Bytes {
    [0x3D, 0x3D, 0x20] + name + [0x20, 0x3D, 0x3D]
  }

  /** What the map display leaves in row `r` and column `c` of the screen. */
  function MapCell(name: Bytes, d: Bytes, u: User, colour: int, before: Cell, r: int, c: int): Cell
    requires |d| == 84
  {
    if r == MAP_POS_Y - 1 && MAP_POS_X <= c < MAP_POS_X + |Title(name)| then
      Cell(Title(name)[c - MAP_POS_X], colour)
    else if r == MAP_POS_Y + u.y && (c == MAP_POS_X + 2 * u.x || c == MAP_POS_X + 2 * u.x + 1) then
      Cell(GlyphByte(Solid, c == MAP_POS_X + 2 * u.x + 1), CC_RED)
    else if MAP_POS_Y <= r < MAP_POS_Y + 6 && MAP_POS_X <= c < MAP_POS_X + 14 then
      Cell(d[14 * (r - MAP_POS_Y) + (c - MAP_POS_X)], colour)
    else before
  }

  /** What the map display of the session's floor makes of a screen. */
  ghost predicate MapDrawn(t: seq<Floor>, w: World, before: seq<seq<Cell>>, after: seq<seq<Cell>>, colour: int)
    requires TowerOk(t) && Shaped(w)
    requires |before| == |after| == HEIGHT_SIZE
    requires forall r :: 0 <= r < HEIGHT_SIZE ==> |before[r]| == |after[r]| == WIDTH_SIZE
  {
    && w.session.Some? && 0 <= w.session.value.user.mapId < 2
    && var u := w.session.value.user;
       forall r, c :: 0 <= r < HEIGHT_SIZE && 0 <= c < WIDTH_SIZE ==>
         after[r][c] == MapCell(t[u.mapId].name, w.disp[u.mapId], u, colour, before[r][c], r, c)
  }

  /** What the journal alone says about the column of a byte of the map: the
      player as a red square, explored and hinted bytes by the floor's glyphs,
      and nothing else. */
  ghost function JournalCell(t: seq<Floor>, h: Journal, u: User, colour: int, k: int): Cell
    requires TowerOk(t) && 0 <= u.mapId < 2 && 0 <= k < 84 && IsRoomByte(k)
  {
    if CellOf(k) == Here(u) then Cell(GlyphByte(Solid, k % 2 == 1), CC_RED)
    else if k in Hints(t[u.mapId]) || Known(h, u.mapId, k) then
      Cell(GlyphByte(At(t[u.mapId].level, CellOf(k)), k % 2 == 1), colour)
    else Cell(SPACE, colour)
  }

  lemma ColumnOf(k: int)
    requires 0 <= k < 84 && IsRoomByte(k)
    ensures 0 <= k / 14 < 6 && 0 <= k % 14 < 12 && k == 14 * (k / 14) + k % 14 && (k % 14) % 2 == k % 2
  {
  }

  // A byte of a partly visible floor, on the screen.
  lemma ByteOnScreen(f: Floor, bytes: set<int>, u: User, colour: int, before: Cell, r: int, c: int)
    requires FloorOk(f) && 0 <= r < 6 && 0 <= c < 12
    requires var k := 14 * r + c; IsRoomByte(k) && CellOf(k) == Pos(r, c / 2) && k % 2 == c % 2
    ensures MapCell(f.name, Image(f.level, bytes), u, colour, before, MAP_POS_Y + r, MAP_POS_X + c) ==
            if Pos(r, c / 2) == Here(u) then Cell(GlyphByte(Solid, c % 2 == 1), CC_RED)
            else Cell(if 14 * r + c in bytes then GlyphByte(At(f.level, Pos(r, c / 2)), c % 2 == 1) else SPACE, colour)
  {
    hide CellOf, IsRoomByte, RoomOk;
  }

  /** Whatever was played before, the map on the screen is what the journal says. */
  lemma ScreenTellsJournal(t: seq<Floor>, es: seq<Event>, ws: seq<World>, k: int, colour: int, before: Cell)
    requires TowerOk(t) && IsRun(t, es, ws) && ws[|es|].session.Some? && 0 <= k < 84 && IsRoomByte(k)
    ensures var u := ws[|es|].session.value.user;
            && 0 <= u.mapId < 2 && |ws[|es|].disp| == 2 && |ws[|es|].disp[u.mapId]| == 84
            && MapCell(t[u.mapId].name, ws[|es|].disp[u.mapId], u, colour, before,
                       MAP_POS_Y + k / 14, MAP_POS_X + k % 14)
               == JournalCell(t, JournalOf(es, ws), u, colour, k)
  {
    hide CanStep, FileMatches, FlagsMatch, MapCell, Hints, Known, Image;
    RunOk(t, es, ws, |es|);
    ExploredExactly(t, es, ws);
    var u, h := ws[|es|].session.value.user, JournalOf(es, ws);
    ColumnOf(k);
    ByteOnScreen(t[u.mapId], Hints(t[u.mapId]) + KnownBytes(h, u.mapId), u, colour, before, k / 14, k % 14);
  }

  /** The title: the floor's name, between a space and two signs on either side. */
  ghost function TitleByte(name: Bytes, i: int): byte
    requires 0 <= i < |name| + 6
  {
    if i < 2 || i >= |name| + 4 then 0x3D
    else if i == 2 || i == |name| + 3 then 0x20
    else name[i - 3]
  }

  lemma TitleReads(name: Bytes, i: int)
    requires 0 <= i < |name| + 6
    ensures |Title(name)| == |name| + 6 && Title(name)[i] == TitleByte(name, i)
  {
  }

  /** What the journal alone says about any cell of the window after a display of
      the map: the title, the map, the two NULs after each of its rows, and
      elsewhere what was there before. */
  ghost function TellsCell(t: seq<Floor>, h: Journal, u: User, colour: int, before: Cell, r: int, c: int): Cell
    requires TowerOk(t) && 0 <= u.mapId < 2
  {
    var name := t[u.mapId].name;
    if r == MAP_POS_Y - 1 && MAP_POS_X <= c < MAP_POS_X + |name| + 6 then
      Cell(TitleByte(name, c - MAP_POS_X), colour)
    else if MAP_POS_Y <= r < MAP_POS_Y + 6 && MAP_POS_X <= c < MAP_POS_X + 12 then
      JournalCell(t, h, u, colour, 14 * (r - MAP_POS_Y) + (c - MAP_POS_X))
    else if MAP_POS_Y <= r < MAP_POS_Y + 6 && MAP_POS_X + 12 <= c < MAP_POS_X + 14 then Cell(0, colour)
    else before
  }

  // The cells outside the map proper.
  lemma AroundMap(f: Floor, bytes: set<int>, u: User, colour: int, before: Cell, r: int, c: int)
    requires FloorOk(f) && InGrid(Here(u))
    requires !(MAP_POS_Y <= r < MAP_POS_Y + 6 && MAP_POS_X <= c < MAP_POS_X + 12)
    ensures MapCell(f.name, Image(f.level, bytes), u, colour, before, r, c) ==
            if r == MAP_POS_Y - 1 && MAP_POS_X <= c < MAP_POS_X + |f.name| + 6 then
              Cell(TitleByte(f.name, c - MAP_POS_X), colour)
            else if MAP_POS_Y <= r < MAP_POS_Y + 6 && MAP_POS_X + 12 <= c < MAP_POS_X + 14 then Cell(0, colour)
            else before
  {
    hide RoomOk;
    if MAP_POS_X <= c < MAP_POS_X + |f.name| + 6 {
      TitleReads(f.name, c - MAP_POS_X);
    } else {
      TitleReads(f.name, 0);
    }
  }

  /** The whole window tells the journal. */
  lemma WindowTellsJournal(t: seq<Floor>, es: seq<Event>, ws: seq<World>, colour: int, before: Cell, r: int, c: int)
    requires TowerOk(t) && IsRun(t, es, ws) && ws[|es|].session.Some?
    ensures var u := ws[|es|].session.value.user;
            && 0 <= u.mapId < 2 && |ws[|es|].disp| == 2 && |ws[|es|].disp[u.mapId]| == 84
            && MapCell(t[u.mapId].name, ws[|es|].disp[u.mapId], u, colour, before, r, c)
               == TellsCell(t, JournalOf(es, ws), u, colour, before, r, c)
  {
    hide CanStep, FileMatches, FlagsMatch, MapCell, JournalCell, Hints, Known, Image, MaskOk;
    var u, h := ws[|es|].session.value.user, JournalOf(es, ws);
    RunOk(t, es, ws, |es|);
    StandsInside(t, ws[|es|].session.value);
    if MAP_POS_Y <= r < MAP_POS_Y + 6 && MAP_POS_X <= c < MAP_POS_X + 12 {
      var k := 14 * (r - MAP_POS_Y) + (c - MAP_POS_X);
      assert 0 <= k < 84 && k / 14 == r - MAP_POS_Y && k % 14 == c - MAP_POS_X;
      ScreenTellsJournal(t, es, ws, k, colour, before);
    } else {
      ExploredExactly(t, es, ws);
      AroundMap(t[u.mapId], Hints(t[u.mapId]) + KnownBytes(h, u.mapId), u, colour, before, r, c);
    }
  }

  /** So a screen on which the map has just been displayed tells the journal. */
  lemma ScreenIsJournal(t: seq<Floor>, es: seq<Event>, ws: seq<World>,
        before: seq<seq<Cell>>, after: seq<seq<Cell>>, colour: int)
    requires TowerOk(t) && IsRun(t, es, ws) && Shaped(ws[|es|])
    requires |before| == |after| == HEIGHT_SIZE
    requires forall r :: 0 <= r < HEIGHT_SIZE ==> |before[r]| == |after[r]| == WIDTH_SIZE
    requires MapDrawn(t, ws[|es|], before, after, colour)
    ensures var u := ws[|es|].session.value.user;
            forall r, c :: 0 <= r < HEIGHT_SIZE && 0 <= c < WIDTH_SIZE ==>
              after[r][c] == TellsCell(t, JournalOf(es, ws), u, colour, before[r][c], r, c)
  {
    hide CanStep, JournalCell, TellsCell, MapCell;
    var u := ws[|es|].session.value.user;
    forall r, c | 0 <= r < HEIGHT_SIZE && 0 <= c < WIDTH_SIZE
      ensures after[r][c] == TellsCell(t, JournalOf(es, ws), u, colour, before[r][c], r, c)
    {
      WindowTellsJournal(t, es, ws, colour, before[r][c], r, c);
    }
  }
}
