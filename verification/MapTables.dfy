/**
 The floors of the dungeon: their glyph grids, event masks and start rooms, and
 how a grid is laid out as the bytes of a `char [6][14]`.
 */
module MapTables {

  type byte = b: int | 0 <= b < 256
  type Bytes = seq<byte>

  /** A room of a floor, by row and column. */
  datatype Pos = Pos(row: int, col: int)

  /** The two-byte characters of the map drawings. */
  datatype Glyph = Blank | Solid | Hollow | Upstairs | Downstairs

  const SPACE: byte := 32

  // Event masks.
  const NONE := -1
  const BLOCKED := 1
  const STAIR_UP := 8
  const STAIR_DOWN := 9

  /** First and second byte of a glyph in the EUC-KR execution character set. */
  function GlyphByte(g: Glyph, second: bool): byte {
    match g
    case Blank => SPACE
    case Solid => if second then 0xE1 else 0xA1
    case Hollow => if second then 0xE0 else 0xA1
    case Upstairs => if second then 0xC9 else 0xA2
    case Downstairs => if second then 0xCA else 0xA2
  }

  predicate InGrid(p: Pos) {
    0 <= p.row < 6 && 0 <= p.col < 6
  }

  predicate Interior(p: Pos) {
    1 <= p.row <= 4 && 1 <= p.col <= 4
  }

  type Grid<T> = seq<seq<T>>

  predicate IsGrid<T>(g: Grid<T>) {
    |g| == 6 && forall i :: 0 <= i < 6 ==> |g[i]| == 6
  }

  function At<T>(g: Grid<T>, p: Pos): T
    requires IsGrid(g) && InGrid(p)
  {
    g[p.row][p.col]
  }

  // ----- Byte images -----

  /** Rows are 14 bytes: two for each of six rooms, then two NULs. */
  function CellOf(k: int): Pos {
    Pos(k / 14, (k % 14) / 2)
  }

  predicate IsRoomByte(k: int) {
    k % 14 < 12
  }

  /** The index of the first byte of a room. */
  function ByteOf(p: Pos): int {
    14 * p.row + 2 * p.col
  }

  lemma CellsAndBytes(k: int)
    requires 0 <= k < 84 && IsRoomByte(k)
    ensures InGrid(CellOf(k)) && (k == ByteOf(CellOf(k)) || k == ByteOf(CellOf(k)) + 1)
    ensures k == ByteOf(CellOf(k)) + k % 2
  {
  }

  function Encode(g: Grid<Glyph>): (image: Bytes)
    requires IsGrid(g)
    ensures |image| == 84
  {
    seq(84, k requires 0 <= k < 84 => if IsRoomByte(k) then GlyphByte(At(g, CellOf(k)), k % 2 == 1) else 0)
  }

  /** The characters of the drawings in EUC-KR, two spaces for none. */
  function CodeOf(g: Glyph): int {
    match g
    case Blank => 0x2020
    case Solid => 0xA1E1
    case Hollow => 0xA1E0
    case Upstairs => 0xA2C9
    case Downstairs => 0xA2CA
  }

  /** Row by row and column by column the bytes of a drawing are its characters,
      the first byte first, and two NULs end each row. */
  lemma DrawingReads(g: Grid<Glyph>, i: int, j: int)
    requires IsGrid(g) && 0 <= i < 6 && 0 <= j < 6
    ensures Encode(g)[14 * i + 2 * j] == CodeOf(g[i][j]) / 256
    ensures Encode(g)[14 * i + 2 * j + 1] == CodeOf(g[i][j]) % 256
    ensures Encode(g)[14 * i + 12] == Encode(g)[14 * i + 13] == 0
  {
    assert CellOf(14 * i + 2 * j) == CellOf(14 * i + 2 * j + 1) == Pos(i, j);
  }

  /** The drawing with only the given bytes visible. */
  function Image(g: Grid<Glyph>, bytes: set<int>): (image: Bytes)
    requires IsGrid(g)
    ensures |image| == 84
  {
    seq(84, k requires 0 <= k < 84 => if IsRoomByte(k) && k !in bytes then SPACE else Encode(g)[k])
  }

  /** The bytes at which a drawing makes something visible. */
  ghost function Shown(image: Bytes): set<int>
    requires |image| == 84
  {
    set k | 0 <= k < 84 && IsRoomByte(k) && image[k] != SPACE
  }

  /** The bytes of the rooms of a grid that have a glyph. */
  ghost function Drawn(g: Grid<Glyph>): set<int>
    requires IsGrid(g)
  {
    set k | 0 <= k < 84 && IsRoomByte(k) && At(g, CellOf(k)) != Blank
  }

  lemma ByteOfCell(p: Pos)
    requires InGrid(p)
    ensures 0 <= ByteOf(p) < 83 && IsRoomByte(ByteOf(p)) && CellOf(ByteOf(p)) == p && ByteOf(p) % 2 == 0
    ensures IsRoomByte(ByteOf(p) + 1) && CellOf(ByteOf(p) + 1) == p
  {
  }

  /** A drawing of part of a floor shows exactly that part. */
  lemma ShownImage(g: Grid<Glyph>, bytes: set<int>)
    requires IsGrid(g) && bytes <= Drawn(g)
    ensures Shown(Image(g, bytes)) == bytes
  {
    forall k ensures k in Shown(Image(g, bytes)) <==> k in bytes {
    }
  }

  // ----- Floors -----

  /** One floor: its name, drawing, first display and masks, and the room
      that a session starts with already visited. */
  datatype Floor = Floor(name: Bytes, level: Grid<Glyph>, first: Grid<Glyph>, mask: Grid<int>, start: Pos)

  /** Drawing, first display and mask agree on a room, and a room that can be
      entered lies inside the outer wall. */
  ghost predicate RoomOk(f: Floor, p: Pos)
    requires IsGrid(f.level) && IsGrid(f.first) && IsGrid(f.mask) && InGrid(p)
  {
    && (At(f.mask, p) == BLOCKED <==> At(f.level, p) == Blank)
    && (At(f.first, p) == Blank || At(f.first, p) == At(f.level, p))
    && (Interior(p) || At(f.mask, p) == BLOCKED)
  }

  ghost predicate FloorOk(f: Floor) {
    && IsGrid(f.level) && IsGrid(f.first) && IsGrid(f.mask)
    && |f.name| <= 9 && (forall i :: 0 <= i < |f.name| ==> f.name[i] >= 32)
    && (forall p :: InGrid(p) ==> RoomOk(f, p))
    && Interior(f.start) && At(f.mask, f.start) != BLOCKED
    && At(f.first, f.start) != Blank
  }

  ghost predicate StairsOk(lower: Grid<int>, upper: Grid<int>, p: Pos, stair: Pos)
    requires IsGrid(lower) && IsGrid(upper) && InGrid(p)
  {
    && At(lower, p) != STAIR_DOWN && At(upper, p) != STAIR_UP
    && (At(lower, p) == STAIR_UP <==> p == stair)
    && (At(upper, p) == STAIR_DOWN <==> p == stair)
  }

  /** The dungeon has two floors joined by one stair, which is the start room of
      the upper one; the player's saved position is the start of the lower one. */
  ghost predicate TowerOk(t: seq<Floor>) {
    && |t| == 2 && FloorOk(t[0]) && FloorOk(t[1])
    && t[0].start == Pos(1, 1)
    && (forall p :: InGrid(p) ==> StairsOk(t[0].mask, t[1].mask, p, t[1].start))
  }

  /** The bytes drawn before any room has been visited. */
  ghost function Hints(f: Floor): set<int>
    requires FloorOk(f)
  {
    Drawn(f.first)
  }

  lemma FirstIsImage(f: Floor)
    requires FloorOk(f)
    ensures Encode(f.first) == Image(f.level, Hints(f))
    ensures ByteOf(f.start) in Hints(f) && ByteOf(f.start) + 1 in Hints(f) && Hints(f) <= Drawn(f.level)
  {
    forall k | 0 <= k < 84 && IsRoomByte(k)
      ensures Encode(f.first)[k] == Image(f.level, Hints(f))[k]
      ensures k in Hints(f) ==> k in Drawn(f.level)
    {
      CellsAndBytes(k);
      assert RoomOk(f, CellOf(k));
    }
    ByteOfCell(f.start);
  }

  // ----- The two floors of the game -----

  function Upper(): Floor {
    Floor(
      [0x32, 0xC3, 0xFE],
      [ [Blank, Blank, Blank, Blank, Blank, Blank],
        [Blank, Hollow, Blank, Blank, Blank, Blank],
        [Blank, Hollow, Hollow, Downstairs, Blank, Blank],
        [Blank, Hollow, Blank, Blank, Hollow, Blank],
        [Blank, Hollow, Hollow, Hollow, Hollow, Blank],
        [Blank, Blank, Blank, Blank, Blank, Blank] ],
      [ [Blank, Blank, Blank, Blank, Blank, Blank],
        [Blank, Blank, Blank, Blank, Blank, Blank],
        [Blank, Blank, Blank, Downstairs, Blank, Blank],
        [Blank, Blank, Blank, Blank, Blank, Blank],
        [Blank, Blank, Blank, Blank, Blank, Blank],
        [Blank, Blank, Blank, Blank, Blank, Blank] ],
      [ [1, 1, 1, 1, 1, 1],
        [1, 0, 1, 1, 1, 1],
        [1, 0, 0, 9, 1, 1],
        [1, 0, 1, 1, 0, 1],
        [1, 0, 0, 0, 0, 1],
        [1, 1, 1, 1, 1, 1] ],
      Pos(2, 3))
  }

  function Lower(): Floor {
    Floor(
      [0x31, 0xC3, 0xFE],
      [ [Blank, Blank, Blank, Blank, Blank, Blank],
        [Blank, Solid, Blank, Blank, Blank, Blank],
        [Blank, Hollow, Blank, Upstairs, Blank, Blank],
        [Blank, Hollow, Hollow, Hollow, Hollow, Blank],
        [Blank, Blank, Hollow, Blank, Blank, Blank],
        [Blank, Blank, Blank, Blank, Blank, Blank] ],
      [ [Blank, Blank, Blank, Blank, Blank, Blank],
        [Blank, Solid, Blank, Blank, Blank, Blank],
        [Blank, Blank, Blank, Blank, Blank, Blank],
        [Blank, Blank, Blank, Blank, Blank, Blank],
        [Blank, Blank, Blank, Blank, Blank, Blank],
        [Blank, Blank, Blank, Blank, Blank, Blank] ],
      [ [1, 1, 1, 1, 1, 1],
        [1, -1, 1, 1, 1, 1],
        [1, 0, 1, 8, 1, 1],
        [1, 0, 0, 0, 0, 1],
        [1, 1, 7, 1, 1, 1],
        [1, 1, 1, 1, 1, 1] ],
      Pos(1, 1))
  }

  function GameTower(): seq<Floor> {
    [Lower(), Upper()]
  }

  // The tables are checked room by room, one row at a time.
  lemma LowerRoom(p: Pos)
    requires InGrid(p)
    ensures RoomOk(Lower(), p)
  {
    if p.row == 0 { } else if p.row == 1 { } else if p.row == 2 { }
    else if p.row == 3 { } else if p.row == 4 { } else { }
  }

  lemma UpperRoom(p: Pos)
    requires InGrid(p)
    ensures RoomOk(Upper(), p)
  {
    if p.row == 0 { } else if p.row == 1 { } else if p.row == 2 { }
    else if p.row == 3 { } else if p.row == 4 { } else { }
  }

  lemma StairRoom(p: Pos)
    requires InGrid(p)
    ensures StairsOk(Lower().mask, Upper().mask, p, Pos(2, 3))
  {
    if p.row == 0 { } else if p.row == 1 { } else if p.row == 2 { }
    else if p.row == 3 { } else if p.row == 4 { } else { }
  }

  lemma LowerOk()
    ensures FloorOk(Lower())
  {
    forall p | InGrid(p) ensures RoomOk(Lower(), p) {
      LowerRoom(p);
    }
  }

  lemma UpperOk()
    ensures FloorOk(Upper())
  {
    forall p | InGrid(p) ensures RoomOk(Upper(), p) {
      UpperRoom(p);
    }
  }

  /** The tables of the game fit together. */
  lemma GameTowerOk()
    ensures TowerOk(GameTower())
  {
    LowerOk();
    UpperOk();
    forall p | InGrid(p) ensures StairsOk(Lower().mask, Upper().mask, p, Pos(2, 3)) {
      StairRoom(p);
    }
  }

  type Tower = t: seq<Floor> | TowerOk(t) ghost witness (GameTowerOk(); GameTower())
}
