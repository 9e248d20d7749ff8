/** The field of the game: forty by thirty cells in one array, row by row, with a
    double wall down the middle, walls above and below, and the score underneath
    (tetrisaraj_game.c). */
module Fields {
  import opened Tetrominoes
  import opened ColumnClearing

  const WIDTH: nat := 40
  const HEIGHT: nat := 30
  // The first row below the playing field
  const BOTTOM: nat := 23
  const WALL: nat := 9
  // The columns of each half
  const HALF: nat := 19

  type Grid = seq<nat>

  predicate Sized(g: Grid) {
    |g| == WIDTH * HEIGHT
  }

  predicate Inside(x: int, y: int) {
    0 <= x < WIDTH && 0 <= y < HEIGHT
  }

  function At(g: Grid, x: int, y: int): nat
    requires Sized(g) && Inside(x, y)
  {
    g[y * WIDTH + x]
  }

  function Put(g: Grid, x: int, y: int, v: nat): (r: Grid)
    requires Sized(g) && Inside(x, y)
    ensures Sized(r)
  {
    g[y * WIDTH + x := v]
  }

  lemma PutAt(g: Grid, x: int, y: int, v: nat, x': int, y': int)
    requires Sized(g) && Inside(x, y) && Inside(x', y')
    ensures At(Put(g, x, y, v), x', y') == if x' == x && y' == y then v else At(g, x', y')
  {
  }

  lemma SameGrid(g: Grid, h: Grid)
    requires Sized(g) && Sized(h) && forall x, y :: Inside(x, y) ==> At(g, x, y) == At(h, x, y)
    ensures g == h
  {
    forall i | 0 <= i < |g|
      ensures g[i] == h[i]
    {
      assert At(g, i % WIDTH, i / WIDTH) == At(h, i % WIDTH, i / WIDTH);
    }
  }

  predicate IsWall(x: int, y: int) {
    y == 0 || y == BOTTOM || x == HALF || x == HALF + 1
  }

  // The column at a place of a half, counted from the outer edge
  function Col(side: nat, i: int): int {
    if side == 0 then i else WIDTH - 1 - i
  }

  predicate InHalf(side: nat, x: int) {
    if side == 0 then 0 <= x < HALF else WIDTH - HALF <= x < WIDTH
  }

  function ColumnAt(g: Grid, x: int): (c: Column)
    requires Sized(g) && 0 <= x < WIDTH
    ensures |c| == ROWS && forall i :: 0 <= i < ROWS ==> c[i] == At(g, x, i + 1)
  {
    seq(ROWS, i requires 0 <= i < ROWS => At(g, x, i + 1))
  }

  function HalfOf(g: Grid, side: nat): (h: Half)
    requires Sized(g) && side < 2
    ensures |h| == HALF && forall i :: 0 <= i < HALF ==> h[i] == ColumnAt(g, Col(side, i))
  {
    seq(HALF, i requires 0 <= i < HALF => ColumnAt(g, Col(side, i)))
  }

  // The walls stand, every other cell of the playing field is empty or holds a
  // piece's number, and no column is full.
  ghost predicate Walled(g: Grid)
    requires Sized(g)
  {
    forall x, y :: Inside(x, y) && y <= BOTTOM && IsWall(x, y) ==> At(g, x, y) == WALL
  }

  ghost predicate Coloured(g: Grid)
    requires Sized(g)
  {
    forall x, y :: Inside(x, y) && y < BOTTOM && !IsWall(x, y) ==> At(g, x, y) <= 7
  }

  ghost predicate NoneFull(g: Grid, side: nat)
    requires Sized(g) && side < 2
  {
    forall i :: 0 <= i < HALF ==> !Full(HalfOf(g, side)[i])
  }

  ghost predicate Sound(g: Grid) {
    Sized(g) && Walled(g) && Coloured(g) && NoneFull(g, 0) && NoneFull(g, 1)
  }

  // ---------------------------------------------------------------------
  // The piece on the field
  // ---------------------------------------------------------------------

  datatype Piece = Piece(index: nat, rotation: nat, x: int, y: int)

  // The cells of the field that the piece covers
  predicate Covers(p: Piece, x: int, y: int)
    requires p.index < 7
  {
    p.x <= x < p.x + 4 && p.y <= y < p.y + 4 && Marked(p.index, Rotate(x - p.x, y - p.y, p.rotation))
  }

  function CellX(p: Piece, j: nat): int
    requires p.index < 7 && j < 4
  {
    p.x + X(p.index, p.rotation, j)
  }

  function CellY(p: Piece, j: nat): int
    requires p.index < 7 && j < 4
  {
    p.y + Y(p.index, p.rotation, j)
  }

  lemma CoversCells(p: Piece, j: nat)
    requires p.index < 7 && j < 4
    ensures Covers(p, CellX(p, j), CellY(p, j))
  {
    hide Marked, Rotate;
    CellsAre(p.index, p.rotation, X(p.index, p.rotation, j), Y(p.index, p.rotation, j));
  }

  lemma CoveredIsCell(p: Piece, x: int, y: int)
    requires p.index < 7
    ensures Covers(p, x, y) <==>
              (x == CellX(p, 0) && y == CellY(p, 0)) || (x == CellX(p, 1) && y == CellY(p, 1))
              || (x == CellX(p, 2) && y == CellY(p, 2)) || (x == CellX(p, 3) && y == CellY(p, 3))
  {
    hide Marked, Rotate, X, Y;
    if p.x <= x < p.x + 4 && p.y <= y < p.y + 4 {
      CellsAre(p.index, p.rotation, x - p.x, y - p.y);
    }
  }

  // What xPieceFits asks: no covered cell of the field is occupied; cells off the
  // field are not looked at.
  ghost predicate Fits(g: Grid, p: Piece)
    requires Sized(g) && p.index < 7
  {
    forall x, y :: Covers(p, x, y) && Inside(x, y) ==> At(g, x, y) == 0
  }

  // The piece is on its own half of the playing field, on empty cells.
  ghost predicate Confined(g: Grid, p: Piece, side: nat)
    requires Sized(g) && p.index < 7
  {
    && 0 <= p.x && 0 <= p.y && (side == 1 ==> p.x <= WIDTH - 4)
    && forall j :: 0 <= j < 4 ==>
         && 1 <= CellY(p, j) < BOTTOM && InHalf(side, CellX(p, j))
         && At(g, CellX(p, j), CellY(p, j)) == 0
  }

  predicate OnField(p: Piece)
    requires p.index < 7
  {
    forall j :: 0 <= j < 4 ==> Inside(CellX(p, j), CellY(p, j))
  }

  // A cell on the field where a fitting piece has one is no wall.
  lemma FittingCell(g: Grid, p: Piece, j: nat)
    requires Sized(g) && Walled(g) && p.index < 7 && Fits(g, p) && j < 4 && Inside(CellX(p, j), CellY(p, j))
    ensures At(g, CellX(p, j), CellY(p, j)) == 0
    ensures CellY(p, j) <= BOTTOM ==> !IsWall(CellX(p, j), CellY(p, j))
  {
    hide Covers;
    CoversCells(p, j);
  }

  // From one place, a piece that fits after going one step stays in its half.
  lemma StepConfined(g: Grid, p: Piece, q: Piece, side: nat)
    requires Sized(g) && Walled(g) && p.index == q.index < 7 && side < 2 && Confined(g, p, side) && Fits(g, q)
    requires q.rotation == p.rotation && 0 <= q.x && 0 <= q.y
    requires (q.y == p.y && -1 <= q.x - p.x <= 1 && (side == 1 ==> q.x <= p.x)) || (q.x == p.x && -1 <= q.y - p.y <= 1)
    ensures Confined(g, q, side)
  {
    hide Fits, Walled, Covers, X, Y;
    forall j | 0 <= j < 4
      ensures 1 <= CellY(q, j) < BOTTOM && InHalf(side, CellX(q, j)) && At(g, CellX(q, j), CellY(q, j)) == 0
    {
      assert 1 <= CellY(p, j) < BOTTOM && InHalf(side, CellX(p, j));
      FittingCell(g, q, j);
    }
  }

  // Turning a piece that then fits leaves it in its half, too: it is connected,
  // so it cannot straddle a wall, and it is not turned so far as to jump one.
  lemma TurnConfined(g: Grid, p: Piece, q: Piece, side: nat)
    requires Sized(g) && Walled(g) && p.index == q.index < 7 && side < 2 && Confined(g, p, side) && Fits(g, q)
    requires q == p.(rotation := p.rotation + 1)
    ensures Confined(g, q, side)
  {
    hide Fits, Walled, Covers, X, Y;
    var j0, k0 := TurnIsNear(p.index, p.rotation);
    assert 1 <= CellY(p, j0) < BOTTOM && InHalf(side, CellX(p, j0));
    TurnRows(g, p, q, j0, k0);
    TurnColumns(g, p, q, side, j0, k0);
    forall j | 0 <= j < 4
      ensures 1 <= CellY(q, j) < BOTTOM && InHalf(side, CellX(q, j)) && At(g, CellX(q, j), CellY(q, j)) == 0
    {
      FittingCell(g, q, j);
    }
  }

  lemma TurnRows(g: Grid, p: Piece, q: Piece, j0: nat, k0: nat)
    requires Sized(g) && Walled(g) && q.index < 7 && Fits(g, q) && 0 <= q.x <= WIDTH - 4 && 0 <= q.y && j0 < 4 && k0 < 4
    requires p.index < 7 && CellY(p, j0) < BOTTOM && CellY(q, k0) <= CellY(p, j0) + 1
    ensures forall j :: 0 <= j < 4 ==> 1 <= CellY(q, j) < BOTTOM
  {
    hide Fits, Walled, Covers, X, Y;
    forall j | 0 <= j < 4
      ensures 1 <= CellY(q, j) < BOTTOM
    {
      FittingCell(g, q, k0);
      NothingLeftOut(q.index, q.rotation, k0, j, BOTTOM - q.y);
      forall i | 0 <= i < 4 && CellY(q, i) <= BOTTOM
        ensures CellY(q, i) != BOTTOM
      {
        FittingCell(g, q, i);
      }
      assert CellY(q, 0) != BOTTOM && CellY(q, 1) != BOTTOM && CellY(q, 2) != BOTTOM && CellY(q, 3) != BOTTOM;
      if CellY(q, j) == 0 {
        FittingCell(g, q, j);
      }
    }
  }

  lemma TurnColumns(g: Grid, p: Piece, q: Piece, side: nat, j0: nat, k0: nat)
    requires Sized(g) && Walled(g) && q.index < 7 && Fits(g, q) && 0 <= q.x <= WIDTH - 4 && side < 2 && j0 < 4 && k0 < 4
    requires p.index < 7 && InHalf(side, CellX(p, j0)) && CellX(p, j0) - 2 <= CellX(q, k0) <= CellX(p, j0) + 2
    requires forall j :: 0 <= j < 4 ==> 1 <= CellY(q, j) < BOTTOM
    ensures forall j :: 0 <= j < 4 ==> InHalf(side, CellX(q, j))
  {
    hide Fits, Walled, Covers, X, Y;
    var wall := if side == 0 then HALF else HALF + 1;
    forall i | 0 <= i < 4
      ensures CellX(q, i) != HALF && CellX(q, i) != HALF + 1
    {
      FittingCell(g, q, i);
    }
    assert CellX(q, 0) != wall && CellX(q, 1) != wall && CellX(q, 2) != wall && CellX(q, 3) != wall;
    forall j | 0 <= j < 4
      ensures InHalf(side, CellX(q, j))
    {
      NothingLeftOut(q.index, q.rotation, k0, j, wall - q.x);
      NothingLeftOut(q.index, q.rotation, j, k0, wall - q.x);
    }
  }

  // One move that a button asks for: made if the piece then fits
  ghost function Moved(g: Grid, p: Piece, asked: bool, dx: int, dy: int): (q: Piece)
    requires Sized(g) && p.index < 7
    ensures q.index == p.index && q.rotation == p.rotation
  {
    var q := p.(x := p.x + dx, y := p.y + dy);
    if asked && 0 <= q.x && 0 <= q.y && Fits(g, q) then q else p
  }

  ghost function Turned(g: Grid, p: Piece, asked: bool): Piece
    requires Sized(g) && p.index < 7
  {
    var q := p.(rotation := p.rotation + 1);
    if asked && Fits(g, q) then q else p
  }

  lemma MovedConfined(g: Grid, p: Piece, side: nat, asked: bool, dx: int, dy: int)
    requires Sized(g) && Walled(g) && p.index < 7 && side < 2 && Confined(g, p, side)
    requires (dx == 0 && -1 <= dy <= 1) || (dy == 0 && dx == if side == 0 then 1 else -1)
    ensures Confined(g, Moved(g, p, asked, dx, dy), side)
  {
    hide Fits, Walled;
    var q := p.(x := p.x + dx, y := p.y + dy);
    if 0 <= q.x && 0 <= q.y && Fits(g, q) {
      StepConfined(g, p, q, side);
    }
  }

  // ---------------------------------------------------------------------
  // Locking a piece
  // ---------------------------------------------------------------------

  // The field with the piece written into it, cell by cell
  function Placed(g: Grid, p: Piece, n: nat): (r: Grid)
    requires Sized(g) && p.index < 7 && n <= 4 && OnField(p)
    ensures Sized(r)
  {
    if n == 0 then g else Put(Placed(g, p, n - 1), CellX(p, n - 1), CellY(p, n - 1), p.index + 1)
  }

  lemma PlacedAt(g: Grid, p: Piece, x: int, y: int)
    requires Sized(g) && p.index < 7 && Inside(x, y) && OnField(p)
    ensures At(Placed(g, p, 4), x, y) == if Covers(p, x, y) then p.index + 1 else At(g, x, y)
  {
    hide Covers, CellX, CellY, Put, At;
    CoveredIsCell(p, x, y);
    PutAt(g, CellX(p, 0), CellY(p, 0), p.index + 1, x, y);
    PutAt(Placed(g, p, 1), CellX(p, 1), CellY(p, 1), p.index + 1, x, y);
    PutAt(Placed(g, p, 2), CellX(p, 2), CellY(p, 2), p.index + 1, x, y);
    PutAt(Placed(g, p, 3), CellX(p, 3), CellY(p, 3), p.index + 1, x, y);
    assert Placed(g, p, 1) == Put(Placed(g, p, 0), CellX(p, 0), CellY(p, 0), p.index + 1);
    assert Placed(g, p, 2) == Put(Placed(g, p, 1), CellX(p, 1), CellY(p, 1), p.index + 1);
    assert Placed(g, p, 3) == Put(Placed(g, p, 2), CellX(p, 2), CellY(p, 2), p.index + 1);
    assert Placed(g, p, 4) == Put(Placed(g, p, 3), CellX(p, 3), CellY(p, 3), p.index + 1);
  }

  lemma {:induction false} OccupiedOneMore(c: Column, i: nat, v: nat)
    requires i < |c| && c[i] == 0 && v != 0
    ensures Occupied(c[i := v]) == Occupied(c) + 1
    decreases |c|
  {
    var last := |c| - 1;
    if i < last {
      OccupiedOneMore(c[..last], i, v);
      assert c[i := v][..last] == c[..last][i := v];
    } else {
      assert c[i := v][..last] == c[..last];
    }
  }

  lemma {:induction false} CellsOneColumn(h: Half, i: nat, c: Column)
    requires i < |h|
    ensures Cells(h[i := c]) == Cells(h) - Occupied(h[i]) + Occupied(c)
    decreases |h|
  {
    var last := |h| - 1;
    if i < last {
      CellsOneColumn(h[..last], i, c);
      assert h[i := c][..last] == h[..last][i := c];
    } else {
      assert h[i := c][..last] == h[..last];
    }
  }

  // Filling an empty cell of a half adds one to its cells; the other half keeps its own.
  lemma PutCells(g: Grid, x: int, y: int, v: nat, side: nat)
    requires Sized(g) && side < 2 && InHalf(side, x) && 1 <= y < BOTTOM && At(g, x, y) == 0 && v != 0
    ensures Cells(HalfOf(Put(g, x, y, v), side)) == Cells(HalfOf(g, side)) + 1
    ensures HalfOf(Put(g, x, y, v), 1 - side) == HalfOf(g, 1 - side)
  {
    var g1 := Put(g, x, y, v);
    var i := if side == 0 then x else WIDTH - 1 - x;
    var c := ColumnAt(g, x);
    PutColumns(g, x, y, v);
    assert ColumnAt(g1, x) == c[y - 1 := v];
    assert HalfOf(g1, side) == HalfOf(g, side)[i := c[y - 1 := v]];
    OccupiedOneMore(c, y - 1, v);
    CellsOneColumn(HalfOf(g, side), i, c[y - 1 := v]);
  }

  lemma PutColumns(g: Grid, x: int, y: int, v: nat)
    requires Sized(g) && Inside(x, y)
    ensures forall x' :: 0 <= x' < WIDTH && x' != x ==> ColumnAt(Put(g, x, y, v), x') == ColumnAt(g, x')
  {
    forall x' | 0 <= x' < WIDTH && x' != x
      ensures ColumnAt(Put(g, x, y, v), x') == ColumnAt(g, x')
    {
      forall i | 0 <= i < ROWS
        ensures ColumnAt(Put(g, x, y, v), x')[i] == ColumnAt(g, x')[i]
      {
        PutAt(g, x, y, v, x', i + 1);
      }
    }
  }

  // Locking a confined piece writes four cells that were empty.
  lemma {:induction false} PlacedCells(g: Grid, p: Piece, side: nat, n: nat)
    requires Sized(g) && p.index < 7 && side < 2 && Confined(g, p, side) && n <= 4
    ensures OnField(p)
    ensures Cells(HalfOf(Placed(g, p, n), side)) == Cells(HalfOf(g, side)) + n
    ensures HalfOf(Placed(g, p, n), 1 - side) == HalfOf(g, 1 - side)
    ensures forall j :: n <= j < 4 ==> At(Placed(g, p, n), CellX(p, j), CellY(p, j)) == 0
    decreases n
  {
    hide Put, At;
    if n > 0 {
      PlacedCells(g, p, side, n - 1);
      var g0 := Placed(g, p, n - 1);
      PutCells(g0, CellX(p, n - 1), CellY(p, n - 1), p.index + 1, side);
      forall j | n <= j < 4
        ensures At(Placed(g, p, n), CellX(p, j), CellY(p, j)) == 0
      {
        CellsDiffer(p.index, p.rotation, n - 1, j);
        PutAt(g0, CellX(p, n - 1), CellY(p, n - 1), p.index + 1, CellX(p, j), CellY(p, j));
      }
    }
  }

  // ---------------------------------------------------------------------
  // Clearing columns
  // ---------------------------------------------------------------------

  // What the code takes for a full column
  ghost predicate FullLine(g: Grid, x: int)
    requires Sized(g)
  {
    0 <= x < WIDTH && forall y :: 1 <= y < BOTTOM ==> At(g, x, y) != 0 && At(g, x, y) != WALL
  }

  // The full ones among the first n columns of the box at x
  ghost function Lines(g: Grid, x: int, n: nat): (lines: seq<int>)
    requires Sized(g)
    ensures |lines| <= n && forall i :: 0 <= i < |lines| ==> x <= lines[i] < x + n
    ensures forall i, j :: 0 <= i < j < |lines| ==> lines[i] < lines[j]
    ensures forall l :: l in lines <==> x <= l < x + n && FullLine(g, l)
  {
    if n == 0 then [] else Lines(g, x, n - 1) + if FullLine(g, x + n - 1) then [x + n - 1] else []
  }

  ghost predicate Emptied(g: Grid, g': Grid, lines: seq<int>)
    requires Sized(g) && Sized(g')
  {
    forall x, y :: Inside(x, y) ==> At(g', x, y) == if x in lines && 1 <= y < BOTTOM then 0 else At(g, x, y)
  }

  // The place of a column in its half
  function Pos(side: nat, x: int): int {
    if side == 0 then x else WIDTH - 1 - x
  }

  // The column at a place of a half has gone, and those outside it have moved in.
  function From(side: nat, p: int, x: int, y: int): int {
    if 1 <= y < BOTTOM && 0 < Pos(side, x) <= p then Col(side, Pos(side, x) - 1) else x
  }

  ghost predicate Shifted(g: Grid, g': Grid, side: nat, p: int)
    requires Sized(g) && Sized(g') && side < 2 && 0 <= p < HALF
  {
    forall x, y {:trigger At(g', x, y)} :: Inside(x, y) ==> At(g', x, y) == At(g, From(side, p, x, y), y)
  }

  ghost predicate WallsKept(g: Grid, g': Grid)
    requires Sized(g) && Sized(g')
  {
    (Walled(g) ==> Walled(g')) && (Coloured(g) ==> Coloured(g'))
  }

  lemma ShiftedHalf(g: Grid, g': Grid, side: nat, p: int)
    requires Sized(g) && Sized(g') && side < 2 && 0 <= p < HALF && Shifted(g, g', side, p)
    ensures HalfOf(g', side) == ShiftOut(HalfOf(g, side), p) && HalfOf(g', 1 - side) == HalfOf(g, 1 - side)
  {
    var h, h', o, o' := HalfOf(g, side), HalfOf(g', side), HalfOf(g, 1 - side), HalfOf(g', 1 - side);
    forall i | 0 <= i < HALF
      ensures h'[i] == ShiftOut(h, p)[i] && o'[i] == o[i]
    {
      assert h'[i] == if 0 < i <= p then h[i - 1] else h[i];
    }
  }

  lemma ShiftedWalls(g: Grid, g': Grid, side: nat, p: int)
    requires Sized(g) && Sized(g') && side < 2 && 0 <= p < HALF && Shifted(g, g', side, p)
    ensures WallsKept(g, g')
  {
    forall x, y | Inside(x, y) && y <= BOTTOM
      ensures IsWall(x, y) ==> At(g', x, y) == At(g, x, y)
      ensures Coloured(g) && y < BOTTOM && !IsWall(x, y) ==> At(g', x, y) <= 7
    {
      assert At(g', x, y) == At(g, From(side, p, x, y), y);
    }
  }

  // A column that cannot be full: a wall, or one that was not full before
  lemma HasGap(g: Grid, x: int) returns (y: int)
    requires Sound(g) && 0 <= x < WIDTH
    ensures 1 <= y < BOTTOM && (At(g, x, y) == 0 || At(g, x, y) == WALL)
  {
    y := 1;
    if !IsWall(x, 1) {
      var side := if x < HALF then 0 else 1;
      var c := HalfOf(g, side)[Pos(side, x)];
      assert !Full(c);
      var k :| 0 <= k < ROWS && c[k] == 0;
      y := k + 1;
    }
  }

  // After locking, a full column is one of the piece's own half and of its box.
  lemma FullLineIsOwn(g: Grid, p: Piece, side: nat, x: int)
    requires Sound(g) && p.index < 7 && side < 2 && Confined(g, p, side)
    requires OnField(p)
    ensures FullLine(Placed(g, p, 4), x) ==> InHalf(side, x) && p.x <= x < p.x + 4
  {
    hide X, Y, Covers, Placed, Coloured, NoneFull, Walled;
    if 0 <= x < WIDTH {
      var y := HasGap(g, x);
      PlacedAt(g, p, x, y);
      CoveredIsCell(p, x, y);
      CoversBox(p, x, y);
    }
  }

  lemma CoversBox(p: Piece, x: int, y: int)
    requires p.index < 7
    ensures Covers(p, x, y) ==> p.x <= x < p.x + 4
  {
  }

  // ... and what the code takes for a full column is a full column of the half.
  lemma FullLineIsFull(g: Grid, side: nat, i: nat)
    requires Sized(g) && side < 2 && i < HALF && Coloured(g)
    ensures Full(HalfOf(g, side)[i]) <==> FullLine(g, Col(side, i))
  {
    var x := Col(side, i);
    assert forall k :: 0 <= k < ROWS ==> HalfOf(g, side)[i][k] == At(g, x, k + 1);
    if Full(HalfOf(g, side)[i]) {
      forall y | 1 <= y < BOTTOM
        ensures At(g, x, y) != 0 && At(g, x, y) != WALL
      {
        assert HalfOf(g, side)[i][y - 1] != 0;
      }
    }
  }

  lemma PlacedWalls(g: Grid, p: Piece, side: nat)
    requires Sized(g) && p.index < 7 && side < 2 && Confined(g, p, side)
    requires OnField(p)
    ensures WallsKept(g, Placed(g, p, 4))
  {
    hide X, Y, Covers, Placed;
    forall x, y | Inside(x, y) && y <= BOTTOM
      ensures IsWall(x, y) ==> At(Placed(g, p, 4), x, y) == At(g, x, y)
      ensures At(Placed(g, p, 4), x, y) == At(g, x, y) || At(Placed(g, p, 4), x, y) <= 7
    {
      PlacedAt(g, p, x, y);
      CoveredIsCell(p, x, y);
    }
  }

  // The full columns that locking finds, as places of the half
  lemma LinesAreFull(g: Grid, p: Piece, side: nat, i: nat)
    requires Sound(g) && p.index < 7 && side < 2 && Confined(g, p, side) && i < HALF
    requires OnField(p)
    ensures Full(HalfOf(Placed(g, p, 4), side)[i]) <==> Col(side, i) in Lines(Placed(g, p, 4), p.x, 4)
  {
    hide X, Y, Covers, Placed, NoneFull, Confined;
    PlacedWalls(g, p, side);
    FullLineIsFull(Placed(g, p, 4), side, i);
    FullLineIsOwn(g, p, side, Col(side, i));
  }

  lemma LinesAreOwn(g: Grid, p: Piece, side: nat, x: int)
    requires Sound(g) && p.index < 7 && side < 2 && Confined(g, p, side)
    requires OnField(p)
    ensures x in Lines(Placed(g, p, 4), p.x, 4) ==> InHalf(side, x)
  {
    FullLineIsOwn(g, p, side, x);
  }

  // Emptying the full columns of a half
  lemma EmptiedHalf(g: Grid, g': Grid, side: nat, lines: seq<int>)
    requires Sized(g) && Sized(g') && side < 2 && Emptied(g, g', lines)
    requires forall i :: 0 <= i < HALF ==> (Full(HalfOf(g, side)[i]) <==> Col(side, i) in lines)
    requires forall x :: x in lines ==> InHalf(side, x)
    ensures HalfOf(g', side) == Zeroed(HalfOf(g, side)) && HalfOf(g', 1 - side) == HalfOf(g, 1 - side)
    ensures WallsKept(g, g')
  {
    var h', z, o, o' := HalfOf(g', side), Zeroed(HalfOf(g, side)), HalfOf(g, 1 - side), HalfOf(g', 1 - side);
    forall i | 0 <= i < HALF
      ensures h'[i] == z[i] && o'[i] == o[i]
    {
      var x := Col(1 - side, i);
      assert ColumnAt(g', x) == ColumnAt(g, x);
    }
    forall x, y | Inside(x, y) && y <= BOTTOM
      ensures IsWall(x, y) ==> At(g', x, y) == At(g, x, y)
      ensures At(g', x, y) == At(g, x, y) || At(g', x, y) == 0
    {
    }
  }
}
