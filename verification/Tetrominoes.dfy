/** The seven pieces of the game (tetrisaraj_game.c), in the four rotations of
    their four-by-four boxes. */
module Tetrominoes {

  // ucTetrominoes: the four marked places of each piece's table
  function Mark(piece: nat, j: nat): (i: nat)
    requires piece < 7 && j < 4
    ensures i < 16
  {
    match piece
    case 0 => j
    case 1 => if j == 0 then 2 else if j == 1 then 5 else if j == 2 then 6 else 10
    case 2 => if j == 0 then 5 else if j == 1 then 6 else if j == 2 then 9 else 10
    case 3 => if j == 0 then 2 else if j == 1 then 5 else if j == 2 then 6 else 9
    case 4 => if j == 0 then 1 else if j == 1 then 5 else if j == 2 then 6 else 10
    case 5 => if j == 0 then 1 else if j == 1 then 5 else if j == 2 then 9 else 10
    case _ => if j == 0 then 2 else if j == 1 then 6 else if j == 2 then 9 else 10
  }

  predicate Marked(piece: nat, i: nat)
    requires piece < 7
  {
    i == Mark(piece, 0) || i == Mark(piece, 1) || i == Mark(piece, 2) || i == Mark(piece, 3)
  }

  // ucRotate: the place in the table that shows at column x and row y of the box
  function Rotate(x: nat, y: nat, rotation: nat): (i: nat)
    requires x < 4 && y < 4
    ensures i < 16
  {
    match rotation % 4
    case 0 => y * 4 + x
    case 1 => 12 + y - x * 4
    case 2 => 15 - y * 4 - x
    case _ => 3 - y + x * 4
  }

  // ... and the other way: the column and row where a place of the table shows
  function ColumnOf(i: nat, rotation: nat): (x: nat)
    requires i < 16
    ensures x < 4
  {
    match rotation % 4
    case 0 => i % 4
    case 1 => 3 - i / 4
    case 2 => 3 - i % 4
    case _ => i / 4
  }

  function RowOf(i: nat, rotation: nat): (y: nat)
    requires i < 16
    ensures y < 4
  {
    match rotation % 4
    case 0 => i / 4
    case 1 => i % 4
    case 2 => 3 - i / 4
    case _ => 3 - i % 4
  }

  // A rotation is a permutation of the box.
  lemma RotateIsOneToOne(x: nat, y: nat, rotation: nat, i: nat)
    requires x < 4 && y < 4 && i < 16
    ensures Rotate(x, y, rotation) == i <==> x == ColumnOf(i, rotation) && y == RowOf(i, rotation)
  {
  }

  // Every turn is the same quarter turn, clockwise: what shows at a column and row
  // after it is what showed before at the place from which it has come.
  lemma TurnsClockwise(x: nat, y: nat, rotation: nat)
    requires x < 4 && y < 4
    ensures Rotate(x, y, rotation + 1) == Rotate(y, 3 - x, rotation)
  {
  }

  // The column and row of a piece's j-th cell
  function X(piece: nat, rotation: nat, j: nat): (x: nat)
    requires piece < 7 && j < 4
    ensures x < 4
  {
    ColumnOf(Mark(piece, j), rotation)
  }

  function Y(piece: nat, rotation: nat, j: nat): (y: nat)
    requires piece < 7 && j < 4
    ensures y < 4
  {
    RowOf(Mark(piece, j), rotation)
  }

  predicate IsCell(piece: nat, rotation: nat, j: nat, x: nat, y: nat)
    requires piece < 7 && j < 4
  {
    X(piece, rotation, j) == x && Y(piece, rotation, j) == y
  }

  // A piece has four cells, and they are those.
  lemma CellsAre(piece: nat, rotation: nat, x: nat, y: nat)
    requires piece < 7 && x < 4 && y < 4
    ensures Marked(piece, Rotate(x, y, rotation))
       <==> IsCell(piece, rotation, 0, x, y) || IsCell(piece, rotation, 1, x, y)
              || IsCell(piece, rotation, 2, x, y) || IsCell(piece, rotation, 3, x, y)
  {
    hide Rotate, ColumnOf, RowOf, Mark;
    RotateIsOneToOne(x, y, rotation, Mark(piece, 0));
    RotateIsOneToOne(x, y, rotation, Mark(piece, 1));
    RotateIsOneToOne(x, y, rotation, Mark(piece, 2));
    RotateIsOneToOne(x, y, rotation, Mark(piece, 3));
  }

  lemma CellsDiffer(piece: nat, rotation: nat, j: nat, k: nat)
    requires piece < 7 && j < k < 4
    ensures X(piece, rotation, j) != X(piece, rotation, k) || Y(piece, rotation, j) != Y(piece, rotation, k)
  {
    hide Rotate, ColumnOf, RowOf;
    var a, b := Mark(piece, j), Mark(piece, k);
    assert a != b;
    RotateIsOneToOne(ColumnOf(a, rotation), RowOf(a, rotation), rotation, a);
    RotateIsOneToOne(ColumnOf(b, rotation), RowOf(b, rotation), rotation, b);
  }

  predicate OneOf(t: int, a: int, b: int, c: int, d: int) {
    t == a || t == b || t == c || t == d
  }

  // A table leaves out no row between two of its rows, and no column.
  lemma NothingLeftOutOfTable(piece: nat, j: nat, k: nat, t: int)
    requires piece < 7 && j < 4 && k < 4
    ensures Mark(piece, j) / 4 < t < Mark(piece, k) / 4 ==>
              OneOf(t, Mark(piece, 0) / 4, Mark(piece, 1) / 4, Mark(piece, 2) / 4, Mark(piece, 3) / 4)
    ensures Mark(piece, j) % 4 < t < Mark(piece, k) % 4 ==>
              OneOf(t, Mark(piece, 0) % 4, Mark(piece, 1) % 4, Mark(piece, 2) % 4, Mark(piece, 3) % 4)
  {
    match piece
    case 0 =>
    case 1 =>
    case 2 =>
    case 3 =>
    case 4 =>
    case 5 =>
    case _ =>
  }

  // Nor does the piece, in any rotation.
  lemma NothingLeftOut(piece: nat, rotation: nat, j: nat, k: nat, t: int)
    requires piece < 7 && j < 4 && k < 4
    ensures Y(piece, rotation, j) < t < Y(piece, rotation, k) ==>
              OneOf(t, Y(piece, rotation, 0), Y(piece, rotation, 1), Y(piece, rotation, 2), Y(piece, rotation, 3))
    ensures X(piece, rotation, j) < t < X(piece, rotation, k) ==>
              OneOf(t, X(piece, rotation, 0), X(piece, rotation, 1), X(piece, rotation, 2), X(piece, rotation, 3))
  {
    hide Mark;
    NothingLeftOutOfTable(piece, j, k, t);
    NothingLeftOutOfTable(piece, k, j, 3 - t);
  }

  // Turning a piece takes it nowhere far: there is a cell that ends at most one
  // row below, and two columns to either side of, one of the cells of before.
  lemma TurnIsNear(piece: nat, rotation: nat) returns (j: nat, k: nat)
    requires piece < 7
    ensures j < 4 && k < 4 && Y(piece, rotation + 1, k) <= Y(piece, rotation, j) + 1
    ensures X(piece, rotation, j) - 2 <= X(piece, rotation + 1, k) <= X(piece, rotation, j) + 2
  {
    j, k := if piece == 0 then 3 else if piece == 2 then 0 else if piece == 6 then 2 else 1, 0;
    if piece > 0 {
      k := j;
    }
  }
}
