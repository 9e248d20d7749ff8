/** The TetriSaraj game (tetrisaraj_game.c): the falling piece, locking, clearing
    and the state of a game, on one array of cells.

    Random draws and the score's glyphs are parameters. */
module Games {
  import opened Options
  import opened Tetrominoes
  import opened ColumnClearing
  import opened Fields

  datatype Buttons = Buttons(up: bool, down: bool, left: bool, right: bool, center: bool)

  // What ucRandomPieceY and ucRandomBinary may draw
  datatype Draw = Draw(y: nat, side: nat)

  predicate Drawable(d: Draw) {
    2 <= d.y <= 19 && d.side < 2
  }

  predicate Initial(x: int, y: int) {
    y == 0 || y >= BOTTOM || x == HALF || x == HALF + 1
  }

  // The playing field is bare: nothing but its walls
  ghost predicate Bare(g: Grid) {
    Sized(g) && forall x, y :: Inside(x, y) && y <= BOTTOM ==> At(g, x, y) == if Initial(x, y) then WALL else 0
  }

  lemma FreshIsSound(g: Grid)
    requires Sized(g) && forall x, y :: Inside(x, y) ==> At(g, x, y) == if Initial(x, y) then WALL else 0
    ensures Sound(g) && forall x, y :: Inside(x, y) && !Initial(x, y) ==> At(g, x, y) == 0
  {
    forall side: nat, i | side < 2 && 0 <= i < HALF
      ensures !Full(HalfOf(g, side)[i])
    {
      assert HalfOf(g, side)[i][0] == At(g, Col(side, i), 1);
    }
  }

  lemma AtIs(g: Grid, x: int, y: int)
    requires Sized(g) && Inside(x, y)
    ensures At(g, x, y) == g[y * WIDTH + x]
  {
  }

  // A column not yet emptied is as it was.
  lemma LineUntouched(g: Grid, g': Grid, lines: seq<int>, x: int)
    requires Sized(g) && Sized(g') && Emptied(g, g', lines) && x !in lines
    ensures FullLine(g', x) <==> FullLine(g, x)
  {
    hide At;
    if 0 <= x < WIDTH {
      assert forall y :: 1 <= y < BOTTOM ==> At(g', x, y) == At(g, x, y);
    }
  }

  lemma NothingEmptied(g: Grid, x: int)
    requires Sized(g)
    ensures Emptied(g, g, []) && Lines(g, x, 0) == []
  {
  }

  lemma LinesNext(g: Grid, x: int, n: nat)
    requires Sized(g)
    ensures Lines(g, x, n + 1) == Lines(g, x, n) + (if FullLine(g, x + n) then [x + n] else [])
    ensures x + n !in Lines(g, x, n)
  {
  }

  lemma LineInside(g: Grid, x: int)
    requires Sized(g) && FullLine(g, x)
    ensures 0 <= x < WIDTH
  {
  }

  lemma EmptiedThen(g: Grid, g1: Grid, g2: Grid, lines: seq<int>, x: int)
    requires Sized(g) && Sized(g1) && Sized(g2) && Emptied(g, g1, lines) && Emptied(g1, g2, [x])
    ensures Emptied(g, g2, lines + [x])
  {
    hide At;
  }

  lemma SpawnConfined(g: Grid, p: Piece, side: nat)
    requires Sized(g) && p.index < 7 && Fits(g, p) && side < 2 && 2 <= p.y <= 19
             && p.x == if side == 0 then 0 else WIDTH - 4
    ensures Confined(g, p, side)
  {
    hide Covers, X, Y, At;
    forall j | 0 <= j < 4
      ensures At(g, CellX(p, j), CellY(p, j)) == 0
    {
      CoversCells(p, j);
    }
  }

  lemma FirstConfined(g: Grid, p: Piece)
    requires Bare(g) && p == Piece(0, 3, 0, HEIGHT / 2)
    ensures Confined(g, p, 0)
  {
    hide X, Y, At;
  }

  // The lines are the full columns of the half, in ascending order.
  ghost predicate FullAre(h: Half, side: nat, lines: seq<int>)
    requires |h| == HALF
  {
    && (forall i, j :: 0 <= i < j < |lines| ==> lines[i] < lines[j])
    && (forall i :: 0 <= i < |lines| ==> InHalf(side, lines[i]))
    && (forall p :: 0 <= p < HALF ==> (Full(h[p]) <==> Col(side, p) in lines))
  }

  // The places of the lines in the half, outermost first
  function Order(side: nat, lines: seq<int>): (r: seq<int>)
    ensures |r| == |lines|
    ensures forall i {:trigger r[i]} :: 0 <= i < |r| ==> r[i] == Pos(side, InTurn(side, lines, i))
  {
    seq(|lines|, i requires 0 <= i < |lines| => Pos(side, InTurn(side, lines, i)))
  }

  // The i-th line that the shifting loops take
  function InTurn(side: nat, lines: seq<int>, i: nat): int
    requires i < |lines|
  {
    if side == 0 then lines[i] else lines[|lines| - 1 - i]
  }

  ghost predicate IsOrder(h: Half, order: seq<int>) {
    && (forall i, j :: 0 <= i < j < |order| ==> order[i] < order[j])
    && (forall i :: 0 <= i < |order| ==> 0 <= order[i] < |h|)
    && (forall p :: 0 <= p < |h| ==> (Full(h[p]) <==> p in order))
  }

  lemma InOrder(side: nat, lines: seq<int>, p: int)
    requires side < 2
    ensures p in Order(side, lines) <==> Col(side, p) in lines
  {
    hide Order;
    var order, n := Order(side, lines), |lines|;
    if p in order {
      var i :| 0 <= i < n && order[i] == p;
      var j := if side == 0 then i else n - 1 - i;
      assert lines[j] == Col(side, p);
    }
    if Col(side, p) in lines {
      var i :| 0 <= i < n && lines[i] == Col(side, p);
      var j := if side == 0 then i else n - 1 - i;
      assert order[j] == p;
    }
  }

  lemma OrderIs(h: Half, side: nat, lines: seq<int>)
    requires |h| == HALF && side < 2 && FullAre(h, side, lines)
    ensures IsOrder(h, Order(side, lines))
  {
    hide Full, Col;
    var order, n := Order(side, lines), |lines|;
    forall i, j | 0 <= i < j < n
      ensures order[i] < order[j]
    {
      assert lines[i] < lines[j] && lines[n - 1 - j] < lines[n - 1 - i];
    }
    forall i | 0 <= i < n
      ensures 0 <= order[i] < HALF
    {
      assert InHalf(side, lines[i]) && InHalf(side, lines[n - 1 - i]);
    }
    forall p | 0 <= p < HALF
      ensures Full(h[p]) <==> p in order
    {
      InOrder(side, lines, p);
    }
  }

  // How far the half has been dealt with after some of the lines
  function Reached(order: seq<int>, i: nat): int
    requires i <= |order|
  {
    if i == 0 then 0 else order[i - 1] + 1
  }

  lemma NothingBetween(h: Half, order: seq<int>, i: nat)
    requires IsOrder(h, order) && i <= |order|
    ensures 0 <= Reached(order, i) <= (if i < |order| then order[i] else |h|) <= |h|
    ensures forall p :: Reached(order, i) <= p < (if i < |order| then order[i] else |h|) ==> !Full(h[p])
  {
    hide Full;
    forall p | Reached(order, i) <= p < (if i < |order| then order[i] else |h|)
      ensures !Full(h[p])
    {
    }
  }

  lemma OneShift(h: Half, g: Grid, g': Grid, side: nat, order: seq<int>, i: nat)
    requires |h| == HALF && side < 2 && IsOrder(h, order) && i < |order| && Sized(g) && Sized(g')
    requires 0 <= Reached(order, i) <= |h| && HalfOf(g, side) == Done(h, Reached(order, i))
    requires Shifted(g, g', side, order[i])
    ensures HalfOf(g', side) == Done(h, order[i] + 1) && HalfOf(g', 1 - side) == HalfOf(g, 1 - side) && WallsKept(g, g')
  {
    hide Full, HalfOf, Done, Shifted, WallsKept;
    NothingBetween(h, order, i);
    PassOver(h, Reached(order, i), order[i]);
    DoneStep(h, order[i]);
    ShiftedHalf(g, g', side, order[i]);
    ShiftedWalls(g, g', side, order[i]);
  }

  lemma ConfinedIsOnField(g: Grid, p: Piece, side: nat)
    requires Sized(g) && p.index < 7 && side < 2 && Confined(g, p, side)
    ensures OnField(p)
  {
    hide X, Y, At;
  }

  // Drawing the score changes nothing of the playing field.
  lemma ScoreKeeps(g: Grid, g': Grid)
    requires Sized(g) && Sized(g') && forall x, y :: Inside(x, y) && y <= BOTTOM ==> At(g', x, y) == At(g, x, y)
    ensures HalfOf(g', 0) == HalfOf(g, 0) && HalfOf(g', 1) == HalfOf(g, 1) && WallsKept(g, g')
    ensures Sound(g) ==> Sound(g')
  {
    hide At;
    forall x | 0 <= x < WIDTH
      ensures ColumnAt(g', x) == ColumnAt(g, x)
    {
    }
  }

  // The columns that the code finds full after locking are the full ones of the
  // piece's half, and it empties those.
  lemma LinesFound(g: Grid, p: Piece, side: nat, emptied: Grid, lines: seq<int>)
    requires Sound(g) && p.index < 7 && side < 2 && Confined(g, p, side) && OnField(p) && Sized(emptied)
    requires lines == Lines(Placed(g, p, 4), p.x, 4) && Emptied(Placed(g, p, 4), emptied, lines)
    ensures var placed := Placed(g, p, 4);
            && FullAre(HalfOf(placed, side), side, lines) && HalfOf(emptied, side) == Zeroed(HalfOf(placed, side))
            && HalfOf(emptied, 1 - side) == HalfOf(placed, 1 - side) && WallsKept(placed, emptied)
  {
    hide At, Walled, Coloured, NoneFull, Placed, CellX, CellY, Confined, Emptied, FullLine, Full;
    forall i: nat | i < HALF
      ensures Full(HalfOf(Placed(g, p, 4), side)[i]) <==> Col(side, i) in lines
    {
      LinesAreFull(g, p, side, i);
    }
    forall x | x in lines
      ensures InHalf(side, x)
    {
      LinesAreOwn(g, p, side, x);
    }
    EmptiedHalf(Placed(g, p, 4), emptied, side, lines);
  }

  // What locking a piece makes of the field
  ghost predicate LockedOnto(g: Grid, p: Piece, side: nat, g': Grid, lines: nat)
    requires Sized(g) && Sized(g') && p.index < 7 && side < 2
  {
    && OnField(p)
    && (forall j :: 0 <= j < 4 ==> At(g, CellX(p, j), CellY(p, j)) == 0)
    && (var placed := Placed(g, p, 4);
        && lines == FullCount(HalfOf(placed, side))
        && HalfOf(g', side) == Cleared(HalfOf(placed, side))
        && HalfOf(g', 1 - side) == HalfOf(g, 1 - side)
        && Cells(HalfOf(g', side))
           == Cells(HalfOf(g, side)) + 4 - ROWS * lines + lines * Occupied(Zeroed(HalfOf(placed, side))[0]))
  }

  lemma {:induction false} OrderCounts(h: Half, order: seq<int>, m: nat, i: nat)
    requires IsOrder(h, order) && m <= |h| && i <= |order|
    requires forall j :: 0 <= j < i ==> order[j] < m
    requires forall j :: i <= j < |order| ==> order[j] >= m
    ensures FullCount(h[..m]) == i
    decreases m
  {
    hide Full;
    if i > 0 {
      assert 0 <= order[i - 1] < m;
    }
    if m == 0 {
      assert h[..0] == [];
    } else {
      PrefixStep(h, m - 1);
      if Full(h[m - 1]) {
        var j :| 0 <= j < |order| && order[j] == m - 1;
        assert j < i && order[j] <= order[i - 1];
      } else {
        assert forall j :: 0 <= j < |order| ==> order[j] in order;
      }
      OrderCounts(h, order, m - 1, if Full(h[m - 1]) then i - 1 else i);
    }
  }

  lemma LinesCount(h: Half, side: nat, lines: seq<int>)
    requires |h| == HALF && side < 2 && FullAre(h, side, lines)
    ensures |lines| == FullCount(h)
  {
    hide Full, FullAre, IsOrder;
    OrderIs(h, side, lines);
    OrderBound(h, Order(side, lines));
    OrderCounts(h, Order(side, lines), HALF, |lines|);
    assert h[..HALF] == h;
  }

  lemma OrderBound(h: Half, order: seq<int>)
    requires IsOrder(h, order)
    ensures forall j :: 0 <= j < |order| ==> order[j] < |h|
  {
  }

  lemma Locked(g: Grid, p: Piece, side: nat, emptied: Grid, shifted: Grid, g': Grid, lines: seq<int>)
    requires Sound(g) && p.index < 7 && side < 2 && Confined(g, p, side) && OnField(p)
    requires Sized(emptied) && Sized(shifted) && Sized(g')
    requires FullAre(HalfOf(Placed(g, p, 4), side), side, lines)
    requires HalfOf(emptied, 1 - side) == HalfOf(Placed(g, p, 4), 1 - side) && WallsKept(Placed(g, p, 4), emptied)
    requires HalfOf(shifted, side) == Cleared(HalfOf(Placed(g, p, 4), side))
    requires HalfOf(shifted, 1 - side) == HalfOf(emptied, 1 - side) && WallsKept(emptied, shifted)
    requires forall x, y :: Inside(x, y) && y <= BOTTOM ==> At(g', x, y) == At(shifted, x, y)
    ensures Sound(g') && LockedOnto(g, p, side, g', |lines|)
  {
    hide At, Walled, Coloured, Placed, CellX, CellY, FullAre, Full, HalfOf, Cleared, Cells, Zeroed, FullCount;
    var placed := Placed(g, p, 4);
    var h := HalfOf(placed, side);
    PlacedCells(g, p, side, 4);
    PlacedWalls(g, p, side);
    ScoreKeeps(shifted, g');
    LinesCount(h, side, lines);
    ColumnsSized(placed, side);
    ClearedCells(h);
    ClearedHasNoFull(h);
  }

  lemma ColumnsSized(g: Grid, side: nat)
    requires Sized(g) && side < 2
    ensures WellFormed(HalfOf(g, side)) && |HalfOf(g, side)| == HALF
  {
  }

  // Locking a piece is the removal of its half's full columns exactly if there are
  // none, or the outermost is one of them or empty.
  lemma LockingIsRemoval(g: Grid, p: Piece, side: nat, g': Grid, lines: nat)
    requires Sized(g) && Sized(g') && p.index < 7 && side < 2 && LockedOnto(g, p, side, g', lines)
    ensures var h := HalfOf(Placed(g, p, 4), side);
            HalfOf(g', side) == Removed(h) <==> lines == 0 || Full(h[0]) || h[0] == Zeros()
  {
    hide Placed, Zeros, Full, Cleared;
    ClearedIsRemoval(HalfOf(Placed(g, p, 4), side));
  }

  // A field on which it is not: a cell in the outermost column, and a column that
  // lacks four cells, in front of another cell
  function CopyingAt(x: int, y: int): nat {
    if y == 0 || y >= BOTTOM || x == HALF || x == HALF + 1 then WALL
    else if (x == 3 && y > 4) || (x == 0 && y == 1) || (x == 4 && y == 1) then 1
    else 0
  }

  const COPYING: Grid := seq(WIDTH * HEIGHT, i requires 0 <= i < WIDTH * HEIGHT => CopyingAt(i % WIDTH, i / WIDTH))
  const UPRIGHT: Piece := Piece(0, 1, 0, 1)

  lemma CopyingIs(x: int, y: int)
    requires Inside(x, y)
    ensures At(COPYING, x, y) == CopyingAt(x, y)
  {
    assert (y * WIDTH + x) / WIDTH == y && (y * WIDTH + x) % WIDTH == x;
  }

  lemma CopyingIsSound()
    ensures Sound(COPYING) && Confined(COPYING, UPRIGHT, 0) && !Fits(COPYING, UPRIGHT.(x := 1))
  {
    hide At;
    forall x, y | Inside(x, y)
      ensures At(COPYING, x, y) == CopyingAt(x, y)
    {
      CopyingIs(x, y);
    }
    forall side: nat, i | side < 2 && 0 <= i < HALF
      ensures !Full(HalfOf(COPYING, side)[i])
    {
      assert HalfOf(COPYING, side)[i][1] == At(COPYING, Col(side, i), 2);
    }
    assert Covers(UPRIGHT.(x := 1), 4, 1);
  }

  lemma UprightCell(j: nat)
    requires j < 4
    ensures CellX(UPRIGHT, j) == 3 && CellY(UPRIGHT, j) == 1 + j
  {
    assert Mark(0, j) == j && ColumnOf(j, 1) == 3 && RowOf(j, 1) == j;
  }

  lemma UprightCovers(x: int, y: int)
    ensures Covers(UPRIGHT, x, y) <==> x == 3 && 1 <= y <= 4
  {
    hide Covers, CellX, CellY;
    CoveredIsCell(UPRIGHT, x, y);
    UprightCell(0);
    UprightCell(1);
    UprightCell(2);
    UprightCell(3);
  }

  // The upright piece cannot fall, fills its column and is locked: the cell of the
  // outermost column is there twice.
  lemma LockingCopies(g': Grid, lines: nat)
    requires Sized(g') && LockedOnto(COPYING, UPRIGHT, 0, g', lines)
    ensures lines == 1 && At(COPYING, 0, 1) == 1 && At(COPYING, 1, 1) == 0 && At(g', 0, 1) == 1 && At(g', 1, 1) == 1
  {
    hide At, Placed, Covers;
    var h := HalfOf(Placed(COPYING, UPRIGHT, 4), 0);
    forall x, y | Inside(x, y)
      ensures At(Placed(COPYING, UPRIGHT, 4), x, y) == if x == 3 && 1 <= y <= 4 then 1 else CopyingAt(x, y)
    {
      PlacedAt(COPYING, UPRIGHT, x, y);
      UprightCovers(x, y);
      CopyingIs(x, y);
    }
    forall i | 0 <= i < HALF
      ensures Full(h[i]) <==> i == 3
    {
      assert h[i][1] == At(Placed(COPYING, UPRIGHT, 4), i, 2);
    }
    CopyingIs(0, 1);
    CopyingIs(1, 1);
    OneFull(h, 3);
    OutermostIsCopied(h);
    assert HalfOf(g', 0)[0][0] == At(g', 0, 1) && HalfOf(g', 0)[1][0] == At(g', 1, 1);
  }

  // A 16-bit score
  function Scored(score: nat, points: nat): nat {
    (score + points) % 0x1_0000
  }

  lemma ScoredTwice(score: nat, a: nat, b: nat)
    ensures Scored(Scored(score, a), b) == Scored(score, a + b)
  {
  }

  // The points for clearing columns
  function Bonus(lines: nat): nat {
    if lines == 0 then 0 else if lines == 1 then 40 else if lines == 2 then 80 else if lines == 3 then 160 else 320
  }

  function TwoTo(n: nat): nat {
    if n == 0 then 1 else 2 * TwoTo(n - 1)
  }

  // Twenty points, doubled for each column cleared
  lemma BonusDoubles(lines: nat)
    requires lines <= 4
    ensures Bonus(lines) == if lines == 0 then 0 else 20 * TwoTo(lines)
  {
    assert TwoTo(1) == 2 && TwoTo(2) == 4 && TwoTo(3) == 8 && TwoTo(4) == 16;
  }

  // ---- pace and points over a game ----

  // What each piece that is locked changes, beside the field
  datatype Tally = Tally(score: nat, speed: nat, untilSpeedup: nat)

  function NextTally(t: Tally, lines: nat): Tally {
    var left := if t.untilSpeedup > 0 then t.untilSpeedup - 1 else 0;
    Tally(Scored(t.score, 1 + Bonus(lines)),
          if left == 0 && t.speed >= 10 then t.speed - 1 else t.speed,
          if left == 0 then 50 else left)
  }

  ghost function TallyAfter(t: Tally, cleared: seq<nat>): Tally
    decreases |cleared|
  {
    if cleared == [] then t
    else NextTally(TallyAfter(t, cleared[..|cleared| - 1]), cleared[|cleared| - 1])
  }

  // A point for each piece, and for each that clears columns twenty times a power of two
  ghost function Points(cleared: seq<nat>): nat
    decreases |cleared|
  {
    if cleared == [] then 0
    else
      var lines := cleared[|cleared| - 1];
      Points(cleared[..|cleared| - 1]) + 1 + (if lines == 0 then 0 else 20 * TwoTo(lines))
  }

  // Over a game: the score is the sum of the points, in sixteen bits, and the pieces
  // fall faster after every fifty, from every fifteenth step to every ninth.
  lemma {:induction false} TallyExactly(cleared: seq<nat>)
    requires forall i :: 0 <= i < |cleared| ==> cleared[i] <= 4
    ensures var t, n := TallyAfter(Tally(0, 15, 50), cleared), |cleared|;
            && t.score == Points(cleared) % 0x1_0000
            && t.speed == (if n < 300 then 15 - n / 50 else 9) && t.untilSpeedup == 50 - n % 50
    decreases |cleared|
  {
    if cleared != [] {
      var lines := cleared[|cleared| - 1];
      TallyExactly(cleared[..|cleared| - 1]);
      BonusDoubles(lines);
      hide TwoTo, Bonus;
      ScoredSum(Points(cleared[..|cleared| - 1]), 1 + Bonus(lines));
    }
  }

  lemma ScoredSum(a: nat, b: nat)
    ensures Scored(a % 0x1_0000, b) == (a + b) % 0x1_0000
  {
  }

  // Whether the next step lets the piece fall, and what it makes of the count of steps
  predicate Falls(ticks: nat, speed: nat) {
    ticks + 1 >= speed
  }

  function NextTicks(ticks: nat, speed: nat): nat {
    if Falls(ticks, speed) then 0 else ticks + 1
  }

  ghost function TicksAfter(speed: nat, steps: nat): nat {
    if steps == 0 then 0 else NextTicks(TicksAfter(speed, steps - 1), speed)
  }

  // From the start of a piece it falls at every step that is a multiple of the speed.
  lemma {:induction false} FallsEvery(speed: nat, steps: nat)
    requires speed > 0
    ensures TicksAfter(speed, steps) == steps % speed
    ensures steps > 0 ==> (Falls(TicksAfter(speed, steps - 1), speed) <==> steps % speed == 0)
    decreases steps
  {
    if steps > 0 {
      FallsEvery(speed, steps - 1);
      NextRemainder(steps - 1, speed);
    }
  }

  lemma NextRemainder(n: nat, d: nat)
    requires d > 0
    ensures (n + 1) % d == if n % d + 1 == d then 0 else n % d + 1
  {
    var q, r := n / d, n % d;
    assert n == q * d + r;
    if r + 1 == d {
      assert n + 1 == (q + 1) * d;
      RemainderIs(n + 1, q + 1, d, 0);
    } else {
      RemainderIs(n + 1, q, d, r + 1);
    }
  }

  lemma RemainderIs(n: nat, q: nat, d: nat, r: nat)
    requires r < d && n == q * d + r
    ensures n % d == r
  {
    var e := n / d;
    assert n == e * d + n % d;
    Multiples(e, q, d);
    Multiples(q, e, d);
  }

  lemma {:induction false} Multiples(a: nat, b: nat, d: nat)
    ensures a < b ==> a * d + d <= b * d
    decreases b
  {
    if a < b {
      assert b * d == (b - 1) * d + d;
      Multiples(a, b - 1, d);
    }
  }

  // ---- steering ----

  // A piece of the left half can be sent down, up and right, in that order; one of
  // the right half up, down and left; then either is turned.
  ghost function Steered(g: Grid, p: Piece, side: nat, b: Buttons, released: bool): Piece
    requires Sized(g) && p.index < 7
  {
    var q := if side == 0 then Moved(g, Moved(g, Moved(g, p, b.down, 0, 1), b.up, 0, -1), b.right, 1, 0)
             else Moved(g, Moved(g, Moved(g, p, b.up, 0, -1), b.down, 0, 1), b.left, -1, 0);
    Turned(g, q, b.center && released)
  }

  // What one button does: nothing pressed, nothing moves; else the piece goes one cell
  // that way, or turns, exactly if it fits there, and turns only if the button was up.
  lemma SteeredByOne(g: Grid, p: Piece, side: nat, b: Buttons, released: bool)
    requires Sized(g) && p.index < 7 && side < 2 && 0 <= p.x && 0 <= p.y
    ensures var q, inward := Steered(g, p, side, b, released), if side == 0 then b.right else b.left;
            && (!b.up && !b.down && !inward && !b.center ==> q == p)
            && (b.up && !b.down && !inward && !b.center ==>
                  q == if p.y > 0 && Fits(g, p.(y := p.y - 1)) then p.(y := p.y - 1) else p)
            && (!b.up && b.down && !inward && !b.center ==>
                  q == if Fits(g, p.(y := p.y + 1)) then p.(y := p.y + 1) else p)
            && (!b.up && !b.down && inward && !b.center ==>
                  q == if 0 <= Inward(p, side).x && Fits(g, Inward(p, side)) then Inward(p, side) else p)
            && (!b.up && !b.down && !inward && b.center ==>
                  q == if released && Fits(g, p.(rotation := p.rotation + 1)) then p.(rotation := p.rotation + 1)
                       else p)
  {
    hide Fits;
    assert p.(x := p.x, y := p.y - 1) == p.(y := p.y - 1) && p.(x := p.x, y := p.y + 1) == p.(y := p.y + 1);
  }

  // One column towards the wall
  function Inward(p: Piece, side: nat): Piece {
    p.(x := if side == 0 then p.x + 1 else p.x - 1)
  }

  // No input takes the piece off its half or through a wall.
  lemma SteeredConfined(g: Grid, p: Piece, side: nat, b: Buttons, released: bool)
    requires Sized(g) && Walled(g) && p.index < 7 && side < 2 && Confined(g, p, side)
    ensures Confined(g, Steered(g, p, side, b, released), side)
  {
    hide Fits, Walled, Confined, Moved;
    var q;
    if side == 0 {
      MovedConfined(g, p, side, b.down, 0, 1);
      q := Moved(g, p, b.down, 0, 1);
      MovedConfined(g, q, side, b.up, 0, -1);
      q := Moved(g, q, b.up, 0, -1);
      MovedConfined(g, q, side, b.right, 1, 0);
      q := Moved(g, q, b.right, 1, 0);
    } else {
      MovedConfined(g, p, side, b.up, 0, -1);
      q := Moved(g, p, b.up, 0, -1);
      MovedConfined(g, q, side, b.down, 0, 1);
      q := Moved(g, q, b.down, 0, 1);
      MovedConfined(g, q, side, b.left, -1, 0);
      q := Moved(g, q, b.left, -1, 0);
    }
    if Fits(g, q.(rotation := q.rotation + 1)) {
      TurnConfined(g, q, q.(rotation := q.rotation + 1), side);
    }
  }

  class Game {
    const field: array<nat>
    var pieceIndex: nat
    var pieceRotation: nat
    var pieceX: nat
    var pieceY: nat
    var speedTicks: nat
    var gameTicks: nat
    var lives: nat
    var piecesUntilSpeedup: nat
    var randomSide: nat
    var previousSide: nat
    var score: nat
    var rotationReleased: bool
    var gameOver: bool
    var theEnd: bool

    function ThePiece(): Piece
      reads this
    {
      Piece(pieceIndex, pieceRotation, pieceX, pieceY)
    }

    function TheTally(): Tally
      reads this
    {
      Tally(score, speedTicks, piecesUntilSpeedup)
    }

    // While the game is on, the piece is on empty cells of its own half.
    ghost predicate Valid()
      reads this, field
    {
      && Sound(field[..]) && pieceIndex < 7 && randomSide < 2
      && 9 <= speedTicks <= 15 && gameTicks < speedTicks && 1 <= piecesUntilSpeedup <= 50
      && (!gameOver && !theEnd ==> Confined(field[..], ThePiece(), randomSide))
    }

    method SetCell(x: int, y: int, v: nat)
      requires Sized(field[..]) && Inside(x, y)
      modifies field
      ensures field[..] == Put(old(field[..]), x, y, v)
    {
      field[y * WIDTH + x] := v;
    }

    // prvFieldInit
    method FieldInit()
      requires field.Length == WIDTH * HEIGHT
      modifies field
      ensures Sized(field[..]) && forall x, y :: Inside(x, y) ==>
                At(field[..], x, y) == if Initial(x, y) then WALL else 0
    {
      var y := 0;
      while y < HEIGHT
        invariant 0 <= y <= HEIGHT
        invariant forall x', y' :: Inside(x', y') && y' < y ==>
                    At(field[..], x', y') == if Initial(x', y') then WALL else 0
      {
        var x := 0;
        while x < WIDTH
          invariant 0 <= x <= WIDTH
          invariant forall x', y' :: Inside(x', y') && (y' < y || (y' == y && x' < x)) ==>
                      At(field[..], x', y') == if Initial(x', y') then WALL else 0
        {
          ghost var before := field[..];
          SetCell(x, y, if Initial(x, y) then WALL else 0);
          forall x', y' | Inside(x', y')
            ensures At(field[..], x', y')
                    == if x' == x && y' == y then (if Initial(x, y) then WALL else 0) else At(before, x', y')
          {
            PutAt(before, x, y, if Initial(x, y) then WALL else 0, x', y');
          }
          x := x + 1;
        }
        y := y + 1;
      }
    }

    // prvWriteScore: the score is drawn below the playing field only.
    method WriteScore(glyph: (int, int) -> bool)
      requires field.Length == WIDTH * HEIGHT
      modifies field
      ensures Sized(field[..]) && forall x, y :: Inside(x, y) && y <= BOTTOM ==>
                At(field[..], x, y) == At(old(field[..]), x, y)
    {
      ghost var g := field[..];
      var y := 24;
      while y < 29
        invariant 24 <= y <= 29
        invariant Sized(field[..]) && forall x', y' :: Inside(x', y') && y' <= BOTTOM ==>
                    At(field[..], x', y') == At(g, x', y')
      {
        var x := 3;
        while x < 37
          invariant 3 <= x <= 37
          invariant Sized(field[..]) && forall x', y' :: Inside(x', y') && y' <= BOTTOM ==>
                      At(field[..], x', y') == At(g, x', y')
        {
          if x < 21 || (x >= 22 && (x - 22) % 4 < 3) {
            ghost var before := field[..];
            var v := if glyph(x, y) then 0 else WALL;
            SetCell(x, y, v);
            forall x', y' | Inside(x', y') && y' <= BOTTOM
              ensures At(field[..], x', y') == At(before, x', y')
            {
              PutAt(before, x, y, v, x', y');
            }
          }
          x := x + 1;
        }
        y := y + 1;
      }
    }

    // xPieceFits
    method PieceFits(index: nat, rotation: nat, posX: int, posY: int) returns (fits: bool)
      requires Sized(field[..]) && index < 7
      ensures fits <==> Fits(field[..], Piece(index, rotation, posX, posY))
    {
      hide At, Marked, Rotate;
      ghost var p := Piece(index, rotation, posX, posY);
      var x := 0;
      while x < 4
        invariant 0 <= x <= 4
        invariant forall x', y' :: Covers(p, x', y') && Inside(x', y') && x' < posX + x ==> At(field[..], x', y') == 0
      {
        var y := 0;
        while y < 4
          invariant 0 <= y <= 4
          invariant forall x', y' ::
                      Covers(p, x', y') && Inside(x', y') && (x' < posX + x || (x' == posX + x && y' < posY + y)) ==>
                      At(field[..], x', y') == 0
        {
          var fieldX, fieldY := posX + x, posY + y;
          if 0 <= fieldX < WIDTH && 0 <= fieldY < HEIGHT {
            AtIs(field[..], fieldX, fieldY);
            if Marked(index, Rotate(x, y, rotation)) && field[fieldY * WIDTH + fieldX] != 0 {
              assert Covers(p, fieldX, fieldY) && At(field[..], fieldX, fieldY) != 0;
              return false;
            }
          }
          y := y + 1;
        }
        x := x + 1;
      }
      return true;
    }

    // ---- prvLockPiece ----

    // Its first loops: write the piece into the field.
    method WritePiece()
      requires Sized(field[..]) && pieceIndex < 7 && OnField(ThePiece())
      modifies field
      ensures field[..] == Placed(old(field[..]), ThePiece(), 4)
    {
      hide Placed, At, Put, CellX, CellY, Marked, Rotate;
      ghost var g, p := field[..], ThePiece();
      var x := 0;
      while x < 4
        invariant 0 <= x <= 4 && Sized(field[..])
        invariant forall x', y' :: Inside(x', y') ==>
                    At(field[..], x', y') == if Covers(p, x', y') && x' < p.x + x then p.index + 1 else At(g, x', y')
      {
        var y := 0;
        while y < 4
          invariant 0 <= y <= 4 && Sized(field[..])
          invariant forall x', y' :: Inside(x', y') ==>
                      At(field[..], x', y')
                      == if Covers(p, x', y') && (x' < p.x + x || (x' == p.x + x && y' < p.y + y))
                         then p.index + 1 else At(g, x', y')
        {
          if Marked(pieceIndex, Rotate(x, y, pieceRotation)) {
            var fieldX, fieldY := pieceX + x, pieceY + y;
            if fieldX < WIDTH && fieldY < HEIGHT {
              ghost var before := field[..];
              SetCell(fieldX, fieldY, pieceIndex + 1);
              forall x', y' | Inside(x', y')
                ensures At(field[..], x', y')
                        == if x' == fieldX && y' == fieldY then p.index + 1 else At(before, x', y')
              {
                PutAt(before, fieldX, fieldY, pieceIndex + 1, x', y');
              }
            }
          }
          y := y + 1;
        }
        x := x + 1;
      }
      forall x', y' | Inside(x', y')
        ensures At(field[..], x', y') == At(Placed(g, p, 4), x', y')
      {
        PlacedAt(g, p, x', y');
      }
      SameGrid(field[..], Placed(g, p, 4));
    }

    // Is the column full, as the code looks at it?
    method LineIsFull(lineX: nat) returns (line: bool)
      requires Sized(field[..])
      ensures line <==> FullLine(field[..], lineX)
    {
      line := lineX < WIDTH;
      var y := 1;
      while y < BOTTOM && line
        invariant 1 <= y <= BOTTOM
        invariant line ==> lineX < WIDTH && forall y' :: 1 <= y' < y ==>
                    At(field[..], lineX, y') != 0 && At(field[..], lineX, y') != WALL
        invariant !line ==> !FullLine(field[..], lineX)
        decreases BOTTOM - y
      {
        var cell := field[y * WIDTH + lineX];
        if cell == 0 || cell == WALL {
          assert At(field[..], lineX, y) == cell;
          line := false;
        }
        y := y + 1;
      }
    }

    method EmptyColumn(lineX: nat)
      requires Sized(field[..]) && lineX < WIDTH
      modifies field
      ensures Sized(field[..]) && Emptied(old(field[..]), field[..], [lineX])
    {
      hide At, Put;
      ghost var g := field[..];
      var y := 1;
      while y < BOTTOM
        invariant 1 <= y <= BOTTOM && Sized(field[..])
        invariant forall x', y' :: Inside(x', y') ==>
                    At(field[..], x', y') == if x' == lineX && 1 <= y' < y then 0 else At(g, x', y')
      {
        ghost var before := field[..];
        SetCell(lineX, y, 0);
        forall x', y' | Inside(x', y')
          ensures At(field[..], x', y') == if x' == lineX && y' == y then 0 else At(before, x', y')
        {
          PutAt(before, lineX, y, 0, x', y');
        }
        y := y + 1;
      }
    }

    // The next loops: find the full columns of the piece's box and empty them.
    method EmptyFullColumns() returns (linesX: seq<int>)
      requires Sized(field[..])
      modifies field
      ensures Sized(field[..]) && linesX == Lines(old(field[..]), pieceX, 4)
      ensures Emptied(old(field[..]), field[..], linesX)
    {
      hide At, Emptied, Lines, FullLine;
      ghost var g := field[..];
      NothingEmptied(g, pieceX);
      linesX := [];
      var x := 0;
      while x < 4
        invariant 0 <= x <= 4 && Sized(field[..])
        invariant linesX == Lines(g, pieceX, x) && Emptied(g, field[..], linesX)
      {
        var lineX := pieceX + x;
        var line := LineIsFull(lineX);
        LinesNext(g, pieceX, x);
        LineUntouched(g, field[..], linesX, lineX);
        if line && |linesX| < 4 {
          ghost var before := field[..];
          LineInside(g, lineX);
          EmptyColumn(lineX);
          EmptiedThen(g, before, field[..], linesX, lineX);
          linesX := linesX + [lineX];
        }
        x := x + 1;
      }
    }

    // Move the columns outside a cleared one of the left half in by one.
    method ShiftLeftHalf(lineX: nat)
      requires Sized(field[..]) && lineX < HALF
      modifies field
      ensures Sized(field[..]) && Shifted(old(field[..]), field[..], 0, lineX)
    {
      hide At;
      ghost var g := field[..];
      var x := lineX;
      while x > 0
        invariant 0 <= x <= lineX && Sized(field[..])
        invariant forall x', y' {:trigger At(field[..], x', y')} :: Inside(x', y') ==>
                    At(field[..], x', y') == if x' > x then At(g, From(0, lineX, x', y'), y') else At(g, x', y')
      {
        CopyColumn(x, x - 1);
        x := x - 1;
      }
    }

    method ShiftRightHalf(lineX: nat)
      requires Sized(field[..]) && WIDTH - HALF <= lineX < WIDTH
      modifies field
      ensures Sized(field[..]) && Shifted(old(field[..]), field[..], 1, WIDTH - 1 - lineX)
    {
      hide At;
      ghost var g := field[..];
      var x := lineX;
      while x < WIDTH - 1
        invariant lineX <= x < WIDTH && Sized(field[..])
        invariant forall x', y' {:trigger At(field[..], x', y')} :: Inside(x', y') ==>
                    At(field[..], x', y')
                    == if x' < x then At(g, From(1, WIDTH - 1 - lineX, x', y'), y') else At(g, x', y')
      {
        CopyColumn(x, x + 1);
        x := x + 1;
      }
    }

    // The innermost loop of a shift
    method CopyColumn(to: nat, from: nat)
      requires Sized(field[..]) && to < WIDTH && from < WIDTH && to != from
      modifies field
      ensures Sized(field[..]) && forall x', y' {:trigger At(field[..], x', y')} :: Inside(x', y') ==>
                At(field[..], x', y') == At(old(field[..]), if x' == to && 1 <= y' < BOTTOM then from else x', y')
    {
      hide At, Put;
      ghost var g := field[..];
      var y := 1;
      while y < BOTTOM
        invariant 1 <= y <= BOTTOM && Sized(field[..])
        invariant forall x', y' :: Inside(x', y') ==>
                    At(field[..], x', y') == At(g, if x' == to && 1 <= y' < y then from else x', y')
      {
        ghost var before := field[..];
        var v := field[y * WIDTH + from];
        AtIs(field[..], from, y);
        SetCell(to, y, v);
        forall x', y' | Inside(x', y')
          ensures At(field[..], x', y') == if x' == to && y' == y then v else At(before, x', y')
        {
          PutAt(before, to, y, v, x', y');
        }
        y := y + 1;
      }
    }

    // The shifting loops: in the left half from the outermost cleared column on, in
    // the right half in the reverse order of their columns, which again is from the
    // outermost on.
    method ShiftColumns(linesX: seq<int>, side: nat, ghost h: Half)
      requires Sized(field[..]) && side < 2 && |h| == HALF && HalfOf(field[..], side) == Zeroed(h)
      requires FullAre(h, side, linesX)
      modifies field
      ensures Sized(field[..]) && HalfOf(field[..], side) == Cleared(h)
      ensures HalfOf(field[..], 1 - side) == HalfOf(old(field[..]), 1 - side) && WallsKept(old(field[..]), field[..])
    {
      hide At, Walled, Coloured, Full, HalfOf, Done, Cleared, Zeroed, FullAre, Shifted;
      ghost var g, order := field[..], Order(side, linesX);
      OrderIs(h, side, linesX);
      DoneStart(h);
      ghost var m := 0;
      if side == 0 {
        var i := 0;
        while i < |linesX|
          invariant 0 <= i <= |linesX| && Sized(field[..]) && m == Reached(order, i)
          invariant HalfOf(field[..], side) == Done(h, m) && HalfOf(field[..], 1 - side) == HalfOf(g, 1 - side)
          invariant WallsKept(g, field[..])
        {
          ghost var before := field[..];
          assert 0 <= order[i] < HALF && order[i] == linesX[i];
          ShiftLeftHalf(linesX[i]);
          OneShift(h, before, field[..], side, order, i);
          m, i := order[i] + 1, i + 1;
        }
      } else {
        var i := |linesX|;
        while i > 0
          invariant 0 <= i <= |linesX| && Sized(field[..]) && m == Reached(order, |linesX| - i)
          invariant HalfOf(field[..], side) == Done(h, m) && HalfOf(field[..], 1 - side) == HalfOf(g, 1 - side)
          invariant WallsKept(g, field[..])
        {
          ghost var before, k := field[..], |linesX| - i;
          assert 0 <= order[k] < HALF && order[k] == WIDTH - 1 - linesX[i - 1];
          ShiftRightHalf(linesX[i - 1]);
          OneShift(h, before, field[..], side, order, k);
          m, i := order[k] + 1, i - 1;
        }
      }
      NothingBetween(h, order, |linesX|);
      PassOver(h, m, HALF);
      DoneEnd(h);
    }

    // prvSpawnPiece
    method SpawnPiece(draw: Draw)
      requires Sound(field[..]) && pieceIndex < 7 && Drawable(draw)
      modifies `pieceY, `randomSide, `pieceRotation, `pieceX, `pieceIndex, `gameOver
      ensures pieceIndex == (old(pieceIndex) + 1) % 7 && randomSide == draw.side
      ensures ThePiece() == Piece(pieceIndex, 3, if draw.side == 0 then 0 else WIDTH - 4, draw.y)
      ensures gameOver <==> !Fits(field[..], ThePiece())
      ensures !gameOver ==> Confined(field[..], ThePiece(), randomSide)
    {
      hide Fits, Covers, At, Walled, Coloured, NoneFull;
      pieceY := draw.y;
      randomSide := draw.side;
      pieceRotation := 3;
      pieceX := if randomSide == 0 then 0 else WIDTH - 4;
      pieceIndex := pieceIndex + 1;
      if pieceIndex >= 7 {
        pieceIndex := 0;
      }
      var fits := PieceFits(pieceIndex, pieceRotation, pieceX, pieceY);
      gameOver := !fits;
      if fits {
        SpawnConfined(field[..], ThePiece(), randomSide);
      }
    }

    // Its count of the pieces until the next speeding up
    method SpeedUp()
      modifies `speedTicks, `piecesUntilSpeedup
      ensures TheTally() == NextTally(old(TheTally()), 0).(score := score)
    {
      if piecesUntilSpeedup > 0 {
        piecesUntilSpeedup := piecesUntilSpeedup - 1;
      }
      if piecesUntilSpeedup == 0 {
        if speedTicks >= 10 {
          speedTicks := speedTicks - 1;
        }
        piecesUntilSpeedup := 50;
      }
    }

    // prvLockPiece
    method LockPiece(draw: Draw, glyph: (int, int) -> bool) returns (ghost lines: nat)
      requires Valid() && gameTicks == 0 && !gameOver && !theEnd && Drawable(draw)
      modifies this, field
      ensures Valid() && LockedOnto(old(field[..]), old(ThePiece()), old(randomSide), field[..], lines)
      ensures TheTally() == NextTally(old(TheTally()), lines) && lines <= 4 && gameTicks == 0
      ensures lives == old(lives) && theEnd == old(theEnd) && pieceIndex == (old(pieceIndex) + 1) % 7
      ensures randomSide == draw.side
    {
      hide At, Walled, Coloured, NoneFull, Placed, CellX, CellY, Zeroed, Cleared, HalfOf, Full, Lines, Emptied,
           FullAre, Confined, Fits, Scored, LockedOnto, WallsKept, OnField;
      ghost var g, p, side := field[..], ThePiece(), randomSide;
      ConfinedIsOnField(g, p, side);
      WritePiece();
      ghost var placed := field[..];
      var linesX := EmptyFullColumns();
      ghost var emptied := field[..];
      LinesFound(g, p, side, emptied, linesX);
      previousSide := randomSide;
      score := Scored(score, 1);
      ScoredTwice(old(score), 1, Bonus(|linesX|));
      if |linesX| != 0 {
        score := Scored(score, Bonus(|linesX|));
      }
      SpeedUp();
      ShiftColumns(linesX, previousSide, HalfOf(placed, side));
      ghost var shifted := field[..];
      WriteScore(glyph);
      lines := |linesX|;
      Locked(g, p, side, emptied, shifted, field[..], linesX);
      SpawnPiece(draw);
    }

    // Move the piece if asked to, and if it then fits.
    method TryMove(asked: bool, dx: int, dy: int) returns (moved: bool)
      requires Valid() && !gameOver && !theEnd
      requires (dx == 0 && (dy == 1 || dy == -1)) || (dy == 0 && dx == if randomSide == 0 then 1 else -1)
      modifies `pieceX, `pieceY
      ensures Valid() && ThePiece() == Fields.Moved(field[..], old(ThePiece()), asked, dx, dy)
      ensures moved <==> ThePiece() != old(ThePiece())
    {
      hide Fits, Confined, Walled, Coloured, NoneFull;
      moved := false;
      MovedConfined(field[..], ThePiece(), randomSide, asked, dx, dy);
      if asked && pieceX + dx >= 0 && pieceY + dy >= 0 {
        moved := PieceFits(pieceIndex, pieceRotation, pieceX + dx, pieceY + dy);
        if moved {
          pieceX, pieceY := pieceX + dx, pieceY + dy;
        }
      }
    }

    // Turn the piece if the button is newly pressed and it then fits.
    method TryTurn(center: bool)
      requires Valid() && !gameOver && !theEnd
      modifies `pieceRotation, `rotationReleased
      ensures Valid() && rotationReleased == !center
      ensures ThePiece() == if center && old(rotationReleased)
                               && Fits(field[..], old(ThePiece()).(rotation := old(pieceRotation) + 1))
                            then old(ThePiece()).(rotation := old(pieceRotation) + 1) else old(ThePiece())
    {
      hide Fits, Confined, Walled, Coloured, NoneFull;
      if center {
        if rotationReleased {
          var fits := PieceFits(pieceIndex, pieceRotation + 1, pieceX, pieceY);
          if fits {
            TurnConfined(field[..], ThePiece(), ThePiece().(rotation := pieceRotation + 1), randomSide);
            pieceRotation := pieceRotation + 1;
          }
        }
        rotationReleased := false;
      } else {
        rotationReleased := true;
      }
    }

    // The moves that the buttons ask for
    method Steer(buttons: Buttons)
      requires Valid() && !gameOver && !theEnd
      modifies `pieceX, `pieceY, `pieceRotation, `rotationReleased
      ensures Valid() && rotationReleased == !buttons.center
      ensures ThePiece() == Steered(field[..], old(ThePiece()), randomSide, buttons, old(rotationReleased))
    {
      hide Fits, Confined, Walled, Coloured, NoneFull, Fields.Moved;
      if randomSide == 0 {
        var _ := TryMove(buttons.down, 0, 1);
        var _ := TryMove(buttons.up, 0, -1);
        var _ := TryMove(buttons.right, 1, 0);
      } else {
        var _ := TryMove(buttons.up, 0, -1);
        var _ := TryMove(buttons.down, 0, 1);
        var _ := TryMove(buttons.left, -1, 0);
      }
      TryTurn(buttons.center);
    }

    // The fall of a piece: one column inwards if it fits there, else it is locked.
    method Fall(draw: Draw, glyph: (int, int) -> bool) returns (ghost lines: nat, locked: bool)
      requires Valid() && gameTicks == 0 && !gameOver && !theEnd && Drawable(draw)
      modifies this, field
      ensures Valid() && theEnd == old(theEnd) && lives == old(lives) && gameTicks == 0
      ensures var fallen := Inward(old(ThePiece()), old(randomSide));
              && (locked <==> !(0 <= fallen.x && Fits(old(field[..]), fallen)))
              && (!locked ==> field[..] == old(field[..]) && !gameOver && ThePiece() == fallen
                              && randomSide == old(randomSide) && TheTally() == old(TheTally()))
              && (locked ==>
                    && LockedOnto(old(field[..]), old(ThePiece()), old(randomSide), field[..], lines)
                    && lines <= 4 && TheTally() == NextTally(old(TheTally()), lines))
    {
      hide Fits, Confined, Sound, LockedOnto, NextTally;
      lines := 0;
      var moved := TryMove(true, if randomSide == 0 then 1 else -1, 0);
      locked := !moved;
      if locked {
        lines := LockPiece(draw, glyph);
      }
    }

    // tetrisaraj_game_step
    method Step(buttons: Buttons, draw: Draw, glyph: (int, int) -> bool)
      returns (ghost lines: nat, locked: Option<Piece>)
      requires Valid() && Drawable(draw)
      modifies this, field
      ensures Valid()
      ensures old(theEnd) && !buttons.center ==> theEnd && field[..] == old(field[..])
      ensures old(theEnd) && buttons.center ==> !theEnd && lives == 3 && score == 0
      ensures !old(theEnd) && old(gameOver) && old(lives) <= 1 ==> theEnd && field[..] == old(field[..])
      ensures !old(theEnd) && old(gameOver) && old(lives) > 1 ==> !theEnd && lives == old(lives) - 1
      ensures !old(theEnd) && !old(gameOver) ==>
                !theEnd && lives == old(lives) && gameTicks == NextTicks(old(gameTicks), old(speedTicks))
      ensures !old(theEnd) && !old(gameOver) ==>
                var p := Steered(old(field[..]), old(ThePiece()), old(randomSide), buttons, old(rotationReleased));
                var falls, fallen := Falls(old(gameTicks), old(speedTicks)), Inward(p, old(randomSide));
                && (locked.Some? <==> falls && !(0 <= fallen.x && Fits(old(field[..]), fallen)))
                && (locked.None? ==>
                      && field[..] == old(field[..]) && !gameOver && ThePiece() == (if falls then fallen else p)
                      && randomSide == old(randomSide) && TheTally() == old(TheTally()))
                && (locked.Some? ==>
                      && locked.value == p && LockedOnto(old(field[..]), p, old(randomSide), field[..], lines)
                      && lines <= 4 && TheTally() == NextTally(old(TheTally()), lines))
    {
      hide Fits, Confined, Walled, Coloured, NoneFull, LockedOnto, NextTally, Steered;
      lines, locked := 0, None;
      if theEnd {
        if buttons.center {
          Init(glyph);
        }
        return;
      }
      if gameOver {
        if lives <= 1 {
          theEnd := true;
        } else {
          lives := lives - 1;
          gameOver := false;
          NewField(glyph);
          SpawnPiece(draw);
        }
        return;
      }
      var move := false;
      gameTicks := (gameTicks + 1) % 256;
      if gameTicks >= speedTicks {
        gameTicks := 0;
        move := true;
      }
      Steer(buttons);
      if move {
        var piece := ThePiece();
        var fixed: bool;
        lines, fixed := Fall(draw, glyph);
        if fixed {
          locked := Some(piece);
        }
      }
    }

    // The first game, and the reset of tetrisaraj_game_init
    method Init(glyph: (int, int) -> bool)
      requires field.Length == WIDTH * HEIGHT
      modifies this, field
      ensures Valid() && !gameOver && !theEnd && lives == 3 && TheTally() == Tally(0, 15, 50) && gameTicks == 0
      ensures Bare(field[..])
    {
      hide Confined, Sound, Bare, At, Initial, Inside;
      NewState();
      NewField(glyph);
      FirstConfined(field[..], ThePiece());
    }

    // Its assignments, one after another
    method NewState()
      modifies `pieceIndex, `pieceRotation, `pieceX, `pieceY, `speedTicks, `gameTicks, `lives, `previousSide,
               `randomSide, `piecesUntilSpeedup, `score, `rotationReleased, `gameOver, `theEnd
      ensures TheTally() == Tally(0, 15, 50) && pieceIndex < 7 && randomSide == 0
      ensures ThePiece() == Piece(0, 3, 0, HEIGHT / 2)
      ensures speedTicks == 15 && gameTicks == 0 && lives == 3 && score == 0 && piecesUntilSpeedup == 50
      ensures rotationReleased && !gameOver && !theEnd && previousSide == 0
    {
      pieceIndex, pieceRotation, pieceX, pieceY := 0, 3, 0, HEIGHT / 2;
      speedTicks, gameTicks, lives := 15, 0, 3;
      previousSide, randomSide, piecesUntilSpeedup, score := 0, 0, 50, 0;
      rotationReleased, gameOver, theEnd := true, false, false;
    }

    // prvFieldInit and prvWriteScore
    method NewField(glyph: (int, int) -> bool)
      requires field.Length == WIDTH * HEIGHT
      modifies field
      ensures Sound(field[..])
      ensures Bare(field[..])
    {
      FieldInit();
      ghost var g := field[..];
      FreshIsSound(g);
      WriteScore(glyph);
      ScoreKeeps(g, field[..]);
    }

    constructor (glyph: (int, int) -> bool)
      ensures fresh(field) && Valid() && !gameOver && !theEnd && lives == 3 && score == 0
    {
      field := new nat[WIDTH * HEIGHT];
      new;
      Init(glyph);
    }
  }
}
