/** Clearing full columns from one half of the game's field, as a function.

    A half is its columns in order from the outer edge to the wall.  The game
    empties the full ones and then, for each in turn, moves everything outside it
    one place towards the wall. */
module ColumnClearing {

  const ROWS: nat := 22

  type Column = seq<nat>
  type Half = seq<Column>

  ghost predicate WellFormed(h: Half) {
    forall i :: 0 <= i < |h| ==> |h[i]| == ROWS
  }

  ghost predicate Full(c: Column) {
    forall i :: 0 <= i < |c| ==> c[i] != 0
  }

  function Zeros(): (c: Column)
    ensures |c| == ROWS && forall i :: 0 <= i < ROWS ==> c[i] == 0
  {
    seq(ROWS, _ => 0)
  }

  ghost function Zeroed(h: Half): (r: Half)
    ensures |r| == |h|
    ensures forall i :: 0 <= i < |h| ==> r[i] == if Full(h[i]) then Zeros() else h[i]
  {
    seq(|h|, i requires 0 <= i < |h| => if Full(h[i]) then Zeros() else h[i])
  }

  // One column goes: those outside it move in, and the outermost stays as well.
  function ShiftOut(h: Half, p: nat): (r: Half)
    requires p < |h|
    ensures |r| == |h|
    ensures forall i :: 0 <= i < |h| ==> r[i] == if 0 < i <= p then h[i - 1] else h[i]
  {
    [h[0]] + h[..p] + h[p + 1..]
  }

  ghost function FullCount(h: Half): (n: nat)
    ensures n <= |h|
  {
    if h == [] then 0 else FullCount(h[..|h| - 1]) + if Full(h[|h| - 1]) then 1 else 0
  }

  // The columns that are not full, in order
  ghost function Kept(h: Half): (r: Half)
    ensures |r| == |h| - FullCount(h)
  {
    if h == [] then [] else Kept(h[..|h| - 1]) + if Full(h[|h| - 1]) then [] else [h[|h| - 1]]
  }

  // Those are the columns of the half that are not full, each of them once and in
  // their order.
  lemma {:induction false} KeptExactly(h: Half) returns (places: seq<nat>)
    ensures |places| == |Kept(h)| && forall i :: 0 <= i < |places| ==> places[i] < |h| && Kept(h)[i] == h[places[i]]
    ensures forall i, j :: 0 <= i < j < |places| ==> places[i] < places[j]
    ensures forall p: nat :: p in places <==> p < |h| && !Full(h[p])
    decreases |h|
  {
    hide Full, Kept, FullCount;
    KeptUnfolds(h);
    if h == [] {
      places := [];
    } else {
      var last, front := |h| - 1, h[..|h| - 1];
      places := KeptExactly(front);
      assert forall i :: 0 <= i < |places| ==> front[places[i]] == h[places[i]];
      assert forall p: nat :: p < last ==> front[p] == h[p];
      if !Full(h[last]) {
        places := places + [last];
      }
    }
  }

  lemma KeptUnfolds(h: Half)
    ensures Kept(h) == if h == [] then [] else Kept(h[..|h| - 1]) + if Full(h[|h| - 1]) then [] else [h[|h| - 1]]
  {
  }

  function Copies(n: nat, c: Column): (r: Half)
    ensures |r| == n && forall i :: 0 <= i < n ==> r[i] == c
  {
    seq(n, _ => c)
  }

  // What clearing makes of a half: the columns that were not full, in order, and
  // at the outer edge as many copies of the outermost column, emptied if it was
  // full, as columns have gone.
  ghost function Cleared(h: Half): Half
    requires h != []
  {
    Copies(FullCount(h), Zeroed(h)[0]) + Kept(h)
  }

  // ---------------------------------------------------------------------
  // The loop
  // ---------------------------------------------------------------------

  // The half once the first m columns have been dealt with
  ghost function Done(h: Half, m: nat): Half
    requires h != [] && m <= |h|
  {
    Copies(FullCount(h[..m]), Zeroed(h)[0]) + Kept(h[..m]) + Zeroed(h)[m..]
  }

  lemma DoneStart(h: Half)
    requires h != []
    ensures Done(h, 0) == Zeroed(h)
  {
    assert h[..0] == [];
  }

  lemma DoneEnd(h: Half)
    requires h != []
    ensures Done(h, |h|) == Cleared(h)
  {
    assert h[..|h|] == h;
  }

  lemma PrefixStep(h: Half, m: nat)
    requires m < |h|
    ensures FullCount(h[..m + 1]) == FullCount(h[..m]) + if Full(h[m]) then 1 else 0
    ensures Kept(h[..m + 1]) == Kept(h[..m]) + if Full(h[m]) then [] else [h[m]]
  {
    assert h[..m + 1][..m] == h[..m];
  }

  lemma ShiftAfter(front: Half, c: Column, rest: Half)
    ensures ShiftOut(front + [c] + rest, |front|) == [(front + [c] + rest)[0]] + front + rest
  {
  }

  lemma OneMoreCopy(n: nat, c: Column, rest: Half)
    ensures Copies(n + 1, c) + rest == [c] + (Copies(n, c) + rest)
  {
  }

  lemma DoneIs(h: Half, m: nat)
    requires m < |h|
    ensures Done(h, m) == Copies(FullCount(h[..m]), Zeroed(h)[0]) + Kept(h[..m]) + [Zeroed(h)[m]] + Zeroed(h)[m + 1..]
    ensures |Copies(FullCount(h[..m]), Zeroed(h)[0]) + Kept(h[..m])| == m && |Done(h, m)| == |h|
  {
  }

  // A column that is not full is passed over; a full one is shifted out.
  lemma DoneStep(h: Half, m: nat)
    requires m < |h|
    ensures |Done(h, m)| == |h|
    ensures Done(h, m + 1) == if Full(h[m]) then ShiftOut(Done(h, m), m) else Done(h, m)
  {
    hide Full, Zeroed, Kept, FullCount, Copies, ShiftOut;
    var n, z := FullCount(h[..m]), Zeroed(h);
    var front := Copies(n, z[0]) + Kept(h[..m]);
    PrefixStep(h, m);
    DoneIs(h, m);
    if Full(h[m]) {
      FirstStays(h, m);
      ShiftAfter(front, z[m], z[m + 1..]);
      OneMoreCopy(n, z[0], Kept(h[..m]));
      assert Kept(h[..m]) + [] == Kept(h[..m]);
    } else {
      assert Copies(n, z[0]) + (Kept(h[..m]) + [h[m]]) == front + [z[m]];
    }
  }

  lemma {:induction false} FirstStays(h: Half, m: nat)
    requires h != [] && m <= |h|
    ensures Done(h, m) != [] && Done(h, m)[0] == Zeroed(h)[0]
    decreases m
  {
    if m == 0 {
      DoneStart(h);
    } else {
      FirstStays(h, m - 1);
      PrefixStep(h, m - 1);
      if FullCount(h[..m]) == 0 {
        NothingFull(h, m);
      }
    }
  }

  lemma NothingKept(h: Half)
    ensures h[..0] == [] && Kept(h[..0]) == []
  {
  }

  lemma {:induction false} NothingFull(h: Half, m: nat)
    requires m <= |h| && FullCount(h[..m]) == 0
    ensures Kept(h[..m]) == h[..m] && forall i :: 0 <= i < m ==> !Full(h[i])
    decreases m
  {
    hide Full, FullCount, Kept;
    if m == 0 {
      NothingKept(h);
    } else {
      PrefixStep(h, m - 1);
      NothingFull(h, m - 1);
      assert h[..m] == h[..m - 1] + [h[m - 1]];
    }
  }

  lemma {:induction false} PassOver(h: Half, a: nat, b: nat)
    requires h != [] && a <= b <= |h| && forall p :: a <= p < b ==> !Full(h[p])
    ensures Done(h, b) == Done(h, a)
    decreases b - a
  {
    if a < b {
      PassOver(h, a, b - 1);
      DoneStep(h, b - 1);
    }
  }

  // ---------------------------------------------------------------------
  // What clearing keeps
  // ---------------------------------------------------------------------

  lemma EmptyIsNotFull()
    ensures !Full(Zeros())
  {
    assert Zeros()[0] == 0;
  }

  lemma {:induction false} KeptAreNotFull(h: Half, c: Column)
    requires c in Kept(h)
    ensures !Full(c) && c in h
    decreases |h|
  {
    if h != [] {
      var front := h[..|h| - 1];
      if c in Kept(front) {
        KeptAreNotFull(front, c);
      }
    }
  }

  // No column of a cleared half is full, and there are as many as before.
  lemma ClearedHasNoFull(h: Half)
    requires h != []
    ensures |Cleared(h)| == |h| && forall i :: 0 <= i < |h| ==> !Full(Cleared(h)[i])
  {
    EmptyIsNotFull();
    var n, z := FullCount(h), Zeroed(h)[0];
    forall i | 0 <= i < |h|
      ensures !Full(Cleared(h)[i])
    {
      if i >= n {
        KeptAreNotFull(h, Kept(h)[i - n]);
      } else {
        assert Cleared(h)[i] == z;
      }
    }
  }

  function Occupied(c: Column): nat {
    if c == [] then 0 else Occupied(c[..|c| - 1]) + if c[|c| - 1] != 0 then 1 else 0
  }

  function Cells(h: Half): nat {
    if h == [] then 0 else Cells(h[..|h| - 1]) + Occupied(h[|h| - 1])
  }

  lemma {:induction false} FullIsOccupied(c: Column)
    requires Full(c)
    ensures Occupied(c) == |c|
  {
    if c != [] {
      FullIsOccupied(c[..|c| - 1]);
    }
  }

  lemma {:induction false} CellsOfBoth(a: Half, b: Half)
    ensures Cells(a + b) == Cells(a) + Cells(b)
    decreases |b|
  {
    if b == [] {
      assert a + b == a;
    } else {
      CellsOfBoth(a, b[..|b| - 1]);
      assert (a + b)[..|a + b| - 1] == a + b[..|b| - 1];
    }
  }

  lemma {:induction false} CellsOfCopies(n: nat, c: Column)
    ensures Cells(Copies(n, c)) == n * Occupied(c)
    decreases n
  {
    if n > 0 {
      CellsOfCopies(n - 1, c);
      assert Copies(n, c)[..n - 1] == Copies(n - 1, c);
      assert n * Occupied(c) == (n - 1) * Occupied(c) + Occupied(c);
    }
  }

  lemma OneColumn(c: Column)
    ensures Cells([c]) == Occupied(c)
  {
    var none: Half := [c][..0];
    assert none == [];
  }

  lemma {:induction false} CellsKept(h: Half)
    requires WellFormed(h)
    ensures Cells(Kept(h)) == Cells(h) - ROWS * FullCount(h)
    decreases |h|
  {
    if h != [] {
      var front, last := h[..|h| - 1], h[|h| - 1];
      CellsKept(front);
      if Full(last) {
        FullIsOccupied(last);
        assert Kept(front) + [] == Kept(front);
      } else {
        CellsOfBoth(Kept(front), [last]);
        OneColumn(last);
      }
    }
  }

  // Clearing k columns takes 22 k cells away, and brings in k times the cells of
  // the outermost column.
  lemma ClearedCells(h: Half)
    requires h != [] && WellFormed(h)
    ensures Cells(Cleared(h)) == Cells(h) - ROWS * FullCount(h) + FullCount(h) * Occupied(Zeroed(h)[0])
  {
    CellsOfBoth(Copies(FullCount(h), Zeroed(h)[0]), Kept(h));
    CellsOfCopies(FullCount(h), Zeroed(h)[0]);
    CellsKept(h);
  }

  // ---------------------------------------------------------------------
  // When clearing is more than removal
  // ---------------------------------------------------------------------

  // What a player would expect: the full columns go, and empty ones come in from
  // the outer edge.
  ghost function Removed(h: Half): (r: Half)
    ensures |r| == |h|
  {
    Copies(FullCount(h), Zeros()) + Kept(h)
  }

  // Clearing is that exactly if nothing is full, or the outermost column is full
  // itself or empty.  Otherwise each column that goes leaves a copy of it behind.
  lemma ClearedIsRemoval(h: Half)
    requires h != [] && WellFormed(h)
    ensures Cleared(h) == Removed(h) <==> FullCount(h) == 0 || Full(h[0]) || h[0] == Zeros()
    ensures forall i :: 0 <= i < FullCount(h) ==> Cleared(h)[i] == Zeroed(h)[0]
  {
    if FullCount(h) > 0 {
      assert Cleared(h)[0] == Zeroed(h)[0] && Removed(h)[0] == Zeros();
      if Zeroed(h)[0] == Zeros() {
        assert Copies(FullCount(h), Zeroed(h)[0]) == Copies(FullCount(h), Zeros());
      }
    }
  }

  // In any half: an outermost column that is not full is there once more for
  // each column that has gone.
  lemma OutermostIsCopied(h: Half)
    requires h != [] && !Full(h[0])
    ensures FullCount(h) < |h| && forall i :: 0 <= i <= FullCount(h) ==> Cleared(h)[i] == h[0]
  {
    FirstIsKept(h);
    hide Full, Kept, FullCount;
    var n := FullCount(h);
    assert Zeroed(h)[0] == h[0];
    forall i | 0 <= i <= n
      ensures Cleared(h)[i] == h[0]
    {
      assert Cleared(h)[i] == if i < n then h[0] else Kept(h)[i - n];
    }
  }

  lemma {:induction false} FirstIsKept(h: Half)
    requires h != [] && !Full(h[0])
    ensures Kept(h) != [] && Kept(h)[0] == h[0]
    decreases |h|
  {
    if |h| > 1 {
      FirstIsKept(h[..|h| - 1]);
    } else {
      assert h[..0] == [];
    }
  }

  lemma {:induction false} OneFull(h: Half, k: nat)
    requires k < |h| && forall i :: 0 <= i < |h| ==> (Full(h[i]) <==> i == k)
    ensures FullCount(h) == 1
    decreases |h|
  {
    var last := |h| - 1;
    if k == last {
      NoFull(h[..last]);
    } else {
      OneFull(h[..last], k);
    }
  }

  lemma {:induction false} NoFull(h: Half)
    requires forall i :: 0 <= i < |h| ==> !Full(h[i])
    ensures FullCount(h) == 0
    decreases |h|
  {
    if h != [] {
      NoFull(h[..|h| - 1]);
    }
  }
}
