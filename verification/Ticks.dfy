/** The 32-bit tick counter (TickType_t) and its relation to an unbounded clock.

    A moment is a natural number: the number of ticks since the counter was
    zero.  The counter shows only its low 32 bits; the number of times the
    counter has wrapped is the moment's epoch. */
module Ticks {

  const WRAP: nat := 0x1_0000_0000
  // portMAX_DELAY
  const MAX_DELAY: nat := 0xFFFF_FFFF

  type Tick = t: nat | t < 0x1_0000_0000

  // What the counter shows at a moment of the unbounded clock.
  function Low(moment: nat): Tick {
    moment % WRAP
  }

  function Epoch(moment: nat): nat {
    moment / WRAP
  }

  // Unsigned 32-bit addition and subtraction.
  function Add(a: Tick, b: Tick): Tick {
    if a + b < WRAP then a + b else a + b - WRAP
  }

  function Sub(a: Tick, b: Tick): Tick {
    if a >= b then a - b else a + WRAP - b
  }

  lemma Split(moment: nat)
    ensures moment == Epoch(moment) * WRAP + Low(moment)
  {
  }

  lemma LowUnique(moment: nat, epoch: nat, low: nat)
    requires moment == epoch * WRAP + low && low < WRAP
    ensures Epoch(moment) == epoch && Low(moment) == low
  {
  }

  // Counter addition follows the clock, and wraps exactly when the clock enters
  // the next epoch, which the counter shows by the sum being below the start.
  lemma AddFollowsClock(start: nat, ticks: nat)
    requires ticks < WRAP
    ensures Low(start + ticks) == Add(Low(start), ticks)
    ensures Epoch(start + ticks) == Epoch(start) + (if Add(Low(start), ticks) < Low(start) then 1 else 0)
  {
    Split(start);
    if Low(start) + ticks < WRAP {
      LowUnique(start + ticks, Epoch(start), Low(start) + ticks);
    } else {
      LowUnique(start + ticks, Epoch(start) + 1, Low(start) + ticks - WRAP);
    }
  }

  // Counter subtraction measures elapsed time exactly up to one wrap.
  lemma SubMeasures(earlier: nat, later: nat)
    requires earlier <= later < earlier + WRAP
    ensures Sub(Low(later), Low(earlier)) == later - earlier
    ensures Epoch(later) == Epoch(earlier) + (if Low(later) < Low(earlier) then 1 else 0)
  {
    AddFollowsClock(earlier, later - earlier);
  }

  // Within one epoch the counter orders moments as the clock does.
  lemma SameEpochOrder(a: nat, b: nat)
    requires Epoch(a) == Epoch(b)
    ensures a <= b <==> Low(a) <= Low(b)
  {
    Split(a);
    Split(b);
  }

  lemma EpochsOrder(a: nat, b: nat)
    requires Epoch(a) < Epoch(b)
    ensures a < b
  {
  }
}
