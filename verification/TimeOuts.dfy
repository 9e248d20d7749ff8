/** Finite waits: the time-out state a blocking call carries through its retries
    (vTaskSetTimeOutState, xTaskCheckForTimeOut), and xTaskDelayUntil.

    The code sees only the wrapped tick count and the number of wraps; the
    results are about the unbounded clock behind them. */
module TimeOuts {
  import opened Ticks

  // TimeOut_t together with the caller's ticks still to wait
  datatype Wait = Wait(overflowCount: nat, timeOnEntering: Tick, ticksToWait: Tick)

  datatype Verdict = Verdict(wait: Wait, timedOut: bool)

  // What one check makes of a wait, in the code's terms
  function Checked(w: Wait, tickCount: Tick, numOfOverflows: nat): Verdict {
    var elapsed := Sub(tickCount, w.timeOnEntering);
    if w.ticksToWait == MAX_DELAY then Verdict(w, false)
    else if numOfOverflows != w.overflowCount && tickCount >= w.timeOnEntering then Verdict(w.(ticksToWait := 0), true)
    else if elapsed < w.ticksToWait then Verdict(Wait(numOfOverflows, tickCount, w.ticksToWait - elapsed), false)
    else Verdict(w.(ticksToWait := 0), true)
  }

  // A wait for the given ticks whose state was taken at a moment
  function Since(moment: nat, ticks: Tick): Wait {
    Wait(Epoch(moment), Low(moment), ticks)
  }

  function CheckedAt(w: Wait, moment: nat): Verdict {
    Checked(w, Low(moment), Epoch(moment))
  }

  class BlockingCall {
    var overflowCount: nat
    var timeOnEntering: Tick
    var ticksToWait: Tick

    function State(): Wait
      reads this
    {
      Wait(overflowCount, timeOnEntering, ticksToWait)
    }

    // vTaskInternalSetTimeOutState
    method SetTimeOutState(tickCount: Tick, numOfOverflows: nat)
      modifies `overflowCount, `timeOnEntering
      ensures State() == Wait(numOfOverflows, tickCount, ticksToWait)
    {
      overflowCount := numOfOverflows;
      timeOnEntering := tickCount;
    }

    // xTaskCheckForTimeOut
    method CheckForTimeOut(tickCount: Tick, numOfOverflows: nat) returns (timedOut: bool)
      modifies this
      ensures Verdict(State(), timedOut) == Checked(old(State()), tickCount, numOfOverflows)
    {
      var elapsed := Sub(tickCount, timeOnEntering);
      if ticksToWait == MAX_DELAY {
        timedOut := false;
      } else if numOfOverflows != overflowCount && tickCount >= timeOnEntering {
        ticksToWait := 0;
        timedOut := true;
      } else if elapsed < ticksToWait {
        ticksToWait := ticksToWait - elapsed;
        SetTimeOutState(tickCount, numOfOverflows);
        timedOut := false;
      } else {
        ticksToWait := 0;
        timedOut := true;
      }
    }
  }

  // ---------------------------------------------------------------------
  // One check
  // ---------------------------------------------------------------------

  // The gaps a check can measure: the counter has wrapped at most once.
  predicate Measurable(since: nat, moment: nat) {
    since <= moment && Epoch(moment) <= Epoch(since) + 1
  }

  // A check at most one wrap after the state was taken times out exactly when
  // the wait is over, and otherwise carries on with exactly what is left.
  lemma CheckIsExact(since: nat, ticks: Tick, moment: nat)
    requires Measurable(since, moment) && ticks < MAX_DELAY
    ensures CheckedAt(Since(since, ticks), moment).timedOut <==> moment - since >= ticks
    ensures moment - since < ticks ==>
              CheckedAt(Since(since, ticks), moment).wait == Since(moment, ticks - (moment - since))
  {
    Split(since);
    Split(moment);
    if moment < since + WRAP {
      SubMeasures(since, moment);
    } else {
      assert Epoch(moment) == Epoch(since) + 1;
    }
  }

  // Whatever the gap, a time-out is never reported early; and it is missed
  // exactly when the counter has wrapped at least twice and shows a value less
  // than the wait past the one it showed at the start.
  lemma CheckIsRightUnless(since: nat, ticks: Tick, moment: nat)
    requires since <= moment && ticks < MAX_DELAY
    ensures CheckedAt(Since(since, ticks), moment).timedOut ==> moment - since >= ticks
    ensures (CheckedAt(Since(since, ticks), moment).timedOut <==> moment - since >= ticks)
       <==> !(Epoch(moment) >= Epoch(since) + 2 && Low(moment) < Low(since)
              && Low(moment) + WRAP < Low(since) + ticks)
  {
    Split(since);
    Split(moment);
    if Epoch(moment) <= Epoch(since) + 1 {
      CheckIsExact(since, ticks, moment);
    } else {
      assert moment - since >= WRAP;
    }
  }

  // ... which does happen: a wait of 10 ticks begun 5 ticks before a wrap has
  // lasted a whole wrap and 6 ticks, and is taken to have lasted 6.
  lemma CheckMissesTimeOut()
    ensures var since, moment := WRAP - 5, 2 * WRAP + 1;
            moment - since > 10 && !CheckedAt(Since(since, 10), moment).timedOut
            && CheckedAt(Since(since, 10), moment).wait == Since(moment, 4)
  {
    LowUnique(WRAP - 5, 0, WRAP - 5);
    LowUnique(2 * WRAP + 1, 2, 1);
  }

  // ---------------------------------------------------------------------
  // A whole call
  // ---------------------------------------------------------------------

  // The retries of a blocking call, each with its check, up to the first that
  // times out
  function CheckedOn(w: Wait, moments: seq<nat>): Verdict
    decreases |moments|
  {
    if moments == [] then Verdict(w, false) else
      var v := CheckedAt(w, moments[0]);
      if v.timedOut then v else CheckedOn(v.wait, moments[1..])
  }

  ghost predicate AllMeasurable(since: nat, moments: seq<nat>)
    decreases |moments|
  {
    moments == [] || (Measurable(since, moments[0]) && AllMeasurable(moments[0], moments[1..]))
  }

  function Last(since: nat, moments: seq<nat>): nat {
    if moments == [] then since else moments[|moments| - 1]
  }

  lemma {:induction false} LastIsLast(since: nat, moments: seq<nat>)
    requires AllMeasurable(since, moments)
    ensures since <= Last(since, moments)
    decreases |moments|
  {
    if moments != [] {
      LastIsLast(moments[0], moments[1..]);
    }
  }

  // Through any number of spurious wake-ups, the time already waited and the
  // ticks left add up to the wait asked for; so the call times out exactly when
  // that many ticks have passed since it was entered.
  lemma {:induction false} WaitIsConserved(entry: nat, ticks: Tick, moments: seq<nat>)
    requires ticks < MAX_DELAY && AllMeasurable(entry, moments)
    ensures var v := CheckedOn(Since(entry, ticks), moments);
            var waited := Last(entry, moments) - entry;
            && (v.timedOut <==> moments != [] && waited >= ticks)
            && (!v.timedOut ==>
                  && v.wait.ticksToWait + waited == ticks
                  && v.wait == Since(Last(entry, moments), ticks - waited))
    decreases |moments|
  {
    if moments != [] {
      CheckIsExact(entry, ticks, moments[0]);
      LastIsLast(moments[0], moments[1..]);
      if moments[0] - entry < ticks {
        WaitIsConserved(moments[0], ticks - (moments[0] - entry), moments[1..]);
      }
    }
  }

  // A wait of portMAX_DELAY never times out, however long it lasts.
  lemma {:induction false} ForeverNeverTimesOut(w: Wait, moments: seq<nat>)
    requires w.ticksToWait == MAX_DELAY
    ensures CheckedOn(w, moments) == Verdict(w, false)
    decreases |moments|
  {
    if moments != [] {
      ForeverNeverTimesOut(w, moments[1..]);
    }
  }

  // ---------------------------------------------------------------------
  // xTaskDelayUntil
  // ---------------------------------------------------------------------

  datatype Delay = Delay(wake: Tick, wait: bool, ticks: Tick)

  function DelayUntil(previousWake: Tick, increment: Tick, tickCount: Tick): Delay {
    var wake := Add(previousWake, increment);
    var wait := if tickCount < previousWake then wake < previousWake && wake > tickCount
                else wake < previousWake || wake > tickCount;
    Delay(wake, wait, if wait then Sub(wake, tickCount) else 0)
  }

  // *pxPreviousWakeTime is advanced; whether, and for how long, the caller waits
  method TaskDelayUntil(previousWake: Tick, increment: Tick, tickCount: Tick)
    returns (wake: Tick, wait: bool, ticks: Tick)
    ensures Delay(wake, wait, ticks) == DelayUntil(previousWake, increment, tickCount)
  {
    wake := Add(previousWake, increment);
    wait := false;
    if tickCount < previousWake {
      if wake < previousWake && wake > tickCount {
        wait := true;
      }
    } else {
      if wake < previousWake || wake > tickCount {
        wait := true;
      }
    }
    ticks := 0;
    if wait {
      ticks := Sub(wake, tickCount);
    }
  }

  // Called less than a wrap after the previous wake time, it waits exactly when
  // the next one is still to come, and exactly until it comes.
  lemma DelayUntilIsExact(previous: nat, increment: Tick, now: nat)
    requires previous <= now < previous + WRAP && increment > 0
    ensures var d := DelayUntil(Low(previous), increment, Low(now));
            && d.wake == Low(previous + increment)
            && (d.wait <==> now < previous + increment)
            && (d.wait ==> now + d.ticks == previous + increment)
  {
    AddFollowsClock(previous, increment);
    SubMeasures(previous, now);
    if now <= previous + increment {
      SubMeasures(now, previous + increment);
    }
    Split(previous);
    Split(now);
    Split(previous + increment);
  }

  // The wake time after a number of calls
  function WakeAfter(wake: Tick, increment: Tick, calls: seq<nat>): Tick
    decreases |calls|
  {
    if calls == [] then wake else WakeAfter(DelayUntil(wake, increment, Low(calls[0])).wake, increment, calls[1..])
  }

  // The k-th call is made less than a wrap after the k-th wake time.
  ghost predicate InTime(start: nat, increment: Tick, calls: seq<nat>) {
    forall k :: 0 <= k < |calls| ==> start + k * increment <= calls[k] < start + k * increment + WRAP
  }

  lemma InTimeTail(start: nat, increment: Tick, calls: seq<nat>)
    requires calls != [] && InTime(start, increment, calls)
    ensures start <= calls[0] < start + WRAP && InTime(start + increment, increment, calls[1..])
  {
    forall k | 0 <= k < |calls[1..]|
      ensures start + increment + k * increment <= calls[1..][k] < start + increment + k * increment + WRAP
    {
      assert calls[1..][k] == calls[k + 1];
      assert (k + 1) * increment == k * increment + increment;
    }
  }

  lemma {:induction false} WakesAtPeriods(start: nat, increment: Tick, calls: seq<nat>)
    requires increment > 0 && InTime(start, increment, calls)
    ensures WakeAfter(Low(start), increment, calls) == Low(start + |calls| * increment)
    decreases |calls|
  {
    hide InTime, Low, DelayUntil;
    if calls != [] {
      InTimeTail(start, increment, calls);
      DelayUntilIsExact(start, increment, calls[0]);
      WakesAtPeriods(start + increment, increment, calls[1..]);
      assert start + |calls| * increment == start + increment + |calls[1..]| * increment;
    }
  }

  // A periodic task does not drift: whenever its calls are made, the one after
  // any number of others waits exactly until that many periods and one more
  // after the start, or not at all if that has passed.
  lemma PeriodDoesNotDrift(start: nat, increment: Tick, calls: seq<nat>, now: nat)
    requires increment > 0 && InTime(start, increment, calls + [now])
    ensures var d := DelayUntil(WakeAfter(Low(start), increment, calls), increment, Low(now));
            && (d.wait <==> now < start + (|calls| + 1) * increment)
            && (d.wait ==> now + d.ticks == start + (|calls| + 1) * increment)
  {
    hide Low, DelayUntil;
    var all := calls + [now];
    assert all[|calls|] == now;
    assert forall k :: 0 <= k < |calls| ==> all[k] == calls[k];
    WakesAtPeriods(start, increment, calls);
    DelayUntilIsExact(start + |calls| * increment, increment, now);
    assert (|calls| + 1) * increment == |calls| * increment + increment;
  }
}
