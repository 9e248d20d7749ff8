/** Suspending the scheduler, suspending a task, and handing a task a value, over
    runs of the kernel. */
module Suspensions {
  import opened Identifiers
  import opened Ticks
  import opened CursorLists
  import opened Options
  import opened Kernels
  import opened KernelInvariants
  import opened KernelRuns
  import EventOrder

  // ---------------------------------------------------------------------
  // The scheduler
  // ---------------------------------------------------------------------

  ghost function Suspends(steps: seq<Step>): nat {
    if steps == [] then 0 else (if steps[0].SuspendAll? then 1 else 0) + Suspends(steps[1..])
  }

  ghost function Resumes(steps: seq<Step>): nat {
    if steps == [] then 0 else (if steps[0].ResumeTheScheduler? then 1 else 0) + Resumes(steps[1..])
  }

  lemma DepthStep(k: Kernel, step: Step)
    requires Inv(k) && Enabled(k, step)
    ensures Do(k, step).depth
         == k.depth + (if step.SuspendAll? then 1 else 0) - (if step.ResumeTheScheduler? then 1 else 0)
  {
    if step.ResumeTheScheduler? && k.depth == 1 {
      ResumeAllExact(k);
    }
  }

  // Suspensions nest: after any run the scheduler is suspended as often as it has been
  // and not been resumed, so that as many resumptions end as many suspensions.
  lemma {:induction false} SuspensionsNest(k: Kernel, steps: seq<Step>)
    requires Inv(k) && Run(k, steps)
    ensures Final(k, steps).depth == k.depth + Suspends(steps) - Resumes(steps)
    decreases |steps|
  {
    hide Inv, Do, Enabled;
    if steps != [] {
      DepthStep(k, steps[0]);
      StepKeepsInv(k, steps[0]);
      SuspensionsNest(Do(k, steps[0]), steps[1..]);
    }
  }

  ghost predicate HeldThroughout(k: Kernel, steps: seq<Step>)
    requires Run(k, steps)
    decreases |steps|
  {
    k.depth > 0 && (steps == [] || HeldThroughout(Do(k, steps[0]), steps[1..]))
  }

  lemma StandsStep(k: Kernel, step: Step)
    requires Inv(k) && Enabled(k, step) && k.depth > 0 && Do(k, step).depth > 0
    ensures Do(k, step).now == k.now && Do(k, step).current == k.current
    ensures Do(k, step).pended == Add(k.pended, if step.TickInterrupt? then 1 else 0)
  {
    DepthStep(k, step);
    AddNothing(k.pended);
    hide Inv, OneTick, WakeTask, MakeReady, Delay, Unlink, UnlinkEvent, LinkEnd;
  }

  lemma AddNothing(a: Tick)
    ensures Add(a, 0) == a
  {
  }

  // Until the last of them ends, the clock stands still, no other task runs, and the
  // ticks are counted.
  lemma {:induction false} SchedulerStands(k: Kernel, steps: seq<Step>)
    requires Inv(k) && Run(k, steps) && HeldThroughout(k, steps)
    ensures Final(k, steps).now == k.now && Final(k, steps).current == k.current
    ensures Low(Final(k, steps).pended) == Low(k.pended + TickInterrupts(steps))
    decreases |steps|
  {
    hide Inv, Do, Enabled, Add, Low;
    if steps != [] {
      var k1 := Do(k, steps[0]);
      assert k1.depth > 0;
      StandsStep(k, steps[0]);
      StepKeepsInv(k, steps[0]);
      SchedulerStands(k1, steps[1..]);
      var n: Tick := if steps[0].TickInterrupt? then 1 else 0;
      PendedSum(k.pended, n, TickInterrupts(steps[1..]));
    }
  }

  lemma PendedSum(a: Tick, n: Tick, more: nat)
    ensures Low(Add(a, n) + more) == Low(a + (n + more))
  {
    AddFollowsClock(a, n);
  }

  // ---------------------------------------------------------------------
  // A task
  // ---------------------------------------------------------------------

  // t is on the suspended list: suspended, or waiting for an event with no time-out.
  ghost predicate Parked(s: Tasks, t: Tid, event: Option<EventId>) {
    IsIn(s, t, Suspended) && (if event.None? then t !in s.eventIn else Waits(s, t, event.value))
  }

  // The steps that can change that
  predicate Wakens(k: Kernel, step: Step, t: Tid) {
    match step
    case ResumeTask(u) => u == t && IsSuspended(k.tasks, t)
    case ResumeFromISR(u) => u == t && IsSuspended(k.tasks, t)
    case DeleteTask(u) => u == t
    case SuspendTask(u) => u == t && t in k.tasks.eventIn
    case RemoveFromEventList(e) => Get(k.tasks.events, e).items != [] && Get(k.tasks.events, e).items[0] == t
    case RemoveFromUnorderedEventList(u, _) => u == t
    case _ => false
  }

  lemma OthersLeaveParked(s: Tasks, s': Tasks, u: Tid, t: Tid, event: Option<EventId>)
    requires Leaves(s, s', u) && u != t && Parked(s, t, event)
    ensures Parked(s', t, event)
  {
    assert t in s'.stateIn - {u} && t in s.stateIn - {u};
    assert t in s'.eventIn - {u} <==> t in s.eventIn - {u};
  }

  // ---- ticks ----

  lemma {:induction false} ReadyAllLeavesParked(s: Tasks, ts: seq<Tid>, t: Tid, event: Option<EventId>)
    requires Parked(s, t, event) && t !in ts
    ensures Parked(ReadyAll(s, ts), t, event)
    decreases |ts|
  {
    hide MakeReady, UnlinkEvent;
    if ts != [] {
      var s1 := UnlinkEvent(s, ts[0]);
      UnlinkEventMoves(s, ts[0]);
      MakeReadyMoves(s1, ts[0]);
      ReadyAllLeavesParked(MakeReady(s1, ts[0]), ts[1..], t, event);
    }
  }

  lemma NotExpired(s: Tasks, moment: nat, t: Tid, event: Option<EventId>)
    requires Core(s) && Parked(s, t, event)
    ensures t !in Expired(s, moment)
  {
    ExpiredExactly(s, moment, t);
  }

  lemma TickLeavesParked(k: Kernel, t: Tid, event: Option<EventId>)
    requires Core(k.tasks) && Parked(k.tasks, t, event)
    ensures Parked(OneTick(k).tasks, t, event)
  {
    hide Core, Expired, ReadyAll, Parked;
    NotExpired(k.tasks, k.now + 1, t, event);
    ReadyAllLeavesParked(k.tasks, Expired(k.tasks, k.now + 1), t, event);
  }

  lemma {:induction false} TicksLeaveParked(k: Kernel, n: nat, t: Tid, event: Option<EventId>)
    requires Core(k.tasks) && Ahead(k.tasks.due, k.tasks.stateIn, k.now) && Parked(k.tasks, t, event)
    ensures Parked(TickTimes(k, n).tasks, t, event)
    decreases n
  {
    hide Core, Ahead, OneTick, Parked;
    if n > 0 {
      TickLeavesParked(k, t, event);
      OneTickExact(k);
      hide Ticked;
      TicksLeaveParked(OneTick(k), n - 1, t, event);
    }
  }

  lemma PendingLeavesParked(k: Kernel, t: Tid, event: Option<EventId>)
    requires Core(k.tasks) && Parked(k.tasks, t, event) && event != Some(PendingReady)
    ensures Parked(ReadyPending(k).tasks, t, event)
  {
    PendingAreKnown(k.tasks);
    hide Core, ReadyAll;
    ReadyAllLeavesParked(k.tasks, Get(k.tasks.events, PendingReady).items, t, event);
  }

  lemma ClockLeavesParked(k: Kernel, step: Step, t: Tid, event: Option<EventId>)
    requires Inv(k) && Enabled(k, step) && Parked(k.tasks, t, event) && event != Some(PendingReady)
    requires step.TickInterrupt? || step.ResumeTheScheduler?
    ensures Parked(Do(k, step).tasks, t, event)
  {
    hide Core, Ahead, Parked, OneTick, TickTimes, ReadyPending;
    if step.TickInterrupt? {
      if k.depth == 0 {
        TickLeavesParked(k.(interrupts := k.interrupts + 1), t, event);
      }
    } else if k.depth == 1 {
      PendingLeavesParked(k.(depth := 0), t, event);
      ReadyPendingExact(k.(depth := 0));
      TicksLeaveParked(ReadyPending(k.(depth := 0)), k.pended, t, event);
    }
  }

  // ---- the other steps ----

  lemma BlockingLeavesParked(k: Kernel, step: Step, t: Tid, event: Option<EventId>)
    requires Enabled(k, step) && Parked(k.tasks, t, event)
    requires step.DelayCurrent? || step.PlaceOnEventList? || step.PlaceOnUnorderedEventList?
    ensures Parked(Do(k, step).tasks, t, event)
  {
    hide Do, Enabled;
    BlockingMoves(k, step);
    OthersLeaveParked(k.tasks, Do(k, step).tasks, k.current, t, event);
  }

  lemma WakingLeavesParked(k: Kernel, e: EventId, t: Tid, event: Option<EventId>)
    requires Inv(k) && Enabled(k, RemoveFromEventList(e)) && Parked(k.tasks, t, event)
    requires !Wakens(k, RemoveFromEventList(e), t)
    ensures Parked(Do(k, RemoveFromEventList(e)).tasks, t, event)
  {
    var u := Get(k.tasks.events, e).items[0];
    assert Do(k, RemoveFromEventList(e)) == WakeTask(k, u);
    hide Inv, WakeTask, Do, Get, Enabled;
    WakeTaskLeaves(k, u);
    OthersLeaveParked(k.tasks, WakeTask(k, u).tasks, u, t, event);
  }

  lemma WakeTaskLeaves(k: Kernel, u: Tid)
    ensures Leaves(k.tasks, WakeTask(k, u).tasks, u)
  {
    hide MakeReady, UnlinkEvent, Get, InsertEnd;
    UnlinkEventMoves(k.tasks, u);
    MakeReadyMoves(UnlinkEvent(k.tasks, u), u);
  }

  lemma StoppingLeavesParked(k: Kernel, step: Step, t: Tid, event: Option<EventId>)
    requires Enabled(k, step) && Parked(k.tasks, t, event) && (step.SuspendTask? || step.DeleteTask?)
    requires !Wakens(k, step, t)
    ensures Parked(Do(k, step).tasks, t, event)
  {
    if step.SuspendTask? {
      SuspendingIs(k, step.t);
      SuspendingLeaves(k, step.t);
    } else {
      DeletingLeaves(k, step.t);
    }
    hide Do, Enabled;
    if step.t != t {
      OthersLeaveParked(k.tasks, Do(k, step).tasks, step.t, t, event);
    }
  }

  // A task that is suspended is on no event list any more.
  lemma SuspendingIs(k: Kernel, t: Tid)
    requires Enabled(k, SuspendTask(t))
    ensures Parked(Do(k, SuspendTask(t)).tasks, t, None)
  {
    hide Unlink, UnlinkEvent, LinkEnd, OneTick, ResumeAll, WakeTask, Select, MakeReady, Delay;
    TakeOffMoves(k.tasks, t);
    LinkEndMoves(UnlinkEvent(Unlink(k.tasks, t), t), t, Suspended);
  }

  lemma ReapingLeavesParked(k: Kernel, t: Tid, event: Option<EventId>)
    requires Inv(k) && Enabled(k, ReapTerminated) && Parked(k.tasks, t, event)
    ensures Parked(Do(k, ReapTerminated).tasks, t, event)
  {
    HeadTerminates(k.tasks);
    CleanUpMoves(k);
    ReapingKeepsEvents(k);
    hide Inv, Do, Enabled;
  }

  lemma ReapingKeepsEvents(k: Kernel)
    requires Enabled(k, ReapTerminated)
    ensures Do(k, ReapTerminated).tasks.eventIn == k.tasks.eventIn
  {
    hide Get, OneTick, ResumeAll, WakeTask, Select, MakeReady, Delay, LinkEnd, Drop;
  }

  lemma ResumingLeavesParked(k: Kernel, step: Step, t: Tid, event: Option<EventId>)
    requires Enabled(k, step) && Parked(k.tasks, t, event) && !Wakens(k, step, t)
    requires step.ResumeTask? || step.ResumeFromISR?
    ensures Parked(Do(k, step).tasks, t, event)
  {
    if step.t == t {
      assert !IsSuspended(k.tasks, t);
      hide MakeReady, OneTick, ResumeAll, WakeTask, Select, Delay, InsertEnd;
    } else {
      ResumingLeaves(k, step);
      hide Do, Enabled;
      OthersLeaveParked(k.tasks, Do(k, step).tasks, step.t, t, event);
    }
  }

  lemma ChangingLeavesParked(k: Kernel, step: Step, t: Tid, event: Option<EventId>)
    requires Enabled(k, step) && Parked(k.tasks, t, event) && !Wakens(k, step, t)
    requires step.CreateTask? || step.ChangePriority? || step.RemoveFromUnorderedEventList?
    ensures Parked(Do(k, step).tasks, t, event)
  {
    match step {
      case ChangePriority(u, p, value) =>
        if u == t {
          hide MakeReady, OneTick, ResumeAll, WakeTask, Select, Delay;
          return;
        }
        ChangingLeaves(k, u, p, value);
      case CreateTask(u, p) => CreatingLeaves(k, u, p);
      case RemoveFromUnorderedEventList(u, value) => WakingLeaves(k, u, value);
    }
    assert step.t != t;
    hide Do, Enabled;
    OthersLeaveParked(k.tasks, Do(k, step).tasks, step.t, t, event);
  }

  lemma ParkedStep(k: Kernel, step: Step, t: Tid, event: Option<EventId>)
    requires Inv(k) && Enabled(k, step) && Parked(k.tasks, t, event) && event != Some(PendingReady)
    requires !Wakens(k, step, t)
    ensures Parked(Do(k, step).tasks, t, event)
  {
    match step
    case TickInterrupt => ClockLeavesParked(k, step, t, event);
    case ResumeTheScheduler => ClockLeavesParked(k, step, t, event);
    case DelayCurrent(_, _) => BlockingLeavesParked(k, step, t, event);
    case PlaceOnEventList(_, _) => BlockingLeavesParked(k, step, t, event);
    case PlaceOnUnorderedEventList(_, _, _) => BlockingLeavesParked(k, step, t, event);
    case RemoveFromEventList(e) => WakingLeavesParked(k, e, t, event);
    case SuspendTask(_) => StoppingLeavesParked(k, step, t, event);
    case DeleteTask(_) => StoppingLeavesParked(k, step, t, event);
    case ResumeTask(_) => ResumingLeavesParked(k, step, t, event);
    case ResumeFromISR(_) => ResumingLeavesParked(k, step, t, event);
    case ReapTerminated => ReapingLeavesParked(k, t, event);
    case SuspendAll =>
    case ResetEventItemValue =>
    case SwitchContext(_) =>
    case _ => ChangingLeavesParked(k, step, t, event);
  }

  ghost predicate NeverWoken(k: Kernel, steps: seq<Step>, t: Tid)
    requires Run(k, steps)
    decreases |steps|
  {
    steps == [] || (!Wakens(k, steps[0], t) && NeverWoken(Do(k, steps[0]), steps[1..], t))
  }

  lemma {:induction false} ParkedRun(k: Kernel, steps: seq<Step>, t: Tid, event: Option<EventId>)
    requires Inv(k) && Run(k, steps) && Parked(k.tasks, t, event) && event != Some(PendingReady)
    requires NeverWoken(k, steps, t)
    ensures Inv(Final(k, steps)) && Parked(Final(k, steps).tasks, t, event)
    decreases |steps|
  {
    hide Inv, Do, Enabled, Parked, Wakens;
    if steps != [] {
      StepKeepsInv(k, steps[0]);
      ParkedStep(k, steps[0], t, event);
      ParkedRun(Do(k, steps[0]), steps[1..], t, event);
    }
  }

  // A task that is suspended, on whatever lists it was, stays so over any run in which
  // nobody resumes or deletes it; and the first that resumes it, unless it is still
  // the running task, makes it ready at its priority.
  lemma SuspendedUntilResumed(k: Kernel, t: Tid, steps: seq<Step>)
    requires Inv(k) && Enabled(k, SuspendTask(t)) && Run(Do(k, SuspendTask(t)), steps)
    requires NeverWoken(Do(k, SuspendTask(t)), steps, t)
    ensures var k1 := Final(Do(k, SuspendTask(t)), steps);
            && IsIn(k1.tasks, t, Suspended) && t !in k1.tasks.eventIn && Enabled(k1, ResumeTask(t))
            && (k1.current != t ==>
                  IsIn(Do(k1, ResumeTask(t)).tasks, t, Ready(At(k1.tasks.priority, t))))
            && (k1.depth == 0 ==>
                  IsIn(Do(k1, ResumeFromISR(t)).tasks, t, Ready(At(k1.tasks.priority, t))))
            && (k1.depth > 0 ==> Waits(Do(k1, ResumeFromISR(t)).tasks, t, PendingReady))
  {
    SuspendingIs(k, t);
    StepKeepsInv(k, SuspendTask(t));
    ParkedRun(Do(k, SuspendTask(t)), steps, t, None);
    ResumingIs(Final(Do(k, SuspendTask(t)), steps), t);
  }

  lemma ResumingIs(k: Kernel, t: Tid)
    requires IsSuspended(k.tasks, t)
    ensures Enabled(k, ResumeTask(t)) && Enabled(k, ResumeFromISR(t))
    ensures k.current != t ==> IsIn(Do(k, ResumeTask(t)).tasks, t, Ready(At(k.tasks.priority, t)))
    ensures k.depth == 0 ==> IsIn(Do(k, ResumeFromISR(t)).tasks, t, Ready(At(k.tasks.priority, t)))
    ensures k.depth > 0 ==> Waits(Do(k, ResumeFromISR(t)).tasks, t, PendingReady)
  {
    hide MakeReady, InsertEnd, Get, OneTick, ResumeAll, WakeTask, Select, Delay;
    MakeReadyMoves(k.tasks, t);
  }

  // A task that waits for an event with no time-out goes on waiting for it, however
  // much time passes and however often it is resumed, until it is woken, suspended or
  // deleted; and one that delays itself with no end, until it is resumed or deleted.
  lemma EndlessWait(k: Kernel, e: EventId, steps: seq<Step>)
    requires Inv(k) && Enabled(k, PlaceOnEventList(e, MAX_DELAY))
    requires Run(Do(k, PlaceOnEventList(e, MAX_DELAY)), steps)
    requires NeverWoken(Do(k, PlaceOnEventList(e, MAX_DELAY)), steps, k.current)
    ensures var k1 := Final(Do(k, PlaceOnEventList(e, MAX_DELAY)), steps);
            Waits(k1.tasks, k.current, e) && IsIn(k1.tasks, k.current, Suspended)
  {
    EndlessPlace(k, e);
    StepKeepsInv(k, PlaceOnEventList(e, MAX_DELAY));
    ParkedRun(Do(k, PlaceOnEventList(e, MAX_DELAY)), steps, k.current, Some(e));
  }

  lemma EndlessPlace(k: Kernel, e: EventId)
    requires Enabled(k, PlaceOnEventList(e, MAX_DELAY))
    ensures Parked(Do(k, PlaceOnEventList(e, MAX_DELAY)).tasks, k.current, Some(e))
  {
    hide Delay, Get, InsertBefore, InsertPos, Column, OneTick, ResumeAll, WakeTask, Select, MakeReady, LinkEnd, Unlink,
         UnlinkEvent;
    DelayMoves(LinkEventByValue(k.tasks, k.current, e), k.current, k.now, MAX_DELAY, true);
  }

  lemma EndlessDelay(k: Kernel, steps: seq<Step>)
    requires Inv(k) && Enabled(k, DelayCurrent(MAX_DELAY, true))
    requires Run(Do(k, DelayCurrent(MAX_DELAY, true)), steps)
    requires NeverWoken(Do(k, DelayCurrent(MAX_DELAY, true)), steps, k.current)
    ensures IsIn(Final(Do(k, DelayCurrent(MAX_DELAY, true)), steps).tasks, k.current, Suspended)
  {
    EndlessBlock(k);
    StepKeepsInv(k, DelayCurrent(MAX_DELAY, true));
    ParkedRun(Do(k, DelayCurrent(MAX_DELAY, true)), steps, k.current, None);
  }

  lemma EndlessBlock(k: Kernel)
    requires Inv(k) && Enabled(k, DelayCurrent(MAX_DELAY, true))
    ensures Parked(Do(k, DelayCurrent(MAX_DELAY, true)).tasks, k.current, None)
  {
    hide Partition, ByDue, Ahead, NothingPending, Counted, Delay, OneTick, ResumeAll, WakeTask, Select, MakeReady,
         LinkEnd,
         Unlink, UnlinkEvent;
    DelayMoves(k.tasks, k.current, k.now, MAX_DELAY, true);
  }

  // ---------------------------------------------------------------------
  // The value of an event item
  // ---------------------------------------------------------------------

  // The steps that rewrite the value of t's event item
  predicate Rewrites(k: Kernel, step: Step, t: Tid) {
    match step
    case PlaceOnUnorderedEventList(_, _, _) => k.current == t
    case RemoveFromUnorderedEventList(u, _) => u == t
    case ResetEventItemValue => k.current == t
    case DeleteTask(u) => u == t
    case CreateTask(u, _) => u == t
    case ChangePriority(u, _, _) => u == t
    case ReapTerminated =>
      Get(k.tasks.lists, Terminating).items != [] && Get(k.tasks.lists, Terminating).items[0] == t
    case _ => false
  }

  lemma {:induction false} ReadyAllValues(s: Tasks, ts: seq<Tid>)
    ensures ReadyAll(s, ts).eventValue == s.eventValue
    decreases |ts|
  {
    hide MakeReady, UnlinkEvent;
    if ts != [] {
      var s1 := UnlinkEvent(s, ts[0]);
      EventOrder.UnlinkEventSame(s, ts[0]);
      EventOrder.MovesKeepEvents(s1, ts[0], Blocked, 0, 0, false);
      ReadyAllValues(MakeReady(s1, ts[0]), ts[1..]);
    }
  }

  lemma {:induction false} TickTimesValues(k: Kernel, n: nat)
    ensures TickTimes(k, n).tasks.eventValue == k.tasks.eventValue
    decreases n
  {
    hide ReadyAll, Expired;
    if n > 0 {
      ReadyAllValues(k.tasks, Expired(k.tasks, k.now + 1));
      TickTimesValues(OneTick(k), n - 1);
    }
  }

  lemma ClockValues(k: Kernel, step: Step)
    requires Enabled(k, step) && (step.TickInterrupt? || step.ResumeTheScheduler?)
    ensures Do(k, step).tasks.eventValue == k.tasks.eventValue
  {
    hide ReadyAll, Expired, TickTimes;
    if step.TickInterrupt? {
      ReadyAllValues(k.tasks, Expired(k.tasks, k.now + 1));
    } else if k.depth == 1 {
      ReadyAllValues(k.tasks, Get(k.tasks.events, PendingReady).items);
      TickTimesValues(ReadyPending(k.(depth := 0)), k.pended);
    }
  }

  lemma BlockingValues(k: Kernel, step: Step, t: Tid)
    requires Enabled(k, step) && !Rewrites(k, step, t)
    requires step.DelayCurrent? || step.PlaceOnEventList? || step.PlaceOnUnorderedEventList?
    ensures At(Do(k, step).tasks.eventValue, t) == At(k.tasks.eventValue, t)
  {
    hide Delay, InsertEnd, InsertBefore, InsertPos, Get, OneTick, ResumeAll, WakeTask, Select, MakeReady, LinkEnd,
         Unlink, UnlinkEvent;
    match step {
      case DelayCurrent(ticks, indefinitely) =>
        EventOrder.MovesKeepEvents(k.tasks, k.current, Blocked, k.now, ticks, indefinitely);
      case PlaceOnEventList(e, ticks) =>
        EventOrder.MovesKeepEvents(LinkEventByValue(k.tasks, k.current, e), k.current, Blocked, k.now, ticks, true);
      case PlaceOnUnorderedEventList(e, value, ticks) =>
        var s := LinkEventEnd(SetEventValue(k.tasks, k.current, value), k.current, e);
        EventOrder.MovesKeepEvents(s, k.current, Blocked, k.now, ticks, true);
    }
  }

  lemma WakingValues(k: Kernel, step: Step, t: Tid)
    requires Enabled(k, step) && !Rewrites(k, step, t)
    requires step.RemoveFromEventList? || step.RemoveFromUnorderedEventList?
    ensures At(Do(k, step).tasks.eventValue, t) == At(k.tasks.eventValue, t)
  {
    hide Delay, InsertEnd, Get, OneTick, ResumeAll, Select, MakeReady, LinkEnd, Unlink, UnlinkEvent;
    match step {
      case RemoveFromEventList(e) =>
        var u := Get(k.tasks.events, e).items[0];
        EventOrder.UnlinkEventSame(k.tasks, u);
        EventOrder.MovesKeepEvents(UnlinkEvent(k.tasks, u), u, Blocked, 0, 0, false);
      case RemoveFromUnorderedEventList(u, value) =>
        var s := SetEventValue(k.tasks, u, value);
        EventOrder.UnlinkEventSame(s, u);
        EventOrder.MovesKeepEvents(UnlinkEvent(s, u), u, Blocked, 0, 0, false);
    }
  }

  lemma ResumingValues(k: Kernel, step: Step)
    requires Enabled(k, step)
    requires step.ResumeTask? || step.ResumeFromISR? || step.SuspendAll? || step.SwitchContext?
    ensures Do(k, step).tasks.eventValue == k.tasks.eventValue
  {
    hide Delay, InsertEnd, Get, OneTick, ResumeAll, WakeTask, MakeReady, LinkEnd, Unlink, UnlinkEvent;
    if step.ResumeTask? || step.ResumeFromISR? {
      EventOrder.MovesKeepEvents(k.tasks, step.t, Blocked, 0, 0, false);
    }
  }

  lemma ValueStep(k: Kernel, step: Step, t: Tid)
    requires Enabled(k, step) && !Rewrites(k, step, t)
    ensures At(Do(k, step).tasks.eventValue, t) == At(k.tasks.eventValue, t)
  {
    match step
    case TickInterrupt => ClockValues(k, step);
    case ResumeTheScheduler => ClockValues(k, step);
    case SuspendTask(u) =>
      hide Unlink, UnlinkEvent, LinkEnd, OneTick, ResumeAll, WakeTask, Select, MakeReady, Delay;
      EventOrder.UnlinkEventSame(Unlink(k.tasks, u), u);
      EventOrder.MovesKeepEvents(k.tasks, u, Suspended, 0, 0, false);
      EventOrder.MovesKeepEvents(UnlinkEvent(Unlink(k.tasks, u), u), u, Suspended, 0, 0, false);
    case DeleteTask(_) => EventOrder.StoppingEvents(k, step);
    case CreateTask(_, _) => EventOrder.ValueEvents(k, step);
    case ChangePriority(_, _, _) => EventOrder.ValueEvents(k, step);
    case ResetEventItemValue => EventOrder.ValueEvents(k, step);
    case ReapTerminated => EventOrder.ReapingEvents(k);
    case DelayCurrent(_, _) => BlockingValues(k, step, t);
    case PlaceOnEventList(_, _) => BlockingValues(k, step, t);
    case PlaceOnUnorderedEventList(_, _, _) => BlockingValues(k, step, t);
    case RemoveFromEventList(_) => WakingValues(k, step, t);
    case RemoveFromUnorderedEventList(_, _) => WakingValues(k, step, t);
    case _ => ResumingValues(k, step);
  }

  ghost predicate NeverRewritten(k: Kernel, steps: seq<Step>, t: Tid)
    requires Run(k, steps)
    decreases |steps|
  {
    steps == [] || (!Rewrites(k, steps[0], t) && NeverRewritten(Do(k, steps[0]), steps[1..], t))
  }

  lemma {:induction false} ValueStays(k: Kernel, steps: seq<Step>, t: Tid)
    requires Run(k, steps) && NeverRewritten(k, steps, t)
    ensures At(Final(k, steps).tasks.eventValue, t) == At(k.tasks.eventValue, t)
    decreases |steps|
  {
    hide Do, Enabled, Rewrites, At;
    if steps != [] {
      ValueStep(k, steps[0], t);
      ValueStays(Do(k, steps[0]), steps[1..], t);
    }
  }

  // The value that a task is given when it is taken off an unordered event list is what
  // its item holds, over any run that does not rewrite it, when the task reads it; and
  // by then its item codes its priority again.
  lemma ValueHandedOver(k: Kernel, t: Tid, value: nat, steps: seq<Step>)
    requires Inv(k) && Enabled(k, RemoveFromUnorderedEventList(t, value))
    requires Run(Do(k, RemoveFromUnorderedEventList(t, value)), steps)
    requires NeverRewritten(Do(k, RemoveFromUnorderedEventList(t, value)), steps, t)
    ensures var k1 := Final(Do(k, RemoveFromUnorderedEventList(t, value)), steps);
            && At(k1.tasks.eventValue, t) == value
            && (k1.current == t ==> EventOrder.Coded(Do(k1, ResetEventItemValue).tasks, t))
  {
    var step := RemoveFromUnorderedEventList(t, value);
    ValueGiven(k, t, value);
    ValueStays(Do(k, step), steps, t);
    StepKeepsInv(k, step);
    RunKeepsInv(Do(k, step), steps);
    ResetCodes(Final(Do(k, step), steps));
  }

  lemma ValueGiven(k: Kernel, t: Tid, value: nat)
    requires Enabled(k, RemoveFromUnorderedEventList(t, value))
    ensures At(Do(k, RemoveFromUnorderedEventList(t, value)).tasks.eventValue, t) == value
  {
    hide MakeReady, UnlinkEvent, OneTick, ResumeAll, WakeTask, Select, Delay;
    var s := SetEventValue(k.tasks, t, value);
    EventOrder.UnlinkEventSame(s, t);
    EventOrder.MovesKeepEvents(UnlinkEvent(s, t), t, Blocked, 0, 0, false);
  }

  lemma ResetCodes(k: Kernel)
    requires Inv(k)
    ensures EventOrder.Coded(Do(k, ResetEventItemValue).tasks, k.current)
  {
  }
}
