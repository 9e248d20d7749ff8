/** The order in which tasks wait on an event list, and whom an event wakes.

    A task's event item holds the code of its priority, MAX_PRIORITIES less the
    priority, unless an event group has borrowed it or vTaskPrioritySet or priority
    inheritance has rewritten it in place. */
module EventOrder {
  import opened Identifiers
  import opened Ticks
  import opened CursorLists
  import opened Kernels
  import opened KernelInvariants
  import KernelRuns

  predicate Coded(s: Tasks, t: Tid) {
    At(s.eventValue, t) + At(s.priority, t) == MAX_PRIORITIES
  }

  // The waiters on e are in the order of their priorities, which their items code.
  ghost predicate InOrder(s: Tasks, e: EventId) {
    && Sorted(Column(s.eventValue, Get(s.events, e).items))
    && forall t :: t in Get(s.events, e).items ==> Coded(s, t)
  }

  // What may put a list out of order: a task that waits on it by a value that is not
  // its priority's code, or a rewriting of a waiter's priority or value.
  predicate Disorders(k: Kernel, step: Step, e: EventId) {
    match step
    case PlaceOnEventList(f, _) => f == e && !Coded(k.tasks, k.current)
    case PlaceOnUnorderedEventList(f, _, _) => f == e
    case ChangePriority(t, _, _) => t in Get(k.tasks.events, e).items
    case _ => false
  }

  // ---- what keeps the order ----

  lemma SameOrder(s: Tasks, s': Tasks, e: EventId)
    requires InOrder(s, e) && Get(s'.events, e) == Get(s.events, e)
    requires forall t :: t in Get(s.events, e).items ==>
               At(s'.eventValue, t) == At(s.eventValue, t) && At(s'.priority, t) == At(s.priority, t)
    ensures InOrder(s', e)
  {
    var items := Get(s.events, e).items;
    var c, c' := Column(s.eventValue, items), Column(s'.eventValue, items);
    assert forall i :: 0 <= i < |items| ==> c'[i] == c[i] by {
      forall i | 0 <= i < |items|
        ensures c'[i] == c[i]
      {
        assert items[i] in items;
        assert c[i] == At(s.eventValue, items[i]) && c'[i] == At(s'.eventValue, items[i]);
      }
    }
    assert c' == c;
  }

  lemma DropOrder(s: Tasks, e: EventId, t: Tid)
    requires InOrder(s, e)
    ensures InOrder(s.(events := s.events[e := Drop(Get(s.events, e), t)]), e)
  {
    var l := Get(s.events, e);
    if t in l.items {
      var i := IndexOf(l.items, t);
      var v := Column(s.eventValue, l.items);
      DropKeepsSorted(v, i);
      var items' := DropAt(l.items, i);
      assert Column(s.eventValue, items') == DropAt(v, i);
      assert forall j :: 0 <= j < |items'| ==> items'[j] in l.items;
    }
  }

  lemma UnlinkEventOrder(s: Tasks, t: Tid, e: EventId)
    requires InOrder(s, e)
    ensures InOrder(UnlinkEvent(s, t), e)
  {
    hide InOrder, Drop;
    if t in s.eventIn {
      if s.eventIn[t] == e {
        DropOrder(s, e, t);
        SameOrder(s.(events := s.events[e := Drop(Get(s.events, e), t)]), UnlinkEvent(s, t), e);
      } else {
        SameOrder(s, UnlinkEvent(s, t), e);
      }
    }
  }

  // Nothing but the lists of state items changes.
  ghost predicate SameEvents(s: Tasks, s': Tasks) {
    s'.events == s.events && s'.eventValue == s.eventValue && s'.priority == s.priority && s'.eventIn == s.eventIn
  }

  lemma MovesKeepEvents(s: Tasks, t: Tid, id: ListId, now: nat, ticks: Tick, indefinitely: bool)
    ensures SameEvents(s, Unlink(s, t)) && SameEvents(s, LinkEnd(s, t, id)) && SameEvents(s, MakeReady(s, t))
    ensures SameEvents(s, Delay(s, t, now, ticks, indefinitely))
  {
    hide Drop, InsertEnd, InsertBefore, InsertPos, Column, Get;
  }

  lemma SameEventsOrder(s: Tasks, s': Tasks, e: EventId)
    requires InOrder(s, e) && SameEvents(s, s')
    ensures InOrder(s', e)
  {
    hide InOrder;
    SameOrder(s, s', e);
  }

  lemma {:induction false} ReadyAllOrder(s: Tasks, ts: seq<Tid>, e: EventId)
    requires InOrder(s, e)
    ensures InOrder(ReadyAll(s, ts), e)
    decreases |ts|
  {
    hide InOrder, MakeReady, UnlinkEvent;
    if ts != [] {
      var s1 := UnlinkEvent(s, ts[0]);
      UnlinkEventOrder(s, ts[0], e);
      MovesKeepEvents(s1, ts[0], Blocked, 0, 0, false);
      SameEventsOrder(s1, MakeReady(s1, ts[0]), e);
      ReadyAllOrder(MakeReady(s1, ts[0]), ts[1..], e);
    }
  }

  lemma {:induction false} TicksOrder(k: Kernel, n: nat, e: EventId)
    requires InOrder(k.tasks, e)
    ensures InOrder(TickTimes(k, n).tasks, e)
    decreases n
  {
    hide InOrder, ReadyAll, Expired;
    if n > 0 {
      ReadyAllOrder(k.tasks, Expired(k.tasks, k.now + 1), e);
      TicksOrder(OneTick(k), n - 1, e);
    }
  }

  lemma ClockOrder(k: Kernel, step: Step, e: EventId)
    requires InOrder(k.tasks, e) && Enabled(k, step) && (step.TickInterrupt? || step.ResumeTheScheduler?)
    ensures InOrder(Do(k, step).tasks, e)
  {
    hide InOrder, ReadyAll, Expired, TickTimes;
    if step.TickInterrupt? {
      ReadyAllOrder(k.tasks, Expired(k.tasks, k.now + 1), e);
    } else if k.depth == 1 {
      ReadyAllOrder(k.tasks, Get(k.tasks.events, PendingReady).items, e);
      TicksOrder(ReadyPending(k.(depth := 0)), k.pended, e);
    }
  }

  // ---- placing a task ----

  lemma ColumnInsert(m: map<Tid, nat>, items: seq<Tid>, i: nat, t: Tid)
    requires i <= |items|
    ensures Column(m, InsertAt(items, i, t)) == InsertAt(Column(m, items), i, At(m, t))
  {
    var a, b := Column(m, InsertAt(items, i, t)), InsertAt(Column(m, items), i, At(m, t));
    assert forall j :: 0 <= j < |a| ==> a[j] == b[j];
  }

  lemma PlacedKeepsOrder(s: Tasks, t: Tid, e: EventId)
    requires InOrder(s, e) && Coded(s, t)
    ensures InOrder(LinkEventByValue(s, t, e), e)
  {
    hide Coded, InsertPos, Column, InsertAt;
    var items := Get(s.events, e).items;
    var i := InsertPos(Column(s.eventValue, items), At(s.eventValue, t));
    InsertKeepsSorted(Column(s.eventValue, items), At(s.eventValue, t));
    ColumnInsert(s.eventValue, items, i, t);
    AmongInserted(items, i, t);
    var s1 := LinkEventByValue(s, t, e);
    assert Get(s1.events, e).items == InsertAt(items, i, t);
    forall u | u in InsertAt(items, i, t)
      ensures Coded(s1, u)
    {
      SameCode(s, s1, u);
    }
  }

  lemma SameCode(s: Tasks, s': Tasks, t: Tid)
    requires s'.eventValue == s.eventValue && s'.priority == s.priority
    ensures Coded(s', t) == Coded(s, t)
  {
  }

  lemma AmongInserted(items: seq<Tid>, i: nat, t: Tid)
    requires i <= |items|
    ensures forall u :: u in InsertAt(items, i, t) ==> u == t || u in items
  {
    var r := InsertAt(items, i, t);
    forall u | u in r && u != t
      ensures u in items
    {
      var j :| 0 <= j < |r| && r[j] == u;
      assert u == items[if j < i then j else j - 1];
    }
  }

  // A task joins behind every waiter of its priority or a higher one, and ahead of
  // every other.
  lemma PlacedInOrder(s: Tasks, t: Tid, e: EventId) returns (i: nat)
    requires InOrder(s, e) && Coded(s, t)
    ensures var items, items' := Get(s.events, e).items, Get(LinkEventByValue(s, t, e).events, e).items;
            && i <= |items| && items' == InsertAt(items, i, t)
            && (forall j :: 0 <= j < i ==> At(s.priority, items[j]) >= At(s.priority, t))
            && (forall j :: i <= j < |items| ==> At(s.priority, items[j]) < At(s.priority, t))
  {
    var items := Get(s.events, e).items;
    var v := Column(s.eventValue, items);
    i := InsertPos(v, At(s.eventValue, t));
    InsertKeepsSorted(v, At(s.eventValue, t));
    assert Get(LinkEventByValue(s, t, e).events, e).items == InsertAt(items, i, t);
    forall j | 0 <= j < |items|
      ensures j < i ==> At(s.priority, items[j]) >= At(s.priority, t)
      ensures j >= i ==> At(s.priority, items[j]) < At(s.priority, t)
    {
      assert items[j] in items && Coded(s, items[j]);
      assert v[j] == At(s.eventValue, items[j]);
    }
  }

  lemma PlacingOrder(k: Kernel, step: Step, e: EventId)
    requires Inv(k) && InOrder(k.tasks, e) && Enabled(k, step) && !Disorders(k, step, e)
    requires step.DelayCurrent? || step.PlaceOnEventList? || step.PlaceOnUnorderedEventList?
    ensures InOrder(Do(k, step).tasks, e)
  {
    var s, t := k.tasks, k.current;
    CurrentWaitsNowhere(k, e);
    hide InOrder, Coded, Inv, Delay, InsertBefore, InsertEnd, InsertPos, Column;
    match step {
      case DelayCurrent(ticks, indefinitely) =>
        MovesKeepEvents(s, t, Blocked, k.now, ticks, indefinitely);
        SameEventsOrder(s, Do(k, step).tasks, e);
      case PlaceOnEventList(f, ticks) =>
        var s1 := LinkEventByValue(s, t, f);
        if f == e {
          PlacedKeepsOrder(s, t, e);
        } else {
          SameOrder(s, s1, e);
        }
        MovesKeepEvents(s1, t, Blocked, k.now, ticks, true);
        SameEventsOrder(s1, Do(k, step).tasks, e);
      case PlaceOnUnorderedEventList(f, value, ticks) =>
        var s1 := LinkEventEnd(SetEventValue(s, t, value), t, f);
        SameOrder(s, s1, e);
        MovesKeepEvents(s1, t, Blocked, k.now, ticks, true);
        SameEventsOrder(s1, Do(k, step).tasks, e);
    }
  }

  lemma CurrentWaitsNowhere(k: Kernel, e: EventId)
    requires Inv(k)
    ensures CanBlock(k) ==> k.current !in Get(k.tasks.events, e).items
  {
    InList(k.tasks.events, k.tasks.eventIn, e, k.current);
  }

  // ---- the other steps ----

  lemma WakingOrder(k: Kernel, t: Tid, e: EventId)
    requires InOrder(k.tasks, e) && e != PendingReady
    ensures InOrder(WakeTask(k, t).tasks, e)
  {
    hide InOrder, UnlinkEvent, MakeReady, InsertEnd;
    var s := UnlinkEvent(k.tasks, t);
    UnlinkEventOrder(k.tasks, t, e);
    MovesKeepEvents(s, t, Blocked, 0, 0, false);
    SameEventsOrder(s, MakeReady(s, t), e);
    SameOrder(s, LinkEventEnd(s, t, PendingReady), e);
  }

  // A task that has been taken off its event list is on none.
  lemma OffTheList(s: Tasks, t: Tid, e: EventId)
    requires Core(s)
    ensures t !in Get(UnlinkEvent(s, t).events, e).items
  {
    UnlinkEventKeeps(s, t);
    InList(UnlinkEvent(s, t).events, UnlinkEvent(s, t).eventIn, e, t);
  }

  // Giving a value to a task on its way off the list is giving it afterwards.
  lemma UnorderedWakingOrder(k: Kernel, t: Tid, value: nat, e: EventId)
    requires Inv(k) && InOrder(k.tasks, e) && Enabled(k, RemoveFromUnorderedEventList(t, value))
    ensures InOrder(Do(k, RemoveFromUnorderedEventList(t, value)).tasks, e)
  {
    var s := k.tasks;
    OffTheList(s, t, e);
    hide InOrder, Inv, MakeReady, Drop, Get;
    UnlinkEventOrder(s, t, e);
    var s1 := UnlinkEvent(SetEventValue(s, t, value), t);
    assert s1 == SetEventValue(UnlinkEvent(s, t), t, value);
    SameOrder(UnlinkEvent(s, t), s1, e);
    MovesKeepEvents(s1, t, Blocked, 0, 0, false);
    SameEventsOrder(s1, MakeReady(s1, t), e);
  }

  // From s to s' at most t's event item moves, and at most its value and priority
  // change.
  ghost predicate OthersSame(s: Tasks, s': Tasks, t: Tid) {
    forall u :: u != t ==> At(s'.eventValue, u) == At(s.eventValue, u) && At(s'.priority, u) == At(s.priority, u)
  }

  lemma OthersOrder(s: Tasks, s': Tasks, t: Tid, e: EventId)
    requires InOrder(s, e) && Get(s'.events, e) == Get(s.events, e) && OthersSame(s, s', t)
    requires t !in Get(s.events, e).items
    ensures InOrder(s', e)
  {
    hide InOrder;
    SameOrder(s, s', e);
  }

  lemma StoppingEvents(k: Kernel, step: Step)
    requires Enabled(k, step) && (step.SuspendTask? || step.DeleteTask?)
    ensures var s, s', t := k.tasks, Do(k, step).tasks, step.t;
            s'.events == UnlinkEvent(s, t).events && OthersSame(s, s', t)
  {
    var t, s1 := step.t, UnlinkEvent(Unlink(k.tasks, step.t), step.t);
    UnlinkThenEvent(k.tasks, t);
    UnlinkEventSame(k.tasks, t);
    hide Unlink, UnlinkEvent, InsertEnd, OneTick, ResumeAll, WakeTask, Select, MakeReady, Delay, CanStop, Get;
    assert s1.eventValue == k.tasks.eventValue && s1.priority == k.tasks.priority;
  }

  lemma UnlinkEventSame(s: Tasks, t: Tid)
    ensures UnlinkEvent(s, t).eventValue == s.eventValue && UnlinkEvent(s, t).priority == s.priority
  {
  }

  lemma StoppingOrder(k: Kernel, step: Step, e: EventId)
    requires Inv(k) && InOrder(k.tasks, e) && Enabled(k, step) && (step.SuspendTask? || step.DeleteTask?)
    ensures InOrder(Do(k, step).tasks, e)
  {
    hide Inv, InOrder, Do, Enabled, OthersSame;
    StoppingEvents(k, step);
    OffTheListNow(k, step.t, e);
    UnlinkEventOrder(k.tasks, step.t, e);
    UnlinkEventSame(k.tasks, step.t);
    OthersSameAfter(k.tasks, UnlinkEvent(k.tasks, step.t), Do(k, step).tasks, step.t);
    OthersOrder(UnlinkEvent(k.tasks, step.t), Do(k, step).tasks, step.t, e);
  }

  lemma OffTheListNow(k: Kernel, t: Tid, e: EventId)
    requires Inv(k)
    ensures t !in Get(UnlinkEvent(k.tasks, t).events, e).items
  {
    OffTheList(k.tasks, t, e);
  }

  lemma OthersSameAfter(s: Tasks, s1: Tasks, s': Tasks, t: Tid)
    requires OthersSame(s, s', t) && s1.eventValue == s.eventValue && s1.priority == s.priority
    ensures OthersSame(s1, s', t)
  {
  }

  lemma UnlinkThenEvent(s: Tasks, t: Tid)
    ensures SameEvents(UnlinkEvent(s, t), UnlinkEvent(Unlink(s, t), t))
  {
    hide Drop, Get;
  }

  // Cleaning up a task, creating one, and changing a priority or a value
  lemma ValueEvents(k: Kernel, step: Step)
    requires Enabled(k, step) && (step.CreateTask? || step.ChangePriority? || step.ResetEventItemValue?)
    ensures var s, s' := k.tasks, Do(k, step).tasks;
            s'.events == s.events && OthersSame(s, s', if step.ResetEventItemValue? then k.current else step.t)
  {
    hide InsertEnd, OneTick, ResumeAll, WakeTask, Select, MakeReady, Delay, Get;
    if step.ChangePriority? {
      var s1 := k.tasks.(priority := k.tasks.priority[step.t := step.p],
                         eventValue := k.tasks.eventValue[step.t := step.value]);
      MovesKeepEvents(s1, step.t, Blocked, 0, 0, false);
    }
  }

  lemma ReapingEvents(k: Kernel)
    requires Enabled(k, ReapTerminated)
    ensures var s, s' := k.tasks, Do(k, ReapTerminated).tasks;
            s'.events == s.events && OthersSame(s, s', Get(s.lists, Terminating).items[0])
  {
    hide Unlink, OneTick, ResumeAll, WakeTask, Select, MakeReady, Delay;
    MovesKeepEvents(k.tasks, Get(k.tasks.lists, Terminating).items[0], Blocked, 0, 0, false);
  }

  lemma ReapingOrder(k: Kernel, e: EventId)
    requires Inv(k) && InOrder(k.tasks, e) && Enabled(k, ReapTerminated)
    ensures InOrder(Do(k, ReapTerminated).tasks, e)
  {
    ReapingEvents(k);
    HeadWaitsNowhere(k, e);
    hide Inv, InOrder, Do, OthersSame;
    OthersOrder(k.tasks, Do(k, ReapTerminated).tasks, Get(k.tasks.lists, Terminating).items[0], e);
  }

  lemma HeadWaitsNowhere(k: Kernel, e: EventId)
    requires Inv(k) && Get(k.tasks.lists, Terminating).items != []
    ensures Get(k.tasks.lists, Terminating).items[0] !in Get(k.tasks.events, e).items
  {
    var s, t := k.tasks, Get(k.tasks.lists, Terminating).items[0];
    InList(s.lists, s.stateIn, Terminating, t);
    InList(s.events, s.eventIn, e, t);
  }

  lemma ChangingOrder(k: Kernel, step: Step, e: EventId)
    requires Inv(k) && InOrder(k.tasks, e) && Enabled(k, step) && !Disorders(k, step, e)
    requires step.CreateTask? || step.ChangePriority?
    ensures InOrder(Do(k, step).tasks, e)
  {
    NewWaitsNowhere(k, step, e);
    ValueEvents(k, step);
    hide Inv, InOrder, Do, Enabled, OthersSame;
    OthersOrder(k.tasks, Do(k, step).tasks, step.t, e);
  }

  lemma NewWaitsNowhere(k: Kernel, step: Step, e: EventId)
    requires Inv(k) && Enabled(k, step)
    ensures step.CreateTask? ==> step.t !in Get(k.tasks.events, e).items
  {
    if step.CreateTask? {
      InList(k.tasks.events, k.tasks.eventIn, e, step.t);
    }
  }

  // The value that a task resets is the code of its priority.
  lemma ResettingOrder(k: Kernel, e: EventId)
    requires InOrder(k.tasks, e)
    ensures InOrder(Do(k, ResetEventItemValue).tasks, e)
  {
    var t := k.current;
    ValueEvents(k, ResetEventItemValue);
    if t in Get(k.tasks.events, e).items {
      assert Coded(k.tasks, t);
      hide InOrder;
      SameOrder(k.tasks, Do(k, ResetEventItemValue).tasks, e);
    } else {
      hide InOrder, Do, OthersSame;
      OthersOrder(k.tasks, Do(k, ResetEventItemValue).tasks, t, e);
    }
  }

  lemma ResumingOrder(k: Kernel, step: Step, e: EventId)
    requires InOrder(k.tasks, e) && e != PendingReady && Enabled(k, step)
    requires step.ResumeTask? || step.ResumeFromISR? || step.SuspendAll? || step.SwitchContext?
    ensures InOrder(Do(k, step).tasks, e)
  {
    hide InOrder, MakeReady, InsertEnd, OneTick, ResumeAll, WakeTask, Delay;
    if step.ResumeTask? || step.ResumeFromISR? {
      MovesKeepEvents(k.tasks, step.t, Blocked, 0, 0, false);
      SameEventsOrder(k.tasks, MakeReady(k.tasks, step.t), e);
      SameOrder(k.tasks, LinkEventEnd(k.tasks, step.t, PendingReady), e);
    } else {
      SameEventsOrder(k.tasks, Do(k, step).tasks, e);
    }
  }

  // Any step but those keeps the waiters in order.
  lemma StepKeepsOrder(k: Kernel, step: Step, e: EventId)
    requires Inv(k) && InOrder(k.tasks, e) && e != PendingReady && Enabled(k, step) && !Disorders(k, step, e)
    ensures InOrder(Do(k, step).tasks, e)
  {
    hide InOrder, Inv, Disorders;
    match step
    case TickInterrupt => ClockOrder(k, step, e);
    case ResumeTheScheduler => ClockOrder(k, step, e);
    case DelayCurrent(_, _) => PlacingOrder(k, step, e);
    case PlaceOnEventList(_, _) => PlacingOrder(k, step, e);
    case PlaceOnUnorderedEventList(_, _, _) => PlacingOrder(k, step, e);
    case RemoveFromEventList(f) => WakingOrder(k, Get(k.tasks.events, f).items[0], e);
    case RemoveFromUnorderedEventList(t, value) => UnorderedWakingOrder(k, t, value, e);
    case SuspendTask(_) => StoppingOrder(k, step, e);
    case DeleteTask(_) => StoppingOrder(k, step, e);
    case ReapTerminated => ReapingOrder(k, e);
    case CreateTask(_, _) => ChangingOrder(k, step, e);
    case ChangePriority(_, _, _) => ChangingOrder(k, step, e);
    case ResetEventItemValue => ResettingOrder(k, e);
    case _ => ResumingOrder(k, step, e);
  }

  ghost predicate NeverDisordered(k: Kernel, steps: seq<Step>, e: EventId)
    requires KernelRuns.Run(k, steps)
    decreases |steps|
  {
    steps == [] || (!Disorders(k, steps[0], e) && NeverDisordered(Do(k, steps[0]), steps[1..], e))
  }

  lemma {:induction false} RunKeepsOrder(k: Kernel, steps: seq<Step>, e: EventId)
    requires Inv(k) && InOrder(k.tasks, e) && e != PendingReady && KernelRuns.Run(k, steps)
    requires NeverDisordered(k, steps, e)
    ensures InOrder(KernelRuns.Final(k, steps).tasks, e)
    decreases |steps|
  {
    hide Inv, InOrder, Disorders, Do, Enabled;
    if steps != [] {
      StepKeepsInv(k, steps[0]);
      StepKeepsOrder(k, steps[0], e);
      RunKeepsOrder(Do(k, steps[0]), steps[1..], e);
    }
  }

  // Whom an event wakes, over any run from the start that has not put the list out of
  // order: one task leaves the list, and none that stays has a higher priority.  It is
  // ready, or held pending while the scheduler is suspended.
  lemma EventWakesHighest(idle: Tid, steps: seq<Step>, e: EventId) returns (t: Tid)
    requires KernelRuns.Run(KernelRuns.Start(idle), steps)
    requires NeverDisordered(KernelRuns.Start(idle), steps, e)
    requires Enabled(KernelRuns.Final(KernelRuns.Start(idle), steps), RemoveFromEventList(e))
    ensures var k := KernelRuns.Final(KernelRuns.Start(idle), steps);
            var k1 := Do(k, RemoveFromEventList(e));
            && t in Get(k.tasks.events, e).items && t !in Get(k1.tasks.events, e).items
            && (forall u :: u != t ==> (u in Get(k1.tasks.events, e).items <==> u in Get(k.tasks.events, e).items))
            && (forall u :: u in Get(k.tasks.events, e).items ==> At(k.tasks.priority, u) <= At(k.tasks.priority, t))
            && (if k.depth == 0 then IsIn(k1.tasks, t, Ready(At(k.tasks.priority, t)))
                else Waits(k1.tasks, t, PendingReady))
  {
    var k0 := KernelRuns.Start(idle);
    var k := KernelRuns.Final(k0, steps);
    KernelRuns.StartInv(idle);
    assert InOrder(k0.tasks, e);
    KernelRuns.RunKeepsInv(k0, steps);
    RunKeepsOrder(k0, steps, e);
    t := Get(k.tasks.events, e).items[0];
    HeadIsHighest(k.tasks, e);
    HeadWoken(k, e);
  }

  lemma HeadIsHighest(s: Tasks, e: EventId)
    requires InOrder(s, e) && Get(s.events, e).items != []
    ensures forall u :: u in Get(s.events, e).items ==>
              At(s.priority, u) <= At(s.priority, Get(s.events, e).items[0])
  {
    var items := Get(s.events, e).items;
    var v := Column(s.eventValue, items);
    forall u | u in items
      ensures At(s.priority, u) <= At(s.priority, items[0])
    {
      var i :| 0 <= i < |items| && items[i] == u;
      assert items[0] in items && Coded(s, items[0]) && Coded(s, u);
      assert v[0] <= v[i] && v[0] == At(s.eventValue, items[0]) && v[i] == At(s.eventValue, u);
    }
  }

  lemma HeadWoken(k: Kernel, e: EventId)
    requires Inv(k) && Enabled(k, RemoveFromEventList(e))
    ensures var k1, t := Do(k, RemoveFromEventList(e)), Get(k.tasks.events, e).items[0];
            && t !in Get(k1.tasks.events, e).items
            && (forall u :: u != t ==> (u in Get(k1.tasks.events, e).items <==> u in Get(k.tasks.events, e).items))
            && (if k.depth == 0 then IsIn(k1.tasks, t, Ready(At(k.tasks.priority, t)))
                else Waits(k1.tasks, t, PendingReady))
  {
    var s, t := k.tasks, Get(k.tasks.events, e).items[0];
    HeadWaits(s, e);
    WakeKeepsOrderly(k, t);
    OneReadyEvents(k, t);
    var k1 := Do(k, RemoveFromEventList(e));
    assert k1 == WakeTask(k, t);
    hide WakeTask, Do, Core, Ahead, NothingPending, Counted, Get, Enabled;
    WaitersAre(s, e);
    WaitersAre(k1.tasks, e);
  }

  lemma WaitersAre(s: Tasks, e: EventId)
    requires Core(s)
    ensures forall u :: u in Get(s.events, e).items <==> u in s.eventIn && s.eventIn[u] == e
  {
    forall u
      ensures u in Get(s.events, e).items <==> u in s.eventIn && s.eventIn[u] == e
    {
      InList(s.events, s.eventIn, e, u);
    }
  }

  lemma OneReadyEvents(k: Kernel, t: Tid)
    requires Orderly(k) && t in k.tasks.eventIn
    ensures var k1 := WakeTask(k, t);
            if k.depth == 0 then
              k1.tasks.eventIn == k.tasks.eventIn - {t} && IsIn(k1.tasks, t, Ready(At(k.tasks.priority, t)))
            else k1.tasks.eventIn == k.tasks.eventIn[t := PendingReady]
  {
    OneReady(k.tasks, t);
    UnlinkEventMoves(k.tasks, t);
    assert (k.tasks.eventIn - {t})[t := PendingReady] == k.tasks.eventIn[t := PendingReady];
  }
}
