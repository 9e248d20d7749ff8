/** tasks.c as the code keeps it: a 32-bit tick count, two lists of blocked tasks
    ordered by wrapped tick values that change places when the count wraps, a
    cached time before which no blocked task need be looked at, and a cached
    bound on the highest ready priority.

    Every method is a critical section of the code, and is proved to be the step
    of the same name of the reference kernel, whose clock is unbounded and which
    keeps neither cache.  Fields marked ghost exist only to state this. */
module Schedulers {
  import opened Identifiers
  import opened Ticks
  import opened CursorLists
  import opened Kernels
  import opened KernelInvariants
  import KernelRuns

  // ---------------------------------------------------------------------
  // One list of moments as two lists of wrapped values
  // ---------------------------------------------------------------------

  // Every task on the list is due in the given epoch, and its state item holds
  // the low 32 bits of its moment.
  ghost predicate InEpoch(items: seq<Tid>, due: map<Tid, nat>, itemValue: map<Tid, Tick>, epoch: nat) {
    forall t :: t in items ==> t in due && t in itemValue && Epoch(due[t]) == epoch && itemValue[t] == Low(due[t])
  }

  ghost function Joined(delayed: TaskList, overflow: TaskList): TaskList {
    CList(delayed.items + overflow.items, 0)
  }

  // Searching the current list by value finds the place that the moment has on
  // the joined list.
  lemma PlaceInDelayed(delayed: TaskList, overflow: TaskList, due: map<Tid, nat>, itemValue: map<Tid, Tick>,
                       epoch: nat, moment: nat)
    requires InEpoch(delayed.items, due, itemValue, epoch) && InEpoch(overflow.items, due, itemValue, epoch + 1)
    requires Epoch(moment) == epoch
    ensures InsertPos(Column(itemValue, delayed.items), Low(moment))
         == InsertPos(Column(due, Joined(delayed, overflow).items), moment)
  {
    var d := delayed.items;
    var all := Joined(delayed, overflow).items;
    var v := Column(itemValue, d);
    var c := Column(due, all);
    var k := InsertPos(v, Low(moment));
    forall i | 0 <= i < k
      ensures c[i] <= moment
    {
      assert all[i] == d[i] && d[i] in d;
      SameEpochOrder(due[d[i]], moment);
      assert v[i] <= Low(moment);
    }
    if k < |d| {
      assert all[k] == d[k] && d[k] in d;
      SameEpochOrder(due[d[k]], moment);
    } else if k < |all| {
      assert all[k] == overflow.items[0] && overflow.items[0] in overflow.items;
      EpochsOrder(moment, c[k]);
    }
    InsertPosUnique(c, moment, k);
  }

  // Searching the overflow list does so behind the whole current list.
  lemma PlaceInOverflow(delayed: TaskList, overflow: TaskList, due: map<Tid, nat>, itemValue: map<Tid, Tick>,
                        epoch: nat, moment: nat)
    requires InEpoch(delayed.items, due, itemValue, epoch) && InEpoch(overflow.items, due, itemValue, epoch + 1)
    requires Epoch(moment) == epoch + 1
    ensures |delayed.items| + InsertPos(Column(itemValue, overflow.items), Low(moment))
         == InsertPos(Column(due, Joined(delayed, overflow).items), moment)
  {
    var d, o := delayed.items, overflow.items;
    var all := Joined(delayed, overflow).items;
    var v := Column(itemValue, o);
    var c := Column(due, all);
    var k := InsertPos(v, Low(moment));
    forall i | 0 <= i < |d| + k
      ensures c[i] <= moment
    {
      if i < |d| {
        assert all[i] == d[i] && d[i] in d;
        EpochsOrder(c[i], moment);
      } else {
        assert all[i] == o[i - |d|] && o[i - |d|] in o;
        SameEpochOrder(c[i], moment);
        assert v[i - |d|] <= Low(moment);
      }
    }
    if k < |o| {
      assert all[|d| + k] == o[k] && o[k] in o;
      SameEpochOrder(c[|d| + k], moment);
    }
    InsertPosUnique(c, moment, |d| + k);
  }

  lemma JoinedInsert(delayed: TaskList, overflow: TaskList, k: nat, t: Tid)
    requires delayed.cursor == 0 && overflow.cursor == 0
    ensures k <= |delayed.items| ==>
              Joined(InsertBefore(delayed, k, t), overflow) == InsertBefore(Joined(delayed, overflow), k, t)
    ensures k <= |overflow.items| ==>
              Joined(delayed, InsertBefore(overflow, k, t))
              == InsertBefore(Joined(delayed, overflow), |delayed.items| + k, t)
  {
    var all := Joined(delayed, overflow);
    if k <= |delayed.items| {
      assert InsertAt(delayed.items, k, t) + overflow.items == InsertAt(all.items, k, t);
    }
    if k <= |overflow.items| {
      assert delayed.items + InsertAt(overflow.items, k, t) == InsertAt(all.items, |delayed.items| + k, t);
    }
  }

  lemma JoinedRemove(delayed: TaskList, overflow: TaskList, t: Tid)
    requires delayed.cursor == 0 && overflow.cursor == 0
    ensures t in delayed.items ==> Joined(Remove(delayed, t), overflow) == Drop(Joined(delayed, overflow), t)
    ensures t !in delayed.items && t in overflow.items ==>
              Joined(delayed, Remove(overflow, t)) == Drop(Joined(delayed, overflow), t)
  {
    hide IndexOf, DropAt;
    if t in delayed.items || t in overflow.items {
      IndexOfConcat(delayed.items, overflow.items, t);
      DropAtConcat(delayed.items, overflow.items,
                   if t in delayed.items then IndexOf(delayed.items, t) else IndexOf(overflow.items, t));
    }
  }

  lemma RemoveMembers(l: TaskList, t: Tid)
    requires t in l.items
    ensures forall u :: u in Remove(l, t).items ==> u in l.items
    ensures l.cursor == 0 ==> Remove(l, t).cursor == 0
  {
  }

  // ---------------------------------------------------------------------
  // The scheduler
  // ---------------------------------------------------------------------

  // No task on the list is due before the cached time.
  ghost predicate NoneBefore(items: seq<Tid>, itemValue: map<Tid, Tick>, time: Tick) {
    forall t :: t in items && t in itemValue ==> time <= itemValue[t]
  }

  // No task is ready above the cached priority.
  ghost predicate NoneAbove(lists: map<ListId, TaskList>, top: nat) {
    forall p :: top < p ==> Get(lists, Ready(p)).items == []
  }

  // The list structure as the reference kernel sees it
  ghost function AllLists(lists: map<ListId, TaskList>, delayed: TaskList, overflow: TaskList): map<ListId, TaskList> {
    lists[Blocked := Joined(delayed, overflow)]
  }

  lemma AllListsGet(lists: map<ListId, TaskList>, delayed: TaskList, overflow: TaskList, id: ListId)
    ensures Get(AllLists(lists, delayed, overflow), id)
         == if id == Blocked then Joined(delayed, overflow) else Get(lists, id)
  {
  }

  lemma AllListsUpdate(lists: map<ListId, TaskList>, delayed: TaskList, overflow: TaskList, id: ListId, l: TaskList)
    requires id != Blocked
    ensures AllLists(lists[id := l], delayed, overflow) == AllLists(lists, delayed, overflow)[id := l]
  {
  }

  lemma AllListsTimed(lists: map<ListId, TaskList>, delayed: TaskList, overflow: TaskList, d: TaskList, o: TaskList)
    ensures AllLists(lists, d, o) == AllLists(lists, delayed, overflow)[Blocked := Joined(d, o)]
  {
  }

  ghost function LinkedBlocked(s: Tasks, t: Tid, moment: nat): TaskList {
    Get(LinkDue(s, t, moment).lists, Blocked)
  }

  lemma LinkDueIs(s: Tasks, t: Tid, moment: nat)
    ensures LinkDue(s, t, moment)
         == Tasks(s.lists[Blocked := LinkedBlocked(s, t, moment)], s.stateIn[t := Blocked], s.events, s.eventIn,
                  s.eventValue, s.priority, s.due[t := moment])
  {
  }

  lemma JoinedMembers(delayed: TaskList, overflow: TaskList)
    ensures forall t :: t in Joined(delayed, overflow).items <==> t in delayed.items || t in overflow.items
  {
  }

  lemma NotTimed(s: Tasks, delayed: TaskList, overflow: TaskList, t: Tid)
    requires Partition(s.lists, s.stateIn) && t !in s.stateIn && Get(s.lists, Blocked) == Joined(delayed, overflow)
    ensures t !in delayed.items && t !in overflow.items
  {
    InList(s.lists, s.stateIn, Blocked, t);
    JoinedMembers(delayed, overflow);
  }

  // Removing, keeping and adding a task keep what is known of a timed list.
  lemma FewerTimed(l: TaskList, t: Tid, due: map<Tid, nat>, itemValue: map<Tid, Tick>, epoch: nat, time: Tick)
    requires t in l.items && InEpoch(l.items, due, itemValue, epoch) && l.cursor == 0
    ensures |Remove(l, t).items| == |l.items| - 1
    ensures InEpoch(Remove(l, t).items, due, itemValue, epoch) && Remove(l, t).cursor == 0
    ensures NoneBefore(l.items, itemValue, time) ==> NoneBefore(Remove(l, t).items, itemValue, time)
  {
    RemoveMembers(l, t);
  }

  lemma OtherTimed(l: TaskList, t: Tid, due: map<Tid, nat>, itemValue: map<Tid, Tick>, epoch: nat, time: Tick,
                   moment: nat)
    requires t !in l.items && InEpoch(l.items, due, itemValue, epoch)
    ensures InEpoch(l.items, due[t := moment], itemValue[t := Low(moment)], epoch)
    ensures NoneBefore(l.items, itemValue, time) ==> NoneBefore(l.items, itemValue[t := Low(moment)], time)
  {
  }

  lemma MoreTimed(l: TaskList, k: nat, t: Tid, due: map<Tid, nat>, itemValue: map<Tid, Tick>, epoch: nat, time: Tick,
                  moment: nat)
    requires t !in l.items && InEpoch(l.items, due, itemValue, epoch) && k <= |l.items| && l.cursor == 0
    requires Epoch(moment) == epoch
    ensures InEpoch(InsertBefore(l, k, t).items, due[t := moment], itemValue[t := Low(moment)], epoch)
    ensures InsertBefore(l, k, t).cursor == 0
    ensures NoneBefore(l.items, itemValue, time) ==>
              NoneBefore(InsertBefore(l, k, t).items, itemValue[t := Low(moment)],
                         if Low(moment) < time then Low(moment) else time)
  {
    var r := InsertBefore(l, k, t).items;
    forall u | u in r && u != t
      ensures u in l.items
    {
      var i :| 0 <= i < |r| && r[i] == u;
      assert u == l.items[if i < k then i else i - 1];
    }
  }

  // Adding a task to the current list, or to the overflow list, is adding it to
  // the joined list in its place.
  lemma IntoDelayed(s: Tasks, delayed: TaskList, overflow: TaskList, itemValue: map<Tid, Tick>, epoch: nat, time: Tick,
                    t: Tid, moment: nat)
    requires Get(s.lists, Blocked) == Joined(delayed, overflow) && delayed.cursor == 0 && overflow.cursor == 0
    requires t !in delayed.items && t !in overflow.items && Epoch(moment) == epoch
    requires InEpoch(delayed.items, s.due, itemValue, epoch) && InEpoch(overflow.items, s.due, itemValue, epoch + 1)
    requires NoneBefore(delayed.items, itemValue, time)
    ensures var d := InsertBefore(delayed, InsertPos(Column(itemValue, delayed.items), Low(moment)), t);
            && d.cursor == 0 && Joined(d, overflow) == LinkedBlocked(s, t, moment)
            && InEpoch(d.items, s.due[t := moment], itemValue[t := Low(moment)], epoch)
            && InEpoch(overflow.items, s.due[t := moment], itemValue[t := Low(moment)], epoch + 1)
            && NoneBefore(d.items, itemValue[t := Low(moment)], if Low(moment) < time then Low(moment) else time)
  {
    hide InEpoch, NoneBefore, Joined, InsertPos, Column;
    var k := InsertPos(Column(itemValue, delayed.items), Low(moment));
    PlaceInDelayed(delayed, overflow, s.due, itemValue, epoch, moment);
    JoinedInsert(delayed, overflow, k, t);
    MoreTimed(delayed, k, t, s.due, itemValue, epoch, time, moment);
    OtherTimed(overflow, t, s.due, itemValue, epoch + 1, 0, moment);
  }

  lemma IntoOverflow(s: Tasks, delayed: TaskList, overflow: TaskList, itemValue: map<Tid, Tick>, epoch: nat, time: Tick,
                     t: Tid, moment: nat)
    requires Get(s.lists, Blocked) == Joined(delayed, overflow) && delayed.cursor == 0 && overflow.cursor == 0
    requires t !in delayed.items && t !in overflow.items && Epoch(moment) == epoch + 1
    requires InEpoch(delayed.items, s.due, itemValue, epoch) && InEpoch(overflow.items, s.due, itemValue, epoch + 1)
    requires NoneBefore(delayed.items, itemValue, time)
    ensures var o := InsertBefore(overflow, InsertPos(Column(itemValue, overflow.items), Low(moment)), t);
            && o.cursor == 0 && Joined(delayed, o) == LinkedBlocked(s, t, moment)
            && InEpoch(o.items, s.due[t := moment], itemValue[t := Low(moment)], epoch + 1)
            && InEpoch(delayed.items, s.due[t := moment], itemValue[t := Low(moment)], epoch)
            && NoneBefore(delayed.items, itemValue[t := Low(moment)], time)
  {
    hide InEpoch, NoneBefore, Joined, InsertPos, Column;
    var k := InsertPos(Column(itemValue, overflow.items), Low(moment));
    PlaceInOverflow(delayed, overflow, s.due, itemValue, epoch, moment);
    JoinedInsert(delayed, overflow, k, t);
    MoreTimed(overflow, k, t, s.due, itemValue, epoch + 1, 0, moment);
    OtherTimed(delayed, t, s.due, itemValue, epoch, time, moment);
  }

  lemma DropIs(l: TaskList, t: Tid)
    requires t in l.items
    ensures Drop(l, t) == Remove(l, t)
  {
  }

  lemma FewerReady(lists: map<ListId, TaskList>, id: ListId, t: Tid, top: nat)
    requires t in Get(lists, id).items && NoneAbove(lists, top)
    ensures NoneAbove(lists[id := Remove(Get(lists, id), t)], top)
  {
  }

  // Insert a task's state item in the overflow list, or in the current list and
  // then lower the cached time if the task is the first to wake.
  method PlaceTimed(delayed: TaskList, overflow: TaskList, itemValue: map<Tid, Tick>, time: Tick,
                    t: Tid, timeToWake: Tick, wrapped: bool, ghost s: Tasks, ghost epoch: nat, ghost moment: nat)
    returns (d: TaskList, o: TaskList, time': Tick)
    requires Get(s.lists, Blocked) == Joined(delayed, overflow) && delayed.cursor == 0 && overflow.cursor == 0
    requires t !in delayed.items && t !in overflow.items && timeToWake == Low(moment)
    requires Epoch(moment) == epoch + (if wrapped then 1 else 0)
    requires InEpoch(delayed.items, s.due, itemValue, epoch) && InEpoch(overflow.items, s.due, itemValue, epoch + 1)
    requires NoneBefore(delayed.items, itemValue, time)
    ensures d.cursor == 0 && o.cursor == 0 && Joined(d, o) == LinkedBlocked(s, t, moment)
    ensures InEpoch(d.items, s.due[t := moment], itemValue[t := timeToWake], epoch)
    ensures InEpoch(o.items, s.due[t := moment], itemValue[t := timeToWake], epoch + 1)
    ensures NoneBefore(d.items, itemValue[t := timeToWake], time')
  {
    hide InEpoch, NoneBefore, Joined, LinkedBlocked, InsertPos, Column, InsertBefore, Epoch, Low;
    d, o, time' := delayed, overflow, time;
    if wrapped {
      IntoOverflow(s, delayed, overflow, itemValue, epoch, time, t, moment);
      o := InsertBefore(o, InsertPos(Column(itemValue, o.items), timeToWake), t);
    } else {
      IntoDelayed(s, delayed, overflow, itemValue, epoch, time, t, moment);
      d := InsertBefore(d, InsertPos(Column(itemValue, d.items), timeToWake), t);
      if timeToWake < time {
        time' := timeToWake;
      }
    }
  }

  // The head of the current list is the first to wake of all.
  lemma HeadIsFirst(delayed: TaskList, overflow: TaskList, due: map<Tid, nat>, itemValue: map<Tid, Tick>, epoch: nat)
    requires delayed.items != [] && ByDue(due, Joined(delayed, overflow))
    requires InEpoch(delayed.items, due, itemValue, epoch)
    ensures delayed.items[0] in itemValue && NoneBefore(delayed.items, itemValue, itemValue[delayed.items[0]])
  {
    var d, all := delayed.items, Joined(delayed, overflow).items;
    var c := Column(due, all);
    forall t | t in d
      ensures itemValue[d[0]] <= itemValue[t]
    {
      var i :| 0 <= i < |d| && d[i] == t;
      assert all[0] == d[0] && all[i] == t;
      assert c[0] <= c[i];
      SameEpochOrder(due[d[0]], due[t]);
    }
  }

  lemma UnlinkEventCommutes(s: Tasks, t: Tid)
    ensures UnlinkEvent(Unlink(s, t), t) == Unlink(UnlinkEvent(s, t), t)
    ensures Core(s) && t in s.stateIn ==> At(s.priority, t) < MAX_PRIORITIES
  {
  }

  lemma NoneBeforeNone(itemValue: map<Tid, Tick>, time: Tick)
    ensures NoneBefore([], itemValue, time)
  {
  }

  // One round of the unblocking loop, in the reference's terms
  lemma ReadyAllUnfolds(s: Tasks, moment: nat)
    requires Core(s)
    ensures var items := Get(s.lists, Blocked).items;
            if items == [] || At(s.due, items[0]) > moment then ReadyAll(s, Expired(s, moment)) == s
            else
              var s1 := MakeReady(UnlinkEvent(s, items[0]), items[0]);
              && IsIn(s, items[0], Blocked) && Core(s1)
              && ReadyAll(s1, Expired(s1, moment)) == ReadyAll(s, Expired(s, moment))
  {
    ExpiredNone(s, moment);
    if Expired(s, moment) != [] {
      ExpiredTail(s, moment);
      OneReady(s, Expired(s, moment)[0]);
    }
  }

  lemma ReadyNone(s: Tasks)
    ensures ReadyAll(s, []) == s
  {
  }

  lemma PendingUnfolds(s: Tasks)
    requires Core(s) && Get(s.events, PendingReady).items != []
    ensures var ts := Get(s.events, PendingReady).items;
            var s1 := UnlinkEvent(s, ts[0]);
            var s2 := MakeReady(s1, ts[0]);
            && ts[0] in s.stateIn && At(s.priority, ts[0]) < MAX_PRIORITIES && Partition(s1.lists, s1.stateIn)
            && Core(s2) && Get(s2.events, PendingReady).items == ts[1..]
            && ReadyAll(s, ts) == ReadyAll(s2, ts[1..])
  {
    var ts := Get(s.events, PendingReady).items;
    PendingAreKnown(s);
    OneReady(s, ts[0]);
    HeadDrop(Get(s.events, PendingReady), ts[0]);
  }

  lemma TickTimesUnfolds(k: Kernel, n: nat)
    ensures TickTimes(k, n) == if n == 0 then k else TickTimes(OneTick(k), n - 1)
  {
  }

  lemma InvGives(k: Kernel)
    requires Inv(k)
    ensures Core(k.tasks) && Ahead(k.tasks.due, k.tasks.stateIn, k.now)
    ensures k.current in k.tasks.stateIn && k.idle in k.tasks.stateIn && k.tasks.stateIn[k.idle].Ready?
    ensures Do(k, Step.TickInterrupt)
         == var k1 := k.(interrupts := k.interrupts + 1);
            if k.depth == 0 then OneTick(k1) else k1.(pended := Add(k.pended, 1))
    ensures k.depth > 0 ==> Do(k, Step.ResumeTheScheduler) == Kernels.ResumeAll(k)
    ensures k.numberOfTasks > 0
  {
    KernelRuns.SomeTask(k);
  }

  lemma CoreGives(s: Tasks)
    requires Core(s)
    ensures Partition(s.lists, s.stateIn)
    ensures forall t :: t in s.stateIn ==> At(s.priority, t) < MAX_PRIORITIES
  {
  }

  // What each step does to the tasks, and what it may rely on

  lemma SwitchingStep(k: Kernel, p: nat)
    requires Inv(k) && k.depth == 0 && HighestReady(k.tasks, p)
    ensures Enabled(k, Step.SwitchContext(p)) && Get(k.tasks.lists, Ready(p)).items != [] && p < MAX_PRIORITIES
    ensures Inv(Do(k, Step.SwitchContext(p))) && Do(k, Step.SwitchContext(p)) == Select(k, p)
  {
    hide Inv, Select;
    StepKeepsInv(k, Step.SwitchContext(p));
  }

  lemma BlockingSteps(k: Kernel, ticks: Tick)
    requires Inv(k)
    ensures forall indefinitely :: Enabled(k, DelayCurrent(ticks, indefinitely)) ==>
              && Inv(Do(k, DelayCurrent(ticks, indefinitely))) && ticks > 0
              && Do(k, DelayCurrent(ticks, indefinitely))
              == k.(tasks := Delay(k.tasks, k.current, k.now, ticks, indefinitely))
    ensures forall e :: Enabled(k, PlaceOnEventList(e, ticks)) ==>
              && Inv(Do(k, PlaceOnEventList(e, ticks))) && ticks > 0
              && Do(k, PlaceOnEventList(e, ticks))
              == k.(tasks := Delay(LinkEventByValue(k.tasks, k.current, e), k.current, k.now, ticks, true))
    ensures forall e, value :: Enabled(k, PlaceOnUnorderedEventList(e, value, ticks)) ==>
              && Inv(Do(k, PlaceOnUnorderedEventList(e, value, ticks))) && ticks > 0
              && Do(k, PlaceOnUnorderedEventList(e, value, ticks))
              == var s := k.tasks.(eventValue := k.tasks.eventValue[k.current := value]);
                 k.(tasks := Delay(LinkEventEnd(s, k.current, e), k.current, k.now, ticks, true))
    ensures Partition(k.tasks.lists, k.tasks.stateIn) && k.current in k.tasks.stateIn
  {
    hide Core, Ahead, Delay;
    InvGives(k);
    CoreGives(k.tasks);
    forall step | Enabled(k, step)
      ensures Inv(Do(k, step))
    {
      StepKeepsInv(k, step);
    }
  }

  lemma OffEvents(s: Tasks, t: Tid)
    requires Core(s) && t in s.eventIn
    ensures var s1 := UnlinkEvent(s, t);
            && Partition(s1.lists, s1.stateIn) && t in s1.stateIn && At(s1.priority, t) < MAX_PRIORITIES
            && s1 == s.(events := s1.events, eventIn := s1.eventIn)
  {
    UnlinkEventKeeps(s, t);
  }

  lemma WakingStep(k: Kernel, e: EventId)
    requires Inv(k) && Enabled(k, RemoveFromEventList(e))
    ensures Get(k.tasks.events, e).items != []
    ensures var t := Get(k.tasks.events, e).items[0];
            var s := UnlinkEvent(k.tasks, t);
            && Partition(s.lists, s.stateIn) && t in s.stateIn && At(s.priority, t) < MAX_PRIORITIES
            && Inv(Do(k, RemoveFromEventList(e)))
            && Do(k, RemoveFromEventList(e))
            == k.(tasks := if k.depth == 0 then MakeReady(s, t) else LinkEventEnd(s, t, PendingReady))
  {
    hide Core, Ahead, Partition, MakeReady, UnlinkEvent, LinkEventEnd, Get;
    StepKeepsInv(k, RemoveFromEventList(e));
    HeadWaits(k.tasks, e);
    OffEvents(k.tasks, Get(k.tasks.events, e).items[0]);
  }

  lemma UnorderedWakingStep(k: Kernel, t: Tid, value: nat)
    requires Inv(k) && Enabled(k, Step.RemoveFromUnorderedEventList(t, value))
    ensures var s := UnlinkEvent(SetEventValue(k.tasks, t, value), t);
            && Partition(s.lists, s.stateIn) && t in s.stateIn && At(s.priority, t) < MAX_PRIORITIES
            && Inv(Do(k, Step.RemoveFromUnorderedEventList(t, value)))
            && Do(k, Step.RemoveFromUnorderedEventList(t, value)) == k.(tasks := MakeReady(s, t))
  {
    hide Ahead, Partition, Prioritised, WaitersBlocked, ByDue, MakeReady, UnlinkEvent;
    StepKeepsInv(k, Step.RemoveFromUnorderedEventList(t, value));
    OffEvents(SetEventValue(k.tasks, t, value), t);
  }

  lemma StoppingStep(k: Kernel, t: Tid)
    requires Inv(k) && CanStop(k, t)
    ensures t in k.tasks.stateIn && Partition(k.tasks.lists, k.tasks.stateIn)
    ensures Partition(Unlink(k.tasks, t).lists, Unlink(k.tasks, t).stateIn) && t !in Unlink(k.tasks, t).stateIn
  {
    hide Core, Ahead, Partition, Unlink;
    InvGives(k);
    CoreGives(k.tasks);
    UnlinkPartition(k.tasks, t);
  }

  lemma SuspendingStep(k: Kernel, t: Tid)
    requires Inv(k) && Enabled(k, SuspendTask(t))
    ensures CanStop(k, t) && Inv(Do(k, SuspendTask(t)))
    ensures Do(k, SuspendTask(t)) == k.(tasks := LinkEnd(UnlinkEvent(Unlink(k.tasks, t), t), t, Suspended))
  {
    hide Inv, Unlink, UnlinkEvent, LinkEnd;
    StepKeepsInv(k, SuspendTask(t));
  }

  lemma DeletingStep(k: Kernel, t: Tid)
    requires Inv(k) && Enabled(k, DeleteTask(t))
    ensures CanStop(k, t) && Inv(Do(k, DeleteTask(t)))
    ensures Do(k, DeleteTask(t))
         == var s := UnlinkEvent(Unlink(k.tasks, t), t);
            if t == k.current then k.(tasks := LinkEnd(s, t, Terminating), waitingCleanUp := k.waitingCleanUp + 1)
            else k.(tasks := Forget(s, t), numberOfTasks := k.numberOfTasks - 1)
  {
    hide Inv, Unlink, UnlinkEvent, LinkEnd, Forget;
    StepKeepsInv(k, DeleteTask(t));
  }

  lemma ResumingSteps(k: Kernel, t: Tid)
    requires Inv(k) && (Enabled(k, Step.ResumeTask(t)) || Enabled(k, Step.ResumeFromISR(t)))
    ensures Partition(k.tasks.lists, k.tasks.stateIn) && At(k.tasks.priority, t) < MAX_PRIORITIES
    ensures Inv(Do(k, Step.ResumeTask(t))) && Inv(Do(k, Step.ResumeFromISR(t)))
    ensures Do(k, Step.ResumeTask(t))
         == if t != k.current && IsSuspended(k.tasks, t) then k.(tasks := MakeReady(k.tasks, t)) else k
    ensures Do(k, Step.ResumeFromISR(t))
         == if !IsSuspended(k.tasks, t) then k
            else k.(tasks := if k.depth == 0 then MakeReady(k.tasks, t) else LinkEventEnd(k.tasks, t, PendingReady))
  {
    hide Core, Ahead, Partition, MakeReady, LinkEventEnd;
    InvGives(k);
    CoreGives(k.tasks);
    StepKeepsInv(k, Step.ResumeTask(t));
    StepKeepsInv(k, Step.ResumeFromISR(t));
  }

  lemma ReapingStep(k: Kernel)
    requires Inv(k) && Enabled(k, ReapTerminated)
    ensures Get(k.tasks.lists, Terminating).items != []
    ensures var t := Get(k.tasks.lists, Terminating).items[0];
            && t in k.tasks.stateIn && Partition(k.tasks.lists, k.tasks.stateIn)
            && Partition(Unlink(k.tasks, t).lists, Unlink(k.tasks, t).stateIn) && t !in Unlink(k.tasks, t).stateIn
            && Inv(Do(k, ReapTerminated))
            && Do(k, ReapTerminated)
               == k.(tasks := Forget(Unlink(k.tasks, t), t),
                     numberOfTasks := k.numberOfTasks - 1, waitingCleanUp := k.waitingCleanUp - 1)
  {
    hide Core, Ahead, Partition, Unlink, Forget, Get;
    InvGives(k);
    CoreGives(k.tasks);
    InList(k.tasks.lists, k.tasks.stateIn, Terminating, Get(k.tasks.lists, Terminating).items[0]);
    UnlinkPartition(k.tasks, Get(k.tasks.lists, Terminating).items[0]);
    StepKeepsInv(k, ReapTerminated);
  }

  lemma PriorityStep(k: Kernel, t: Tid, p: nat, value: nat)
    requires Inv(k) && Enabled(k, Step.ChangePriority(t, p, value))
    ensures t in k.tasks.stateIn && Partition(k.tasks.lists, k.tasks.stateIn) && p < MAX_PRIORITIES
    ensures Inv(Do(k, Step.ChangePriority(t, p, value)))
    ensures Do(k, Step.ChangePriority(t, p, value))
         == var s := k.tasks.(priority := k.tasks.priority[t := p], eventValue := k.tasks.eventValue[t := value]);
            k.(tasks := if s.stateIn[t].Ready? then MakeReady(s, t) else s)
  {
    hide Core, Ahead, Partition, MakeReady;
    InvGives(k);
    CoreGives(k.tasks);
    StepKeepsInv(k, Step.ChangePriority(t, p, value));
  }

  // With every list above empty, the idle task's list is this one or below.
  lemma ReadyBelow(k: Kernel, lists: map<ListId, TaskList>, delayed: TaskList, overflow: TaskList, top: nat)
    requires Inv(k) && k.tasks.lists == AllLists(lists, delayed, overflow)
    requires NoneAbove(lists, top) && Get(lists, Ready(top)).items == []
    ensures top > 0 && NoneAbove(lists, top - 1)
  {
    var id := k.tasks.stateIn[k.idle];
    InList(k.tasks.lists, k.tasks.stateIn, id, k.idle);
    AllListsGet(lists, delayed, overflow, id);
    assert id.priority < top;
  }

  lemma TopIsHighest(k: Kernel, lists: map<ListId, TaskList>, delayed: TaskList, overflow: TaskList, top: nat)
    requires k.tasks.lists == AllLists(lists, delayed, overflow) && top < MAX_PRIORITIES
    requires NoneAbove(lists, top) && Get(lists, Ready(top)).items != []
    ensures HighestReady(k.tasks, top) && Get(k.tasks.lists, Ready(top)) == Get(lists, Ready(top))
    ensures NoneAbove(lists[Ready(top) := Next(Get(lists, Ready(top)))], top)
  {
    forall q | top < q < MAX_PRIORITIES
      ensures Get(k.tasks.lists, Ready(q)).items == []
    {
      AllListsGet(lists, delayed, overflow, Ready(q));
    }
  }

  class Scheduler {
    var tickCount: Tick               // xTickCount
    var numOfOverflows: nat           // xNumOfOverflows
    var nextTaskUnblockTime: Tick     // xNextTaskUnblockTime
    var pendedTicks: Tick             // xPendedTicks
    var schedulerSuspended: nat       // uxSchedulerSuspended
    var topReadyPriority: nat         // uxTopReadyPriority
    var numberOfTasks: int            // uxCurrentNumberOfTasks
    var waitingCleanUp: int           // uxDeletedTasksWaitingCleanUp
    var currentTask: Tid              // pxCurrentTCB
    const idleTask: Tid               // xIdleTaskHandle

    var lists: map<ListId, TaskList>  // the ready, suspended and termination lists
    var delayed: TaskList             // the list pxDelayedTaskList points to
    var overflow: TaskList            // the list pxOverflowDelayedTaskList points to
    var container: map<Tid, ListId>   // pxContainer of each state item
    var itemValue: map<Tid, Tick>     // xItemValue of each state item
    var events: map<EventId, TaskList>
    var eventIn: map<Tid, EventId>    // pxContainer of each event item
    var eventValue: map<Tid, nat>     // xItemValue of each event item
    var priority: map<Tid, nat>       // uxPriority

    ghost var now: nat
    ghost var interrupts: nat
    ghost var due: map<Tid, nat>

    ghost function T(): Tasks
      reads this
    {
      Tasks(AllLists(lists, delayed, overflow), container, events, eventIn, eventValue, priority, due)
    }

    ghost function Abs(): Kernel
      reads this
    {
      Kernel(T(), now, pendedTicks, interrupts, schedulerSuspended, numberOfTasks, waitingCleanUp, currentTask,
             idleTask)
    }

    // The wrapped representation and the two caches
    ghost predicate Refines()
      reads this
    {
      && delayed.cursor == 0 && overflow.cursor == 0
      && tickCount == Low(now) && numOfOverflows == Epoch(now)
      && InEpoch(delayed.items, due, itemValue, Epoch(now))
      && InEpoch(overflow.items, due, itemValue, Epoch(now) + 1)
      && NoneBefore(delayed.items, itemValue, nextTaskUnblockTime)
      && topReadyPriority < MAX_PRIORITIES && NoneAbove(lists, topReadyPriority)
    }

    ghost predicate Valid()
      reads this
    {
      Refines() && Inv(Abs())
    }

    // The scheduler as vTaskStartScheduler leaves it, with the idle task alone
    constructor (idle: Tid)
      ensures Valid() && Abs() == KernelRuns.Start(idle)
    {
      tickCount, numOfOverflows, nextTaskUnblockTime, pendedTicks := 0, 0, MAX_DELAY, 0;
      schedulerSuspended, topReadyPriority, currentTask, idleTask := 0, 0, idle, idle;
      numberOfTasks, waitingCleanUp := 1, 0;
      lists := map[Ready(0) := CList([idle], 0)];
      delayed, overflow := Empty(), Empty();
      container, itemValue, events, eventIn := map[idle := Ready(0)], map[], map[], map[];
      eventValue, priority := map[idle := MAX_PRIORITIES], map[idle := 0];
      now, interrupts, due := 0, 0, map[];
      new;
      KernelRuns.StartInv(idle);
    }

    // uxListRemove of a state item
    method RemoveStateItem(t: Tid)
      requires Refines() && Partition(T().lists, container) && t in container
      modifies `lists, `delayed, `overflow, `container
      ensures Refines() && T() == Unlink(old(T()), t)
      ensures old(container)[t] == Blocked && t in old(delayed.items) ==> |delayed.items| == |old(delayed.items)| - 1
    {
      hide Partition, InEpoch, NoneBefore, NoneAbove, Joined, AllLists, Get, Drop, Remove;
      DropKeeps(T().lists, container, t);
      AllListsGet(lists, delayed, overflow, container[t]);
      DropIs(Get(T().lists, container[t]), t);
      if container[t] == Blocked {
        JoinedMembers(delayed, overflow);
        JoinedRemove(delayed, overflow, t);
        if t in delayed.items {
          FewerTimed(delayed, t, due, itemValue, Epoch(now), nextTaskUnblockTime);
          AllListsTimed(lists, delayed, overflow, Remove(delayed, t), overflow);
          delayed := Remove(delayed, t);
        } else {
          FewerTimed(overflow, t, due, itemValue, Epoch(now) + 1, 0);
          AllListsTimed(lists, delayed, overflow, delayed, Remove(overflow, t));
          overflow := Remove(overflow, t);
        }
      } else {
        FewerReady(lists, container[t], t, topReadyPriority);
        AllListsUpdate(lists, delayed, overflow, container[t], Remove(Get(lists, container[t]), t));
        lists := lists[container[t] := Remove(Get(lists, container[t]), t)];
      }
      container := container - {t};
    }

    // listREMOVE_ITEM of an event item, if it is on a list
    method RemoveEventItem(t: Tid)
      requires Refines()
      modifies `events, `eventIn
      ensures Refines() && T() == UnlinkEvent(old(T()), t)
    {
      if t in eventIn {
        events := events[eventIn[t] := Drop(Get(events, eventIn[t]), t)];
        eventIn := eventIn - {t};
      }
    }

    // prvAddTaskToReadyList
    method AddTaskToReadyList(t: Tid)
      requires Refines() && At(priority, t) < MAX_PRIORITIES
      modifies `lists, `container, `topReadyPriority
      ensures Refines() && T() == LinkEnd(old(T()), t, Ready(At(priority, t)))
    {
      hide InEpoch, NoneBefore, Joined, CursorLists.InsertEnd, AllLists;
      var p := At(priority, t);
      if p > topReadyPriority {
        topReadyPriority := p;
      }
      var l := CursorLists.InsertEnd(Get(lists, Ready(p)), t);
      AllListsGet(lists, delayed, overflow, Ready(p));
      AllListsUpdate(lists, delayed, overflow, Ready(p), l);
      lists := lists[Ready(p) := l];
      container := container[t := Ready(p)];
    }

    // Put a state item at the end of a list that is neither ready nor timed.
    method InsertStateItemEnd(t: Tid, id: ListId)
      requires Refines() && (id == Suspended || id == Terminating)
      modifies `lists, `container
      ensures Refines() && T() == LinkEnd(old(T()), t, id)
    {
      hide InEpoch, NoneBefore, Joined, CursorLists.InsertEnd, AllLists;
      var l := CursorLists.InsertEnd(Get(lists, id), t);
      AllListsGet(lists, delayed, overflow, id);
      AllListsUpdate(lists, delayed, overflow, id, l);
      lists := lists[id := l];
      container := container[t := id];
    }

    // prvAddCurrentTaskToDelayedList
    method AddCurrentTaskToDelayedList(ticksToWait: Tick, canBlockIndefinitely: bool)
      requires Refines() && Partition(T().lists, container) && currentTask in container && ticksToWait > 0
      modifies `lists, `delayed, `overflow, `container, `itemValue, `nextTaskUnblockTime, `due
      ensures Refines() && T() == Delay(old(T()), currentTask, now, ticksToWait, canBlockIndefinitely)
    {
      hide Partition, InEpoch, NoneBefore, NoneAbove, Joined, AllLists, LinkDue, Unlink, LinkEnd, Get, Low, Epoch;
      UnlinkPartition(T(), currentTask);
      RemoveStateItem(currentTask);
      if ticksToWait == MAX_DELAY && canBlockIndefinitely {
        InsertStateItemEnd(currentTask, Suspended);
      } else {
        AllListsGet(lists, delayed, overflow, Blocked);
        NotTimed(T(), delayed, overflow, currentTask);
        LinkDueIs(T(), currentTask, now + ticksToWait);
        BlockCurrentUntil(ticksToWait);
      }
    }

    method BlockCurrentUntil(ticksToWait: Tick)
      requires Refines() && currentTask !in delayed.items && currentTask !in overflow.items
      modifies `delayed, `overflow, `container, `itemValue, `nextTaskUnblockTime, `due
      ensures Refines()
      ensures AllLists(lists, delayed, overflow) == LinkDue(old(T()), currentTask, now + ticksToWait).lists
      ensures container == old(container)[currentTask := Blocked] && due == old(due)[currentTask := now + ticksToWait]
    {
      hide InEpoch, NoneBefore, NoneAbove, Joined, Add, LinkedBlocked, LinkDue, Get, Low, Epoch, AllLists;
      var timeToWake := Add(tickCount, ticksToWait);
      ghost var was, moment := T(), now + ticksToWait;
      AddFollowsClock(now, ticksToWait);
      AllListsGet(lists, delayed, overflow, Blocked);
      LinkDueIs(was, currentTask, moment);
      var d, o, time := PlaceTimed(delayed, overflow, itemValue, nextTaskUnblockTime, currentTask, timeToWake,
                                   timeToWake < tickCount, was, Epoch(now), moment);
      AllListsTimed(lists, delayed, overflow, d, o);
      itemValue := itemValue[currentTask := timeToWake];
      due := due[currentTask := moment];
      container := container[currentTask := Blocked];
      delayed, overflow, nextTaskUnblockTime := d, o, time;
    }

    // prvResetNextTaskUnblockTime
    method ResetNextTaskUnblockTime()
      requires Refines() && ByDue(due, Joined(delayed, overflow))
      modifies `nextTaskUnblockTime
      ensures Refines()
    {
      if delayed.items == [] {
        nextTaskUnblockTime := MAX_DELAY;
      } else {
        HeadIsFirst(delayed, overflow, due, itemValue, Epoch(now));
        nextTaskUnblockTime := itemValue[delayed.items[0]];
      }
    }

    // The head of the reference's blocked list, and when it is due
    lemma HeadOfBlocked()
      requires Refines()
      ensures var items := Get(T().lists, Blocked).items;
              if delayed.items == [] then items == [] || At(due, items[0]) > now
              else
                var t := delayed.items[0];
                t in itemValue && items != [] && items[0] == t && (itemValue[t] <= tickCount <==> At(due, t) <= now)
    {
      if delayed.items != [] {
        assert delayed.items[0] in delayed.items;
        SameEpochOrder(due[delayed.items[0]], now);
      } else if overflow.items != [] {
        assert overflow.items[0] in overflow.items;
        EpochsOrder(now, due[overflow.items[0]]);
      }
    }

    // The unblocking loop of xTaskIncrementTick
    method UnblockExpired()
      requires Refines() && Core(T())
      modifies `lists, `delayed, `container, `overflow, `events, `eventIn, `topReadyPriority, `nextTaskUnblockTime
      ensures Refines() && T() == ReadyAll(old(T()), Expired(old(T()), now))
    {
      hide Core, ReadyAll, Expired, InEpoch, NoneBefore, NoneAbove, Joined, AllLists, MakeReady, UnlinkEvent, Get,
           At, ByDue;
      ghost var target := ReadyAll(T(), Expired(T(), now));
      while true
        invariant Refines() && Core(T())
        invariant ReadyAll(T(), Expired(T(), now)) == target
        decreases |delayed.items|
      {
        HeadOfBlocked();
        ReadyAllUnfolds(T(), now);
        if delayed.items == [] {
          NoneBeforeNone(itemValue, MAX_DELAY);
          nextTaskUnblockTime := MAX_DELAY;
          return;
        }
        var t := delayed.items[0];
        if tickCount < itemValue[t] {
          JoinedByDue();
          HeadIsFirst(delayed, overflow, due, itemValue, Epoch(now));
          nextTaskUnblockTime := itemValue[t];
          return;
        }
        UnblockHead(t);
      }
    }

    lemma JoinedByDue()
      requires Core(T())
      ensures ByDue(due, Joined(delayed, overflow))
    {
      AllListsGet(lists, delayed, overflow, Blocked);
    }

    // Take the head of the current list off it and off any event list, and make
    // its task ready.
    method UnblockHead(t: Tid)
      requires Refines() && Core(T()) && delayed.items != [] && t == delayed.items[0] && IsIn(T(), t, Blocked)
      modifies `lists, `delayed, `container, `overflow, `events, `eventIn, `topReadyPriority
      ensures Refines() && T() == MakeReady(UnlinkEvent(old(T()), t), t) && |delayed.items| == |old(delayed.items)| - 1
    {
      hide InEpoch, NoneBefore, NoneAbove, Joined, AllLists, Partition, Prioritised, WaitersBlocked, ByDue;
      UnlinkEventCommutes(T(), t);
      RemoveStateItem(t);
      RemoveEventItem(t);
      AddTaskToReadyList(t);
    }

    // The current list is empty whenever the lists are switched.
    lemma EmptyAtWrap()
      requires Refines() && Core(T()) && Ahead(due, container, now) && Add(tickCount, 1) == 0
      ensures delayed.items == []
    {
      if delayed.items != [] {
        var t := delayed.items[0];
        assert t in delayed.items;
        assert t in Get(T().lists, Blocked).items;
        InList(T().lists, container, Blocked, t);
        AddFollowsClock(now, 1);
        SameEpochOrder(due[t], now);
        assert false;
      }
    }

    // taskSWITCH_DELAYED_LISTS, as the tick count becomes zero
    method SwitchDelayedLists()
      requires delayed.items == [] && delayed.cursor == 0 && overflow.cursor == 0
      requires tickCount == Low(now) && Epoch(now) == numOfOverflows + 1
      requires InEpoch(overflow.items, due, itemValue, Epoch(now)) && ByDue(due, Joined(delayed, overflow))
      requires topReadyPriority < MAX_PRIORITIES && NoneAbove(lists, topReadyPriority)
      modifies `delayed, `overflow, `numOfOverflows, `nextTaskUnblockTime
      ensures Refines() && T() == old(T())
    {
      assert Joined(overflow, delayed) == Joined(delayed, overflow);
      delayed, overflow := overflow, delayed;
      numOfOverflows := numOfOverflows + 1;
      nextTaskUnblockTime := 0;
      ResetNextTaskUnblockTime();
    }

    // Nothing has expired before the cached time.
    lemma NothingExpired()
      requires Refines() && tickCount < nextTaskUnblockTime
      ensures Expired(T(), now) == []
    {
      HeadOfBlocked();
      ExpiredNone(T(), now);
      if delayed.items != [] {
        assert delayed.items[0] in delayed.items;
      }
    }

    // xTaskIncrementTick while the scheduler is not suspended
    method ProcessTick()
      requires Refines() && Core(T()) && Ahead(due, container, now)
      modifies `tickCount, `numOfOverflows, `now, `lists, `delayed, `container, `overflow, `events, `eventIn,
               `topReadyPriority, `nextTaskUnblockTime
      ensures Refines() && now == old(now) + 1
      ensures T() == ReadyAll(old(T()), Expired(old(T()), now))
    {
      hide ReadyAll, Expired, NoneBefore, NoneAbove, Joined, AllLists, Core, Ahead, Get, InEpoch;
      AddFollowsClock(now, 1);
      if Add(tickCount, 1) == 0 {
        EmptyAtWrap();
        JoinedByDue();
      }
      tickCount := Add(tickCount, 1);
      now := now + 1;
      if tickCount == 0 {
        SwitchDelayedLists();
      }
      if tickCount >= nextTaskUnblockTime {
        UnblockExpired();
      } else {
        NothingExpired();
        ReadyNone(T());
      }
    }

    // xTaskIncrementTick, as the tick interrupt calls it
    method TickInterrupt()
      requires Valid()
      modifies this
      ensures Valid() && Abs() == Do(old(Abs()), Step.TickInterrupt)
    {
      hide Inv, Do, Core, Ahead, ReadyAll, Expired, NoneBefore, NoneAbove, AllLists, InEpoch, Low, Epoch;
      StepKeepsInv(Abs(), Step.TickInterrupt);
      InvGives(Abs());
      interrupts := interrupts + 1;
      if schedulerSuspended == 0 {
        ProcessTick();
      } else {
        pendedTicks := Add(pendedTicks, 1);
      }
    }

    // vTaskSuspendAll
    method SuspendAll()
      requires Valid()
      modifies `schedulerSuspended
      ensures Valid() && Abs() == Do(old(Abs()), Step.SuspendAll)
    {
      hide Inv, AllLists, InEpoch, NoneBefore, NoneAbove, Low, Epoch;
      StepKeepsInv(Abs(), Step.SuspendAll);
      schedulerSuspended := schedulerSuspended + 1;
    }

    // The first loop of xTaskResumeAll: move the pending tasks to the ready lists.
    method DrainPending()
      requires Refines() && Core(T())
      modifies `lists, `delayed, `container, `overflow, `events, `eventIn, `topReadyPriority, `nextTaskUnblockTime
      ensures Refines() && T() == ReadyAll(old(T()), Get(old(events), PendingReady).items)
    {
      hide Core, ReadyAll, InEpoch, NoneBefore, NoneAbove, Joined, AllLists, MakeReady, UnlinkEvent, Get;
      ghost var target := ReadyAll(T(), Get(events, PendingReady).items);
      var any := false;
      while Get(events, PendingReady).items != []
        invariant Refines() && Core(T())
        invariant ReadyAll(T(), Get(events, PendingReady).items) == target
        decreases |Get(events, PendingReady).items|
      {
        var t := Get(events, PendingReady).items[0];
        any := true;
        PendingUnfolds(T());
        RemoveEventItem(t);
        MakeTaskReady(t);
      }
      ReadyNone(T());
      if any {
        JoinedByDue();
        ResetNextTaskUnblockTime();
      }
    }

    method MakeTaskReady(t: Tid)
      requires Refines() && Partition(T().lists, container) && t in container && At(priority, t) < MAX_PRIORITIES
      modifies `lists, `delayed, `container, `overflow, `topReadyPriority
      ensures Refines() && T() == MakeReady(old(T()), t)
    {
      hide Partition, InEpoch, NoneBefore, NoneAbove, Joined, AllLists;
      RemoveStateItem(t);
      AddTaskToReadyList(t);
    }

    // xTaskResumeAll
    method ResumeAll()
      requires Valid() && schedulerSuspended > 0
      modifies this
      ensures Valid() && Abs() == Do(old(Abs()), Step.ResumeTheScheduler)
    {
      hide Inv, Do, Core, Ahead, NoneBefore, NoneAbove, AllLists, InEpoch, Low, Epoch, TickTimes, ReadyPending;
      StepKeepsInv(Abs(), Step.ResumeTheScheduler);
      InvGives(Abs());
      schedulerSuspended := schedulerSuspended - 1;
      if schedulerSuspended == 0 {
        if numberOfTasks > 0 {
          UnwindSuspension();
        }
      }
    }

    // The body of xTaskResumeAll once the last suspension has ended
    method UnwindSuspension()
      requires Refines() && Core(T()) && Ahead(due, container, now)
      modifies this
      ensures Refines() && Abs() == TickTimes(ReadyPending(old(Abs())), old(pendedTicks)).(pended := 0)
    {
      hide Core, Ahead, InEpoch, NoneBefore, NoneAbove, Joined, AllLists, Get, ReadyAll, NothingPending, TickTimes;
      ReadyPendingExact(Abs());
      DrainPending();
      ProcessPended();
      pendedTicks := 0;
    }

    // The second loop of xTaskResumeAll: take the pended ticks.
    method ProcessPended()
      requires Refines() && Core(T()) && Ahead(due, container, now)
      modifies `tickCount, `numOfOverflows, `now, `lists, `delayed, `container, `overflow, `events, `eventIn,
               `topReadyPriority, `nextTaskUnblockTime
      ensures Refines() && Abs() == TickTimes(old(Abs()), pendedTicks)
    {
      hide Core, Ahead, InEpoch, NoneBefore, NoneAbove, Joined, AllLists, Get, ReadyAll, TickTimes, Expired, Ticked;
      ghost var k := Abs();
      var pendedCounts: Tick := pendedTicks;
      while pendedCounts > 0
        invariant Refines() && Core(T()) && Ahead(due, container, now)
        invariant TickTimes(Abs(), pendedCounts) == TickTimes(k, pendedTicks)
      {
        OneTickExact(Abs());
        TickTimesUnfolds(Abs(), pendedCounts);
        ProcessTick();
        pendedCounts := pendedCounts - 1;
      }
      TickTimesUnfolds(Abs(), 0);
    }

    // ---- the steps that tasks and interrupts ask for ----

    // The search of taskSELECT_HIGHEST_PRIORITY_TASK, down from the cached bound.
    // The assertion in its loop always holds: some list at or below is not empty.
    method HighestReadyPriority() returns (topPriority: nat)
      requires Valid()
      ensures HighestReady(T(), topPriority) && Get(lists, Ready(topPriority)).items != []
      ensures Get(T().lists, Ready(topPriority)) == Get(lists, Ready(topPriority))
      ensures NoneAbove(lists[Ready(topPriority) := Next(Get(lists, Ready(topPriority)))], topPriority)
    {
      hide Inv, InEpoch, NoneBefore, NoneAbove, Joined, AllLists, Get, Next, HighestReady;
      topPriority := topReadyPriority;
      while Get(lists, Ready(topPriority)).items == []
        invariant topPriority < MAX_PRIORITIES && NoneAbove(lists, topPriority)
        decreases topPriority
      {
        ReadyBelow(Abs(), lists, delayed, overflow, topPriority);
        topPriority := topPriority - 1;
      }
      TopIsHighest(Abs(), lists, delayed, overflow, topPriority);
    }

    // vTaskSwitchContext
    method SwitchContext() returns (ghost p: nat)
      requires Valid()
      modifies `lists, `topReadyPriority, `currentTask
      ensures Valid()
      ensures if schedulerSuspended > 0 then Abs() == old(Abs())
              else Enabled(old(Abs()), Step.SwitchContext(p)) && Abs() == Do(old(Abs()), Step.SwitchContext(p))
    {
      hide Inv, Do, Enabled, InEpoch, NoneBefore, NoneAbove, Joined, AllLists, Get, Next, HighestReady;
      p := 0;
      if schedulerSuspended == 0 {
        var topPriority := HighestReadyPriority();
        p := topPriority;
        SwitchingStep(Abs(), p);
        var l := Next(Get(lists, Ready(topPriority)));
        AllListsUpdate(lists, delayed, overflow, Ready(topPriority), l);
        lists := lists[Ready(topPriority) := l];
        currentTask := Selected(l);
        topReadyPriority := topPriority;
      }
    }

    // vTaskDelay and xTaskDelayUntil, once they have decided to wait
    method DelayCurrent(ticks: Tick, indefinitely: bool)
      requires Valid() && Enabled(Abs(), Step.DelayCurrent(ticks, indefinitely))
      modifies this
      ensures Valid() && Abs() == Do(old(Abs()), Step.DelayCurrent(ticks, indefinitely))
    {
      hide Inv, Core, Partition, AllLists, InEpoch, NoneBefore, NoneAbove, Low, Epoch, Delay, Enabled, Do;
      BlockingSteps(Abs(), ticks);
      AddCurrentTaskToDelayedList(ticks, indefinitely);
    }

    // vTaskPlaceOnEventList
    method PlaceOnEventList(e: EventId, ticks: Tick)
      requires Valid() && Enabled(Abs(), Step.PlaceOnEventList(e, ticks))
      modifies this
      ensures Valid() && Abs() == Do(old(Abs()), Step.PlaceOnEventList(e, ticks))
    {
      hide Inv, Core, Partition, AllLists, InEpoch, NoneBefore, NoneAbove, Low, Epoch, Delay, Enabled, Do, Get,
           InsertPos, Column;
      BlockingSteps(Abs(), ticks);
      var l := Get(events, e);
      events := events[e := InsertBefore(l, InsertPos(Column(eventValue, l.items), At(eventValue, currentTask)),
                                         currentTask)];
      eventIn := eventIn[currentTask := e];
      AddCurrentTaskToDelayedList(ticks, true);
    }

    // vTaskPlaceOnUnorderedEventList
    method PlaceOnUnorderedEventList(e: EventId, value: nat, ticks: Tick)
      requires Valid() && Enabled(Abs(), Step.PlaceOnUnorderedEventList(e, value, ticks))
      modifies this
      ensures Valid() && Abs() == Do(old(Abs()), Step.PlaceOnUnorderedEventList(e, value, ticks))
    {
      hide Inv, Core, Partition, AllLists, InEpoch, NoneBefore, NoneAbove, Low, Epoch, Delay, Enabled, Do, Get;
      BlockingSteps(Abs(), ticks);
      eventValue := eventValue[currentTask := value];
      events := events[e := CursorLists.InsertEnd(Get(events, e), currentTask)];
      eventIn := eventIn[currentTask := e];
      AddCurrentTaskToDelayedList(ticks, true);
    }

    // xTaskRemoveFromEventList
    method RemoveFromEventList(e: EventId)
      requires Valid() && Enabled(Abs(), Step.RemoveFromEventList(e))
      modifies this
      ensures Valid() && Abs() == Do(old(Abs()), Step.RemoveFromEventList(e))
    {
      hide Inv, Core, Partition, AllLists, InEpoch, NoneBefore, NoneAbove, Low, Epoch, Enabled, Do, Get, MakeReady,
           UnlinkEvent;
      WakingStep(Abs(), e);
      var t := Get(events, e).items[0];
      RemoveEventItem(t);
      if schedulerSuspended == 0 {
        MakeTaskReady(t);
      } else {
        HoldPending(t);
      }
    }

    // Hold a task pending until the scheduler resumes
    method HoldPending(t: Tid)
      requires Refines()
      modifies `events, `eventIn
      ensures Refines() && T() == LinkEventEnd(old(T()), t, PendingReady)
    {
      events := events[PendingReady := CursorLists.InsertEnd(Get(events, PendingReady), t)];
      eventIn := eventIn[t := PendingReady];
    }

    // vTaskRemoveFromUnorderedEventList
    method RemoveFromUnorderedEventList(t: Tid, value: nat)
      requires Valid() && Enabled(Abs(), Step.RemoveFromUnorderedEventList(t, value))
      modifies this
      ensures Valid() && Abs() == Do(old(Abs()), Step.RemoveFromUnorderedEventList(t, value))
    {
      hide Inv, Core, Partition, AllLists, InEpoch, NoneBefore, NoneAbove, Low, Epoch, Enabled, Do, Get, MakeReady,
           UnlinkEvent;
      UnorderedWakingStep(Abs(), t, value);
      eventValue := eventValue[t := value];
      RemoveEventItem(t);
      MakeTaskReady(t);
    }

    // uxTaskResetEventItemValue
    method ResetEventItemValue() returns (value: nat)
      requires Valid()
      modifies `eventValue
      ensures Valid() && Abs() == Do(old(Abs()), Step.ResetEventItemValue) && value == At(old(eventValue), currentTask)
    {
      hide Inv, AllLists, InEpoch, NoneBefore, NoneAbove, Low, Epoch;
      StepKeepsInv(Abs(), Step.ResetEventItemValue);
      value := At(eventValue, currentTask);
      var p := At(priority, currentTask);
      eventValue := eventValue[currentTask := if p < MAX_PRIORITIES then MAX_PRIORITIES - p else 0];
    }

    // vTaskSuspend
    method SuspendTask(t: Tid)
      requires Valid() && Enabled(Abs(), Step.SuspendTask(t))
      modifies this
      ensures Valid() && Abs() == Do(old(Abs()), Step.SuspendTask(t))
    {
      hide Inv, Core, Partition, AllLists, Joined, InEpoch, NoneBefore, NoneAbove, Low, Epoch, Enabled, Do, Get, Unlink,
           UnlinkEvent, LinkEnd, ByDue;
      SuspendingStep(Abs(), t);
      StoppingStep(Abs(), t);
      TakeOffLists(t);
      InsertStateItemEnd(t, Suspended);
      ResetAfterStop();
    }

    // prvTaskIsTaskSuspended
    predicate TaskIsSuspended(t: Tid)
      reads this
    {
      t in container && container[t] == Suspended && !(t in eventIn && eventIn[t] == PendingReady) && t !in eventIn
    }

    // vTaskResume
    method ResumeTask(t: Tid)
      requires Valid() && Enabled(Abs(), Step.ResumeTask(t))
      modifies this
      ensures Valid() && Abs() == Do(old(Abs()), Step.ResumeTask(t))
    {
      hide Inv, Core, Partition, AllLists, InEpoch, NoneBefore, NoneAbove, Low, Epoch, Enabled, Do, Get, MakeReady;
      ResumingSteps(Abs(), t);
      if t != currentTask {
        if TaskIsSuspended(t) {
          MakeTaskReady(t);
        }
      }
    }

    // xTaskResumeFromISR
    method ResumeFromISR(t: Tid)
      requires Valid() && Enabled(Abs(), Step.ResumeFromISR(t))
      modifies this
      ensures Valid() && Abs() == Do(old(Abs()), Step.ResumeFromISR(t))
    {
      hide Inv, Core, Partition, AllLists, InEpoch, NoneBefore, NoneAbove, Low, Epoch, Enabled, Do, Get, MakeReady;
      ResumingSteps(Abs(), t);
      if TaskIsSuspended(t) {
        if schedulerSuspended == 0 {
          MakeTaskReady(t);
        } else {
          HoldPending(t);
        }
      }
    }

    // prvDeleteTCB: nothing of the task remains
    method ForgetTask(t: Tid)
      requires Refines() && t !in delayed.items && t !in overflow.items
      modifies `priority, `due, `eventValue
      ensures Refines() && T() == Forget(old(T()), t)
    {
      hide NoneBefore, NoneAbove, Joined, AllLists, Low, Epoch;
      priority := priority - {t};
      due := due - {t};
      eventValue := eventValue - {t};
    }

    // Take a task off the list of its state item and off any event list.
    method TakeOffLists(t: Tid)
      requires Refines() && t in container && Partition(T().lists, container)
      requires Partition(Unlink(T(), t).lists, Unlink(T(), t).stateIn) && t !in Unlink(T(), t).stateIn
      modifies `lists, `delayed, `overflow, `container, `events, `eventIn
      ensures Refines() && T() == UnlinkEvent(Unlink(old(T()), t), t)
      ensures t !in delayed.items && t !in overflow.items
    {
      hide Partition, AllLists, Joined, InEpoch, NoneBefore, NoneAbove, Low, Epoch, Get, Unlink, UnlinkEvent;
      RemoveStateItem(t);
      AllListsGet(lists, delayed, overflow, Blocked);
      NotTimed(T(), delayed, overflow, t);
      RemoveEventItem(t);
    }

    // vTaskDelete
    method DeleteTask(t: Tid)
      requires Valid() && Enabled(Abs(), Step.DeleteTask(t))
      modifies this
      ensures Valid() && Abs() == Do(old(Abs()), Step.DeleteTask(t))
    {
      hide Inv, Core, Partition, AllLists, Joined, InEpoch, NoneBefore, NoneAbove, Low, Epoch, Enabled, Do, Get, Unlink,
           UnlinkEvent, LinkEnd, Forget, ByDue, Ahead, CanStop;
      DeletingStep(Abs(), t);
      StoppingStep(Abs(), t);
      TakeOffLists(t);
      if t == currentTask {
        AwaitCleanUp(t);
      } else {
        LoseTask(t);
        ResetAfterStop();
      }
    }

    method AwaitCleanUp(t: Tid)
      requires Refines()
      modifies `lists, `container, `waitingCleanUp
      ensures Refines()
      ensures Abs() == old(Abs()).(tasks := LinkEnd(old(T()), t, Terminating),
                                   waitingCleanUp := old(waitingCleanUp) + 1)
    {
      hide InEpoch, NoneBefore, NoneAbove, AllLists, LinkEnd, Low, Epoch;
      InsertStateItemEnd(t, Terminating);
      waitingCleanUp := waitingCleanUp + 1;
    }

    method LoseTask(t: Tid)
      requires Refines() && t !in delayed.items && t !in overflow.items
      modifies `priority, `due, `eventValue, `numberOfTasks
      ensures Refines() && Abs() == old(Abs()).(tasks := Forget(old(T()), t), numberOfTasks := old(numberOfTasks) - 1)
    {
      hide InEpoch, NoneBefore, NoneAbove, AllLists, Forget, Low, Epoch;
      ForgetTask(t);
      numberOfTasks := numberOfTasks - 1;
    }

    method ResetAfterStop()
      requires Valid()
      modifies `nextTaskUnblockTime
      ensures Valid() && Abs() == old(Abs())
    {
      hide Inv, Core, AllLists, Joined, InEpoch, NoneBefore, NoneAbove, Low, Epoch, ByDue;
      InvGives(Abs());
      JoinedByDue();
      ResetNextTaskUnblockTime();
    }

    // One round of prvCheckTasksWaitingTermination, which the idle task makes while
    // any task waits to be cleaned up; the termination list then has a head.
    method ReapTerminated()
      requires Valid() && currentTask == idleTask && waitingCleanUp > 0
      modifies this
      ensures old(Enabled(Abs(), Step.ReapTerminated))
      ensures Valid() && Abs() == Do(old(Abs()), Step.ReapTerminated)
    {
      hide Inv, Core, Partition, AllLists, Joined, InEpoch, NoneBefore, NoneAbove, Low, Epoch, Enabled, Do, Get,
           Unlink, Forget;
      KernelRuns.CleanUpFinds(Abs());
      ReapingStep(Abs());
      AllListsGet(lists, delayed, overflow, Terminating);
      var t := Get(lists, Terminating).items[0];
      RemoveTerminated(t);
      numberOfTasks := numberOfTasks - 1;
      waitingCleanUp := waitingCleanUp - 1;
    }

    method RemoveTerminated(t: Tid)
      requires Refines() && t in container && Partition(T().lists, container)
      requires Partition(Unlink(T(), t).lists, Unlink(T(), t).stateIn) && t !in Unlink(T(), t).stateIn
      modifies `lists, `delayed, `overflow, `container, `priority, `due, `eventValue
      ensures Refines() && T() == Forget(Unlink(old(T()), t), t)
    {
      hide Partition, AllLists, Joined, InEpoch, NoneBefore, NoneAbove, Low, Epoch, Get, Unlink, Forget;
      RemoveStateItem(t);
      AllListsGet(lists, delayed, overflow, Blocked);
      NotTimed(T(), delayed, overflow, t);
      ForgetTask(t);
    }

    // prvAddNewTaskToReadyList of an initialised task
    method CreateTask(t: Tid, p: nat)
      requires Valid() && Enabled(Abs(), Step.CreateTask(t, p))
      modifies this
      ensures Valid() && Abs() == Do(old(Abs()), Step.CreateTask(t, p))
    {
      hide Inv, Core, AllLists, InEpoch, NoneBefore, NoneAbove, Low, Epoch, Get, LinkEnd;
      StepKeepsInv(Abs(), Step.CreateTask(t, p));
      numberOfTasks := numberOfTasks + 1;
      priority := priority[t := p];
      eventValue := eventValue[t := MAX_PRIORITIES - p];
      AddTaskToReadyList(t);
    }

    // The change of priority at the end of vTaskPrioritySet, and of mutex
    // inheritance and disinheritance
    method ChangePriority(t: Tid, p: nat, value: nat)
      requires Valid() && Enabled(Abs(), Step.ChangePriority(t, p, value))
      modifies this
      ensures Valid() && Abs() == Do(old(Abs()), Step.ChangePriority(t, p, value))
    {
      hide Inv, Core, Partition, AllLists, InEpoch, NoneBefore, NoneAbove, Low, Epoch, Enabled, Do, Get, MakeReady;
      PriorityStep(Abs(), t, p, value);
      var wasReady := container[t].Ready?;
      priority := priority[t := p];
      eventValue := eventValue[t := value];
      if wasReady {
        MakeTaskReady(t);
      }
    }
  }
}
