/** The kernel invariant is kept by every step, and what it gives over whole
    runs: the list partition, exact delays, the tick count. */
module KernelInvariants {
  import opened Identifiers
  import opened Ticks
  import opened CursorLists
  import opened Kernels

  // ---------------------------------------------------------------------
  // Moving one item keeps a partition
  // ---------------------------------------------------------------------

  // One list changes its count of one item, which is on no other list.
  lemma PartitionUpdate<K(!new)>(lists: map<K, TaskList>, container: map<Tid, K>,
                                 lists': map<K, TaskList>, container': map<Tid, K>, id: K, t: Tid, c: nat)
    requires Partition(lists, container) && c <= 1
    requires forall other :: other != id ==> Get(lists', other) == Get(lists, other)
    requires t in container ==> container[t] == id
    requires multiset(Get(lists', id).items) == multiset(Get(lists, id).items)[t := c]
    requires container' == if c == 1 then container[t := id] else container - {t}
    ensures Partition(lists', container')
  {
    forall other, u
      ensures multiset(Get(lists', other).items)[u] == if u in container' && container'[u] == other then 1 else 0
    {
      assert multiset(Get(lists, other).items)[u] == if u in container && container[u] == other then 1 else 0;
    }
  }

  lemma DropKeeps<K(!new)>(lists: map<K, TaskList>, container: map<Tid, K>, t: Tid)
    requires Partition(lists, container) && t in container
    ensures t in Get(lists, container[t]).items
    ensures Partition(lists[container[t] := Drop(Get(lists, container[t]), t)], container - {t})
  {
    var l := Get(lists, container[t]);
    assert multiset(l.items)[t] == 1;
    RemoveElements(l, t);
    PartitionUpdate(lists, container, lists[container[t] := Drop(l, t)], container - {t}, container[t], t, 0);
  }

  lemma InsertKeeps<K(!new)>(lists: map<K, TaskList>, container: map<Tid, K>, id: K, t: Tid, at: nat, l': TaskList)
    requires Partition(lists, container) && t !in container
    requires at <= |Get(lists, id).items| && l'.items == InsertAt(Get(lists, id).items, at, t)
    ensures Partition(lists[id := l'], container[t := id])
  {
    var l := Get(lists, id);
    assert multiset(l.items)[t] == 0;
    InsertAtElements(l.items, at, t);
    PartitionUpdate(lists, container, lists[id := l'], container[t := id], id, t, 1);
  }

  function EndPos(l: TaskList): nat {
    if l.cursor == 0 then |l.items| else l.cursor - 1
  }

  lemma InsertEndKeeps<K(!new)>(lists: map<K, TaskList>, container: map<Tid, K>, id: K, t: Tid)
    requires Partition(lists, container) && t !in container
    ensures Partition(lists[id := InsertEnd(Get(lists, id), t)], container[t := id])
  {
    InsertKeeps(lists, container, id, t, EndPos(Get(lists, id)), InsertEnd(Get(lists, id), t));
  }

  lemma InsertBeforeKeeps<K(!new)>(lists: map<K, TaskList>, container: map<Tid, K>, id: K, t: Tid, at: nat)
    requires Partition(lists, container) && t !in container && at <= |Get(lists, id).items|
    ensures Partition(lists[id := InsertBefore(Get(lists, id), at, t)], container[t := id])
  {
    InsertKeeps(lists, container, id, t, at, InsertBefore(Get(lists, id), at, t));
  }

  // ---------------------------------------------------------------------
  // The order of the blocked list
  // ---------------------------------------------------------------------

  lemma DropKeepsOrder(m: map<Tid, nat>, l: TaskList, t: Tid)
    requires ByDue(m, l)
    ensures ByDue(m, Drop(l, t))
  {
    if t in l.items {
      var i := IndexOf(l.items, t);
      var r := Column(m, Drop(l, t).items);
      var c := Column(m, l.items);
      assert forall a :: 0 <= a < |r| ==> r[a] == c[if a < i then a else a + 1];
    }
  }

  lemma InsertKeepsOrder(m: map<Tid, nat>, l: TaskList, t: Tid, moment: nat)
    requires ByDue(m, l) && t !in l.items
    ensures ByDue(m[t := moment], InsertBefore(l, InsertPos(Column(m, l.items), moment), t))
  {
    var c := Column(m, l.items);
    var at := InsertPos(c, moment);
    InsertKeepsSorted(c, moment);
    var c' := Column(m[t := moment], InsertAt(l.items, at, t));
    assert c' == InsertAt(c, at, moment);
  }

  // ---------------------------------------------------------------------
  // Making tasks ready
  // ---------------------------------------------------------------------

  // Everything but the lists and the containers
  ghost predicate SameBut(s: Tasks, s': Tasks) {
    s'.eventValue == s.eventValue && s'.priority == s.priority && s'.due == s.due
  }

  lemma UnlinkPartition(s: Tasks, t: Tid)
    requires Partition(s.lists, s.stateIn) && t in s.stateIn
    ensures Partition(Unlink(s, t).lists, Unlink(s, t).stateIn) && t !in Unlink(s, t).stateIn
  {
    DropKeeps(s.lists, s.stateIn, t);
  }

  lemma ReadyContainerKeeps(s: Tasks, t: Tid)
    requires Prioritised(s.priority, s.stateIn) && WaitersBlocked(s.eventIn, s.stateIn)
    requires t in s.stateIn && t !in s.eventIn
    ensures Prioritised(s.priority, s.stateIn[t := Ready(At(s.priority, t))])
    ensures WaitersBlocked(s.eventIn, s.stateIn[t := Ready(At(s.priority, t))])
  {
  }

  lemma MakeReadyLists(s: Tasks, t: Tid)
    requires Partition(s.lists, s.stateIn) && t in s.stateIn
    ensures Partition(MakeReady(s, t).lists, MakeReady(s, t).stateIn)
    ensures MakeReady(s, t).stateIn == s.stateIn[t := Ready(At(s.priority, t))]
    ensures Get(MakeReady(s, t).lists, Blocked)
         == if IsIn(s, t, Blocked) then Drop(Get(s.lists, Blocked), t) else Get(s.lists, Blocked)
  {
    DropKeeps(s.lists, s.stateIn, t);
    var s1 := Unlink(s, t);
    InsertEndKeeps(s1.lists, s1.stateIn, Ready(At(s.priority, t)), t);
  }

  lemma MakeReadyKeeps(s: Tasks, t: Tid)
    requires Core(s) && t in s.stateIn && t !in s.eventIn
    ensures Core(MakeReady(s, t)) && SameBut(s, MakeReady(s, t))
    ensures MakeReady(s, t).stateIn == s.stateIn[t := Ready(At(s.priority, t))]
    ensures MakeReady(s, t).events == s.events && MakeReady(s, t).eventIn == s.eventIn
    ensures Get(MakeReady(s, t).lists, Blocked)
         == if IsIn(s, t, Blocked) then Drop(Get(s.lists, Blocked), t) else Get(s.lists, Blocked)
  {
    MakeReadyLists(s, t);
    ReadyContainerKeeps(s, t);
    DropKeepsOrder(s.due, Get(s.lists, Blocked), t);
  }

  lemma UnlinkEventKeeps(s: Tasks, t: Tid)
    requires Core(s)
    ensures Core(UnlinkEvent(s, t)) && SameBut(s, UnlinkEvent(s, t))
    ensures UnlinkEvent(s, t).stateIn == s.stateIn && UnlinkEvent(s, t).lists == s.lists
    ensures UnlinkEvent(s, t).eventIn == s.eventIn - {t}
  {
    if t in s.eventIn {
      DropKeeps(s.events, s.eventIn, t);
    }
  }

  lemma OneReady(s: Tasks, t: Tid)
    requires Core(s) && t in s.stateIn
    ensures var s1 := MakeReady(UnlinkEvent(s, t), t);
            Core(s1) && SameBut(s, s1)
            && s1.stateIn == s.stateIn[t := Ready(At(s.priority, t))] && s1.eventIn == s.eventIn - {t}
  {
    UnlinkEventKeeps(s, t);
    MakeReadyKeeps(UnlinkEvent(s, t), t);
  }

  ghost function ReadyIn(priority: map<Tid, nat>, stateIn: map<Tid, ListId>, ts: seq<Tid>): map<Tid, ListId> {
    map t | t in stateIn :: if t in ts then Ready(At(priority, t)) else stateIn[t]
  }

  ghost function Members(ts: seq<Tid>): set<Tid> {
    set t | t in ts
  }

  lemma ReadyInStep(priority: map<Tid, nat>, stateIn: map<Tid, ListId>, eventIn: map<Tid, EventId>, ts: seq<Tid>)
    requires ts != [] && ts[0] in stateIn
    ensures ReadyIn(priority, stateIn[ts[0] := Ready(At(priority, ts[0]))], ts[1..]) == ReadyIn(priority, stateIn, ts)
    ensures eventIn - {ts[0]} - Members(ts[1..]) == eventIn - Members(ts)
  {
    assert forall u :: u in ts <==> u == ts[0] || u in ts[1..];
  }

  // Exactly the given tasks become ready, each at its own priority, and they
  // wait for nothing any more.
  lemma {:induction false} ReadyAllKeeps(s: Tasks, ts: seq<Tid>)
    requires Core(s) && forall t :: t in ts ==> t in s.stateIn
    ensures Core(ReadyAll(s, ts)) && SameBut(s, ReadyAll(s, ts))
    ensures ReadyAll(s, ts).stateIn == ReadyIn(s.priority, s.stateIn, ts)
    ensures ReadyAll(s, ts).eventIn == s.eventIn - Members(ts) && Submap(ReadyAll(s, ts).eventIn, s.eventIn)
    decreases |ts|
  {
    if ts != [] {
      OneReady(s, ts[0]);
      ReadyAllKeeps(MakeReady(UnlinkEvent(s, ts[0]), ts[0]), ts[1..]);
      ReadyInStep(s.priority, s.stateIn, s.eventIn, ts);
    }
  }

  // ---------------------------------------------------------------------
  // Ticks
  // ---------------------------------------------------------------------

  lemma InList<K(!new)>(lists: map<K, TaskList>, container: map<Tid, K>, id: K, t: Tid)
    requires Partition(lists, container)
    ensures t in Get(lists, id).items <==> t in container && container[t] == id
  {
    assert t in Get(lists, id).items <==> multiset(Get(lists, id).items)[t] > 0;
  }

  // The list's head segment that has expired is exactly the set of expired tasks.
  lemma ExpiredExactly(s: Tasks, moment: nat, t: Tid)
    requires Partition(s.lists, s.stateIn) && ByDue(s.due, Get(s.lists, Blocked))
    ensures t in Expired(s, moment) <==> IsIn(s, t, Blocked) && At(s.due, t) <= moment
  {
    var items := Get(s.lists, Blocked).items;
    var c := Column(s.due, items);
    var p := InsertPos(c, moment);
    InsertKeepsSorted(c, moment);
    InList(s.lists, s.stateIn, Blocked, t);
    if t in Expired(s, moment) {
      var i :| 0 <= i < p && items[i] == t;
      assert c[i] <= moment;
    }
    if IsIn(s, t, Blocked) && At(s.due, t) <= moment {
      var i :| 0 <= i < |items| && items[i] == t;
      assert c[i] == At(s.due, t);
      assert items[..p][i] == t;
    }
  }

  // The containers once every task due by a moment has been made ready
  ghost function WokenBy(priority: map<Tid, nat>, due: map<Tid, nat>, stateIn: map<Tid, ListId>,
                         moment: nat): map<Tid, ListId> {
    map t | t in stateIn :: if stateIn[t] == Blocked && At(due, t) <= moment then Ready(At(priority, t)) else stateIn[t]
  }

  lemma WokenTwice(priority: map<Tid, nat>, due: map<Tid, nat>, stateIn: map<Tid, ListId>, early: nat, late: nat)
    requires early <= late
    ensures WokenBy(priority, due, WokenBy(priority, due, stateIn, early), late)
            == WokenBy(priority, due, stateIn, late)
  {
  }

  lemma WokenAlready(priority: map<Tid, nat>, due: map<Tid, nat>, stateIn: map<Tid, ListId>, now: nat)
    requires Ahead(due, stateIn, now)
    ensures WokenBy(priority, due, stateIn, now) == stateIn
  {
  }

  lemma AheadAfter(priority: map<Tid, nat>, due: map<Tid, nat>, stateIn: map<Tid, ListId>, now: nat, n: nat)
    requires Ahead(due, stateIn, now)
    ensures Ahead(due, WokenBy(priority, due, stateIn, now + n), now + n)
  {
  }

  ghost predicate Submap(m: map<Tid, EventId>, m': map<Tid, EventId>) {
    forall t :: t in m ==> t in m' && m[t] == m'[t]
  }

  lemma ExpiredAreWoken(s: Tasks, moment: nat)
    requires Core(s)
    ensures forall t :: t in Expired(s, moment) ==> t in s.stateIn
    ensures ReadyIn(s.priority, s.stateIn, Expired(s, moment)) == WokenBy(s.priority, s.due, s.stateIn, moment)
  {
    forall t
      ensures t in Expired(s, moment) <==> IsIn(s, t, Blocked) && At(s.due, t) <= moment
    {
      ExpiredExactly(s, moment, t);
    }
  }

  lemma HeadOfExpired(due: map<Tid, nat>, items: seq<Tid>, moment: nat)
    requires items != [] && InsertPos(Column(due, items), moment) > 0
    ensures InsertPos(Column(due, items[1..]), moment) == InsertPos(Column(due, items), moment) - 1
  {
    assert Column(due, items)[1..] == Column(due, items[1..]);
  }

  // Making the first expired task ready leaves the others expired, in order.
  lemma ExpiredTail(s: Tasks, moment: nat)
    requires Core(s) && Expired(s, moment) != []
    ensures var t := Expired(s, moment)[0];
            && t == Get(s.lists, Blocked).items[0] && IsIn(s, t, Blocked) && At(s.due, t) <= moment
            && Expired(MakeReady(UnlinkEvent(s, t), t), moment) == Expired(s, moment)[1..]
  {
    hide MakeReady, UnlinkEvent, Partition, Prioritised, WaitersBlocked, ByDue, Drop, Column, InsertPos;
    var items := Get(s.lists, Blocked).items;
    var t := items[0];
    ExpiredExactly(s, moment, t);
    UnlinkEventKeeps(s, t);
    MakeReadyKeeps(UnlinkEvent(s, t), t);
    HeadDrop(Get(s.lists, Blocked), t);
    HeadOfExpired(s.due, items, moment);
  }

  lemma HeadDrop(l: TaskList, t: Tid)
    requires l.items != [] && l.items[0] == t
    ensures Drop(l, t).items == l.items[1..]
  {
  }

  lemma ExpiredNone(s: Tasks, moment: nat)
    ensures Expired(s, moment) == [] <==>
              Get(s.lists, Blocked).items == [] || At(s.due, Get(s.lists, Blocked).items[0]) > moment
  {
  }

  // k' is k after n more ticks, which made ready exactly the tasks due in them.
  ghost predicate Ticked(k: Kernel, n: nat, k': Kernel) {
    && k' == k.(tasks := k'.tasks, now := k.now + n)
    && Core(k'.tasks) && SameBut(k.tasks, k'.tasks) && Submap(k'.tasks.eventIn, k.tasks.eventIn)
    && Ahead(k.tasks.due, k'.tasks.stateIn, k.now + n)
    && k'.tasks.stateIn == WokenBy(k.tasks.priority, k.tasks.due, k.tasks.stateIn, k.now + n)
  }

  // A tick makes ready exactly the tasks due at the new moment.
  lemma OneTickExact(k: Kernel)
    requires Core(k.tasks) && Ahead(k.tasks.due, k.tasks.stateIn, k.now)
    ensures Ticked(k, 1, OneTick(k)) && OneTick(k).now == k.now + 1
    ensures Core(OneTick(k).tasks) && Ahead(OneTick(k).tasks.due, OneTick(k).tasks.stateIn, k.now + 1)
  {
    hide Core, Ahead, WokenBy, ReadyIn, ReadyAll, Expired, Submap;
    var s := k.tasks;
    ExpiredAreWoken(s, k.now + 1);
    ReadyAllKeeps(s, Expired(s, k.now + 1));
    AheadAfter(s.priority, s.due, s.stateIn, k.now, 1);
  }

  lemma TickedThen(k: Kernel, k1: Kernel, n: nat, k2: Kernel)
    requires Ticked(k, 1, k1) && Ticked(k1, n, k2)
    ensures Ticked(k, 1 + n, k2)
  {
    hide Core, Ahead, WokenBy;
    WokenTwice(k.tasks.priority, k.tasks.due, k.tasks.stateIn, k.now + 1, k.now + 1 + n);
  }

  lemma TickedNone(k: Kernel)
    requires Core(k.tasks) && Ahead(k.tasks.due, k.tasks.stateIn, k.now)
    ensures Ticked(k, 0, k)
  {
    WokenAlready(k.tasks.priority, k.tasks.due, k.tasks.stateIn, k.now);
  }

  // n ticks make ready exactly the tasks due within them.
  lemma {:induction false} TickTimesExact(k: Kernel, n: nat)
    requires Core(k.tasks) && Ahead(k.tasks.due, k.tasks.stateIn, k.now)
    ensures Ticked(k, n, TickTimes(k, n))
    decreases n
  {
    hide Ticked, Core, Ahead;
    if n == 0 {
      TickedNone(k);
    } else {
      OneTickExact(k);
      TickTimesExact(OneTick(k), n - 1);
      TickedThen(k, OneTick(k), n - 1, TickTimes(k, n));
    }
  }

  // ---------------------------------------------------------------------
  // Unwinding a suspension
  // ---------------------------------------------------------------------

  lemma PendingAreKnown(s: Tasks)
    requires Core(s)
    ensures forall t :: t in Get(s.events, PendingReady).items <==> Waits(s, t, PendingReady)
    ensures forall t :: t in Get(s.events, PendingReady).items ==> t in s.stateIn
  {
    forall t
      ensures t in Get(s.events, PendingReady).items <==> Waits(s, t, PendingReady)
    {
      InList(s.events, s.eventIn, PendingReady, t);
    }
  }

  lemma AheadAfterReady(priority: map<Tid, nat>, due: map<Tid, nat>, stateIn: map<Tid, ListId>, now: nat, ts: seq<Tid>)
    requires Ahead(due, stateIn, now)
    ensures Ahead(due, ReadyIn(priority, stateIn, ts), now)
  {
  }

  // Moving the pending tasks to the ready lists, as the scheduler resumes
  lemma ReadyPendingExact(k: Kernel)
    requires Core(k.tasks) && Ahead(k.tasks.due, k.tasks.stateIn, k.now)
    ensures var s := ReadyPending(k).tasks;
            Core(s) && SameBut(k.tasks, s) && Ahead(s.due, s.stateIn, k.now) && NothingPending(s.eventIn)
            && s.stateIn == ReadyIn(s.priority, k.tasks.stateIn, Get(k.tasks.events, PendingReady).items)
    ensures ReadyPending(k) == k.(tasks := ReadyPending(k).tasks)
  {
    hide Core, Ahead, ReadyIn, ReadyAll;
    var s, ts := k.tasks, Get(k.tasks.events, PendingReady).items;
    PendingAreKnown(s);
    ReadyAllKeeps(s, ts);
    AheadAfterReady(s.priority, s.due, s.stateIn, k.now, ts);
  }

  lemma PendingGone(eventIn: map<Tid, EventId>, eventIn': map<Tid, EventId>)
    requires NothingPending(eventIn) && Submap(eventIn', eventIn)
    ensures NothingPending(eventIn')
  {
  }

  // xTaskResumeAll makes ready exactly the tasks held pending and those that the
  // pended ticks have made due.
  lemma ResumeAllExact(k: Kernel)
    requires Core(k.tasks) && Ahead(k.tasks.due, k.tasks.stateIn, k.now) && k.depth == 1
    ensures ResumeAll(k) == k.(tasks := ResumeAll(k).tasks, now := k.now + k.pended, pended := 0, depth := 0)
    ensures var s := ResumeAll(k).tasks;
            Core(s) && SameBut(k.tasks, s) && Ahead(s.due, s.stateIn, k.now + k.pended) && NothingPending(s.eventIn)
            && s.stateIn == WokenBy(s.priority, s.due,
                                    ReadyIn(s.priority, k.tasks.stateIn, Get(k.tasks.events, PendingReady).items),
                                    k.now + k.pended)
  {
    hide Core, Ahead, WokenBy, ReadyIn, TickTimes, NothingPending, Submap, ReadyPending;
    var k1 := k.(depth := 0);
    var k2 := ReadyPending(k1);
    var k3 := TickTimes(k2, k.pended);
    ReadyPendingExact(k1);
    TickTimesExact(k2, k.pended);
    PendingGone(k2.tasks.eventIn, k3.tasks.eventIn);
  }

  // ---------------------------------------------------------------------
  // The other movements
  // ---------------------------------------------------------------------

  lemma TakeOff(s: Tasks, t: Tid)
    requires Core(s) && t in s.stateIn
    ensures var s1 := UnlinkEvent(Unlink(s, t), t);
            Partition(s1.lists, s1.stateIn) && Partition(s1.events, s1.eventIn) && SameBut(s, s1)
            && s1.stateIn == s.stateIn - {t} && s1.eventIn == s.eventIn - {t}
            && ByDue(s.due, Get(s1.lists, Blocked))
  {
    DropKeeps(s.lists, s.stateIn, t);
    if t in s.eventIn {
      DropKeeps(s.events, s.eventIn, t);
    }
    DropKeepsOrder(s.due, Get(s.lists, Blocked), t);
  }

  lemma ContainersAfterMove(s: Tasks, t: Tid, id: ListId)
    requires Prioritised(s.priority, s.stateIn) && WaitersBlocked(s.eventIn, s.stateIn)
    requires t in s.stateIn && !id.Ready?
    ensures Prioritised(s.priority, s.stateIn[t := id]) && WaitersBlocked(s.eventIn - {t}, s.stateIn[t := id])
    ensures s.stateIn[t := id] == (s.stateIn - {t})[t := id]
  {
  }

  // Taking a task off every list and putting it on one that holds no waiters
  lemma MoveAway(s: Tasks, t: Tid, id: ListId)
    requires Core(s) && t in s.stateIn && (id == Suspended || id == Terminating)
    ensures var s1 := LinkEnd(UnlinkEvent(Unlink(s, t), t), t, id);
            Core(s1) && SameBut(s, s1) && s1.stateIn == s.stateIn[t := id] && s1.eventIn == s.eventIn - {t}
  {
    hide Partition, Prioritised, WaitersBlocked, ByDue;
    TakeOff(s, t);
    var s1 := UnlinkEvent(Unlink(s, t), t);
    InsertEndKeeps(s1.lists, s1.stateIn, id, t);
    ContainersAfterMove(s, t, id);
  }

  // Taking a task out altogether
  lemma ForgetKeeps(s: Tasks, t: Tid)
    requires Core(s) && t in s.stateIn
    ensures var s1 := Forget(UnlinkEvent(Unlink(s, t), t), t);
            Core(s1) && s1.stateIn == s.stateIn - {t} && s1.eventIn == s.eventIn - {t} && s1.due == s.due - {t}
  {
    TakeOff(s, t);
    var s1 := UnlinkEvent(Unlink(s, t), t);
    InList(s1.lists, s1.stateIn, Blocked, t);
    assert Column(s.due - {t}, Get(s1.lists, Blocked).items) == Column(s.due, Get(s1.lists, Blocked).items);
  }

  lemma BlockedContainers(s: Tasks, t: Tid, id: ListId)
    requires Prioritised(s.priority, s.stateIn) && WaitersBlocked(s.eventIn - {t}, s.stateIn)
    requires t in s.stateIn && (id == Blocked || id == Suspended)
    ensures Prioritised(s.priority, s.stateIn[t := id]) && WaitersBlocked(s.eventIn, s.stateIn[t := id])
    ensures s.stateIn[t := id] == (s.stateIn - {t})[t := id]
  {
    var away := s.eventIn - {t};
    forall u | u in s.eventIn
      ensures u == t || (u in s.stateIn && (s.stateIn[u] == Blocked || s.stateIn[u] == Suspended))
    {
      assert u != t ==> u in away;
    }
  }

  lemma AheadAfterDelay(due: map<Tid, nat>, stateIn: map<Tid, ListId>, now: nat, t: Tid, ticks: Tick)
    requires Ahead(due, stateIn, now) && ticks > 0
    ensures Ahead(due[t := now + ticks], stateIn[t := Blocked], now)
    ensures Ahead(due, stateIn[t := Suspended], now)
  {
  }

  // Blocking a task with no end, whose event item may already be on an event list
  lemma DelayForeverKeeps(s: Tasks, t: Tid)
    requires Partition(s.lists, s.stateIn) && Partition(s.events, s.eventIn) && Prioritised(s.priority, s.stateIn)
    requires WaitersBlocked(s.eventIn - {t}, s.stateIn) && ByDue(s.due, Get(s.lists, Blocked)) && t in s.stateIn
    ensures Core(LinkEnd(Unlink(s, t), t, Suspended))
    ensures LinkEnd(Unlink(s, t), t, Suspended).stateIn == s.stateIn[t := Suspended]
  {
    hide Partition, Prioritised, WaitersBlocked, ByDue, Column;
    DropKeeps(s.lists, s.stateIn, t);
    DropKeepsOrder(s.due, Get(s.lists, Blocked), t);
    InsertEndKeeps(Unlink(s, t).lists, Unlink(s, t).stateIn, Suspended, t);
    BlockedContainers(s, t, Suspended);
  }

  // Blocking a task until a moment
  lemma DelayUntilKeeps(s: Tasks, t: Tid, moment: nat)
    requires Partition(s.lists, s.stateIn) && Partition(s.events, s.eventIn) && Prioritised(s.priority, s.stateIn)
    requires WaitersBlocked(s.eventIn - {t}, s.stateIn) && ByDue(s.due, Get(s.lists, Blocked)) && t in s.stateIn
    ensures Core(LinkDue(Unlink(s, t), t, moment))
    ensures LinkDue(Unlink(s, t), t, moment).stateIn == s.stateIn[t := Blocked]
  {
    hide Partition, Prioritised, WaitersBlocked, ByDue, Column, InsertPos;
    var s1 := Unlink(s, t);
    var l := Get(s1.lists, Blocked);
    DropKeeps(s.lists, s.stateIn, t);
    DropKeepsOrder(s.due, Get(s.lists, Blocked), t);
    InList(s1.lists, s1.stateIn, Blocked, t);
    InsertBeforeKeeps(s1.lists, s1.stateIn, Blocked, t, InsertPos(Column(s.due, l.items), moment));
    InsertKeepsOrder(s.due, l, t, moment);
    BlockedContainers(s, t, Blocked);
  }

  lemma DelayKeeps(s: Tasks, t: Tid, now: nat, ticks: Tick, indefinitely: bool)
    requires Partition(s.lists, s.stateIn) && Partition(s.events, s.eventIn) && Prioritised(s.priority, s.stateIn)
    requires WaitersBlocked(s.eventIn - {t}, s.stateIn) && ByDue(s.due, Get(s.lists, Blocked))
    requires Ahead(s.due, s.stateIn, now)
    requires t in s.stateIn && ticks > 0
    ensures var s1 := Delay(s, t, now, ticks, indefinitely);
            Core(s1) && Ahead(s1.due, s1.stateIn, now) && s1.events == s.events && s1.eventIn == s.eventIn
            && s1.eventValue == s.eventValue && s1.priority == s.priority
            && (if ticks == MAX_DELAY && indefinitely then s1.stateIn == s.stateIn[t := Suspended] && s1.due == s.due
                else s1.stateIn == s.stateIn[t := Blocked] && s1.due == s.due[t := now + ticks])
  {
    hide Core, Partition, Prioritised, WaitersBlocked, ByDue, Ahead, Column, InsertPos;
    AheadAfterDelay(s.due, s.stateIn, now, t, ticks);
    if ticks == MAX_DELAY && indefinitely {
      DelayForeverKeeps(s, t);
    } else {
      DelayUntilKeeps(s, t, now + ticks);
    }
  }

  // ---------------------------------------------------------------------
  // Every step keeps the invariant
  // ---------------------------------------------------------------------

  lemma ReadyOneKeepsOrderly(k: Kernel, t: Tid)
    requires Orderly(k) && t in k.tasks.stateIn
    ensures Orderly(k.(tasks := MakeReady(UnlinkEvent(k.tasks, t), t)))
  {
    OneReady(k.tasks, t);
  }

  // One more tick, whether it is processed or pended
  lemma CountAfterTick(now: nat, pended: Tick, interrupts: nat)
    requires Low(now + pended) == Low(interrupts)
    ensures Low(now + 1 + pended) == Low(interrupts + 1) && Low(now + Add(pended, 1)) == Low(interrupts + 1)
  {
    AddFollowsClock(interrupts, 1);
    AddFollowsClock(now + pended, 1);
    AddFollowsClock(now, pended);
    AddFollowsClock(now, Add(pended, 1));
  }

  lemma TickInterruptKeepsOrderly(k: Kernel)
    requires Orderly(k)
    ensures Orderly(Do(k, TickInterrupt))
  {
    hide Core, Ahead, NothingPending, OneTick, Low;
    var k1 := k.(interrupts := k.interrupts + 1);
    CountAfterTick(k.now, k.pended, k.interrupts);
    if k.depth == 0 {
      OneTickExact(k1);
      PendingGone(k.tasks.eventIn, OneTick(k1).tasks.eventIn);
    }
  }

  lemma ResumeKeepsOrderly(k: Kernel)
    requires Orderly(k) && k.depth > 0
    ensures Orderly(ResumeAll(k))
  {
    if k.depth == 1 {
      ResumeAllExact(k);
    }
  }

  lemma WaitersWithout(eventIn: map<Tid, EventId>, stateIn: map<Tid, ListId>, t: Tid)
    requires WaitersBlocked(eventIn, stateIn)
    ensures WaitersBlocked(eventIn - {t}, stateIn)
  {
  }

  lemma WaitersPlaced(eventIn: map<Tid, EventId>, stateIn: map<Tid, ListId>, t: Tid, e: EventId)
    requires WaitersBlocked(eventIn, stateIn)
    ensures WaitersBlocked(eventIn[t := e] - {t}, stateIn)
  {
  }

  lemma DelayKeepsOrderly(k: Kernel, ticks: Tick, indefinitely: bool)
    requires Orderly(k) && CanBlock(k) && ticks > 0
    ensures Orderly(Do(k, DelayCurrent(ticks, indefinitely)))
  {
    hide Partition, Prioritised, WaitersBlocked, ByDue, Ahead, NothingPending, Delay;
    WaitersWithout(k.tasks.eventIn, k.tasks.stateIn, k.current);
    DelayKeeps(k.tasks, k.current, k.now, ticks, indefinitely);
  }

  // Blocking on an event list: the event item goes first, the state item after.
  lemma PlaceKeepsOrderly(k: Kernel, s: Tasks, e: EventId, ticks: Tick)
    requires Orderly(k) && CanBlock(k) && ticks > 0 && e != PendingReady
    requires Partition(s.events, s.eventIn) && s.eventIn == k.tasks.eventIn[k.current := e]
    requires s == k.tasks.(events := s.events, eventIn := s.eventIn, eventValue := s.eventValue)
    ensures Orderly(k.(tasks := Delay(s, k.current, k.now, ticks, true)))
  {
    WaitersPlaced(k.tasks.eventIn, k.tasks.stateIn, k.current, e);
    hide Partition, Prioritised, WaitersBlocked, ByDue, Ahead, Delay;
    DelayKeeps(s, k.current, k.now, ticks, true);
  }

  lemma PlaceOnEventListKeepsOrderly(k: Kernel, e: EventId, ticks: Tick)
    requires Orderly(k) && Enabled(k, PlaceOnEventList(e, ticks))
    ensures Orderly(Do(k, PlaceOnEventList(e, ticks)))
  {
    var s, l := k.tasks, Get(k.tasks.events, e);
    InsertBeforeKeeps(s.events, s.eventIn, e, k.current,
                      InsertPos(Column(s.eventValue, l.items), At(s.eventValue, k.current)));
    PlaceKeepsOrderly(k, LinkEventByValue(s, k.current, e), e, ticks);
  }

  lemma PlaceOnUnorderedKeepsOrderly(k: Kernel, e: EventId, value: nat, ticks: Tick)
    requires Orderly(k) && Enabled(k, PlaceOnUnorderedEventList(e, value, ticks))
    ensures Orderly(Do(k, PlaceOnUnorderedEventList(e, value, ticks)))
  {
    var s := k.tasks.(eventValue := k.tasks.eventValue[k.current := value]);
    InsertEndKeeps(s.events, s.eventIn, e, k.current);
    PlaceKeepsOrderly(k, LinkEventEnd(s, k.current, e), e, ticks);
  }

  // Holding a task pending: only its event item moves.
  lemma HoldPendingKeeps(s: Tasks, t: Tid)
    requires Core(s) && t in s.stateIn && (s.stateIn[t] == Blocked || s.stateIn[t] == Suspended)
    ensures var s1 := LinkEventEnd(UnlinkEvent(s, t), t, PendingReady);
            Core(s1) && SameBut(s, s1) && s1.stateIn == s.stateIn
  {
    UnlinkEventKeeps(s, t);
    var s1 := UnlinkEvent(s, t);
    InsertEndKeeps(s1.events, s1.eventIn, PendingReady, t);
  }

  lemma WakeKeepsOrderly(k: Kernel, t: Tid)
    requires Orderly(k) && t in k.tasks.eventIn
    ensures Orderly(WakeTask(k, t))
  {
    if k.depth == 0 {
      ReadyOneKeepsOrderly(k, t);
    } else {
      HoldPendingKeeps(k.tasks, t);
    }
  }

  lemma HeadWaits(s: Tasks, e: EventId)
    requires Core(s) && Get(s.events, e).items != []
    ensures Waits(s, Get(s.events, e).items[0], e)
  {
    InList(s.events, s.eventIn, e, Get(s.events, e).items[0]);
  }

  lemma AheadAfterAway(due: map<Tid, nat>, stateIn: map<Tid, ListId>, now: nat, t: Tid, id: ListId)
    requires Ahead(due, stateIn, now) && id != Blocked
    ensures Ahead(due, stateIn[t := id], now) && Ahead(due - {t}, stateIn - {t}, now)
  {
  }

  lemma SuspendKeepsOrderly(k: Kernel, t: Tid)
    requires Orderly(k) && CanStop(k, t)
    ensures Orderly(Do(k, SuspendTask(t)))
  {
    MoveAway(k.tasks, t, Suspended);
    AheadAfterAway(k.tasks.due, k.tasks.stateIn, k.now, t, Suspended);
  }

  lemma DeleteKeepsOrderly(k: Kernel, t: Tid)
    requires Orderly(k) && CanStop(k, t)
    ensures Orderly(Do(k, DeleteTask(t)))
  {
    hide Core, Ahead;
    AheadAfterAway(k.tasks.due, k.tasks.stateIn, k.now, t, Terminating);
    if t == k.current {
      MoveAway(k.tasks, t, Terminating);
    } else {
      ForgetKeeps(k.tasks, t);
    }
  }

  lemma ResumeTaskKeepsOrderly(k: Kernel, t: Tid)
    requires Orderly(k) && IsSuspended(k.tasks, t)
    ensures Orderly(k.(tasks := MakeReady(k.tasks, t)))
    ensures k.depth > 0 ==> Orderly(k.(tasks := LinkEventEnd(k.tasks, t, PendingReady)))
  {
    ReadyOneKeepsOrderly(k, t);
    HoldPendingKeeps(k.tasks, t);
  }

  lemma ReapKeepsOrderly(k: Kernel)
    requires Orderly(k) && Enabled(k, ReapTerminated)
    ensures Orderly(Do(k, ReapTerminated))
  {
    var s, t := k.tasks, Get(k.tasks.lists, Terminating).items[0];
    InList(s.lists, s.stateIn, Terminating, t);
    ForgetKeeps(s, t);
    AheadAfterAway(s.due, s.stateIn, k.now, t, Terminating);
    assert s.eventIn - {t} == s.eventIn;
  }

  lemma CreateKeepsOrderly(k: Kernel, t: Tid, p: nat)
    requires Orderly(k) && Enabled(k, CreateTask(t, p))
    ensures Orderly(Do(k, CreateTask(t, p)))
  {
    hide Partition, Prioritised, WaitersBlocked, ByDue, Ahead, NothingPending;
    InsertEndKeeps(k.tasks.lists, k.tasks.stateIn, Ready(p), t);
    CreatedContainers(k, t, p);
  }

  lemma CreatedContainers(k: Kernel, t: Tid, p: nat)
    requires Prioritised(k.tasks.priority, k.tasks.stateIn) && WaitersBlocked(k.tasks.eventIn, k.tasks.stateIn)
    requires Ahead(k.tasks.due, k.tasks.stateIn, k.now) && t !in k.tasks.stateIn && p < MAX_PRIORITIES
    ensures Prioritised(k.tasks.priority[t := p], k.tasks.stateIn[t := Ready(p)])
    ensures WaitersBlocked(k.tasks.eventIn, k.tasks.stateIn[t := Ready(p)])
    ensures Ahead(k.tasks.due, k.tasks.stateIn[t := Ready(p)], k.now)
  {
  }

  lemma PriorityContainers(k: Kernel, t: Tid, p: nat)
    requires Prioritised(k.tasks.priority, k.tasks.stateIn) && WaitersBlocked(k.tasks.eventIn, k.tasks.stateIn)
    requires Ahead(k.tasks.due, k.tasks.stateIn, k.now) && t in k.tasks.stateIn && p < MAX_PRIORITIES
    ensures if k.tasks.stateIn[t].Ready? then
              Prioritised(k.tasks.priority[t := p], k.tasks.stateIn[t := Ready(p)])
              && WaitersBlocked(k.tasks.eventIn, k.tasks.stateIn[t := Ready(p)])
              && Ahead(k.tasks.due, k.tasks.stateIn[t := Ready(p)], k.now)
            else Prioritised(k.tasks.priority[t := p], k.tasks.stateIn)
  {
  }

  lemma ChangePriorityKeepsOrderly(k: Kernel, t: Tid, p: nat, value: nat)
    requires Orderly(k) && Enabled(k, ChangePriority(t, p, value))
    ensures Orderly(Do(k, ChangePriority(t, p, value)))
  {
    hide Partition, Prioritised, WaitersBlocked, ByDue, Ahead, NothingPending;
    var s := k.tasks.(priority := k.tasks.priority[t := p], eventValue := k.tasks.eventValue[t := value]);
    PriorityContainers(k, t, p);
    if s.stateIn[t].Ready? {
      MakeReadyLists(s, t);
    }
  }

  // The invariant is not about the values of event items.
  lemma EventValueKeepsOrderly(k: Kernel, t: Tid, value: nat)
    requires Orderly(k)
    ensures Orderly(k.(tasks := SetEventValue(k.tasks, t, value)))
  {
    hide Partition, Prioritised, WaitersBlocked, ByDue, Ahead, NothingPending;
  }

  lemma SwitchKeepsOrderly(k: Kernel, p: nat)
    requires Orderly(k) && Enabled(k, SwitchContext(p))
    ensures Orderly(Do(k, SwitchContext(p))) && IsIn(k.tasks, Do(k, SwitchContext(p)).current, Ready(p))
  {
    var s, l := k.tasks, Get(k.tasks.lists, Ready(p));
    InList(s.lists, s.stateIn, Ready(p), Selected(Next(l)));
    SameItems(s.lists, s.stateIn, Ready(p), Next(l));
  }

  lemma SameItems<K(!new)>(lists: map<K, TaskList>, container: map<Tid, K>, id: K, l: TaskList)
    requires Partition(lists, container) && l.items == Get(lists, id).items
    ensures Partition(lists[id := l], container)
  {
    var lists' := lists[id := l];
    forall other, t
      ensures multiset(Get(lists', other).items)[t] == if t in container && container[t] == other then 1 else 0
    {
      assert multiset(Get(lists, other).items)[t] == if t in container && container[t] == other then 1 else 0;
    }
  }

  lemma StepIsOrderly(k: Kernel, step: Step)
    requires Orderly(k) && Enabled(k, step)
    ensures Orderly(Do(k, step))
  {
    match step
    case TickInterrupt => TickInterruptKeepsOrderly(k);
    case SuspendAll =>
    case ResumeTheScheduler => ResumeKeepsOrderly(k);
    case DelayCurrent(ticks, indefinitely) => DelayKeepsOrderly(k, ticks, indefinitely);
    case PlaceOnEventList(e, ticks) => PlaceOnEventListKeepsOrderly(k, e, ticks);
    case PlaceOnUnorderedEventList(e, value, ticks) => PlaceOnUnorderedKeepsOrderly(k, e, value, ticks);
    case RemoveFromEventList(e) =>
      HeadWaits(k.tasks, e);
      WakeKeepsOrderly(k, Get(k.tasks.events, e).items[0]);
    case RemoveFromUnorderedEventList(t, value) =>
      EventValueKeepsOrderly(k, t, value);
      ReadyOneKeepsOrderly(k.(tasks := SetEventValue(k.tasks, t, value)), t);
    case ResetEventItemValue => EventValueKeepsOrderly(k, k.current, Do(k, step).tasks.eventValue[k.current]);
    case SuspendTask(t) => SuspendKeepsOrderly(k, t);
    case ResumeTask(t) =>
      if IsSuspended(k.tasks, t) {
        ResumeTaskKeepsOrderly(k, t);
      }
    case ResumeFromISR(t) =>
      if IsSuspended(k.tasks, t) {
        ResumeTaskKeepsOrderly(k, t);
      }
    case DeleteTask(t) => DeleteKeepsOrderly(k, t);
    case ReapTerminated => ReapKeepsOrderly(k);
    case CreateTask(t, p) => CreateKeepsOrderly(k, t, p);
    case ChangePriority(t, p, value) => ChangePriorityKeepsOrderly(k, t, p, value);
    case SwitchContext(p) => SwitchKeepsOrderly(k, p);
  }
  // ---- the counters ----

  // No step but creation, deletion and clean-up moves a task to or from the
  // termination list, or brings in a task or takes one away.
  lemma SameCounts(k: Kernel, k': Kernel)
    requires Counted(k) && k'.numberOfTasks == k.numberOfTasks && k'.waitingCleanUp == k.waitingCleanUp
    requires forall t :: t in k'.tasks.stateIn <==> t in k.tasks.stateIn
    requires forall t :: t in k.tasks.stateIn ==>
               (k'.tasks.stateIn[t] == Terminating <==> k.tasks.stateIn[t] == Terminating)
    ensures Counted(k')
  {
    assert k'.tasks.stateIn.Keys == k.tasks.stateIn.Keys;
    assert On(k'.tasks.stateIn, Terminating) == On(k.tasks.stateIn, Terminating);
  }

  lemma SizeOfKeys(m: map<Tid, ListId>)
    ensures |m| == |m.Keys|
  {
  }

  lemma CountsOfOne(stateIn: map<Tid, ListId>, t: Tid, id: ListId)
    ensures |stateIn[t := id]| == |stateIn| + (if t in stateIn then 0 else 1)
    ensures |stateIn - {t}| == |stateIn| - (if t in stateIn then 1 else 0)
  {
    SizeOfKeys(stateIn);
    SizeOfKeys(stateIn[t := id]);
    SizeOfKeys(stateIn - {t});
    assert stateIn[t := id].Keys == stateIn.Keys + {t};
    assert (stateIn - {t}).Keys == stateIn.Keys - {t};
  }

  lemma OnAfterOne(stateIn: map<Tid, ListId>, t: Tid, id: ListId)
    ensures On(stateIn[t := id], Terminating)
         == (On(stateIn, Terminating) - {t}) + (if id == Terminating then {t} else {})
    ensures On(stateIn - {t}, Terminating) == On(stateIn, Terminating) - {t}
    ensures t in stateIn && stateIn[t] == Terminating <==> t in On(stateIn, Terminating)
  {
  }

  // What the movements do to the containers
  lemma MakeReadyMoves(s: Tasks, t: Tid)
    ensures var s' := MakeReady(s, t);
            s'.stateIn == s.stateIn[t := Ready(At(s.priority, t))] && s'.due == s.due && s'.eventIn == s.eventIn
  {
    hide Drop, InsertEnd, Get;
    assert (s.stateIn - {t})[t := Ready(At(s.priority, t))] == s.stateIn[t := Ready(At(s.priority, t))];
  }

  lemma UnlinkMoves(s: Tasks, t: Tid)
    ensures var s' := Unlink(s, t);
            s'.stateIn == s.stateIn - {t} && s'.due == s.due && s'.eventIn == s.eventIn
  {
    hide Drop, Get;
  }

  lemma UnlinkEventMoves(s: Tasks, t: Tid)
    ensures var s' := UnlinkEvent(s, t);
            s'.stateIn == s.stateIn && s'.due == s.due && s'.eventIn == s.eventIn - {t}
  {
    hide Drop, Get;
  }

  lemma TakeOffMoves(s: Tasks, t: Tid)
    ensures var s' := UnlinkEvent(Unlink(s, t), t);
            s'.stateIn == s.stateIn - {t} && s'.due == s.due && s'.eventIn == s.eventIn - {t}
  {
    hide Unlink, UnlinkEvent;
    UnlinkMoves(s, t);
    UnlinkEventMoves(Unlink(s, t), t);
  }

  lemma LinkEndMoves(s: Tasks, t: Tid, id: ListId)
    ensures var s' := LinkEnd(s, t, id);
            s'.stateIn == s.stateIn[t := id] && s'.due == s.due && s'.eventIn == s.eventIn
  {
    hide InsertEnd, Get;
  }

  lemma DelayMoves(s: Tasks, t: Tid, now: nat, ticks: Tick, indefinitely: bool)
    ensures var s' := Delay(s, t, now, ticks, indefinitely);
            && s'.stateIn == s.stateIn[t := if ticks == MAX_DELAY && indefinitely then Suspended else Blocked]
            && s'.due - {t} == s.due - {t} && s'.eventIn == s.eventIn
  {
    hide Drop, InsertEnd, InsertBefore, InsertPos, Column, Get;
    var id := if ticks == MAX_DELAY && indefinitely then Suspended else Blocked;
    assert (s.stateIn - {t})[t := id] == s.stateIn[t := id];
  }

  lemma TicksCount(k: Kernel, step: Step)
    requires Orderly(k) && Counted(k) && Enabled(k, step) && (step.TickInterrupt? || step.ResumeTheScheduler?)
    ensures Counted(Do(k, step))
  {
    hide Core, Ahead, Counted, NothingPending;
    if step.TickInterrupt? {
      OneTickExact(k.(interrupts := k.interrupts + 1));
    } else if k.depth == 1 {
      ResumeAllExact(k);
      PendingAreBlocked(k.tasks);
    }
    SameCounts(k, Do(k, step));
  }

  lemma PendingAreBlocked(s: Tasks)
    requires Core(s)
    ensures forall t :: t in Get(s.events, PendingReady).items ==> t in s.stateIn && s.stateIn[t] != Terminating
  {
    PendingAreKnown(s);
  }

  lemma DeletionMoves(k: Kernel, t: Tid)
    requires Enabled(k, DeleteTask(t))
    ensures var k' := Do(k, DeleteTask(t));
            && k'.now == k.now && k'.tasks.eventIn == k.tasks.eventIn - {t}
            && (if t == k.current then
                  k'.tasks.stateIn == k.tasks.stateIn[t := Terminating] && k'.tasks.due == k.tasks.due
                  && k'.numberOfTasks == k.numberOfTasks && k'.waitingCleanUp == k.waitingCleanUp + 1
                else
                  k'.tasks.stateIn == k.tasks.stateIn - {t} && k'.tasks.due == k.tasks.due - {t}
                  && k'.numberOfTasks == k.numberOfTasks - 1 && k'.waitingCleanUp == k.waitingCleanUp)
  {
    hide Unlink, UnlinkEvent, LinkEnd, CanStop, OneTick, ResumeAll, WakeTask, Select, MakeReady, Delay;
    TakeOffMoves(k.tasks, t);
    LinkEndMoves(UnlinkEvent(Unlink(k.tasks, t), t), t, Terminating);
    assert (k.tasks.stateIn - {t})[t := Terminating] == k.tasks.stateIn[t := Terminating];
  }

  lemma OneStopped(stateIn: map<Tid, ListId>, t: Tid)
    requires t in stateIn && stateIn[t] != Terminating
    ensures |stateIn[t := Terminating]| == |stateIn| && |stateIn - {t}| == |stateIn| - 1
    ensures |On(stateIn[t := Terminating], Terminating)| == |On(stateIn, Terminating)| + 1
    ensures On(stateIn - {t}, Terminating) == On(stateIn, Terminating)
  {
    CountsOfOne(stateIn, t, Terminating);
    OnAfterOne(stateIn, t, Terminating);
    hide On;
    assert On(stateIn, Terminating) - {t} == On(stateIn, Terminating);
  }

  lemma OneNew(stateIn: map<Tid, ListId>, t: Tid, p: nat)
    requires t !in stateIn
    ensures |stateIn[t := Ready(p)]| == |stateIn| + 1
    ensures On(stateIn[t := Ready(p)], Terminating) == On(stateIn, Terminating)
  {
    CountsOfOne(stateIn, t, Ready(p));
    OnAfterOne(stateIn, t, Ready(p));
    hide On;
    assert On(stateIn, Terminating) - {t} == On(stateIn, Terminating);
  }

  lemma DeletionCounts(k: Kernel, t: Tid)
    requires Counted(k) && Enabled(k, DeleteTask(t))
    ensures Counted(Do(k, DeleteTask(t)))
  {
    hide Do, On;
    DeletionMoves(k, t);
    OneStopped(k.tasks.stateIn, t);
  }

  lemma CleanUpMoves(k: Kernel)
    requires Enabled(k, ReapTerminated)
    ensures var k', t := Do(k, ReapTerminated), Get(k.tasks.lists, Terminating).items[0];
            k'.tasks.stateIn == k.tasks.stateIn - {t}
            && k'.numberOfTasks == k.numberOfTasks - 1 && k'.waitingCleanUp == k.waitingCleanUp - 1
  {
    hide Unlink;
    UnlinkMoves(k.tasks, Get(k.tasks.lists, Terminating).items[0]);
  }

  lemma OneFewer(stateIn: map<Tid, ListId>, t: Tid)
    requires t in stateIn && stateIn[t] == Terminating
    ensures |stateIn - {t}| == |stateIn| - 1 && |On(stateIn - {t}, Terminating)| == |On(stateIn, Terminating)| - 1
  {
    CountsOfOne(stateIn, t, Terminating);
    OnAfterOne(stateIn, t, Terminating);
    hide On;
    assert |On(stateIn, Terminating) - {t}| == |On(stateIn, Terminating)| - 1;
  }

  lemma CleanUpCounts(k: Kernel)
    requires Core(k.tasks) && Counted(k) && Enabled(k, ReapTerminated)
    ensures Counted(Do(k, ReapTerminated))
  {
    hide Core, Do, On;
    CleanUpMoves(k);
    HeadTerminates(k.tasks);
    OneFewer(k.tasks.stateIn, Get(k.tasks.lists, Terminating).items[0]);
  }

  lemma CreationMoves(k: Kernel, t: Tid, p: nat)
    requires Enabled(k, CreateTask(t, p))
    ensures var k' := Do(k, CreateTask(t, p));
            k'.tasks.stateIn == k.tasks.stateIn[t := Ready(p)]
            && k'.numberOfTasks == k.numberOfTasks + 1 && k'.waitingCleanUp == k.waitingCleanUp
  {
    hide Get, InsertEnd;
  }

  lemma CreationCounts(k: Kernel, t: Tid, p: nat)
    requires Counted(k) && Enabled(k, CreateTask(t, p))
    ensures Counted(Do(k, CreateTask(t, p)))
  {
    hide Do, On;
    CreationMoves(k, t, p);
    OneNew(k.tasks.stateIn, t, p);
  }

  lemma HeadTerminates(s: Tasks)
    requires Core(s) && Get(s.lists, Terminating).items != []
    ensures IsIn(s, Get(s.lists, Terminating).items[0], Terminating)
  {
    InList(s.lists, s.stateIn, Terminating, Get(s.lists, Terminating).items[0]);
  }

  // A task that blocks goes to the blocked or the suspended list.
  lemma BlockingMoves(k: Kernel, step: Step)
    requires Enabled(k, step) && (step.DelayCurrent? || step.PlaceOnEventList? || step.PlaceOnUnorderedEventList?)
    ensures CanBlock(k)
    ensures var k', t := Do(k, step), k.current;
            && k' == k.(tasks := k'.tasks)
            && (k'.tasks.stateIn == k.tasks.stateIn[t := Blocked]
                || k'.tasks.stateIn == k.tasks.stateIn[t := Suspended])
            && k'.tasks.due - {t} == k.tasks.due - {t} && k'.tasks.eventIn - {t} == k.tasks.eventIn - {t}
  {
    hide CanBlock, Delay, Get, InsertEnd, InsertBefore, InsertPos, Column, OneTick, ResumeAll, WakeTask,
         Select, MakeReady, LinkEnd, Unlink, UnlinkEvent;
    match step {
      case DelayCurrent(ticks, indefinitely) => DelayMoves(k.tasks, k.current, k.now, ticks, indefinitely);
      case PlaceOnEventList(e, ticks) =>
        DelayMoves(LinkEventByValue(k.tasks, k.current, e), k.current, k.now, ticks, true);
      case PlaceOnUnorderedEventList(e, value, ticks) =>
        DelayMoves(LinkEventEnd(SetEventValue(k.tasks, k.current, value), k.current, e), k.current, k.now, ticks, true);
    }
  }

  lemma BlockingCounts(k: Kernel, step: Step)
    requires Counted(k) && Enabled(k, step)
    requires step.DelayCurrent? || step.PlaceOnEventList? || step.PlaceOnUnorderedEventList?
    ensures Counted(Do(k, step))
  {
    hide Counted, Do, Enabled;
    BlockingMoves(k, step);
    SameCounts(k, Do(k, step));
  }

  lemma SuspensionCounts(k: Kernel, t: Tid)
    requires Orderly(k) && Counted(k) && Enabled(k, SuspendTask(t))
    ensures Counted(Do(k, SuspendTask(t)))
  {
    hide Orderly, Counted, Unlink, UnlinkEvent, LinkEnd;
    TakeOffMoves(k.tasks, t);
    LinkEndMoves(UnlinkEvent(Unlink(k.tasks, t), t), t, Suspended);
    SameCounts(k, Do(k, SuspendTask(t)));
  }

  // Making a task ready that is not terminating
  lemma ReadyCounts(k: Kernel, s: Tasks, t: Tid)
    requires Counted(k) && s.stateIn == k.tasks.stateIn && t in s.stateIn && s.stateIn[t] != Terminating
    ensures Counted(k.(tasks := MakeReady(s, t)))
  {
    hide Counted, MakeReady;
    MakeReadyMoves(s, t);
    SameCounts(k, k.(tasks := MakeReady(s, t)));
  }

  lemma WaiterIsNotTerminating(s: Tasks, t: Tid)
    requires Core(s) && t in s.eventIn
    ensures t in s.stateIn && s.stateIn[t] != Terminating
  {
  }

  lemma WakeCounts(k: Kernel, t: Tid)
    requires Orderly(k) && Counted(k) && t in k.tasks.eventIn
    ensures Counted(WakeTask(k, t))
  {
    WaiterIsNotTerminating(k.tasks, t);
    hide Orderly, Counted, MakeReady, Drop, Get, InsertEnd;
    ReadyCounts(k, UnlinkEvent(k.tasks, t), t);
    SameCounts(k, k.(tasks := LinkEventEnd(UnlinkEvent(k.tasks, t), t, PendingReady)));
  }

  lemma UnorderedWakeCounts(k: Kernel, t: Tid, value: nat)
    requires Orderly(k) && Counted(k) && Enabled(k, RemoveFromUnorderedEventList(t, value))
    ensures Counted(Do(k, RemoveFromUnorderedEventList(t, value)))
  {
    WaiterIsNotTerminating(k.tasks, t);
    hide Orderly, Counted, MakeReady, UnlinkEvent;
    UnlinkEventMoves(SetEventValue(k.tasks, t, value), t);
    ReadyCounts(k, UnlinkEvent(SetEventValue(k.tasks, t, value), t), t);
  }

  lemma PriorityCounts(k: Kernel, t: Tid, p: nat, value: nat)
    requires Counted(k) && Enabled(k, ChangePriority(t, p, value))
    ensures Counted(Do(k, ChangePriority(t, p, value)))
  {
    hide Counted, MakeReady;
    var s := k.tasks.(priority := k.tasks.priority[t := p], eventValue := k.tasks.eventValue[t := value]);
    if s.stateIn[t].Ready? {
      ReadyCounts(k, s, t);
    }
    SameCounts(k, k.(tasks := s));
  }

  lemma ResumptionCounts(k: Kernel, step: Step)
    requires Counted(k) && Enabled(k, step) && (step.ResumeTask? || step.ResumeFromISR?)
    ensures Counted(Do(k, step))
  {
    hide Counted, MakeReady, Get, InsertEnd;
    if IsSuspended(k.tasks, step.t) {
      ReadyCounts(k, k.tasks, step.t);
    }
    SameCounts(k, k.(tasks := LinkEventEnd(k.tasks, step.t, PendingReady)));
  }

  lemma StepCounts(k: Kernel, step: Step)
    requires Orderly(k) && Counted(k) && Enabled(k, step)
    ensures Counted(Do(k, step))
  {
    match step
    case TickInterrupt => TicksCount(k, step);
    case SuspendAll =>
    case ResumeTheScheduler => TicksCount(k, step);
    case RemoveFromEventList(e) =>
      HeadWaits(k.tasks, e);
      WakeCounts(k, Get(k.tasks.events, e).items[0]);
    case RemoveFromUnorderedEventList(t, value) => UnorderedWakeCounts(k, t, value);
    case ResetEventItemValue =>
    case SuspendTask(t) => SuspensionCounts(k, t);
    case ResumeTask(_) => ResumptionCounts(k, step);
    case ResumeFromISR(_) => ResumptionCounts(k, step);
    case DeleteTask(t) => DeletionCounts(k, t);
    case ReapTerminated => CleanUpCounts(k);
    case CreateTask(t, p) => CreationCounts(k, t, p);
    case ChangePriority(t, p, value) => PriorityCounts(k, t, p, value);
    case SwitchContext(_) =>
    case _ => BlockingCounts(k, step);
  }

  // The invariant is inductive.
  lemma StepKeepsInv(k: Kernel, step: Step)
    requires Inv(k) && Enabled(k, step)
    ensures Inv(Do(k, step))
  {
    hide Orderly, Counted, Do, Enabled;
    StepIsOrderly(k, step);
    StepCounts(k, step);
  }
}
