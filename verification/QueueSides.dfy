/** One side of a queue (queue.c): the tasks waiting on it, and its lock count.

    Receivers wait for items and senders for free places, and the code treats
    both alike: a post to the queue is to the receivers' side what a take from it
    is to the senders'.  While the queue is locked, interrupts do not touch the
    list of waiting tasks but count the events; unlocking makes up for them. */
module QueueSides {
  import opened Identifiers
  import opened CursorLists


  // woken: the tasks taken off the list that have not yet run their critical
  // section again.  events: what happened since the queue was locked.
  datatype Side = Side(waiting: seq<Tid>, woken: set<Tid>, lock: int, events: nat)

  const UNLOCKED: int := -1

  // xTaskRemoveFromEventList, if the list is not empty
  function WakeHead(s: Side): Side {
    if s.waiting == [] then s else s.(waiting := s.waiting[1..], woken := s.woken + {s.waiting[0]})
  }

  function WakeMany(s: Side, n: nat): Side
    decreases n
  {
    if n == 0 || s.waiting == [] then s else WakeMany(WakeHead(s), n - 1)
  }

  // An event from an interrupt: wake a task, or count, up to the number of tasks
  function Event(s: Side, tasks: nat): Side {
    if s.lock == UNLOCKED then WakeHead(s)
    else s.(lock := if s.lock < tasks then s.lock + 1 else s.lock, events := s.events + 1)
  }

  // prvLockQueue
  function Lock(s: Side): Side {
    if s.lock == UNLOCKED then s.(lock := 0, events := 0) else s
  }

  // Half of prvUnlockQueue
  function Unlock(s: Side): Side {
    if s.lock > 0 then WakeMany(s, s.lock).(lock := UNLOCKED) else s.(lock := UNLOCKED)
  }

  // A task runs its critical section (again).
  function Rerun(s: Side, t: Tid): Side {
    s.(woken := s.woken - {t})
  }

  // ---------------------------------------------------------------------
  // What holds of a side
  // ---------------------------------------------------------------------

  function Min(a: nat, b: nat): nat {
    if a < b then a else b
  }

  ghost predicate SideOk(s: Side, tasks: set<Tid>) {
    && Distinct(s.waiting) && (forall t :: t in s.waiting ==> t in tasks && t !in s.woken)
    && UNLOCKED <= s.lock && (s.lock != UNLOCKED ==> s.lock == Min(s.events, |tasks|))
  }

  // If a task waits, or has found nothing and is about to wait, then whatever has
  // come is already promised: to a woken task, or to one the unlocking will wake.
  ghost predicate Promised(s: Side, available: nat, aboutToWait: bool, tasks: set<Tid>) {
    s.waiting != [] || aboutToWait ==>
      available <= |s.woken| + (if s.lock > 0 then s.lock else 0) || s.lock >= |tasks|
  }

  lemma {:induction false} NoMoreWaitersThanTasks(waiting: seq<Tid>, tasks: set<Tid>)
    requires Distinct(waiting) && forall t :: t in waiting ==> t in tasks
    ensures |waiting| <= |tasks|
    decreases |waiting|
  {
    if waiting != [] {
      var last := waiting[|waiting| - 1];
      NoMoreWaitersThanTasks(waiting[..|waiting| - 1], tasks - {last});
    }
  }

  lemma WakeHeadKeeps(s: Side, tasks: set<Tid>)
    requires SideOk(s, tasks)
    ensures SideOk(WakeHead(s), tasks)
    ensures s.waiting != [] ==> |WakeHead(s).woken| == |s.woken| + 1
  {
    if s.waiting != [] {
      assert s.waiting[0] in s.waiting;
      assert forall i :: 0 <= i < |s.waiting[1..]| ==> s.waiting[1..][i] == s.waiting[i + 1];
    }
  }

  // Unlocking wakes as many tasks as the count says, from the head of the list.
  lemma {:induction false} WakeManyKeeps(s: Side, n: nat, tasks: set<Tid>)
    requires SideOk(s, tasks)
    ensures SideOk(WakeMany(s, n), tasks) && WakeMany(s, n).lock == s.lock && WakeMany(s, n).events == s.events
    ensures WakeMany(s, n).waiting == s.waiting[Min(n, |s.waiting|)..]
    ensures |WakeMany(s, n).woken| == |s.woken| + Min(n, |s.waiting|)
    decreases n
  {
    hide SideOk;
    if n > 0 && s.waiting != [] {
      WakeHeadKeeps(s, tasks);
      WakeManyKeeps(WakeHead(s), n - 1, tasks);
    }
  }

  // Waking moves tasks from the list to the woken, and brings in no others.
  ghost predicate Among(s': Side, s: Side) {
    && (forall t :: t in s'.waiting ==> t in s.waiting)
    && (forall t :: t in s'.woken ==> t in s.woken || t in s.waiting)
  }

  lemma {:induction false} WakeManyAmong(s: Side, n: nat)
    ensures Among(WakeMany(s, n), s)
    decreases n
  {
    if n > 0 && s.waiting != [] {
      WakeManyAmong(WakeHead(s), n - 1);
    }
  }

  lemma StillAmong(s: Side, tasks: nat, t: Tid)
    ensures Among(WakeHead(s), s) && Among(Event(s, tasks), s) && Among(Unlock(s), s) && Among(Rerun(s, t), s)
    ensures Among(WakeHead(Rerun(s, t)), Rerun(s, t))
  {
    if s.lock > 0 {
      WakeManyAmong(s, s.lock);
    }
  }

  lemma PromisedLess(s: Side, available: nat, aboutToWait: bool, tasks: set<Tid>, less: nat)
    requires Promised(s, available, aboutToWait, tasks) && less <= available
    ensures Promised(s, less, aboutToWait, tasks)
  {
  }

  lemma EventKeeps(s: Side, available: nat, aboutToWait: bool, tasks: set<Tid>)
    requires SideOk(s, tasks) && Promised(s, available, aboutToWait, tasks) && (aboutToWait ==> s.lock != UNLOCKED)
    ensures SideOk(Event(s, |tasks|), tasks) && Promised(Event(s, |tasks|), available + 1, aboutToWait, tasks)
    ensures s.lock == UNLOCKED <==> Event(s, |tasks|).lock == UNLOCKED
  {
    WakeHeadKeeps(s, tasks);
  }

  // Capping the count at the number of tasks makes no difference: unlocking wakes
  // exactly one waiting task for each event since the queue was locked.
  lemma UnlockWakesOnePerEvent(s: Side, tasks: set<Tid>)
    requires SideOk(s, tasks) && s.lock != UNLOCKED
    ensures Unlock(s).waiting == s.waiting[Min(s.events, |s.waiting|)..]
    ensures |Unlock(s).woken| == |s.woken| + Min(s.events, |s.waiting|)
  {
    NoMoreWaitersThanTasks(s.waiting, tasks);
    if s.lock > 0 {
      WakeManyKeeps(s, s.lock, tasks);
    }
  }

  lemma UnlockKeeps(s: Side, available: nat, tasks: set<Tid>)
    requires SideOk(s, tasks) && Promised(s, available, false, tasks) && s.lock != UNLOCKED
    ensures SideOk(Unlock(s), tasks) && Promised(Unlock(s), available, false, tasks) && Unlock(s).lock == UNLOCKED
  {
    NoMoreWaitersThanTasks(s.waiting, tasks);
    if s.lock > 0 {
      WakeManyKeeps(s, s.lock, tasks);
    }
  }

  lemma RerunKeeps(s: Side, available: nat, tasks: set<Tid>, t: Tid)
    requires SideOk(s, tasks) && Promised(s, available, false, tasks) && s.lock == UNLOCKED
    ensures SideOk(Rerun(s, t), tasks)
    ensures available > 0 ==> Promised(Rerun(s, t), available - 1, false, tasks)
    ensures available == 0 || t !in s.woken ==> Promised(Rerun(s, t), available, false, tasks)
    ensures Promised(WakeHead(Rerun(s, t)), available, false, tasks) && SideOk(WakeHead(Rerun(s, t)), tasks)
  {
    if t in s.woken {
      assert |s.woken - {t}| == |s.woken| - 1;
    } else {
      assert s.woken - {t} == s.woken;
    }
    WakeHeadKeeps(Rerun(s, t), tasks);
    if s.waiting == [] {
      assert WakeHead(Rerun(s, t)).waiting == [];
    }
  }
}
