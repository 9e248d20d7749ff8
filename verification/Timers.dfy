/** The software timer daemon (timers.c): two lists of timers ordered by a wrapped
    expiry tick, which change places when the daemon sees the tick count wrap,
    and auto-reload timers that catch up when the daemon runs late.

    Ghost fields follow every timer on the unbounded clock: the moment its
    present period began, how often it has fired since, and when it is next due.
    Callbacks are counted, not modelled. */
module Timers {
  import opened Ticks
  import opened CursorLists

  type TimerId = nat

  datatype Timer = Timer(period: Tick, autoReload: bool, active: bool, isStatic: bool)

  datatype Command = Start | Reset | Stop | ChangePeriod | Delete

  // ---------------------------------------------------------------------
  // Where a timer goes
  // ---------------------------------------------------------------------

  datatype Place = ProcessNow | InCurrent | InOverflow

  // prvInsertTimerInActiveList
  function Decide(period: Tick, nextExpiryTime: Tick, timeNow: Tick, commandTime: Tick): Place {
    if nextExpiryTime <= timeNow then
      if Sub(timeNow, commandTime) >= period then ProcessNow else InOverflow
    else if timeNow < commandTime && nextExpiryTime >= commandTime then ProcessNow
    else InCurrent
  }

  // For a command that is less than a wrap old, the decision taken on wrapped
  // ticks is the one the clock calls for: at once if the expiry has passed,
  // else the list of the epoch in which it falls.
  lemma DecisionIsExact(command: nat, now: nat, period: Tick)
    requires command <= now < command + WRAP && period > 0
    ensures Decide(period, Low(command + period), Low(now), Low(command))
         == if command + period <= now then ProcessNow
            else if Epoch(command + period) == Epoch(now) then InCurrent else InOverflow
    ensures now < command + period ==> Epoch(now) <= Epoch(command + period) <= Epoch(now) + 1
  {
    AddFollowsClock(command, period);
    SubMeasures(command, now);
    Split(command + period);
    Split(now);
    Split(command);
  }

  lemma WithinEpoch(a: nat, b: nat)
    requires Epoch(a) == Epoch(b)
    ensures a < b + WRAP && b < a + WRAP
  {
    Split(a);
    Split(b);
  }

  lemma LaterEpoch(now: nat, later: nat)
    requires now < later
    ensures Low(now) == MAX_DELAY ==> Epoch(later) > Epoch(now)
  {
    Split(now);
    Split(later);
  }

  // The n-th expiry point of a timer started at a moment
  function Expiry(origin: nat, period: nat, n: nat): nat {
    origin + n * period
  }

  lemma ExpiryNext(origin: nat, period: nat, n: nat)
    ensures Expiry(origin, period, 0) == origin && Expiry(origin, period, n + 1) == Expiry(origin, period, n) + period
  {
  }

  // The number of expiry points up to a moment
  lemma CountIsQuotient(origin: nat, period: nat, count: nat, now: nat)
    requires period > 0 && Expiry(origin, period, count) <= now < Expiry(origin, period, count + 1)
    ensures origin <= now && count == (now - origin) / period
  {
    var q := (now - origin) / period;
    assert q * period <= now - origin < (q + 1) * period;
    TimesMonotone(q + 1, count, period);
    TimesMonotone(count + 1, q, period);
  }

  lemma TimesMonotone(a: nat, b: nat, period: nat)
    ensures a <= b ==> a * period <= b * period
  {
  }

  // ---------------------------------------------------------------------
  // The lists
  // ---------------------------------------------------------------------

  // A list of one epoch: each item holds the low half of its timer's due moment,
  // and they are in order.
  ghost predicate EpochList(items: seq<TimerId>, itemValue: map<TimerId, Tick>, due: map<TimerId, nat>, epoch: nat) {
    && (forall t :: t in items ==> t in itemValue && t in due && Epoch(due[t]) == epoch && itemValue[t] == Low(due[t]))
    && Sorted(Column(itemValue, items))
    && Distinct(items)
  }

  lemma EpochListRemove(items: seq<TimerId>, itemValue: map<TimerId, Tick>, due: map<TimerId, nat>, epoch: nat,
                        t: TimerId)
    requires EpochList(items, itemValue, due, epoch) && t in items
    ensures var r := DropAt(items, IndexOf(items, t));
            EpochList(r, itemValue, due, epoch) && (forall u :: u in r <==> u in items && u != t)
  {
    hide Distinct, Sorted, Epoch, Low, IndexOf, DropAt, Column;
    var k := IndexOf(items, t);
    DropAtDistinct(items, k);
    DropKeepsSorted(Column(itemValue, items), k);
    DroppedValues(items, itemValue, k);
  }

  lemma DroppedValues(items: seq<TimerId>, itemValue: map<TimerId, Tick>, k: nat)
    requires k < |items|
    ensures Column(itemValue, DropAt(items, k)) == DropAt(Column(itemValue, items), k)
  {
    var v, w := Column(itemValue, items), Column(itemValue, DropAt(items, k));
    assert forall i :: 0 <= i < |w| ==> w[i] == DropAt(v, k)[i];
  }

  lemma EpochListOther(items: seq<TimerId>, itemValue: map<TimerId, Tick>, due: map<TimerId, nat>, epoch: nat,
                       t: TimerId, moment: nat)
    requires EpochList(items, itemValue, due, epoch) && t !in items
    ensures EpochList(items, itemValue[t := Low(moment)], due[t := moment], epoch)
    ensures Column(itemValue[t := Low(moment)], items) == Column(itemValue, items)
  {
    hide Distinct, Sorted, Epoch, Low;
    assert Column(itemValue[t := Low(moment)], items) == Column(itemValue, items);
  }

  lemma InsertedValues(items: seq<TimerId>, iv: map<TimerId, Tick>, k: nat, t: TimerId)
    requires k <= |items| && t in iv
    ensures Column(iv, InsertAt(items, k, t)) == InsertAt(Column(iv, items), k, iv[t] as nat)
  {
    var a, b := Column(iv, InsertAt(items, k, t)), InsertAt(Column(iv, items), k, iv[t] as nat);
    assert forall i :: 0 <= i < |a| ==> a[i] == b[i];
  }

  lemma EpochListInsert(items: seq<TimerId>, itemValue: map<TimerId, Tick>, due: map<TimerId, nat>, epoch: nat,
                        t: TimerId, moment: nat)
    requires EpochList(items, itemValue, due, epoch) && t !in items && Epoch(moment) == epoch
    ensures var iv := itemValue[t := Low(moment)];
            var r := InsertAt(items, InsertPos(Column(iv, items), Low(moment)), t);
            EpochList(r, iv, due[t := moment], epoch) && (forall u :: u in r <==> u in items || u == t)
  {
    hide Distinct, Sorted, Epoch, Low, InsertPos, Column, InsertAt;
    EpochListOther(items, itemValue, due, epoch, t, moment);
    var iv := itemValue[t := Low(moment)];
    var k := InsertPos(Column(iv, items), Low(moment));
    InsertKeepsSorted(Column(iv, items), Low(moment));
    InsertAtDistinct(items, k, t);
    InsertedValues(items, iv, k, t);
  }

  lemma EmptyEpochList(itemValue: map<TimerId, Tick>, due: map<TimerId, nat>, epoch: nat)
    ensures EpochList([], itemValue, due, epoch)
  {
  }

  lemma NotAfterEnd(moment: nat, end: nat)
    requires Epoch(moment) == Epoch(end) && Low(end) == MAX_DELAY
    ensures moment <= end
  {
    SameEpochOrder(moment, end);
  }

  lemma AfterEnd(last: nat, end: nat, next: nat)
    requires Epoch(end) == Epoch(last) && Epoch(next) == Epoch(last) + 1
    ensures end <= next
  {
    EpochsOrder(end, next);
  }

  // The head is the first due.
  lemma HeadIsFirst(items: seq<TimerId>, itemValue: map<TimerId, Tick>, due: map<TimerId, nat>, epoch: nat)
    requires EpochList(items, itemValue, due, epoch) && items != []
    ensures items[0] in due && Epoch(due[items[0]]) == epoch && items[0] in itemValue
    ensures itemValue[items[0]] == Low(due[items[0]])
    ensures forall t :: t in items ==> t in due && due[items[0]] <= due[t]
  {
    var v := Column(itemValue, items);
    assert items[0] in items;
    forall t | t in items
      ensures due[items[0]] <= due[t]
    {
      var i :| 0 <= i < |items| && items[i] == t;
      assert v[0] <= v[i];
      SameEpochOrder(due[items[0]], due[t]);
    }
  }

  // ---------------------------------------------------------------------
  // The pace of the timers
  // ---------------------------------------------------------------------

  // Each timer, when it is due, when it was started and how often it has fired
  datatype Books = Books(
    timers: map<TimerId, Timer>,
    due: map<TimerId, nat>,
    origin: map<TimerId, nat>,
    fired: map<TimerId, nat>)

  // A listed timer is due at the end of the period after those it has fired for,
  // and has not fired before its time.
  ghost predicate Paced(t: TimerId, b: Books, seen: nat) {
    && t in b.timers && b.timers[t].active && t in b.due && t in b.origin && t in b.fired
    && b.due[t] == Expiry(b.origin[t], b.timers[t].period, b.fired[t] + 1)
    && Expiry(b.origin[t], b.timers[t].period, b.fired[t]) <= seen
  }

  // So a timer that is not due has fired once for every period that has ended.
  lemma PacedIsExact(t: TimerId, b: Books, now: nat)
    requires Paced(t, b, now) && b.timers[t].period > 0 && now < b.due[t]
    ensures b.origin[t] <= now && b.fired[t] == (now - b.origin[t]) / b.timers[t].period
  {
    CountIsQuotient(b.origin[t], b.timers[t].period, b.fired[t], now);
  }

  // Exactly the active timers are listed, each at its pace; some may be in hand.
  ghost predicate AllPaced(listed: set<TimerId>, b: Books, inHand: set<TimerId>, seen: nat) {
    && (forall t :: t in b.timers ==> b.timers[t].period > 0)
    && (forall t :: t in b.timers && t !in inHand ==> (b.timers[t].active <==> t in listed))
    && (forall t :: t in listed ==> t !in inHand && Paced(t, b, seen))
  }

  lemma PacedLater(listed: set<TimerId>, b: Books, inHand: set<TimerId>, seen: nat, later: nat)
    requires AllPaced(listed, b, inHand, seen) && seen <= later
    ensures AllPaced(listed, b, inHand, later)
  {
    hide Expiry;
  }

  lemma PacedGives(listed: set<TimerId>, b: Books, inHand: set<TimerId>, seen: nat, t: TimerId)
    requires AllPaced(listed, b, inHand, seen) && (t in b.timers || t in listed)
    ensures t in b.timers && b.timers[t].period > 0 && (t in listed ==> t !in inHand && Paced(t, b, seen))
  {
  }

  lemma PacedInHand(listed: set<TimerId>, b: Books, seen: nat, t: TimerId)
    requires AllPaced(listed, b, {}, seen)
    ensures AllPaced(listed - {t}, b, {t}, seen)
  {
  }

  // What is recorded of one timer
  predicate SameBut(b: Books, b': Books, t: TimerId) {
    b'.timers - {t} == b.timers - {t} && b'.due - {t} == b.due - {t}
    && b'.origin - {t} == b.origin - {t} && b'.fired - {t} == b.fired - {t}
  }

  lemma UpdatedAt(b: Books, b': Books, t: TimerId)
    requires t in b'.timers && b'.timers == b.timers[t := b'.timers[t]]
    requires t in b'.due && b'.due == b.due[t := b'.due[t]]
    requires t in b'.origin && b'.origin == b.origin[t := b'.origin[t]]
    requires t in b'.fired && b'.fired == b.fired[t := b'.fired[t]]
    ensures SameBut(b, b', t)
  {
  }

  lemma SameThen(b: Books, b1: Books, b2: Books, t: TimerId)
    requires SameBut(b, b1, t) && SameBut(b1, b2, t)
    ensures SameBut(b, b2, t)
  {
  }

  // A timer's record is in order: it is listed at its pace, or inactive.
  ghost predicate Settled(t: TimerId, isListed: bool, b: Books, seen: nat) {
    && (t in b.timers ==> b.timers[t].period > 0 && (b.timers[t].active <==> isListed))
    && (isListed ==> Paced(t, b, seen))
  }

  // Settling one timer leaves the others at their pace.
  lemma PacedChanged(listed: set<TimerId>, b: Books, inHand: set<TimerId>, seen: nat, listed': set<TimerId>,
                     b': Books, t: TimerId)
    requires AllPaced(listed, b, inHand, seen) && SameBut(b, b', t) && listed' - {t} == listed - {t}
    requires Settled(t, t in listed', b', seen)
    ensures AllPaced(listed', b', inHand - {t}, seen)
  {
    forall u | u != t
      ensures u in listed' <==> u in listed
      ensures u in b'.timers ==> u in b.timers && b'.timers[u] == b.timers[u]
      ensures u in listed' ==> u !in inHand && Paced(u, b', seen)
    {
      assert u in listed' - {t} <==> u in listed - {t};
      assert u in b'.timers - {t} <==> u in b.timers - {t};
      if u in listed {
        assert Paced(u, b, seen);
        assert u in b'.due - {t} && u in b'.origin - {t} && u in b'.fired - {t};
      }
    }
  }

  // The timer is not due, and has fired once for each period that has ended since it
  // was started.
  ghost predicate UpToDate(t: TimerId, b: Books, now: nat) {
    && t in b.timers && b.timers[t].active && b.timers[t].period > 0 && t in b.due && t in b.origin && t in b.fired
    && b.origin[t] <= now < b.due[t] && b.fired[t] == (now - b.origin[t]) / b.timers[t].period
  }

  ghost predicate AllUpToDate(listed: set<TimerId>, b: Books, now: nat) {
    forall t :: t in listed ==> UpToDate(t, b, now)
  }

  lemma AllExact(listed: set<TimerId>, b: Books, now: nat)
    requires AllPaced(listed, b, {}, now) && forall t :: t in listed ==> t in b.due && now < b.due[t]
    ensures AllUpToDate(listed, b, now) && DueOf(listed, b.due, now) == {}
  {
    hide Expiry;
    forall t | t in listed
      ensures UpToDate(t, b, now)
    {
      PacedIsExact(t, b, now);
    }
  }

  // ---- what a daemon that has come to a moment may do to a timer ----

  predicate SameRecord(b: Books, b': Books, t: TimerId) {
    && (t in b.timers <==> t in b'.timers) && (t in b.timers ==> b'.timers[t] == b.timers[t])
    && (t in b.due <==> t in b'.due) && (t in b.due ==> b'.due[t] == b.due[t])
    && (t in b.origin <==> t in b'.origin) && (t in b.origin ==> b'.origin[t] == b.origin[t])
    && (t in b.fired <==> t in b'.fired) && (t in b.fired ==> b'.fired[t] == b.fired[t])
  }

  // A timer that is not due is left alone.  One that is due may be left as well, or
  // fires: as often as it takes, if it reloads, and stays listed, or once, and is off
  // the list and inactive.
  ghost predicate Treated(t: TimerId, b: Books, listed: set<TimerId>, b': Books, listed': set<TimerId>, now: nat) {
    || (SameRecord(b, b', t) && (t in listed' <==> t in listed))
    || (&& t in listed && t in b.timers && t in b.due && t in b.origin && t in b.fired && b.due[t] <= now
        && t in b'.timers && t in b'.due && t in b'.origin && t in b'.fired && b'.origin[t] == b.origin[t]
        && (if b.timers[t].autoReload
            then t in listed' && b'.timers[t] == b.timers[t] && b'.fired[t] > b.fired[t]
            else t !in listed' && b'.timers[t] == b.timers[t].(active := false) && b'.fired[t] == b.fired[t] + 1))
  }

  ghost predicate AllTreated(b: Books, listed: set<TimerId>, b': Books, listed': set<TimerId>, now: nat) {
    forall t :: Treated(t, b, listed, b', listed', now)
  }

  lemma TreatedThen(b: Books, listed: set<TimerId>, b1: Books, listed1: set<TimerId>, b2: Books, listed2: set<TimerId>,
                    now: nat, later: nat)
    requires AllTreated(b, listed, b1, listed1, now) && AllTreated(b1, listed1, b2, listed2, later) && now <= later
    ensures AllTreated(b, listed, b2, listed2, later)
  {
    forall t
      ensures Treated(t, b, listed, b2, listed2, later)
    {
      assert Treated(t, b, listed, b1, listed1, now) && Treated(t, b1, listed1, b2, listed2, later);
    }
  }

  // A timer is not made due by being treated.
  lemma TreatedLessDue(b: Books, listed: set<TimerId>, b': Books, listed': set<TimerId>, now: nat)
    requires AllTreated(b, listed, b', listed', now)
    ensures DueOf(listed', b'.due, now) <= DueOf(listed, b.due, now)
  {
    forall t | t in DueOf(listed', b'.due, now)
      ensures t in DueOf(listed, b.due, now)
    {
      assert Treated(t, b, listed, b', listed', now);
    }
  }

  lemma NothingTreated(b: Books, listed: set<TimerId>, now: nat)
    ensures AllTreated(b, listed, b, listed, now)
  {
  }

  lemma OneTreated(b: Books, listed: set<TimerId>, b': Books, listed': set<TimerId>, now: nat, t: TimerId)
    requires SameBut(b, b', t) && listed' - {t} == listed - {t} && Treated(t, b, listed, b', listed', now)
    ensures AllTreated(b, listed, b', listed', now)
  {
    forall u | u != t
      ensures SameRecord(b, b', u) && (u in listed' <==> u in listed)
    {
      OneOther(b, listed, b', listed', t, u);
    }
  }

  ghost predicate OthersTreated(b: Books, listed: set<TimerId>, b': Books, listed': set<TimerId>, now: nat,
                                t: TimerId)
  {
    forall u :: u != t ==> Treated(u, b, listed, b', listed', now)
  }

  lemma TreatedBut(b: Books, listed: set<TimerId>, b1: Books, listed1: set<TimerId>, b2: Books, listed2: set<TimerId>,
                   now: nat, t: TimerId)
    requires AllTreated(b, listed - {t}, b1, listed1, now) && SameBut(b1, b2, t) && listed2 - {t} == listed1 - {t}
    ensures OthersTreated(b, listed, b2, listed2, now, t)
  {
    hide Treated;
    forall u | u != t
      ensures Treated(u, b, listed, b2, listed2, now)
    {
      assert Treated(u, b, listed - {t}, b1, listed1, now);
      OneOther(b1, listed1, b2, listed2, t, u);
      TreatedSame(u, b, listed, listed - {t}, b1, listed1, b2, listed2, now);
    }
  }

  lemma OneOther(b: Books, listed: set<TimerId>, b': Books, listed': set<TimerId>, t: TimerId, u: TimerId)
    requires SameBut(b, b', t) && listed' - {t} == listed - {t} && u != t
    ensures SameRecord(b, b', u) && (u in listed' <==> u in listed)
  {
    assert u in listed' - {t} <==> u in listed - {t};
    assert u in b'.timers - {t} <==> u in b.timers - {t};
    assert u in b'.due - {t} <==> u in b.due - {t};
    assert u in b'.origin - {t} <==> u in b.origin - {t};
    assert u in b'.fired - {t} <==> u in b.fired - {t};
  }

  lemma TreatedSame(u: TimerId, b: Books, listed: set<TimerId>, listed0: set<TimerId>, b1: Books, listed1: set<TimerId>,
                    b2: Books, listed2: set<TimerId>, now: nat)
    requires Treated(u, b, listed0, b1, listed1, now) && SameRecord(b1, b2, u)
    requires (u in listed0 <==> u in listed) && (u in listed2 <==> u in listed1)
    ensures Treated(u, b, listed, b2, listed2, now)
  {
  }

  // The timers due by a moment
  ghost function DueOf(listed: set<TimerId>, due: map<TimerId, nat>, now: nat): set<TimerId> {
    set t | t in listed && t in due && due[t] <= now
  }

  lemma OneLessDue(b: Books, listed: set<TimerId>, b': Books, listed': set<TimerId>, now: nat, t: TimerId)
    requires SameBut(b, b', t) && listed' - {t} == listed - {t} && t in listed && t in b.due && b.due[t] <= now
    requires t in listed' ==> t in b'.due && now < b'.due[t]
    ensures t in DueOf(listed, b.due, now) && DueOf(listed', b'.due, now) == DueOf(listed, b.due, now) - {t}
  {
    forall u | u != t
      ensures u in DueOf(listed', b'.due, now) <==> u in DueOf(listed, b.due, now)
    {
      assert u in listed' - {t} <==> u in listed - {t};
      assert u in b'.due - {t} <==> u in b.due - {t};
    }
  }

  // The last moment of the epoch of a moment
  function EpochEnd(moment: nat): (r: nat)
    ensures Epoch(r) == Epoch(moment) && Low(r) == MAX_DELAY && moment <= r
  {
    Epoch(moment) * WRAP + MAX_DELAY
  }

  ghost function Both(current: seq<TimerId>, overflow: seq<TimerId>): set<TimerId> {
    (set t | t in current) + (set t | t in overflow)
  }

  lemma BothIs(current: seq<TimerId>, overflow: seq<TimerId>)
    ensures Both(current, overflow) == Both(overflow, current)
    ensures Both(current, overflow) == {} <==> current == [] && overflow == []
  {
    if current != [] {
      assert current[0] in Both(current, overflow);
    }
    if overflow != [] {
      assert overflow[0] in Both(current, overflow);
    }
  }

  // With no expired head, no listed timer is due, nor will be before the head's
  // moment or, with no head, the next wrap.
  lemma NoneDue(current: seq<TimerId>, overflow: seq<TimerId>, itemValue: map<TimerId, Tick>, due: map<TimerId, nat>,
                now: nat)
    requires EpochList(current, itemValue, due, Epoch(now)) && EpochList(overflow, itemValue, due, Epoch(now) + 1)
    requires current != [] ==> current[0] in itemValue && itemValue[current[0]] > Low(now)
    ensures var wake := now + Sub(if current == [] then 0 else itemValue[current[0]], Low(now));
            && (forall t :: t in Both(current, overflow) ==> t in due && now < due[t] && wake <= due[t])
            && (if current == [] then Low(wake) == 0 else current[0] in due && wake == due[current[0]])
  {
    if current == [] {
      NextWrap(now);
    } else {
      HeadIsFirst(current, itemValue, due, Epoch(now));
      SameEpochOrder(due[current[0]], now);
      WithinEpoch(due[current[0]], now);
      SubMeasures(now, due[current[0]]);
    }
    forall t | t in overflow
      ensures t in due && now < due[t]
      ensures if current == [] then now + Sub(0, Low(now)) <= due[t] else due[current[0]] < due[t]
    {
      EpochsOrder(now, due[t]);
      if current == [] {
        BeyondWrap(now, due[t]);
      } else {
        EpochsOrder(due[current[0]], due[t]);
      }
    }
  }

  lemma NextWrap(now: nat)
    ensures Low(now + Sub(0, Low(now))) == 0
  {
    AddFollowsClock(now, Sub(0, Low(now)));
  }

  lemma BeyondWrap(now: nat, later: nat)
    requires Epoch(later) > Epoch(now)
    ensures now + Sub(0, Low(now)) <= later
  {
    Split(now);
    Split(later);
  }

  // How long a task stays on the delayed list that is put there for a time: zero
  // ticks last until the next one is processed.
  function Lasting(ticks: Tick): nat {
    if ticks == 0 then 1 else ticks
  }

  lemma HeadTreated(b: Books, listed: set<TimerId>, b': Books, listed': set<TimerId>, now: nat, t: TimerId)
    requires SameBut(b, b', t) && t in listed && Paced(t, b, now) && b.due[t] <= now && b'.origin == b.origin
    requires t in b'.due && t in b'.fired
    requires if b.timers[t].autoReload
             then b'.timers == b.timers && listed' == listed && now < b'.due[t] && b'.fired[t] > b.fired[t]
             else b'.timers == b.timers[t := b.timers[t].(active := false)] && listed' == listed - {t}
                  && b'.fired[t] == b.fired[t] + 1
    ensures AllTreated(b, listed, b', listed', now)
    ensures t in DueOf(listed, b.due, now) && DueOf(listed', b'.due, now) == DueOf(listed, b.due, now) - {t}
  {
    hide Expiry, SameBut;
    OneTreated(b, listed, b', listed', now, t);
    OneLessDue(b, listed, b', listed', now, t);
  }

  class TimerService {
    var timers: map<TimerId, Timer>
    var current: seq<TimerId>         // the list pxCurrentTimerList points to
    var overflow: seq<TimerId>        // the list pxOverflowTimerList points to
    var itemValue: map<TimerId, Tick> // xItemValue of each timer's list item
    var lastTime: Tick                // xLastTime

    ghost var last: nat               // the moment of the last sample
    ghost var due: map<TimerId, nat>
    ghost var origin: map<TimerId, nat>
    ghost var fired: map<TimerId, nat>

    ghost function B(): Books
      reads this
    {
      Books(timers, due, origin, fired)
    }

    ghost function Listed(): set<TimerId>
      reads this
    {
      Both(current, overflow)
    }

    // The lists hold the timers of the epoch of a moment and of the next one.
    ghost predicate Lists(now: nat)
      reads this
    {
      && EpochList(current, itemValue, due, Epoch(now))
      && EpochList(overflow, itemValue, due, Epoch(now) + 1)
      && (forall t :: t in current ==> t !in overflow)
    }

    ghost predicate Valid()
      reads this
    {
      lastTime == Low(last) && Lists(last) && AllPaced(Listed(), B(), {}, last)
    }

    constructor ()
      ensures Valid() && Listed() == {} && timers == map[]
    {
      timers, current, overflow, itemValue, lastTime := map[], [], [], map[], 0;
      last, due, origin, fired := 0, map[], map[], map[];
    }

    // prvInitialiseNewTimer
    method CreateTimer(t: TimerId, period: Tick, autoReload: bool, isStatic: bool)
      requires Valid() && t !in timers && period > 0
      modifies `timers
      ensures Valid() && timers == old(timers)[t := Timer(period, autoReload, false, isStatic)]
    {
      timers := timers[t := Timer(period, autoReload, false, isStatic)];
    }

    // vTimerSetReloadMode
    method SetReloadMode(t: TimerId, autoReload: bool)
      requires Valid() && t in timers
      modifies `timers
      ensures Valid() && timers == old(timers)[t := old(timers)[t].(autoReload := autoReload)]
    {
      timers := timers[t := timers[t].(autoReload := autoReload)];
    }

    // vListInsert into the current or the overflow list
    method Insert(t: TimerId, intoCurrent: bool, ghost now: nat, ghost moment: nat)
      requires Lists(now) && t !in Listed() && t in itemValue && t in due && itemValue[t] == Low(moment)
      requires due[t] == moment
      requires Epoch(moment) == if intoCurrent then Epoch(now) else Epoch(now) + 1
      modifies `current, `overflow
      ensures Lists(now) && Listed() == old(Listed()) + {t}
      ensures if intoCurrent then overflow == old(overflow) else current == old(current)
    {
      hide InsertPos, Epoch, Low, EpochList;
      EpochListInsert(if intoCurrent then current else overflow, itemValue, due, Epoch(moment), t, moment);
      assert itemValue[t := Low(moment)] == itemValue && due[t := moment] == due;
      if intoCurrent {
        current := InsertAt(current, InsertPos(Column(itemValue, current), itemValue[t]), t);
      } else {
        overflow := InsertAt(overflow, InsertPos(Column(itemValue, overflow), itemValue[t]), t);
      }
    }

    // uxListRemove, if the timer is on a list
    method Remove(t: TimerId, ghost now: nat)
      requires Lists(now)
      modifies `current, `overflow
      ensures Lists(now) && Listed() == old(Listed()) - {t}
      ensures t in old(current) ==> |current| < |old(current)| && overflow == old(overflow)
    {
      hide Epoch, Low, EpochList, IndexOf;
      if t in current {
        EpochListRemove(current, itemValue, due, Epoch(now), t);
        current := DropAt(current, IndexOf(current, t));
      } else if t in overflow {
        EpochListRemove(overflow, itemValue, due, Epoch(now) + 1, t);
        overflow := DropAt(overflow, IndexOf(overflow, t));
      }
    }

    // prvInsertTimerInActiveList
    method InsertTimer(t: TimerId, nextExpiryTime: Tick, timeNow: Tick, commandTime: Tick, ghost now: nat,
                       ghost command: nat)
      returns (processNow: bool)
      requires Lists(now) && t !in Listed() && t in timers && timers[t].period > 0
      requires command <= now < command + WRAP && timeNow == Low(now) && commandTime == Low(command)
      requires nextExpiryTime == Low(command + timers[t].period)
      modifies `current, `overflow, `itemValue, `due
      ensures Lists(now) && due == old(due)[t := command + timers[t].period]
      ensures processNow <==> command + timers[t].period <= now
      ensures Listed() == if processNow then old(Listed()) else old(Listed()) + {t}
      ensures processNow || Epoch(due[t]) > Epoch(now) ==> current == old(current)
    {
      hide Epoch, Low, EpochList, Sub;
      ghost var moment := command + timers[t].period;
      DecisionIsExact(command, now, timers[t].period);
      EpochListOther(current, itemValue, due, Epoch(now), t, moment);
      EpochListOther(overflow, itemValue, due, Epoch(now) + 1, t, moment);
      itemValue := itemValue[t := nextExpiryTime];
      due := due[t := moment];
      processNow := false;
      if nextExpiryTime <= timeNow {
        if Sub(timeNow, commandTime) >= timers[t].period {
          processNow := true;
        } else {
          Insert(t, false, now, moment);
        }
      } else if timeNow < commandTime && nextExpiryTime >= commandTime {
        processNow := true;
      } else {
        Insert(t, true, now, moment);
      }
    }

    // prvReloadTimer: fire for every further expiry that has passed, and list the
    // timer for the first that has not.  The caller fires for the first expiry.
    method ReloadTimer(t: TimerId, expiredTime: Tick, timeNow: Tick, ghost now: nat, ghost expired: nat)
      requires Lists(now) && t !in Listed() && t in timers && timers[t].period > 0
      requires expired <= now < expired + WRAP && timeNow == Low(now) && expiredTime == Low(expired)
      requires t in origin && t in fired && expired == Expiry(origin[t], timers[t].period, fired[t] + 1)
      modifies `current, `overflow, `itemValue, `due, `fired
      ensures Lists(now) && Listed() == old(Listed()) + {t}
      ensures t in due && due == old(due)[t := due[t]] && t in fired && fired == old(fired)[t := fired[t]]
      ensures due[t] == Expiry(origin[t], timers[t].period, fired[t] + 2)
      ensures Expiry(origin[t], timers[t].period, fired[t] + 1) <= now < due[t] && old(fired)[t] <= fired[t]
      ensures Epoch(due[t]) > Epoch(now) ==> current == old(current)
    {
      hide Epoch, Low, EpochList, Add, Expiry, Both;
      var expiry := expiredTime;
      ghost var moment, n := expired, fired[t] + 1;
      AddFollowsClock(moment, timers[t].period);
      ExpiryNext(origin[t], timers[t].period, n);
      var again := InsertTimer(t, Add(expiry, timers[t].period), timeNow, expiry, now, moment);
      while again
        invariant Lists(now) && n > old(fired)[t] && fired == old(fired)[t := (n - 1) as nat]
        invariant expired <= moment <= now && expiry == Low(moment) && moment == Expiry(origin[t], timers[t].period, n)
        invariant due == old(due)[t := Expiry(origin[t], timers[t].period, n + 1)]
        invariant again <==> Expiry(origin[t], timers[t].period, n + 1) <= now
        invariant Listed() == if again then old(Listed()) else old(Listed()) + {t}
        invariant again || Epoch(due[t]) > Epoch(now) ==> current == old(current)
        decreases now - moment
      {
        AddFollowsClock(moment, timers[t].period);
        ExpiryNext(origin[t], timers[t].period, n);
        ExpiryNext(origin[t], timers[t].period, n + 1);
        expiry := Add(expiry, timers[t].period);
        moment, n := moment + timers[t].period, n + 1;
        fired := fired[t := fired[t] + 1];
        AddFollowsClock(moment, timers[t].period);
        again := InsertTimer(t, Add(expiry, timers[t].period), timeNow, expiry, now, moment);
      }
    }

    // What becomes of a timer that has expired and is on no list: it fires, and if
    // it reloads it catches up and is listed again.
    method Expire(t: TimerId, expiredTime: Tick, timeNow: Tick, ghost now: nat, ghost expired: nat)
      requires Lists(now) && t !in Listed() && t in timers && timers[t].period > 0 && timers[t].active
      requires expired <= now < expired + WRAP && timeNow == Low(now) && expiredTime == Low(expired)
      requires t in origin && t in fired && expired == Expiry(origin[t], timers[t].period, fired[t] + 1)
      requires t in due
      modifies `timers, `current, `overflow, `itemValue, `due, `fired
      ensures Lists(now) && Settled(t, t in Listed(), B(), now) && SameBut(old(B()), B(), t) && t in due && t in fired
      ensures old(timers)[t].autoReload ==>
                && timers == old(timers) && Listed() == old(Listed()) + {t} && now < due[t]
                && fired[t] > old(fired)[t]
      ensures !old(timers)[t].autoReload ==>
                && timers == old(timers)[t := old(timers)[t].(active := false)]
                && Listed() == old(Listed()) && fired[t] == old(fired)[t] + 1
      ensures Low(now) == MAX_DELAY ==> current == old(current)
    {
      hide Epoch, Low, EpochList, Add, Expiry, Both, SameBut;
      if timers[t].autoReload {
        ReloadTimer(t, expiredTime, timeNow, now, expired);
        LaterEpoch(now, due[t]);
      } else {
        timers := timers[t := timers[t].(active := false)];
      }
      fired := fired[t := fired[t] + 1];
      UpdatedAt(old(B()), B(), t);
    }

    // prvProcessExpiredTimer on the head of the current list
    method ProcessExpiredTimer(nextExpireTime: Tick, timeNow: Tick, ghost now: nat, ghost inHand: set<TimerId>)
      requires Lists(now) && AllPaced(Listed(), B(), inHand, now) && current != []
      requires current[0] in itemValue && current[0] in due
      requires nextExpireTime == itemValue[current[0]] && timeNow == Low(now) && due[current[0]] <= now
      modifies `timers, `current, `overflow, `itemValue, `due, `fired
      ensures Lists(now) && AllPaced(Listed(), B(), inHand, now)
      ensures Low(now) == MAX_DELAY ==> |current| < |old(current)|
      ensures AllTreated(old(B()), old(Listed()), B(), Listed(), now)
      ensures var t := old(current[0]);
              && t in DueOf(old(Listed()), old(due), now)
              && DueOf(Listed(), due, now) == DueOf(old(Listed()), old(due), now) - {t}
              && t in fired && t in old(fired) && fired[t] > old(fired)[t]
              && t in old(Listed()) && t in old(timers) && t in due && SameBut(old(B()), B(), t)
              && (if old(timers)[t].autoReload then timers == old(timers) && Listed() == old(Listed()) && now < due[t]
                  else timers == old(timers)[t := old(timers)[t].(active := false)] && Listed() == old(Listed()) - {t})
    {
      hide Epoch, Low, EpochList, Add, Expiry, AllPaced, Settled, SameBut;
      var t := current[0];
      ghost var moment := due[t];
      HeadIsFirst(current, itemValue, due, Epoch(now));
      WithinEpoch(moment, now);
      assert t in Listed();
      PacedGives(Listed(), B(), inHand, now, t);
      Remove(t, now);
      Expire(t, nextExpireTime, timeNow, now, moment);
      PacedChanged(old(Listed()), old(B()), inHand, now, Listed(), B(), t);
      assert inHand - {t} == inHand;
      HeadTreated(old(B()), old(Listed()), B(), Listed(), now, t);
    }

    // Timers that are on no list are left alone.
    twostate predicate UnlistedKept()
      reads this
    {
      Listed() <= old(Listed()) && timers - old(Listed()) == old(timers) - old(Listed())
    }

    // prvSwitchTimerLists: every timer still on the current list has expired by
    // the end of the epoch, and is processed as of then.
    method SwitchTimerLists(ghost inHand: set<TimerId>, ghost next: nat)
      requires Lists(last) && AllPaced(Listed(), B(), inHand, last) && last <= next
      requires Epoch(next) == Epoch(last) + 1 || (current == [] && overflow == [])
      modifies `timers, `current, `overflow, `itemValue, `due, `fired
      ensures Lists(next) && AllPaced(Listed(), B(), inHand, next) && UnlistedKept()
      ensures AllTreated(old(B()), old(Listed()), B(), Listed(), next)
      ensures DueOf(Listed(), due, next) <= DueOf(old(Listed()), old(due), next)
    {
      hide Epoch, Low, EpochList, AllPaced, Both, AllTreated;
      ghost var end := if current == [] then last else EpochEnd(last);
      BothIs(current, overflow);
      PacedLater(Listed(), B(), inHand, last, end);
      NothingTreated(B(), Listed(), end);
      while current != []
        invariant Lists(end) && AllPaced(Listed(), B(), inHand, end) && UnlistedKept()
        invariant AllTreated(old(B()), old(Listed()), B(), Listed(), end)
        invariant old(current) == [] ==> current == [] && overflow == old(overflow)
        decreases |current|
      {
        HeadIsFirst(current, itemValue, due, Epoch(end));
        NotAfterEnd(due[current[0]], end);
        ghost var b, listed := B(), Listed();
        ProcessExpiredTimer(itemValue[current[0]], MAX_DELAY, end, inHand);
        TreatedThen(old(B()), old(Listed()), b, listed, B(), Listed(), end, end);
      }
      if old(current) != [] {
        AfterEnd(last, end, next);
      }
      PacedLater(Listed(), B(), inHand, end, next);
      NothingTreated(B(), Listed(), next);
      TreatedThen(old(B()), old(Listed()), B(), Listed(), B(), Listed(), end, next);
      TreatedLessDue(old(B()), old(Listed()), B(), Listed(), next);
      EmptyEpochList(itemValue, due, Epoch(next));
      EmptyEpochList(itemValue, due, Epoch(next) + 1);
      BothIs(current, overflow);
      current, overflow := overflow, current;
    }

    // prvSampleTimeNow
    method SampleTimeNow(tickCount: Tick, ghost now: nat, ghost inHand: set<TimerId>) returns (switched: bool)
      requires lastTime == Low(last) && Lists(last) && AllPaced(Listed(), B(), inHand, last)
      requires tickCount == Low(now) && last <= now
      requires now < last + WRAP || Listed() == {}
      modifies this
      ensures lastTime == Low(last) && Lists(last) && AllPaced(Listed(), B(), inHand, last) && last == now
      ensures UnlistedKept() && (old(last) == now ==> !switched)
      ensures AllTreated(old(B()), old(Listed()), B(), Listed(), now)
      ensures DueOf(Listed(), due, now) <= DueOf(old(Listed()), old(due), now)
      ensures !switched ==>
                && current == old(current) && overflow == old(overflow)
                && itemValue == old(itemValue) && B() == old(B())
    {
      hide Epoch, Low, EpochList, AllPaced, Both, AllTreated;
      BothIs(current, overflow);
      NothingTreated(B(), Listed(), now);
      if current == [] && overflow == [] {
        EmptyEpochList(itemValue, due, Epoch(now));
        EmptyEpochList(itemValue, due, Epoch(now) + 1);
      } else {
        SubMeasures(last, now);
      }
      PacedLater(Listed(), B(), inHand, last, now);
      switched := false;
      if tickCount < lastTime {
        SwitchTimerLists(inHand, now);
        switched := true;
      }
      lastTime := tickCount;
      last := now;
    }

    // tmrCOMMAND_START and tmrCOMMAND_RESET
    method StartTimer(t: TimerId, value: Tick, timeNow: Tick, ghost sent: nat, ghost now: nat)
      requires Lists(now) && t !in Listed() && t in timers && timers[t].period > 0
      requires sent <= now < sent + WRAP && value == Low(sent) && timeNow == Low(now)
      modifies `timers, `current, `overflow, `itemValue, `due, `fired, `origin
      ensures Lists(now) && Settled(t, t in Listed(), B(), now) && SameBut(old(B()), B(), t)
      ensures Listed() == old(Listed()) + (if t in Listed() then {t} else {}) && t in due && t in fired
      ensures timers == old(timers)[t := old(timers)[t].(active := t in Listed())] && origin == old(origin)[t := sent]
      ensures t in Listed() <==> timers[t].autoReload || now < sent + timers[t].period
      ensures if t in Listed() then now < due[t] else fired[t] == 1
    {
      hide Epoch, Low, EpochList, Add, Expiry, Both, SameBut;
      timers := timers[t := timers[t].(active := true)];
      origin := origin[t := sent];
      fired := fired[t := 0];
      AddFollowsClock(sent, timers[t].period);
      ExpiryNext(sent, timers[t].period, 0);
      var expired := InsertTimer(t, Add(value, timers[t].period), timeNow, value, now, sent);
      ghost var b := B();
      UpdatedAt(old(B()), b, t);
      if expired {
        Expire(t, Add(value, timers[t].period), timeNow, now, sent + timers[t].period);
        SameThen(old(B()), b, B(), t);
      }
    }

    // tmrCOMMAND_CHANGE_PERIOD: with the present as its reference, a timer cannot
    // have expired yet.
    method RestartWithPeriod(t: TimerId, period: Tick, timeNow: Tick, ghost now: nat)
      requires Lists(now) && t !in Listed() && t in timers && period > 0 && timeNow == Low(now)
      modifies `timers, `current, `overflow, `itemValue, `due, `fired, `origin
      ensures Lists(now) && Settled(t, t in Listed(), B(), now) && SameBut(old(B()), B(), t)
      ensures Listed() == old(Listed()) + {t}
      ensures timers == old(timers)[t := old(timers)[t].(active := true, period := period)]
      ensures origin == old(origin)[t := now] && fired == old(fired)[t := 0] && due == old(due)[t := now + period]
    {
      hide Epoch, Low, EpochList, Add, Expiry, Both;
      timers := timers[t := timers[t].(active := true, period := period)];
      origin := origin[t := now];
      fired := fired[t := 0];
      AddFollowsClock(now, period);
      ExpiryNext(now, period, 0);
      var _ := InsertTimer(t, Add(timeNow, period), timeNow, timeNow, now, now);
    }

    // tmrCOMMAND_STOP, and tmrCOMMAND_DELETE, which frees a timer that was allocated
    method StopTimer(t: TimerId, free: bool, ghost now: nat)
      requires t in timers && t !in Listed() && timers[t].period > 0
      modifies `timers
      ensures timers == if free then old(timers) - {t} else old(timers)[t := old(timers)[t].(active := false)]
      ensures Settled(t, t in Listed(), B(), now) && SameBut(old(B()), B(), t)
    {
      if free {
        timers := timers - {t};
      } else {
        timers := timers[t := timers[t].(active := false)];
      }
    }

    // One timer command of prvProcessReceivedCommands.  The value of a start or
    // reset is the tick at which it was sent, that of a change is the new period.
    method ProcessCommand(command: Command, t: TimerId, value: Tick, tickCount: Tick, ghost sent: nat, ghost now: nat)
      requires Valid() && t in timers && tickCount == Low(now) && last <= now && (now < last + WRAP || Listed() == {})
      requires command.Start? || command.Reset? ==> sent <= now < sent + WRAP && value == Low(sent)
      requires command.ChangePeriod? ==> value > 0
      modifies this
      ensures Valid() && last == now && OthersTreated(old(B()), old(Listed()), B(), Listed(), now, t)
      ensures command.Start? || command.Reset? ==>
                && t in timers && timers[t] == old(timers)[t].(active := t in Listed())
                && t in origin && origin[t] == sent
                && (t in Listed() <==> timers[t].autoReload || now < sent + timers[t].period)
                && t in due && t in fired && (if t in Listed() then now < due[t] else fired[t] == 1)
      ensures command.ChangePeriod? ==>
                && t in timers && timers[t] == old(timers)[t].(active := true, period := value) && t in Listed()
                && t in origin && origin[t] == now && t in fired && fired[t] == 0 && t in due && due[t] == now + value
      ensures command.Stop? ==> t !in Listed() && t in timers && timers[t] == old(timers)[t].(active := false)
      ensures command.Delete? ==>
                && t !in Listed()
                && (t in timers <==> old(timers)[t].isStatic)
                && (t in timers ==> timers[t] == old(timers)[t].(active := false))
    {
      hide Epoch, Low, EpochList, AllPaced, Paced, Settled, SameBut, Expiry, Both, AllTreated, OthersTreated;
      PacedGives(Listed(), B(), {}, last, t);
      PacedInHand(Listed(), B(), last, t);
      Remove(t, last);
      var _ := SampleTimeNow(tickCount, now, {t});
      ghost var listed, b := Listed(), B();
      assert t in timers && timers[t] == old(timers)[t] by {
        assert t in old(timers) - old(Listed() - {t});
      }
      match command {
        case Start => StartTimer(t, value, tickCount, sent, now);
        case Reset => StartTimer(t, value, tickCount, sent, now);
        case ChangePeriod => RestartWithPeriod(t, value, tickCount, now);
        case Stop => StopTimer(t, false, now);
        case Delete => StopTimer(t, !timers[t].isStatic, now);
      }
      PacedChanged(listed, b, {t}, now, Listed(), B(), t);
      TreatedBut(old(B()), old(Listed()), b, listed, B(), Listed(), now, t);
      assert {t} - {t} == {};
    }

    // One round of the daemon: prvGetNextExpireTime and prvProcessTimerOrBlockTask.
    // When it blocks, every listed timer has fired once for each period that has
    // ended; and it blocks until no later than the next expiry or wrap.  It asks for
    // a wait of zero ticks, which lasts until the next tick, only at the very tick
    // of a wrap and with nothing in the current list.  When it does not block, one
    // timer that was due has fired and is not due any more, unless the daemon had
    // the lists to switch, which it has not twice at one tick.
    method ProcessTimerOrBlockTask(tickCount: Tick, ghost now: nat)
      returns (blocks: bool, ticks: Tick, indefinitely: bool)
      requires Valid() && tickCount == Low(now) && last <= now && (now < last + WRAP || Listed() == {})
      modifies this
      ensures Valid() && last == now && AllTreated(old(B()), old(Listed()), B(), Listed(), now)
      ensures blocks ==> B() == old(B()) && Listed() == old(Listed()) && (indefinitely <==> Listed() == {})
      ensures blocks ==> DueOf(Listed(), due, now) == {}
      ensures DueOf(Listed(), due, now) <= DueOf(old(Listed()), old(due), now)
      ensures !blocks && old(last) == now ==>
                && old(current) != [] && old(current)[0] in DueOf(old(Listed()), old(due), now)
                && DueOf(Listed(), due, now) == DueOf(old(Listed()), old(due), now) - {old(current)[0]}
                && old(current)[0] in fired && old(current)[0] in old(fired)
                && fired[old(current)[0]] > old(fired)[old(current)[0]]
      ensures blocks ==> AllUpToDate(Listed(), B(), now)
      ensures blocks ==> forall t :: t in Listed() ==> t in due && now + Lasting(ticks) <= due[t]
      ensures blocks && ticks == 0 ==> current == [] && tickCount == 0
      ensures blocks && !indefinitely ==>
                if current != [] then current[0] in due && now + ticks == due[current[0]] else Low(now + ticks) == 0
    {
      hide Epoch, Low, EpochList, AllPaced, Paced, Both, Sub, Expiry, AllTreated;
      var listWasEmpty := current == [];
      var nextExpireTime: Tick := 0;
      BothIs(current, overflow);
      if !listWasEmpty {
        HeadIsFirst(current, itemValue, due, Epoch(last));
        nextExpireTime := itemValue[current[0]];
      }
      var switched := SampleTimeNow(tickCount, now, {});
      blocks, ticks, indefinitely := false, 0, false;
      if !switched {
        if !listWasEmpty && nextExpireTime <= tickCount {
          HeadIsFirst(current, itemValue, due, Epoch(now));
          SameEpochOrder(due[current[0]], now);
          ProcessExpiredTimer(nextExpireTime, tickCount, now, {});
        } else {
          if listWasEmpty {
            listWasEmpty := overflow == [];
          }
          blocks, ticks, indefinitely := true, Sub(nextExpireTime, tickCount), listWasEmpty;
          NoneDue(current, overflow, itemValue, due, now);
          AllExact(Listed(), B(), now);
        }
      }
    }

    // The loop of prvTimerTask at one tick, with no command waiting: it blocks after
    // one round for each timer that was due, and at most two more.  Every timer has
    // then fired for each of its periods that has ended, and one that does not reload
    // exactly once if it was due, and is off the list.
    method RunUntilBlocked(tickCount: Tick, ghost now: nat)
      returns (ticks: Tick, indefinitely: bool, ghost rounds: nat)
      requires Valid() && tickCount == Low(now) && last <= now && (now < last + WRAP || Listed() == {})
      modifies this
      ensures Valid() && last == now && AllTreated(old(B()), old(Listed()), B(), Listed(), now)
      ensures rounds <= |DueOf(old(Listed()), old(due), now)| + 2
      ensures DueOf(Listed(), due, now) == {} && (indefinitely <==> Listed() == {})
      ensures AllUpToDate(Listed(), B(), now)
    {
      hide Low, AllTreated, AllUpToDate, DueOf, AllPaced, Both, EpochList, Epoch;
      var blocks: bool;
      blocks, ticks, indefinitely := ProcessTimerOrBlockTask(tickCount, now);
      rounds := 1;
      FewerDue(DueOf(Listed(), due, now), DueOf(old(Listed()), old(due), now));
      while !blocks
        invariant Valid() && last == now && AllTreated(old(B()), old(Listed()), B(), Listed(), now)
        invariant rounds + |DueOf(Listed(), due, now)|
                  <= |DueOf(old(Listed()), old(due), now)| + (if blocks then 2 else 1)
        invariant blocks ==> DueOf(Listed(), due, now) == {} && (indefinitely <==> Listed() == {})
        invariant blocks ==> AllUpToDate(Listed(), B(), now)
        decreases !blocks, |DueOf(Listed(), due, now)|
      {
        ghost var b, listed := B(), Listed();
        blocks, ticks, indefinitely := ProcessTimerOrBlockTask(tickCount, now);
        rounds := rounds + 1;
        TreatedThen(old(B()), old(Listed()), b, listed, B(), Listed(), now, now);
      }
    }
  }

  lemma FewerDue(a: set<TimerId>, b: set<TimerId>)
    requires a <= b
    ensures |a| <= |b|
  {
    if a != {} {
      var t :| t in a;
      FewerDue(a - {t}, b - {t});
    }
  }
}
