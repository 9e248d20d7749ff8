/** The schedulability calculator (tools/rms_overload_demo.py), over exact
    rationals where the program uses floating point.

    For each task in priority order it iterates response := C + interference, up
    to 100 times, until the response repeats or exceeds the task's period. */
module ResponseTimes {

  datatype Task = Task(period: real, wcet: real)

  ghost predicate Proper(tasks: seq<Task>) {
    forall i :: 0 <= i < |tasks| ==> tasks[i].period > 0.0 && tasks[i].wcet > 0.0
  }

  // math.ceil
  function Ceiling(x: real): (n: int)
    ensures n as real - 1.0 < x <= n as real
  {
    -((-x).Floor)
  }

  // What the first n tasks can demand in a time t
  function Interference(tasks: seq<Task>, n: nat, t: real): real
    requires n <= |tasks| && forall i :: 0 <= i < n ==> tasks[i].period > 0.0
  {
    if n == 0 then 0.0
    else Interference(tasks, n - 1, t) + Ceiling(t / tasks[n - 1].period) as real * tasks[n - 1].wcet
  }

  // ... and with the task itself
  function Demand(tasks: seq<Task>, i: nat, t: real): real
    requires i < |tasks| && forall j :: 0 <= j < i ==> tasks[j].period > 0.0
  {
    tasks[i].wcet + Interference(tasks, i, t)
  }

  // A time by which everything demanded of it is done
  ghost predicate Meets(tasks: seq<Task>, i: nat, t: real)
    requires Proper(tasks) && i < |tasks|
  {
    t > 0.0 && Demand(tasks, i, t) <= t
  }

  function Utilization(tasks: seq<Task>, n: nat): real
    requires n <= |tasks| && forall i :: 0 <= i < n ==> tasks[i].period > 0.0
  {
    if n == 0 then 0.0 else Utilization(tasks, n - 1) + tasks[n - 1].wcet / tasks[n - 1].period
  }

  // ---------------------------------------------------------------------
  // Demand
  // ---------------------------------------------------------------------

  lemma CeilingMonotone(x: real, y: real)
    requires x <= y
    ensures Ceiling(x) <= Ceiling(y)
  {
  }

  lemma DivideMonotone(x: real, y: real, d: real)
    requires x <= y && d > 0.0
    ensures x / d <= y / d
  {
  }

  lemma TimesMonotone(x: real, y: real, f: real)
    requires x <= y && f > 0.0
    ensures x * f <= y * f
  {
  }

  lemma {:induction false} InterferenceMonotone(tasks: seq<Task>, n: nat, t: real, u: real)
    requires Proper(tasks) && n <= |tasks| && t <= u
    ensures Interference(tasks, n, t) <= Interference(tasks, n, u)
    decreases n
  {
    if n > 0 {
      var task := tasks[n - 1];
      InterferenceMonotone(tasks, n - 1, t, u);
      DivideMonotone(t, u, task.period);
      CeilingMonotone(t / task.period, u / task.period);
      TimesMonotone(Ceiling(t / task.period) as real, Ceiling(u / task.period) as real, task.wcet);
    }
  }

  lemma ShareOfTime(t: real, task: Task)
    requires task.period > 0.0 && task.wcet > 0.0
    ensures Ceiling(t / task.period) as real * task.wcet >= t * (task.wcet / task.period)
  {
    TimesMonotone(t / task.period, Ceiling(t / task.period) as real, task.wcet);
    assert t / task.period * task.wcet == t * (task.wcet / task.period);
  }

  // Tasks demand at least their share of any time.
  lemma {:induction false} InterferenceAtLeast(tasks: seq<Task>, n: nat, t: real)
    requires Proper(tasks) && n <= |tasks|
    ensures Interference(tasks, n, t) >= t * Utilization(tasks, n)
    ensures t >= 0.0 ==> Interference(tasks, n, t) >= 0.0 && Utilization(tasks, n) >= 0.0
    decreases n
  {
    if n > 0 {
      InterferenceAtLeast(tasks, n - 1, t);
      ShareOfTime(t, tasks[n - 1]);
      if t >= 0.0 {
        DivideMonotone(0.0, t, tasks[n - 1].period);
        DivideMonotone(0.0, tasks[n - 1].wcet, tasks[n - 1].period);
        TimesMonotone(0.0, Ceiling(t / tasks[n - 1].period) as real, tasks[n - 1].wcet);
      }
    }
  }

  // ---------------------------------------------------------------------
  // The iteration
  // ---------------------------------------------------------------------

  // How the loop over one task ends
  datatype Exit = Repeated | Overrun | OutOfRounds

  datatype Outcome = Outcome(response: real, exit: Exit)

  const ROUNDS: nat := 100

  function Iterate(tasks: seq<Task>, i: nat, response: real, rounds: nat): Outcome
    requires i < |tasks| && forall j :: 0 <= j < i ==> tasks[j].period > 0.0
    decreases rounds
  {
    if rounds == 0 then Outcome(response, OutOfRounds)
    else
      var next := Demand(tasks, i, response);
      if next == response then Outcome(response, Repeated)
      else if next > tasks[i].period then Outcome(next, Overrun)
      else Iterate(tasks, i, next, rounds - 1)
  }

  function Response(tasks: seq<Task>, i: nat): Outcome
    requires i < |tasks| && forall j :: 0 <= j < i ==> tasks[j].period > 0.0
  {
    Iterate(tasks, i, tasks[i].wcet, ROUNDS)
  }

  // A response below every time that meets the demand stays below them.
  lemma NextIsBelow(tasks: seq<Task>, i: nat, response: real, t: real)
    requires Proper(tasks) && i < |tasks| && Meets(tasks, i, t) && response <= t
    ensures Demand(tasks, i, response) <= t
  {
    InterferenceMonotone(tasks, i, response, t);
  }

  lemma {:induction false} IterateIsBelow(tasks: seq<Task>, i: nat, response: real, rounds: nat, t: real)
    requires Proper(tasks) && i < |tasks| && Meets(tasks, i, t) && response <= t
    ensures Iterate(tasks, i, response, rounds).response <= t
    decreases rounds
  {
    if rounds > 0 {
      NextIsBelow(tasks, i, response, t);
      var next := Demand(tasks, i, response);
      if next != response && next <= tasks[i].period {
        IterateIsBelow(tasks, i, next, rounds - 1, t);
      }
    }
  }

  lemma {:induction false} IterateEnds(tasks: seq<Task>, i: nat, response: real, rounds: nat)
    requires Proper(tasks) && i < |tasks| && response > 0.0
    ensures var o := Iterate(tasks, i, response, rounds);
            && o.response > 0.0
            && (o.exit == Repeated ==> Demand(tasks, i, o.response) == o.response)
            && (o.exit == Overrun ==> o.response > tasks[i].period)
            && (o.exit == OutOfRounds && rounds > 0 ==> o.response <= tasks[i].period)
    decreases rounds
  {
    if rounds > 0 {
      InterferenceAtLeast(tasks, i, response);
      var next := Demand(tasks, i, response);
      if next != response && next <= tasks[i].period {
        IterateEnds(tasks, i, next, rounds - 1);
      }
    }
  }

  // Every time that meets a task's demand is at least its response.  If the
  // response repeats, it is the least such time; if it overruns, no time up to the
  // period is one.
  lemma ResponseIsLeast(tasks: seq<Task>, i: nat)
    requires Proper(tasks) && i < |tasks|
    ensures var o := Response(tasks, i);
            && (forall t :: Meets(tasks, i, t) ==> o.response <= t)
            && (o.exit == Repeated ==> Meets(tasks, i, o.response) && Demand(tasks, i, o.response) == o.response)
            && (o.exit == Overrun ==> forall t :: t <= tasks[i].period ==> !Meets(tasks, i, t))
  {
    var o := Response(tasks, i);
    forall t | Meets(tasks, i, t)
      ensures o.response <= t
    {
      InterferenceAtLeast(tasks, i, t);
      IterateIsBelow(tasks, i, tasks[i].wcet, ROUNDS, t);
    }
    IterateEnds(tasks, i, tasks[i].wcet, ROUNDS);
  }

  // ---------------------------------------------------------------------
  // The verdict
  // ---------------------------------------------------------------------

  ghost predicate InTime(tasks: seq<Task>, i: nat)
    requires Proper(tasks) && i < |tasks|
  {
    exists t :: t <= tasks[i].period && Meets(tasks, i, t)
  }

  // response_time_analysis
  method ResponseTimeAnalysis(tasks: seq<Task>) returns (schedulable: bool, responses: seq<real>)
    requires Proper(tasks)
    ensures |responses| == |tasks| && forall i :: 0 <= i < |tasks| ==> responses[i] == Response(tasks, i).response
    ensures schedulable <==> forall i :: 0 <= i < |tasks| ==> Response(tasks, i).response <= tasks[i].period
  {
    responses := [];
    var index := 0;
    while index < |tasks|
      invariant 0 <= index == |responses| <= |tasks|
      invariant forall i :: 0 <= i < index ==> responses[i] == Response(tasks, i).response
    {
      var response := tasks[index].wcet;
      var rounds: nat := ROUNDS;
      while rounds > 0
        invariant rounds <= ROUNDS
        invariant Iterate(tasks, index, response, rounds) == Response(tasks, index)
      {
        var interference := SumInterference(tasks, index, response);
        var next := tasks[index].wcet + interference;
        if next == response {
          break;
        }
        response := next;
        if response > tasks[index].period {
          break;
        }
        rounds := rounds - 1;
      }
      responses := responses + [response];
      index := index + 1;
    }
    schedulable := true;
    var i := 0;
    while i < |tasks|
      invariant 0 <= i <= |tasks|
      invariant schedulable <==> forall j :: 0 <= j < i ==> responses[j] <= tasks[j].period
    {
      if responses[i] > tasks[i].period {
        schedulable := false;
      }
      i := i + 1;
    }
  }

  method SumInterference(tasks: seq<Task>, index: nat, response: real) returns (sum: real)
    requires Proper(tasks) && index < |tasks|
    ensures sum == Interference(tasks, index, response)
  {
    sum := 0.0;
    var j := 0;
    while j < index
      invariant 0 <= j <= index && sum == Interference(tasks, j, response)
    {
      sum := sum + Ceiling(response / tasks[j].period) as real * tasks[j].wcet;
      j := j + 1;
    }
  }

  ghost predicate Schedulable(tasks: seq<Task>)
    requires Proper(tasks)
  {
    forall i :: 0 <= i < |tasks| ==> Response(tasks, i).response <= tasks[i].period
  }

  // ---- when the rounds run out ----

  // The demand of the demand of ... a task's own time
  ghost function Chain(tasks: seq<Task>, i: nat, k: nat): real
    requires Proper(tasks) && i < |tasks|
  {
    if k == 0 then tasks[i].wcet else Demand(tasks, i, Chain(tasks, i, k - 1))
  }

  // After a hundred rounds the demand is still growing, and still within the period.
  ghost predicate StillGrowing(tasks: seq<Task>, i: nat)
    requires Proper(tasks) && i < |tasks|
  {
    Chain(tasks, i, ROUNDS - 1) < Chain(tasks, i, ROUNDS) <= tasks[i].period
  }

  lemma {:induction false} ChainGrows(tasks: seq<Task>, i: nat, k: nat)
    requires Proper(tasks) && i < |tasks|
    ensures 0.0 < Chain(tasks, i, k) <= Chain(tasks, i, k + 1)
    decreases k
  {
    if k == 0 {
      InterferenceAtLeast(tasks, i, tasks[i].wcet);
    } else {
      ChainGrows(tasks, i, k - 1);
      InterferenceMonotone(tasks, i, Chain(tasks, i, k - 1), Chain(tasks, i, k));
    }
  }

  // Where it stops growing it has stopped for good.
  lemma {:induction false} ChainGrewBefore(tasks: seq<Task>, i: nat, k: nat, n: nat)
    requires Proper(tasks) && i < |tasks| && k <= n && Chain(tasks, i, n) < Chain(tasks, i, n + 1)
    ensures Chain(tasks, i, k) < Chain(tasks, i, k + 1) <= Chain(tasks, i, n + 1)
    decreases n - k
  {
    ChainGrows(tasks, i, k);
    if k < n {
      ChainGrewBefore(tasks, i, k + 1, n);
    }
  }

  ghost predicate GoesOn(tasks: seq<Task>, i: nat, k: nat)
    requires Proper(tasks) && i < |tasks|
  {
    Chain(tasks, i, k) != Chain(tasks, i, k + 1) && Chain(tasks, i, k + 1) <= tasks[i].period
  }

  lemma IterateUnfolds(tasks: seq<Task>, i: nat, k: nat)
    requires Proper(tasks) && i < |tasks| && k < ROUNDS
    ensures Iterate(tasks, i, Chain(tasks, i, k), ROUNDS - k).exit == OutOfRounds
       <==> GoesOn(tasks, i, k) && Iterate(tasks, i, Chain(tasks, i, k + 1), ROUNDS - (k + 1)).exit == OutOfRounds
  {
    hide Demand;
  }

  lemma {:induction false} IterateFollows(tasks: seq<Task>, i: nat, k: nat)
    requires Proper(tasks) && i < |tasks| && k <= ROUNDS
    ensures Iterate(tasks, i, Chain(tasks, i, k), ROUNDS - k).exit == OutOfRounds
       <==> forall j :: k <= j < ROUNDS ==> GoesOn(tasks, i, j)
    decreases ROUNDS - k
  {
    if k < ROUNDS {
      hide Iterate, Chain, GoesOn;
      IterateUnfolds(tasks, i, k);
      IterateFollows(tasks, i, k + 1);
    }
  }

  lemma RunsOutExactly(tasks: seq<Task>, i: nat)
    requires Proper(tasks) && i < |tasks|
    ensures Response(tasks, i).exit == OutOfRounds <==> StillGrowing(tasks, i)
  {
    IterateFollows(tasks, i, 0);
    assert Chain(tasks, i, 0) == tasks[i].wcet;
    hide Chain, Iterate;
    assert (forall j :: 0 <= j < ROUNDS ==> GoesOn(tasks, i, j)) ==> GoesOn(tasks, i, ROUNDS - 1);
    ChainGrows(tasks, i, ROUNDS - 1);
    if StillGrowing(tasks, i) {
      forall j | 0 <= j < ROUNDS
        ensures GoesOn(tasks, i, j)
      {
        ChainGrewBefore(tasks, i, j, ROUNDS - 1);
      }
    }
  }

  // The jobs that the first n tasks release in a time t
  function Jobs(tasks: seq<Task>, n: nat, t: real): int
    requires n <= |tasks| && forall i :: 0 <= i < n ==> tasks[i].period > 0.0
  {
    if n == 0 then 0 else Jobs(tasks, n - 1, t) + Ceiling(t / tasks[n - 1].period)
  }

  // Between its own time and its period, few jobs disturb the task.
  predicate FewJobs(tasks: seq<Task>, i: nat)
    requires i < |tasks| && forall j :: 0 <= j <= i ==> tasks[j].period > 0.0
  {
    Jobs(tasks, i, tasks[i].period) - Jobs(tasks, i, tasks[i].wcet) + 1 < ROUNDS
  }

  // Interference grows only with another job.
  lemma {:induction false} MoreJobs(tasks: seq<Task>, n: nat, t: real, u: real)
    requires Proper(tasks) && n <= |tasks| && t <= u
    ensures Jobs(tasks, n, t) <= Jobs(tasks, n, u)
    ensures Jobs(tasks, n, t) == Jobs(tasks, n, u) ==> Interference(tasks, n, t) == Interference(tasks, n, u)
    decreases n
  {
    if n > 0 {
      MoreJobs(tasks, n - 1, t, u);
      DivideMonotone(t, u, tasks[n - 1].period);
      CeilingMonotone(t / tasks[n - 1].period, u / tasks[n - 1].period);
      hide Ceiling;
      assert Jobs(tasks, n, t) == Jobs(tasks, n, u) ==>
          Ceiling(t / tasks[n - 1].period) == Ceiling(u / tasks[n - 1].period);
    }
  }

  lemma {:induction false} JobPerRound(tasks: seq<Task>, i: nat, k: nat, n: nat)
    requires Proper(tasks) && i < |tasks| && k <= n && Chain(tasks, i, n) < Chain(tasks, i, n + 1)
    ensures Jobs(tasks, i, tasks[i].wcet) + k <= Jobs(tasks, i, Chain(tasks, i, k))
    decreases k
  {
    if k > 0 {
      JobPerRound(tasks, i, k - 1, n);
      ChainGrewBefore(tasks, i, k - 1, n);
      ChainGrewBefore(tasks, i, k, n);
      MoreJobs(tasks, i, Chain(tasks, i, k - 1), Chain(tasks, i, k));
    }
  }

  // So the rounds suffice for a task that few jobs disturb.
  lemma RoundsSuffice(tasks: seq<Task>, i: nat)
    requires Proper(tasks) && i < |tasks| && FewJobs(tasks, i)
    ensures !StillGrowing(tasks, i)
  {
    if StillGrowing(tasks, i) {
      JobPerRound(tasks, i, ROUNDS - 1, ROUNDS - 1);
      MoreJobs(tasks, i, Chain(tasks, i, ROUNDS - 1), tasks[i].period);
    }
  }

  // ---- what the verdict means ----

  // A task's response is within its period exactly if some time within the period
  // meets its demand, or the demand is still growing when the rounds run out.
  lemma VerdictIsExact(tasks: seq<Task>, i: nat)
    requires Proper(tasks) && i < |tasks|
    ensures Response(tasks, i).response <= tasks[i].period <==> InTime(tasks, i) || StillGrowing(tasks, i)
  {
    ResponseIsLeast(tasks, i);
    IterateEnds(tasks, i, tasks[i].wcet, ROUNDS);
    RunsOutExactly(tasks, i);
  }

  lemma SchedulableIsExact(tasks: seq<Task>)
    requires Proper(tasks)
    ensures Schedulable(tasks) <==> forall i :: 0 <= i < |tasks| ==> InTime(tasks, i) || StillGrowing(tasks, i)
    ensures (forall i :: 0 <= i < |tasks| ==> FewJobs(tasks, i)) ==>
              (Schedulable(tasks) <==> forall i :: 0 <= i < |tasks| ==> InTime(tasks, i))
  {
    hide Response, InTime, StillGrowing, FewJobs;
    forall i | 0 <= i < |tasks|
      ensures Response(tasks, i).response <= tasks[i].period <==> InTime(tasks, i) || StillGrowing(tasks, i)
      ensures FewJobs(tasks, i) ==> !StillGrowing(tasks, i)
    {
      VerdictIsExact(tasks, i);
      if FewJobs(tasks, i) {
        RoundsSuffice(tasks, i);
      }
    }
  }

  function Times(a: real, b: real): real {
    a * b
  }

  lemma Distribute(a: real, b: real, t: real)
    ensures Times(a + b, t) == Times(a, t) + Times(t, b)
  {
  }

  lemma AtMostOne(a: real, t: real)
    requires t > 0.0 && Times(a, t) <= t
    ensures a <= 1.0
  {
  }

  lemma ShareWithin(share: real, t: real, period: real, c: real)
    requires share >= 0.0 && t <= period && Times(share, period) == c
    ensures Times(share, t) <= c
  {
  }

  lemma ShareAtMostOne(t: real, u: real, c: real, period: real, share: real)
    requires 0.0 < t <= period && share >= 0.0 && Times(share, period) == c && c + Times(t, u) <= t
    ensures share + u <= 1.0
  {
    hide Times;
    ShareWithin(share, t, period, c);
    Distribute(share, u, t);
    AtMostOne(share + u, t);
  }

  lemma Quotient(c: real, t: real)
    requires t > 0.0 && c > 0.0
    ensures c / t >= 0.0 && Times(c / t, t) == c
  {
  }

  // If the last task is in time, the processor is not asked for more than there is.
  lemma LastInTime(tasks: seq<Task>)
    requires Proper(tasks) && tasks != [] && InTime(tasks, |tasks| - 1)
    ensures Utilization(tasks, |tasks|) <= 1.0
  {
    var i := |tasks| - 1;
    var t :| t <= tasks[i].period && Meets(tasks, i, t);
    Quotient(tasks[i].wcet, tasks[i].period);
    InterferenceAtLeast(tasks, i, t);
    assert Times(t, Utilization(tasks, i)) == t * Utilization(tasks, i);
    hide Times, Interference;
    ShareAtMostOne(t, Utilization(tasks, i), tasks[i].wcet, tasks[i].period, tasks[i].wcet / tasks[i].period);
  }

  lemma NothingIsUsed(tasks: seq<Task>)
    ensures tasks == [] ==> Utilization(tasks, 0) == 0.0
  {
  }

  // So an overloaded set of tasks is found schedulable only if the demand of its
  // last task is still growing when the rounds run out, which takes many jobs.
  lemma OverloadIsNotSchedulable(tasks: seq<Task>)
    requires Proper(tasks) && Utilization(tasks, |tasks|) > 1.0
    ensures tasks != []
    ensures Schedulable(tasks) ==> StillGrowing(tasks, |tasks| - 1) && !FewJobs(tasks, |tasks| - 1)
  {
    hide Response, Utilization, InTime, StillGrowing, FewJobs;
    NothingIsUsed(tasks);
    if Schedulable(tasks) {
      VerdictIsExact(tasks, |tasks| - 1);
      if InTime(tasks, |tasks| - 1) {
        LastInTime(tasks);
      }
      if FewJobs(tasks, |tasks| - 1) {
        RoundsSuffice(tasks, |tasks| - 1);
      }
    }
  }

  // ---- when they do ----

  // One task that needs the whole processor, and another with a long period
  const OVERLOADED: seq<Task> := [Task(1.0, 1.0), Task(1000.0, 0.5)]

  lemma {:induction false} OneMorePerRound(n: nat, rounds: nat)
    requires n + rounds == 100
    ensures Iterate(OVERLOADED, 1, 0.5 + n as real, rounds) == Outcome(100.5, OutOfRounds)
    decreases rounds
  {
    if rounds > 0 {
      var r := 0.5 + n as real;
      assert r / 1.0 == r && Ceiling(r) == n + 1;
      assert Interference(OVERLOADED, 1, r) == Interference(OVERLOADED, 0, r) + Ceiling(r / 1.0) as real * 1.0;
      assert Demand(OVERLOADED, 1, r) == 0.5 + (n + 1) as real;
      OneMorePerRound(n + 1, rounds - 1);
    }
  }

  // The rounds run out with the response still growing, and the verdict is wrong:
  // the processor is overloaded, and no time meets the second task's demand.
  lemma BudgetIsTooSmall()
    ensures Proper(OVERLOADED) && Utilization(OVERLOADED, 2) > 1.0
    ensures Schedulable(OVERLOADED) && !InTime(OVERLOADED, 1)
  {
    OneMorePerRound(0, 100);
    assert Demand(OVERLOADED, 0, 1.0) == 1.0;
    assert Response(OVERLOADED, 0) == Outcome(1.0, Repeated);
    assert Utilization(OVERLOADED, 2) == Utilization(OVERLOADED, 1) + 0.5 / 1000.0;
    assert Utilization(OVERLOADED, 1) == Utilization(OVERLOADED, 0) + 1.0 / 1.0;
    if InTime(OVERLOADED, 1) {
      LastInTime(OVERLOADED);
    }
  }

  // ---------------------------------------------------------------------
  // The regions of the chart
  // ---------------------------------------------------------------------

  datatype Region = Overload | DeadlineMiss | GuaranteedByBound | SchedulableAboveBound

  // The classification in build_rows
  function RegionOf(utilization: real, schedulable: bool, bound: real): Region {
    if utilization > 1.0 then Overload
    else if !schedulable then DeadlineMiss
    else if utilization <= bound then GuaranteedByBound
    else SchedulableAboveBound
  }

  // The two schedulable regions are the sets that are not overloaded and in which
  // every task is in time or runs out of rounds.  With few jobs they are those in
  // which every task is in time, and an overload is one in which the last is not.
  lemma RegionsAreExact(tasks: seq<Task>, bound: real)
    requires Proper(tasks)
    ensures var region := RegionOf(Utilization(tasks, |tasks|), Schedulable(tasks), bound);
            && ((region == GuaranteedByBound || region == SchedulableAboveBound)
                <==> Utilization(tasks, |tasks|) <= 1.0
                     && (forall i :: 0 <= i < |tasks| ==> InTime(tasks, i) || StillGrowing(tasks, i)))
            && ((forall i :: 0 <= i < |tasks| ==> FewJobs(tasks, i)) ==>
                  ((region == GuaranteedByBound || region == SchedulableAboveBound)
                   <==> (forall i :: 0 <= i < |tasks| ==> InTime(tasks, i))))
            && (region == Overload ==> tasks != [] && !InTime(tasks, |tasks| - 1))
  {
    hide Schedulable, Utilization, InTime, StillGrowing, FewJobs;
    SchedulableIsExact(tasks);
    if Utilization(tasks, |tasks|) > 1.0 {
      OverloadIsNotSchedulable(tasks);
      if InTime(tasks, |tasks| - 1) {
        LastInTime(tasks);
      }
    }
  }

  // What each region says of a set: an overload asks for more than the processor has;
  // a deadline miss does not, but some task misses, which no rounds would mend; and of
  // the rest the bound tells whether the test of Liu and Layland would have sufficed.
  lemma RegionsMean(tasks: seq<Task>, bound: real)
    requires Proper(tasks)
    ensures var u := Utilization(tasks, |tasks|);
            var region := RegionOf(u, Schedulable(tasks), bound);
            && (region == Overload <==> u > 1.0)
            && (region == DeadlineMiss <==>
                  u <= 1.0 && exists i :: 0 <= i < |tasks| && !InTime(tasks, i) && !StillGrowing(tasks, i))
            && (region == GuaranteedByBound <==>
                  u <= 1.0 && u <= bound && forall i :: 0 <= i < |tasks| ==> InTime(tasks, i) || StillGrowing(tasks, i))
            && (region == SchedulableAboveBound <==>
                  bound < u <= 1.0 && forall i :: 0 <= i < |tasks| ==> InTime(tasks, i) || StillGrowing(tasks, i))
  {
    hide Schedulable, Utilization, InTime, StillGrowing;
    SchedulableIsExact(tasks);
  }

  // ---- the sets that the program looks at ----

  // TASKS at one of the SCALES
  function Scaled(scale: real): seq<Task> {
    [Task(10.0, 2.0 * scale), Task(20.0, 4.0 * scale), Task(50.0, 8.0 * scale)]
  }

  lemma {:induction false} JobsAtLeast(tasks: seq<Task>, n: nat, t: real)
    requires Proper(tasks) && n <= |tasks| && t >= 0.0
    ensures Jobs(tasks, n, t) >= 0
    decreases n
  {
    if n > 0 {
      JobsAtLeast(tasks, n - 1, t);
      DivideMonotone(0.0, t, tasks[n - 1].period);
    }
  }

  lemma ScaledAreFew(scale: real, i: nat)
    requires scale > 0.0 && i < 3
    ensures Proper(Scaled(scale)) && FewJobs(Scaled(scale), i)
  {
    var tasks := Scaled(scale);
    JobsAtLeast(tasks, i, tasks[i].wcet);
    var t := tasks[i].period;
    assert Jobs(tasks, 0, t) == 0;
    assert i >= 1 ==> Jobs(tasks, 1, t) == Ceiling(t / 10.0) <= 5;
    assert i >= 2 ==> Jobs(tasks, 2, t) == Jobs(tasks, 1, t) + Ceiling(t / 20.0) <= 8;
  }

  // On those the rounds always suffice, at any scale: its chart is right.
  lemma ChartIsRight(scale: real, bound: real)
    requires scale > 0.0
    ensures Proper(Scaled(scale))
    ensures var region := RegionOf(Utilization(Scaled(scale), 3), Schedulable(Scaled(scale)), bound);
            && ((region == GuaranteedByBound || region == SchedulableAboveBound)
                <==> (forall i :: 0 <= i < 3 ==> InTime(Scaled(scale), i)))
            && (region == Overload ==> !InTime(Scaled(scale), 2))
  {
    ScaledAreFew(scale, 0);
    hide Schedulable, Utilization, InTime, StillGrowing, FewJobs;
    forall i | 0 <= i < |Scaled(scale)|
      ensures FewJobs(Scaled(scale), i)
    {
      ScaledAreFew(scale, i);
    }
    RegionsAreExact(Scaled(scale), bound);
  }
}
