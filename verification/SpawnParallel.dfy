/// Bounded-concurrency execution of sub-agent tasks (subagent.rs, spawn_parallel).
/// Which running task finishes next, with what result and when, is left open. Times are milliseconds.

module SpawnParallel {
  import opened Core

  datatype SubAgentTask = SubAgentTask(id: string, prompt: string)

  datatype SubAgentResult = SubAgentResult(id: string, output: string, success: bool, tokensUsed: nat)

  datatype SpawnSummary = SpawnSummary(
    results: seq<SubAgentResult>, succeeded: nat, failed: nat, totalTokensUsed: nat)

  /// How the collect loop ended.
  datatype Ending = AllCollected | TotalTimeout | TaskPanicked

  // ----- The scheduler as a step system over task positions -----

  /// `next` tasks have been started, `running` of them are in flight, `order` lists the finished ones.
  datatype Sched = Sched(next: nat, running: set<nat>, order: seq<nat>)

  function Min(a: nat, b: nat): nat {
    if a < b then a else b
  }

  function Started(n: nat, maxConcurrent: nat): Sched {
    Sched(Min(n, maxConcurrent), FirstPositions(Min(n, maxConcurrent)), [])
  }

  function FirstPositions(m: nat): (s: set<nat>)
    ensures |s| == m && forall p: nat :: p in s <==> p < m
  {
    if m == 0 then {} else FirstPositions(m - 1) + {m - 1}
  }

  /// Task p finishes; the next task, if any, takes its place.
  function Advance(s: Sched, n: nat, p: nat): Sched {
    if s.next < n then Sched(s.next + 1, s.running - {p} + {s.next}, s.order + [p])
    else Sched(s.next, s.running - {p}, s.order + [p])
  }

  ghost predicate Distinct(s: seq<nat>) {
    forall i, j | 0 <= i < j < |s| :: s[i] != s[j]
  }

  /// Work-conserving and within the limit: exactly the started, unfinished tasks run, and their number
  /// is the smaller of the limit and the work left.
  ghost predicate Inv(s: Sched, n: nat, maxConcurrent: nat) {
    && s.next <= n && Distinct(s.order)
    && (forall p: nat :: p in s.running <==> p < s.next && p !in s.order)
    && (forall p | p in s.order :: p < s.next)
    && (maxConcurrent > 0 ==> |s.order| <= n && |s.running| == Min(maxConcurrent, n - |s.order|))
    && (maxConcurrent == 0 ==> s.next == 0 && s.order == [])
    && s.next == Min(n, maxConcurrent + |s.order|)
  }

  lemma StartKeepsInv(n: nat, maxConcurrent: nat)
    ensures Inv(Started(n, maxConcurrent), n, maxConcurrent) && Feasible([], n, maxConcurrent)
  {
  }

  lemma AdvanceKeepsInv(s: Sched, n: nat, maxConcurrent: nat, p: nat)
    requires Inv(s, n, maxConcurrent) && p in s.running
    ensures Inv(Advance(s, n, p), n, maxConcurrent) && Advance(s, n, p).order == s.order + [p]
  {
    assert |s.running - {p}| == |s.running| - 1;
    if s.next < n {
      assert s.next !in s.running;
      assert |s.running - {p} + {s.next}| == |s.running|;
    }
  }

  /// A run of the scheduler from its start, task order[k] finishing in the k-th step.
  ghost predicate IsSchedule(schedule: seq<Sched>, order: seq<nat>, n: nat, maxConcurrent: nat) {
    && |schedule| == |order| + 1 && schedule[0] == Started(n, maxConcurrent)
    && forall k {:trigger order[k]} | 0 <= k < |order| ::
         order[k] in schedule[k].running && schedule[k + 1] == Advance(schedule[k], n, order[k])
  }

  lemma {:induction false} ScheduleKeepsInv(schedule: seq<Sched>, order: seq<nat>, n: nat, maxConcurrent: nat, k: nat)
    requires IsSchedule(schedule, order, n, maxConcurrent) && k < |schedule|
    ensures Inv(schedule[k], n, maxConcurrent) && schedule[k].order == order[..k]
  {
    hide Inv, Advance;
    if k == 0 {
      StartKeepsInv(n, maxConcurrent);
    } else {
      ScheduleKeepsInv(schedule, order, n, maxConcurrent, k - 1);
      AdvanceKeepsInv(schedule[k - 1], n, maxConcurrent, order[k - 1]);
      assert order[..k] == order[..k - 1] + [order[k - 1]];
    }
  }

  // ----- Which finishing orders are possible -----

  /// No task twice, and a task can only be the k-th to finish once it has been started.
  ghost predicate Feasible(order: seq<nat>, n: nat, maxConcurrent: nat) {
    && Distinct(order)
    && forall k | 0 <= k < |order| :: order[k] < Min(n, maxConcurrent + k)
  }

  lemma RunningIsStarted(s: Sched, n: nat, maxConcurrent: nat)
    requires Inv(s, n, maxConcurrent)
    ensures |s.order| <= n && forall p | p in s.running :: p < n
    ensures s.running == {} && maxConcurrent > 0 ==> |s.order| == n
    ensures maxConcurrent == 0 ==> s.order == []
  {
  }

  /// Every feasible order is the outcome of some run of the scheduler, and every run has a feasible order.
  lemma {:induction false} FeasibleOrdersHappen(order: seq<nat>, n: nat, maxConcurrent: nat)
    returns (schedule: seq<Sched>)
    requires Feasible(order, n, maxConcurrent)
    ensures IsSchedule(schedule, order, n, maxConcurrent)
  {
    if order == [] {
      schedule := [Started(n, maxConcurrent)];
    } else {
      hide Started, Advance;
      var front, p := order[..|order| - 1], order[|order| - 1];
      FeasiblePrefix(order, n, maxConcurrent);
      var shorter := FeasibleOrdersHappen(front, n, maxConcurrent);
      ScheduleKeepsInv(shorter, front, n, maxConcurrent, |front|);
      assert front[..|front|] == front;
      NextIsRunning(shorter[|front|], order, n, maxConcurrent);
      hide Inv, Feasible;
      schedule := shorter + [Advance(shorter[|front|], n, p)];
      forall k {:trigger order[k]} | 0 <= k < |order|
        ensures order[k] in schedule[k].running && schedule[k + 1] == Advance(schedule[k], n, order[k])
      {
        if k < |front| {
          assert order[k] == front[k];
        }
      }
    }
  }

  lemma FeasiblePrefix(order: seq<nat>, n: nat, maxConcurrent: nat)
    requires Feasible(order, n, maxConcurrent) && order != []
    ensures Feasible(order[..|order| - 1], n, maxConcurrent)
  {
  }

  /// The next task of a feasible order has been started and has not finished.
  lemma NextIsRunning(s: Sched, order: seq<nat>, n: nat, maxConcurrent: nat)
    requires order != [] && Feasible(order, n, maxConcurrent) && Inv(s, n, maxConcurrent)
      && s.order == order[..|order| - 1]
    ensures order[|order| - 1] in s.running
  {
    var p := order[|order| - 1];
    assert p < Min(n, maxConcurrent + |s.order|);
    forall i | 0 <= i < |s.order| ensures s.order[i] != p {
      assert s.order[i] == order[i];
    }
  }

  lemma {:induction false} SchedulesAreFeasible(schedule: seq<Sched>, order: seq<nat>, n: nat, maxConcurrent: nat)
    requires IsSchedule(schedule, order, n, maxConcurrent)
    ensures Feasible(order, n, maxConcurrent)
  {
    forall k | 0 <= k < |order| ensures order[k] < Min(n, maxConcurrent + k) && order[k] !in order[..k] {
      ScheduleKeepsInv(schedule, order, n, maxConcurrent, k);
    }
  }

  function Submitted(n: nat): seq<nat> {
    seq(n, i => i)
  }

  /// The summary promises results in submission order; every schedule that collects all tasks keeps that
  /// promise exactly when at most one task runs at a time or there is at most one task.
  lemma SubmissionOrderExactly(n: nat, maxConcurrent: nat)
    ensures (forall order | Feasible(order, n, maxConcurrent) && |order| == n :: order == Submitted(n))
      <==> maxConcurrent <= 1 || n <= 1
  {
    if maxConcurrent <= 1 || n <= 1 {
      forall order | Feasible(order, n, maxConcurrent) && |order| == n ensures order == Submitted(n) {
        forall k | 0 <= k < n ensures order[k] == k {
          OneAtATime(order, n, maxConcurrent, k);
        }
      }
    } else {
      var swapped := seq(n, i => if i == 0 then 1 else if i == 1 then 0 else i);
      assert Feasible(swapped, n, maxConcurrent) && swapped[0] != Submitted(n)[0];
    }
  }

  lemma {:induction false} OneAtATime(order: seq<nat>, n: nat, maxConcurrent: nat, k: nat)
    requires Feasible(order, n, maxConcurrent) && k < |order| == n && (maxConcurrent <= 1 || n <= 1)
    ensures order[k] == k
    decreases k
  {
    assert order[k] < Min(n, maxConcurrent + k);
    if order[k] < k {
      OneAtATime(order, n, maxConcurrent, order[k]);
    }
  }

  // ----- The code -----

  /// What comes out of the join set: a task's own result under its own id, or a panic that hides the task.
  datatype Joined = Finished(result: SubAgentResult) | Panicked

  /// The set of running tasks; `joined` records what has come out of it.
  class JoinSet {
    ghost var joined: seq<Joined>

    constructor ()
      ensures joined == []
    {
      joined := [];
    }

    method JoinNext(task: SubAgentTask, now: nat) returns (outcome: Joined, later: nat)
      modifies this
      ensures joined == old(joined) + [outcome] && now <= later
      ensures outcome.Finished? ==> outcome.result.id == task.id
    {
      later := Elapse(now, 0);
      var panicked: bool, output: string, success: bool, tokens: int := *, *, *, *;
      outcome := if panicked then Panicked
        else Finished(SubAgentResult(task.id, output, success, if success && tokens > 0 then tokens else 0));
      joined := joined + [outcome];
    }
  }

  function AllFinished(results: seq<SubAgentResult>): (joined: seq<Joined>)
    ensures |joined| == |results| && forall i | 0 <= i < |results| :: joined[i] == Finished(results[i])
  {
    seq(|results|, i requires 0 <= i < |results| => Finished(results[i]))
  }

  /// The id of a task by position: its own, or one made from its number (`number` prints a numeral).
  function Identified(tasks: seq<SubAgentTask>, i: nat, number: nat -> string): string
    requires i < |tasks|
  {
    if tasks[i].id == "" then "task-" + number(i + 1) else tasks[i].id
  }

  method Prepare(tasks: seq<SubAgentTask>, number: nat -> string) returns (prepared: seq<SubAgentTask>)
    ensures |prepared| == |tasks|
    ensures forall i | 0 <= i < |tasks| :: prepared[i] == tasks[i].(id := Identified(tasks, i, number))
  {
    prepared := [];
    for i := 0 to |tasks|
      invariant |prepared| == i
      invariant forall j | 0 <= j < i :: prepared[j] == tasks[j].(id := Identified(tasks, j, number))
    {
      var t := tasks[i];
      prepared := prepared + [if t.id == "" then t.(id := "task-" + number(i + 1)) else t];
    }
  }

  function Succeeded(results: seq<SubAgentResult>): nat {
    if results == [] then 0
    else Succeeded(results[..|results| - 1]) + if results[|results| - 1].success then 1 else 0
  }

  function Failed(results: seq<SubAgentResult>): nat {
    if results == [] then 0
    else Failed(results[..|results| - 1]) + if results[|results| - 1].success then 0 else 1
  }

  function Tokens(results: seq<SubAgentResult>): nat {
    if results == [] then 0 else Tokens(results[..|results| - 1]) + results[|results| - 1].tokensUsed
  }

  lemma {:induction false} SuccessesAndFailures(results: seq<SubAgentResult>)
    ensures Succeeded(results) + Failed(results) == |results|
  {
    if results != [] {
      SuccessesAndFailures(results[..|results| - 1]);
    }
  }

  /// The initial batch.
  method SpawnInitial(n: nat, maxConcurrent: nat) returns (spawned: nat, running: set<nat>)
    ensures Sched(spawned, running, []) == Started(n, maxConcurrent)
  {
    running, spawned := {}, 0;
    while spawned < maxConcurrent && spawned < n
      invariant spawned <= n && spawned <= maxConcurrent && running == FirstPositions(spawned)
    {
      running := running + {spawned};
      spawned := spawned + 1;
    }
    assert spawned == Min(n, maxConcurrent);
  }

  /// Result k belongs to the task at position order[k].
  ghost predicate BelongTo(results: seq<SubAgentResult>, order: seq<nat>, tasks: seq<SubAgentTask>) {
    && |results| == |order|
    && forall k | 0 <= k < |order| :: order[k] < |tasks| && results[k].id == tasks[order[k]].id
  }

  /// What a run of the collect loop has done so far: `order` lists the positions of the tasks whose results came, and
  /// `schedule` the scheduler's state at every head of the loop.
  ghost predicate Collected(results: seq<SubAgentResult>, order: seq<nat>, schedule: seq<Sched>,
      tasks: seq<SubAgentTask>, maxConcurrent: nat)
  {
    IsSchedule(schedule, order, |tasks|, maxConcurrent) && BelongTo(results, order, tasks)
  }

  lemma CollectOne(results: seq<SubAgentResult>, order: seq<nat>, schedule: seq<Sched>, tasks: seq<SubAgentTask>,
      maxConcurrent: nat, p: nat, result: SubAgentResult)
    requires Collected(results, order, schedule, tasks, maxConcurrent) && |schedule| == |order| + 1
    requires p in schedule[|order|].running && p < |tasks| && result.id == tasks[p].id
    ensures Collected(results + [result], order + [p], schedule + [Advance(schedule[|order|], |tasks|, p)], tasks,
      maxConcurrent)
    ensures AllFinished(results + [result]) == AllFinished(results) + [Finished(result)]
  {
    hide Advance, Started;
    var longer, more := schedule + [Advance(schedule[|order|], |tasks|, p)], order + [p];
    forall k {:trigger more[k]} | 0 <= k < |more|
      ensures more[k] in longer[k].running && longer[k + 1] == Advance(longer[k], |tasks|, more[k])
    {
      if k < |order| {
        assert more[k] == order[k];
      }
    }
  }

  lemma HeadFacts(results: seq<SubAgentResult>, order: seq<nat>, schedule: seq<Sched>, tasks: seq<SubAgentTask>,
      maxConcurrent: nat)
    requires Collected(results, order, schedule, tasks, maxConcurrent)
    ensures |schedule| == |order| + 1 && |order| <= |tasks|
    ensures Inv(schedule[|order|], |tasks|, maxConcurrent) && schedule[|order|].order == order
    ensures forall p | p in schedule[|order|].running :: p < |tasks|
    ensures schedule[|order|].running == {} && maxConcurrent > 0 ==> |order| == |tasks|
    ensures maxConcurrent == 0 ==> order == []
    ensures schedule[|order|].running != {} ==> |order| < |tasks|
  {
    ScheduleKeepsInv(schedule, order, |tasks|, maxConcurrent, |order|);
    assert order[..|order|] == order;
    RunningIsStarted(schedule[|order|], |tasks|, maxConcurrent);
    hide BelongTo, IsSchedule;
    if schedule[|order|].running != {} {
      var p :| p in schedule[|order|].running;
      OneUnfinished(schedule[|order|], |tasks|, maxConcurrent, p);
    }
  }

  lemma OneUnfinished(s: Sched, n: nat, maxConcurrent: nat, p: nat)
    requires Inv(s, n, maxConcurrent) && p in s.running
    ensures |s.order| < n
  {
  }

  /// The results came one after the other, each at its time, and the total timeout has struck exactly when the last of
  /// them came too late.
  ghost predicate Clocked(times: seq<nat>, start: nat, totalTimeout: Option<nat>, struck: bool) {
    && (forall k | 0 <= k < |times| :: start <= times[k])
    && (forall k, l | 0 <= k < l < |times| :: times[k] <= times[l])
    && (forall k | 0 <= k < |times| - 1 :: !TooLate(times[k], start, totalTimeout))
    && (struck <==> times != [] && TooLate(times[|times| - 1], start, totalTimeout))
  }

  predicate TooLate(now: nat, start: nat, totalTimeout: Option<nat>) {
    totalTimeout.Some? && now > start + totalTimeout.value
  }

  lemma ClockTicks(times: seq<nat>, now: nat, start: nat, totalTimeout: Option<nat>)
    requires Clocked(times, start, totalTimeout, false) && start <= now
    requires times != [] ==> times[|times| - 1] <= now
    ensures Clocked(times + [now], start, totalTimeout, TooLate(now, start, totalTimeout))
  {
  }

  /// The collect loop with its refill. It stands at its head in every state of the schedule; only the last one is not
  /// reached when the total timeout strikes. By ScheduleKeepsInv the number in flight is the smaller of the limit and
  /// the work left in each of them.
  method CollectResults(prepared: seq<SubAgentTask>, maxConcurrent: nat, totalTimeout: Option<nat>, joinSet: JoinSet,
      start: nat)
    returns (results: seq<SubAgentResult>, ending: Ending, ghost order: seq<nat>, ghost schedule: seq<Sched>,
      ghost times: seq<nat>)
    modifies joinSet
    ensures IsSchedule(schedule, order, |prepared|, maxConcurrent) && BelongTo(results, order, prepared)
    ensures joinSet.joined == old(joinSet.joined) + AllFinished(results)
      + (if ending == TaskPanicked then [Panicked] else [])
    ensures |times| == |order| && Clocked(times, start, totalTimeout, ending == TotalTimeout)
    ensures ending == AllCollected ==> schedule[|order|].running == {}
    ensures ending == TaskPanicked ==> schedule[|order|].running != {} && |order| < |prepared|
    ensures |order| <= |prepared|
    ensures ending == AllCollected && maxConcurrent >= 1 ==> |order| == |prepared|
    ensures ending == AllCollected && maxConcurrent == 0 ==> order == []
  {
    hide Inv, Collected, IsSchedule, BelongTo, AllFinished, Started, Clocked;
    var n, now := |prepared|, start;
    var next: nat, running: set<nat>;
    next, running := SpawnInitial(n, maxConcurrent);
    results, ending, order, schedule, times := [], AllCollected, [], [Sched(next, running, [])], [];
    NothingCollected(prepared, maxConcurrent, start, totalTimeout);

    while true
      invariant Collected(results, order, schedule, prepared, maxConcurrent)
      invariant |schedule| == |order| + 1 && |order| <= n && schedule[|order|] == Sched(next, running, order)
      invariant joinSet.joined == old(joinSet.joined) + AllFinished(results)
      invariant |times| == |order| && Clocked(times, start, totalTimeout, false)
      invariant start <= now && (times != [] ==> times[|times| - 1] <= now)
      decreases n - |order|
    {
      HeadFacts(results, order, schedule, prepared, maxConcurrent);
      if running == {} {
        CollectedMeans(results, order, schedule, prepared, maxConcurrent);
        return;
      }
      var p :| p in running;
      var outcome;
      outcome, now := joinSet.JoinNext(prepared[p], now);
      if outcome.Panicked? {
        ending := TaskPanicked;
        CollectedMeans(results, order, schedule, prepared, maxConcurrent);
        return;
      }
      CollectOne(results, order, schedule, prepared, maxConcurrent, p, outcome.result);
      ClockTicks(times, now, start, totalTimeout);
      schedule := schedule + [Advance(Sched(next, running, order), n, p)];
      results, order, times, running := results + [outcome.result], order + [p], times + [now], running - {p};
      HeadFacts(results, order, schedule, prepared, maxConcurrent);
      if totalTimeout.Some? && now - start > totalTimeout.value {
        ending := TotalTimeout;
        CollectedMeans(results, order, schedule, prepared, maxConcurrent);
        return;
      }
      if next < n {
        running := running + {next};
        next := next + 1;
      }
    }
  }

  lemma NothingCollected(tasks: seq<SubAgentTask>, maxConcurrent: nat, start: nat, totalTimeout: Option<nat>)
    ensures Collected([], [], [Started(|tasks|, maxConcurrent)], tasks, maxConcurrent) && AllFinished([]) == []
    ensures Clocked([], start, totalTimeout, false)
  {
  }

  lemma CollectedMeans(results: seq<SubAgentResult>, order: seq<nat>, schedule: seq<Sched>, tasks: seq<SubAgentTask>,
      maxConcurrent: nat)
    requires Collected(results, order, schedule, tasks, maxConcurrent)
    ensures IsSchedule(schedule, order, |tasks|, maxConcurrent) && BelongTo(results, order, tasks)
  {
  }

  /// Results come in the order in which tasks finish.
  method SpawnParallel(tasks: seq<SubAgentTask>, maxConcurrent: nat, totalTimeout: Option<nat>, number: nat -> string,
      joinSet: JoinSet, start: nat)
    returns (summary: SpawnSummary, ending: Ending, ghost order: seq<nat>, ghost schedule: seq<Sched>,
      ghost times: seq<nat>)
    modifies joinSet
    ensures IsSchedule(schedule, order, |tasks|, maxConcurrent) && Feasible(order, |tasks|, maxConcurrent)
    ensures joinSet.joined ==
      old(joinSet.joined) + AllFinished(summary.results) + (if ending == TaskPanicked then [Panicked] else [])
    ensures |times| == |order| && Clocked(times, start, totalTimeout, ending == TotalTimeout)
    ensures |summary.results| == |order| <= |tasks|
    ensures forall k | 0 <= k < |order| :: summary.results[k].id == Identified(tasks, order[k], number)
    ensures summary.succeeded == Succeeded(summary.results) && summary.failed == Failed(summary.results)
    ensures summary.succeeded + summary.failed == |order| && summary.totalTokensUsed == Tokens(summary.results)
    ensures ending == TaskPanicked ==> |order| < |tasks| && schedule[|order|].running != {}
    ensures ending == AllCollected && maxConcurrent >= 1 ==> |order| == |tasks|
    ensures ending == AllCollected && maxConcurrent == 0 ==> order == []
  {
    hide Clocked;
    var prepared := Prepare(tasks, number);
    var results;
    results, ending, order, schedule, times := CollectResults(prepared, maxConcurrent, totalTimeout, joinSet, start);
    SchedulesAreFeasible(schedule, order, |tasks|, maxConcurrent);
    SuccessesAndFailures(results);
    hide IsSchedule, Feasible, Succeeded, Failed, Tokens;
    summary := SpawnSummary(results, Succeeded(results), |results| - Succeeded(results), Tokens(results));
  }

  function Unfinished(n: nat, order: seq<nat>): set<nat> {
    set q: nat | q < n && q !in order
  }

  /// One failing task takes no other's result with it in any schedule exactly when there is no other, or none ever
  /// runs: a panic ends the collection, and every task that has not finished by then stays without a result.
  lemma PanicIsIsolatedExactly(n: nat, maxConcurrent: nat)
    ensures (forall schedule: seq<Sched>, order: seq<nat>, p: nat
        | IsSchedule(schedule, order, n, maxConcurrent) && p in schedule[|order|].running ::
        Unfinished(n, order) == {p})
      <==> n <= 1 || maxConcurrent == 0
  {
    if n <= 1 || maxConcurrent == 0 {
      forall schedule: seq<Sched>, order: seq<nat>, p: nat
        | IsSchedule(schedule, order, n, maxConcurrent) && p in schedule[|order|].running
        ensures Unfinished(n, order) == {p}
      {
        PanicLosesTheRest(schedule, order, n, maxConcurrent, p);
      }
    } else {
      var schedule := FirstPanicLosesAnother(n, maxConcurrent);
      var order: seq<nat> := [];
      assert 1 in Unfinished(n, order);
    }
  }

  /// The number of results lost at a panic: nothing is lost besides the panicking task when all others have finished.
  lemma PanicLosesTheRest(schedule: seq<Sched>, order: seq<nat>, n: nat, maxConcurrent: nat, p: nat)
    requires IsSchedule(schedule, order, n, maxConcurrent) && p in schedule[|order|].running
    ensures maxConcurrent > 0 && p in Unfinished(n, order) && |Unfinished(n, order)| == n - |order|
    ensures Unfinished(n, order) == {p} <==> |order| == n - 1
  {
    ScheduleKeepsInv(schedule, order, n, maxConcurrent, |order|);
    assert order[..|order|] == order;
    forall i | 0 <= i < |order| ensures order[i] < n {
      assert order[i] in order;
    }
    UnfinishedCount(n, order);
    if |order| == n - 1 {
      OnlyOne(Unfinished(n, order), p);
    }
  }

  lemma OnlyOne(s: set<nat>, p: nat)
    requires p in s && |s| == 1
    ensures s == {p}
  {
    assert s == (s - {p}) + {p};
    assert |s - {p}| == 0;
  }

  lemma {:induction false} UnfinishedCount(n: nat, order: seq<nat>)
    requires Distinct(order) && forall i | 0 <= i < |order| :: order[i] < n
    ensures |Unfinished(n, order)| == n - |order|
    decreases |order|
  {
    if order == [] {
      assert Unfinished(n, order) == FirstPositions(n);
    } else {
      var front, last := order[..|order| - 1], order[|order| - 1];
      assert order == front + [last];
      UnfinishedCount(n, front);
      assert last !in front;
      assert Unfinished(n, order) == Unfinished(n, front) - {last};
      assert last in Unfinished(n, front);
    }
  }

  /// With two tasks or more the first panic can come before any result and lose another task's, started or not.
  lemma FirstPanicLosesAnother(n: nat, maxConcurrent: nat) returns (schedule: seq<Sched>)
    requires n >= 2 && maxConcurrent >= 1
    ensures IsSchedule(schedule, [], n, maxConcurrent) && 0 in schedule[0].running && {0, 1} <= Unfinished(n, [])
    ensures 1 in schedule[0].running <==> maxConcurrent >= 2
  {
    schedule := [Started(n, maxConcurrent)];
  }
}
