/// The shared lock that serialises mutating tools (runner.rs, the task body in execute_tools), as a step system
/// over the spawned tasks. An abort is only a request: it takes effect at the task's next await, and dropping the
/// task then releases the lock it holds.

module MutatingGuard {

  datatype Stage = Parsing | WaitingForLock | HoldingLock | ReadingOnly | Finished

  datatype State = State(stages: seq<Stage>, holder: set<nat>, abortRequested: set<nat>)

  datatype Step =
    | ParseFails(i: nat)
    | ParseSucceeds(i: nat)
    | Acquire(i: nat)
    | Finish(i: nat)
    | RequestAbort(i: nat)
    | AbortTakesEffect(i: nat)

  function Start(n: nat): State {
    State(seq(n, _ => Parsing), {}, {})
  }

  /// When a step can happen; `mutating` says which tasks run a mutating tool.
  ghost predicate Enabled(s: State, step: Step, mutating: seq<bool>)
    requires |mutating| == |s.stages|
  {
    && step.i < |s.stages|
    && match step
       case ParseFails(i) => s.stages[i] == Parsing
       case ParseSucceeds(i) => s.stages[i] == Parsing
       case Acquire(i) => s.stages[i] == WaitingForLock && s.holder == {}
       case Finish(i) => s.stages[i] == HoldingLock || s.stages[i] == ReadingOnly
       case RequestAbort(i) => i !in s.abortRequested
       case AbortTakesEffect(i) => i in s.abortRequested && s.stages[i] != Finished
  }

  ghost function Next(s: State, step: Step, mutating: seq<bool>): State
    requires |mutating| == |s.stages| && Enabled(s, step, mutating)
  {
    match step
    case ParseFails(i) => s.(stages := s.stages[i := Finished])
    case ParseSucceeds(i) => s.(stages := s.stages[i := if mutating[i] then WaitingForLock else ReadingOnly])
    case Acquire(i) => s.(stages := s.stages[i := HoldingLock], holder := s.holder + {i})
    case Finish(i) => s.(stages := s.stages[i := Finished], holder := s.holder - {i})
    case RequestAbort(i) => s.(abortRequested := s.abortRequested + {i})
    case AbortTakesEffect(i) => s.(stages := s.stages[i := Finished], holder := s.holder - {i})
  }

  /// The states a run passes through.
  ghost predicate IsRun(states: seq<State>, steps: seq<Step>, mutating: seq<bool>) {
    && |states| == |steps| + 1 && states[0] == Start(|mutating|)
    && (forall k | 0 <= k < |states| :: |states[k].stages| == |mutating|)
    && forall k | 0 <= k < |steps| ::
         Enabled(states[k], steps[k], mutating) && states[k + 1] == Next(states[k], steps[k], mutating)
  }

  ghost predicate Inv(s: State, mutating: seq<bool>)
    requires |mutating| == |s.stages|
  {
    && |s.holder| <= 1
    && (forall i: nat :: i in s.holder <==> i < |s.stages| && s.stages[i] == HoldingLock)
    && (forall i | 0 <= i < |s.stages| :: s.stages[i] == WaitingForLock || s.stages[i] == HoldingLock ==> mutating[i])
    && (forall i | 0 <= i < |s.stages| :: s.stages[i] == ReadingOnly ==> !mutating[i])
  }

  lemma StepKeepsInv(s: State, step: Step, mutating: seq<bool>)
    requires |mutating| == |s.stages| && Inv(s, mutating) && Enabled(s, step, mutating)
    ensures Inv(Next(s, step, mutating), mutating)
  {
    var t := Next(s, step, mutating);
    AtMostOneHolds(s, step, mutating);
    if step.RequestAbort? {
      assert t.stages == s.stages && t.holder == s.holder;
    } else {
      assert t.stages == s.stages[step.i := t.stages[step.i]];
    }
  }

  lemma AtMostOneHolds(s: State, step: Step, mutating: seq<bool>)
    requires |mutating| == |s.stages| && |s.holder| <= 1 && Enabled(s, step, mutating)
    ensures |Next(s, step, mutating).holder| <= 1
  {
    if step.Acquire? {
      assert s.holder + {step.i} == {step.i};
    } else if step.Finish? || step.AbortTakesEffect? {
      SubsetCardinality(s.holder - {step.i}, s.holder);
    }
  }

  lemma {:induction false} EveryStateKeepsInv(states: seq<State>, steps: seq<Step>, mutating: seq<bool>, k: nat)
    requires IsRun(states, steps, mutating) && k < |states|
    ensures Inv(states[k], mutating)
  {
    if k > 0 {
      EveryStateKeepsInv(states, steps, mutating, k - 1);
      StepKeepsInv(states[k - 1], steps[k - 1], mutating);
    }
  }

  /// In no state of any run, aborts at any moment included, do two mutating tools execute.
  lemma MutatingToolsExclude(states: seq<State>, steps: seq<Step>, mutating: seq<bool>, k: nat, i: nat, j: nat)
    requires IsRun(states, steps, mutating) && k < |states| && i < |mutating| && j < |mutating|
    requires mutating[i] && mutating[j]
    requires states[k].stages[i] in {HoldingLock, ReadingOnly} && states[k].stages[j] in {HoldingLock, ReadingOnly}
    ensures i == j
  {
    EveryStateKeepsInv(states, steps, mutating, k);
    if i != j {
      assert {i, j} <= states[k].holder;
      SubsetCardinality({i, j}, states[k].holder);
    }
  }

  lemma SubsetCardinality(a: set<nat>, b: set<nat>)
    requires a <= b
    ensures |a| <= |b|
  {
    assert b == a + (b - a);
  }

  /// The lock never wedges: while a task is unfinished, some step other than a new abort request is possible.
  lemma NoDeadlock(states: seq<State>, steps: seq<Step>, mutating: seq<bool>, k: nat, i: nat) returns (step: Step)
    requires IsRun(states, steps, mutating) && k < |states| && i < |mutating|
    requires states[k].stages[i] != Finished
    ensures Enabled(states[k], step, mutating) && !step.RequestAbort?
  {
    EveryStateKeepsInv(states, steps, mutating, k);
    var s := states[k];
    match s.stages[i]
    case Parsing => step := ParseSucceeds(i);
    case HoldingLock => step := Finish(i);
    case ReadingOnly => step := Finish(i);
    case WaitingForLock =>
      if s.holder == {} {
        step := Acquire(i);
      } else {
        var h :| h in s.holder;
        step := Finish(h);
      }
  }

  // ----- Runs are short: with NoDeadlock, every task finishes -----

  function Rank(stage: Stage): nat {
    match stage
    case Parsing => 3
    case WaitingForLock => 2
    case HoldingLock => 1
    case ReadingOnly => 1
    case Finished => 0
  }

  function TotalRank(stages: seq<Stage>): nat {
    if stages == [] then 0 else TotalRank(stages[..|stages| - 1]) + Rank(stages[|stages| - 1])
  }

  lemma {:induction false} RankOfUpdate(stages: seq<Stage>, i: nat, stage: Stage)
    requires i < |stages|
    ensures TotalRank(stages[i := stage]) == TotalRank(stages) - Rank(stages[i]) + Rank(stage)
  {
    var front, last := stages[..|stages| - 1], |stages| - 1;
    if i == last {
      assert stages[i := stage][..last] == front;
    } else {
      assert stages[i := stage][..last] == front[i := stage];
      RankOfUpdate(front, i, stage);
    }
  }

  lemma {:induction false} RankAtMost(stages: seq<Stage>)
    ensures TotalRank(stages) <= 3 * |stages|
  {
    if stages != [] {
      RankAtMost(stages[..|stages| - 1]);
    }
  }

  lemma {:induction false} RequestsAreTasks(requests: set<nat>, n: nat)
    requires forall i | i in requests :: i < n
    ensures |requests| <= n
  {
    if n > 0 {
      RequestsAreTasks(requests - {n - 1}, n - 1);
      SubsetCardinality(requests, (requests - {n - 1}) + {n - 1});
    } else {
      assert requests == {};
    }
  }

  lemma StepUsesUpRank(s: State, step: Step, mutating: seq<bool>)
    requires |mutating| == |s.stages| && Enabled(s, step, mutating)
    ensures
      var t := Next(s, step, mutating);
      && TotalRank(t.stages) + |s.abortRequested| < TotalRank(s.stages) + |t.abortRequested|
      && t.abortRequested <= s.abortRequested + {step.i}
  {
    hide TotalRank;
    if !step.RequestAbort? {
      RankOfUpdate(s.stages, step.i, Next(s, step, mutating).stages[step.i]);
    }
  }

  lemma {:induction false} StepsUseUpRank(states: seq<State>, steps: seq<Step>, mutating: seq<bool>, k: nat)
    requires IsRun(states, steps, mutating) && k < |states|
    ensures k + TotalRank(states[k].stages) <= 3 * |mutating| + |states[k].abortRequested|
    ensures forall i | i in states[k].abortRequested :: i < |mutating|
  {
    hide TotalRank;
    if k == 0 {
      RankAtMost(states[0].stages);
    } else {
      StepsUseUpRank(states, steps, mutating, k - 1);
      StepUsesUpRank(states[k - 1], steps[k - 1], mutating);
    }
  }

  lemma RunsAreShort(states: seq<State>, steps: seq<Step>, mutating: seq<bool>)
    requires IsRun(states, steps, mutating)
    ensures |steps| <= 4 * |mutating|
  {
    StepsUseUpRank(states, steps, mutating, |steps|);
    RequestsAreTasks(states[|steps|].abortRequested, |mutating|);
  }
}
