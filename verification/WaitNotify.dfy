/// Waiting for a tracked task to end (subagent.rs, wait_for against complete, fail, cancel, terminate_all and
/// cleanup_completed), as a step system for one task. Every lock section is one step, every notify_one a later one.

module WaitNotify {
  import opened Core
  import opened TaskTable

  /// Where one call of wait_for stands. Snapped: it holds the notify handle but has not polled it yet.
  datatype Waiter =
    | NotStarted
    | Snapped
    | Blocked
    | Woken
    | Expired
    | Returned(result: Option<TaskStatus>, expired: bool)

  /// `task` is None once cleaned up; `permit` is the stored permit of the notify; `firing` counts the notifiers that
  /// have released the lock but not yet called notify_one; `starting` says that spawn_single has yet to set Running.
  datatype State = State(task: Option<TaskStatus>, permit: bool, firing: nat, starting: bool, waiters: seq<Waiter>)

  datatype Step =
    | End(status: TaskStatus)          // complete or fail: overwrites whatever is there
    | Cancel                           // cancel or terminate_all: only a task that has not ended
    | CleanUp
    | SetRunning
    | Fire(to: Option<nat>)            // one notify_one, waking a blocked waiter or storing the permit
    | Begin(w: nat)
    | Poll(w: nat)
    | Expire(w: nat)
    | Read(w: nat)

  /// How the task came into the table: registered by spawn and left pending, registered by spawn_single and not yet
  /// marked as running, or running.
  datatype Origin = Registered | Starting | Started

  function Start(waiters: nat, origin: Origin): State {
    State(Some(if origin == Started then Running else Pending), false, 0, origin == Starting,
      seq(waiters, _ => NotStarted))
  }

  ghost predicate At(s: State, w: nat, where: Waiter) {
    w < |s.waiters| && s.waiters[w] == where
  }

  ghost predicate Enabled(s: State, step: Step) {
    match step
    case End(status) => status.IsTerminal() && status != Cancelled
    case Cancel => s.task.Some? && !s.task.value.IsTerminal()
    case CleanUp => s.task.Some? && s.task.value.IsTerminal()
    case SetRunning => s.starting
    case Fire(to) => s.firing > 0 &&
      (if to.Some? then At(s, to.value, Blocked) else forall w | 0 <= w < |s.waiters| :: s.waiters[w] != Blocked)
    case Begin(w) => At(s, w, NotStarted)
    case Poll(w) => At(s, w, Snapped)
    case Expire(w) => At(s, w, Blocked)
    case Read(w) => At(s, w, Woken) || At(s, w, Expired)
  }

  ghost function Next(s: State, step: Step): State
    requires Enabled(s, step)
  {
    match step
    case End(status) => if s.task.None? then s else s.(task := Some(status), firing := s.firing + 1)
    case Cancel => s.(task := Some(Cancelled), firing := s.firing + 1)
    case CleanUp => s.(task := None)
    case SetRunning => s.(task := if s.task.None? then None else Some(Running), starting := false)
    case Fire(to) =>
      if to.Some? then s.(firing := s.firing - 1, waiters := s.waiters[to.value := Woken])
      else s.(firing := s.firing - 1, permit := true)
    case Begin(w) =>
      if s.task.None? || s.task.value.IsTerminal() then s.(waiters := s.waiters[w := Returned(s.task, false)])
      else s.(waiters := s.waiters[w := Snapped])
    case Poll(w) =>
      if s.permit then s.(permit := false, waiters := s.waiters[w := Woken])
      else s.(waiters := s.waiters[w := Blocked])
    case Expire(w) => s.(waiters := s.waiters[w := Expired])
    case Read(w) => s.(waiters := s.waiters[w := Returned(s.task, s.waiters[w] == Expired)])
  }

  ghost predicate IsRun(states: seq<State>, steps: seq<Step>, waiters: nat, origin: Origin) {
    && |states| == |steps| + 1 && states[0] == Start(waiters, origin)
    && forall k {:trigger steps[k]} | 0 <= k < |steps| ::
         Enabled(states[k], steps[k]) && states[k + 1] == Next(states[k], steps[k])
  }

  ghost predicate Ended(s: State) {
    s.task.None? || s.task.value.IsTerminal()
  }

  // ----- What is promised -----

  /// A waiter sleeps on an ended task although nothing is left that would wake it.
  ghost predicate LostWakeup(s: State) {
    Ended(s) && !s.permit && s.firing == 0 && exists w | 0 <= w < |s.waiters| :: s.waiters[w] == Blocked
  }

  /// A waiter came back without a timeout and without an end status, from a task that was not cleaned up.
  ghost predicate EarlyReturn(s: State) {
    exists w | 0 <= w < |s.waiters| ::
      && s.waiters[w].Returned? && !s.waiters[w].expired
      && s.waiters[w].result.Some? && !s.waiters[w].result.value.IsTerminal()
  }

  ghost predicate Sound(s: State) {
    !LostWakeup(s) && !EarlyReturn(s)
  }

  // ----- Waits that do not overlap -----

  predicate Waiting(w: Waiter) {
    w == Snapped || w == Blocked || w == Woken || w == Expired
  }

  /// No two calls of wait_for are under way at the same time.
  ghost predicate OneAtATime(s: State) {
    forall v, w | 0 <= v < w < |s.waiters| :: !Waiting(s.waiters[v]) || !Waiting(s.waiters[w])
  }

  /// What holds of one call: blocked on an ended task only while a notifier is still to fire, woken only on an ended
  /// task, and back without a timeout only with an end status.
  ghost predicate CallInv(s: State, w: Waiter) {
    && (w == Woken ==> Ended(s))
    && (w == Blocked ==> !s.permit && (Ended(s) ==> s.firing > 0))
    && (w == Snapped && Ended(s) ==> s.permit || s.firing > 0)
    && (w.Returned? && !w.expired && w.result.Some? ==> w.result.value.IsTerminal())
    && (w.Returned? && w.result.None? ==> s.task.None?)
  }

  ghost predicate Inv(s: State) {
    && !s.starting && (!Ended(s) ==> !s.permit && s.firing == 0)
    && forall w | 0 <= w < |s.waiters| :: CallInv(s, s.waiters[w])
  }

  lemma StepKeepsInv(s: State, step: Step)
    requires Inv(s) && OneAtATime(s) && Enabled(s, step)
    ensures Inv(Next(s, step))
  {
    var t := Next(s, step);
    forall w | 0 <= w < |t.waiters| ensures CallInv(t, t.waiters[w]) {
      assert CallInv(s, s.waiters[w]);
      if step.Poll? && w != step.w {
        assert !Waiting(s.waiters[w]);
      }
      if step.Fire? && step.to.Some? && w != step.to.value {
        assert !Waiting(s.waiters[w]);
      }
    }
  }

  lemma {:induction false} EveryStateKeepsInv(states: seq<State>, steps: seq<Step>, waiters: nat, origin: Origin,
      k: nat)
    requires IsRun(states, steps, waiters, origin) && k < |states| && origin != Starting
    requires forall j | 0 <= j < k :: OneAtATime(states[j])
    ensures Inv(states[k])
  {
    if k > 0 {
      EveryStateKeepsInv(states, steps, waiters, origin, k - 1);
      var _ := steps[k - 1];
      StepKeepsInv(states[k - 1], steps[k - 1]);
    }
  }

  /// On an ended task no call is ever stuck: a step of its own or of a notifier is possible until it returns.
  lemma WaiterCanMove(states: seq<State>, steps: seq<Step>, waiters: nat, origin: Origin, k: nat, w: nat)
    returns (step: Step)
    requires IsRun(states, steps, waiters, origin) && k < |states| && origin != Starting
    requires forall j | 0 <= j < k :: OneAtATime(states[j])
    requires Ended(states[k]) && w < |states[k].waiters| && !states[k].waiters[w].Returned?
    ensures Enabled(states[k], step) && IsInternal(step)
    ensures step == Fire(Some(w)) || step == Begin(w) || step == Poll(w) || step == Read(w)
  {
    EveryStateKeepsInv(states, steps, waiters, origin, k);
    assert CallInv(states[k], states[k].waiters[w]);
    match states[k].waiters[w] {
      case NotStarted => step := Begin(w);
      case Snapped => step := Poll(w);
      case Blocked => step := Fire(Some(w));
      case Woken => step := Read(w);
      case Expired => step := Read(w);
    }
  }

  ghost predicate IsInternal(step: Step) {
    step.Fire? || step.Begin? || step.Poll? || step.Read?
  }

  function Rank(w: Waiter): nat {
    match w
    case NotStarted => 4
    case Snapped => 3
    case Blocked => 2
    case Woken => 1
    case Expired => 1
    case Returned(_, _) => 0
  }

  function TotalRank(waiters: seq<Waiter>): nat {
    if waiters == [] then 0 else TotalRank(waiters[..|waiters| - 1]) + Rank(waiters[|waiters| - 1])
  }

  lemma {:induction false} RankOfUpdate(waiters: seq<Waiter>, w: nat, after: Waiter)
    requires w < |waiters|
    ensures TotalRank(waiters[w := after]) == TotalRank(waiters) - Rank(waiters[w]) + Rank(after)
  {
    var n := |waiters| - 1;
    if w == n {
      assert waiters[w := after][..n] == waiters[..n];
    } else {
      assert waiters[w := after][..n] == waiters[..n][w := after];
      RankOfUpdate(waiters[..n], w, after);
    }
  }

  /// Those steps are bounded: each uses up one of the notifiers to fire or of the calls' stages.
  lemma InternalStepsRunOut(s: State, step: Step)
    requires Enabled(s, step) && IsInternal(step)
    ensures Next(s, step).firing + TotalRank(Next(s, step).waiters) < s.firing + TotalRank(s.waiters)
  {
    match step {
      case Fire(to) =>
        if to.Some? {
          RankOfUpdate(s.waiters, to.value, Woken);
        }
      case Begin(w) => RankOfUpdate(s.waiters, w, Next(s, step).waiters[w]);
      case Poll(w) => RankOfUpdate(s.waiters, w, Next(s, step).waiters[w]);
      case Read(w) => RankOfUpdate(s.waiters, w, Next(s, step).waiters[w]);
      case _ =>
    }
  }

  // ----- The table moves as the protocol says -----

  /// The sections of the task table change the status of a tracked id as the steps do; where no step is enabled, a
  /// cancellation or a clean-up leaves it alone.
  lemma TableFollowsProtocol(tasks: seq<TrackedTask>, id: string, s: State, status: TaskStatus)
    requires UniqueIds(tasks) && StatusOf(tasks, id) == s.task && status.IsTerminal() && status != Cancelled
    ensures StatusOf(Finished(tasks, id, status), id) == Next(s, End(status)).task
    ensures StatusOf(StoppedOne(tasks, id), id) == if Enabled(s, Step.Cancel) then Next(s, Step.Cancel).task else s.task
    ensures StatusOf(AllStopped(tasks), id) == if Enabled(s, Step.Cancel) then Next(s, Step.Cancel).task else s.task
    ensures StatusOf(Active(tasks), id) == if Enabled(s, Step.CleanUp) then Next(s, Step.CleanUp).task else s.task
  {
    FinishPerId(tasks, id, status, id);
    CancelPerId(tasks, id, id);
    TerminateAllPerId(tasks, id);
    CleanupPerId(tasks, id);
  }

  // ----- Exactly when the promise holds -----

  /// Any number of waits, one after the other, keep the promise in every run exactly when the task is not one that
  /// spawn_single has yet to mark as running.
  lemma SequentialWaitsExactly(waiters: nat, origin: Origin)
    ensures (forall states, steps, k: nat | IsRun(states, steps, waiters, origin) && k < |states|
        && (forall j | 0 <= j < |states| :: OneAtATime(states[j])) :: Sound(states[k]))
      <==> waiters == 0 || origin != Starting
  {
    if origin != Starting {
      forall states, steps, k: nat | IsRun(states, steps, waiters, origin) && k < |states|
          && (forall j | 0 <= j < |states| :: OneAtATime(states[j])) ensures Sound(states[k]) {
        EveryStateKeepsInv(states, steps, waiters, origin, k);
        InvIsSound(states[k]);
      }
    } else if waiters == 0 {
      forall states, steps, k: nat | IsRun(states, steps, waiters, origin) && k < |states| ensures Sound(states[k]) {
        NoWaiters(states, steps, origin, k);
      }
    } else {
      var states, steps := ReturnsWhileRunning(waiters);
      assert !Sound(states[6]);
    }
  }

  /// With waits that may overlap, the promise is kept in every run exactly when there is also at most one wait.
  lemma SoundExactly(waiters: nat, origin: Origin)
    ensures (forall states, steps, k: nat | IsRun(states, steps, waiters, origin) && k < |states| :: Sound(states[k]))
      <==> waiters == 0 || (waiters == 1 && origin != Starting)
  {
    if waiters == 0 {
      forall states, steps, k: nat | IsRun(states, steps, waiters, origin) && k < |states| ensures Sound(states[k]) {
        NoWaiters(states, steps, origin, k);
      }
    } else if waiters == 1 && origin != Starting {
      forall states, steps, k: nat | IsRun(states, steps, waiters, origin) && k < |states| ensures Sound(states[k]) {
        forall j | 0 <= j < |states| ensures OneAtATime(states[j]) {
          SameWaiters(states, steps, waiters, origin, j);
        }
        EveryStateKeepsInv(states, steps, waiters, origin, k);
        InvIsSound(states[k]);
      }
    } else if origin == Starting {
      var states, steps := ReturnsWhileRunning(waiters);
      assert !Sound(states[6]);
    } else {
      var states, steps := SecondWaiterSleepsOn(waiters, origin);
      assert !Sound(states[6]);
    }
  }

  lemma InvIsSound(s: State)
    requires Inv(s)
    ensures Sound(s)
  {
    assert forall w | 0 <= w < |s.waiters| :: CallInv(s, s.waiters[w]);
  }

  lemma {:induction false} SameWaiters(states: seq<State>, steps: seq<Step>, waiters: nat, origin: Origin, k: nat)
    requires IsRun(states, steps, waiters, origin) && k < |states|
    ensures |states[k].waiters| == waiters
  {
    if k > 0 {
      SameWaiters(states, steps, waiters, origin, k - 1);
      var _ := steps[k - 1];
    }
  }

  lemma NoWaiters(states: seq<State>, steps: seq<Step>, origin: Origin, k: nat)
    requires IsRun(states, steps, 0, origin) && k < |states|
    ensures Sound(states[k])
  {
    SameWaiters(states, steps, 0, origin, k);
  }

  /// A state in which only the first two calls may have begun.
  function Two(waiters: nat, a: Waiter, b: Waiter, task: TaskStatus, permit: bool, firing: nat, starting: bool): State {
    State(Some(task), permit, firing, starting,
      seq(waiters, i => if i == 0 then a else if i == 1 then b else NotStarted))
  }

  ghost predicate Follow(states: seq<State>, steps: seq<Step>) {
    && |states| == |steps| + 1
    && forall k {:trigger steps[k]} | 0 <= k < |steps| ::
         Enabled(states[k], steps[k]) && states[k + 1] == Next(states[k], steps[k])
  }

  lemma OneAfterTheOther(early: seq<State>, late: seq<State>, before: seq<Step>, after: seq<Step>)
    requires Follow(early, before) && Follow(late, after) && early[|before|] == late[0]
    ensures Follow(early + late[1..], before + after)
  {
    hide Enabled;
    var states, steps := early + late[1..], before + after;
    forall k {:trigger steps[k]} | 0 <= k < |steps|
      ensures Enabled(states[k], steps[k]) && states[k + 1] == Next(states[k], steps[k])
    {
      if k < |before| {
        assert steps[k] == before[k];
      } else {
        assert steps[k] == after[k - |before|];
      }
    }
  }

  lemma BothBlock(waiters: nat, status: TaskStatus) returns (states: seq<State>, steps: seq<Step>)
    requires waiters >= 2 && !status.IsTerminal()
    ensures Follow(states, steps) && |steps| == 4
    ensures states[0] == Two(waiters, NotStarted, NotStarted, status, false, 0, false)
    ensures states[4] == Two(waiters, Blocked, Blocked, status, false, 0, false)
  {
    steps := [Begin(0), Begin(1), Poll(0), Poll(1)];
    var s0 := Two(waiters, NotStarted, NotStarted, status, false, 0, false);
    var s1 := Two(waiters, Snapped, NotStarted, status, false, 0, false);
    var s2 := Two(waiters, Snapped, Snapped, status, false, 0, false);
    var s3 := Two(waiters, Blocked, Snapped, status, false, 0, false);
    var s4 := Two(waiters, Blocked, Blocked, status, false, 0, false);
    assert Next(s0, steps[0]) == s1;
    assert Next(s1, steps[1]) == s2;
    assert Next(s2, steps[2]) == s3;
    assert Next(s3, steps[3]) == s4;
    states := [s0, s1, s2, s3, s4];
  }

  lemma OneIsWoken(waiters: nat, status: TaskStatus) returns (states: seq<State>, steps: seq<Step>)
    requires waiters >= 2
    ensures Follow(states, steps) && |steps| == 2
    ensures states[0] == Two(waiters, Blocked, Blocked, status, false, 0, false)
    ensures states[2] == Two(waiters, Woken, Blocked, Completed(""), false, 0, false)
  {
    steps := [Step.End(Completed("")), Fire(Some(0))];
    var s0 := Two(waiters, Blocked, Blocked, status, false, 0, false);
    var s1 := Two(waiters, Blocked, Blocked, Completed(""), false, 1, false);
    var s2 := Two(waiters, Woken, Blocked, Completed(""), false, 0, false);
    assert Next(s0, steps[0]) == s1;
    assert Next(s1, steps[1]) == s2;
    states := [s0, s1, s2];
  }

  /// Two waiters block, the task completes, its single notification wakes the first: the second sleeps on.
  lemma SecondWaiterSleepsOn(waiters: nat, origin: Origin) returns (states: seq<State>, steps: seq<Step>)
    requires waiters >= 2 && origin != Starting
    ensures IsRun(states, steps, waiters, origin) && |states| == 7 && LostWakeup(states[6])
  {
    var status := if origin == Started then TaskStatus.Running else Pending;
    var early, before := BothBlock(waiters, status);
    var late, after := OneIsWoken(waiters, status);
    OneAfterTheOther(early, late, before, after);
    states, steps := early + late[1..], before + after;
    assert Start(waiters, origin) == Two(waiters, NotStarted, NotStarted, status, false, 0, false);
    assert states[6].waiters[1] == Blocked;
  }

  lemma CancelledThenRunning(waiters: nat) returns (states: seq<State>, steps: seq<Step>)
    ensures Follow(states, steps) && |steps| == 3
    ensures states[0] == Two(waiters, NotStarted, NotStarted, Pending, false, 0, true)
    ensures states[3] == Two(waiters, NotStarted, NotStarted, TaskStatus.Running, true, 0, false)
    ensures forall j | 0 <= j < |states| :: OneAtATime(states[j])
  {
    steps := [Step.Cancel, Fire(None), SetRunning];
    var s0 := Two(waiters, NotStarted, NotStarted, Pending, false, 0, true);
    var s1 := Two(waiters, NotStarted, NotStarted, TaskStatus.Cancelled, false, 1, true);
    var s2 := Two(waiters, NotStarted, NotStarted, TaskStatus.Cancelled, true, 0, true);
    var s3 := Two(waiters, NotStarted, NotStarted, TaskStatus.Running, true, 0, false);
    assert Next(s0, steps[0]) == s1;
    assert Next(s1, steps[1]) == s2;
    assert Next(s2, steps[2]) == s3;
    states := [s0, s1, s2, s3];
  }

  lemma PermitIsTaken(waiters: nat) returns (states: seq<State>, steps: seq<Step>)
    requires waiters >= 1
    ensures Follow(states, steps) && |steps| == 3
    ensures states[0] == Two(waiters, NotStarted, NotStarted, TaskStatus.Running, true, 0, false)
    ensures states[3] == Two(waiters, Returned(Some(TaskStatus.Running), false), NotStarted, TaskStatus.Running, false,
      0, false)
    ensures forall j | 0 <= j < |states| :: OneAtATime(states[j])
  {
    steps := [Begin(0), Poll(0), Read(0)];
    var s0 := Two(waiters, NotStarted, NotStarted, TaskStatus.Running, true, 0, false);
    var s1 := Two(waiters, Snapped, NotStarted, TaskStatus.Running, true, 0, false);
    var s2 := Two(waiters, Woken, NotStarted, TaskStatus.Running, false, 0, false);
    var s3 := Two(waiters, Returned(Some(TaskStatus.Running), false), NotStarted, TaskStatus.Running, false, 0, false);
    assert Next(s0, steps[0]) == s1;
    assert Next(s1, steps[1]) == s2;
    assert Next(s2, steps[2]) == s3;
    states := [s0, s1, s2, s3];
  }

  /// Cancelled while still pending, then marked running by spawn_single: the stored permit of the cancellation
  /// lets a later wait_for return at once, with Running.
  lemma ReturnsWhileRunning(waiters: nat) returns (states: seq<State>, steps: seq<Step>)
    requires waiters >= 1
    ensures IsRun(states, steps, waiters, Starting) && |states| == 7 && EarlyReturn(states[6])
    ensures forall j | 0 <= j < |states| :: OneAtATime(states[j])
  {
    var early, before := CancelledThenRunning(waiters);
    var late, after := PermitIsTaken(waiters);
    OneAfterTheOther(early, late, before, after);
    hide OneAtATime;
    states, steps := early + late[1..], before + after;
    assert Start(waiters, Starting) == Two(waiters, NotStarted, NotStarted, Pending, false, 0, true);
    assert states[6].waiters[0] == Returned(Some(TaskStatus.Running), false);
  }
}
