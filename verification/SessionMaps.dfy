/// The maps of active sessions and pending messages (loop_mod.rs): the main loop, process_message, its timeout, /stop
/// and the interrupt listener as one step system. Every map operation is a step of its own, and a timeout may drop a
/// pass wherever it awaits.

module SessionMaps {
  import opened Core

  /// Where one caller of process_message stands, with the session and the message it is working on.
  datatype Caller =
    | Head                                            // waiting for a message
    | Check(key: string, id: nat)                     // about to ask whether the session is active
    | Busy(key: string, id: nat)                      // it was: about to cancel the run
    | Confirm(key: string, id: nat)                   // about to queue the message
    | Preparing(key: string, id: nat)                 // compaction, memories, system prompt
    | Running(key: string, id: nat)
    | Draining(key: string, id: nat)                  // about to take the pending message
    | Releasing(key: string, id: nat, next: Option<nat>)  // about to remove the active entry
    | TimedOut(key: string)                           // dropped: about to remove the active entry
    | Stopping(key: string)                           // "/stop": about to cancel the session
    | Sweeping(key: string)                           // about to remove the pending message

  /// `active` maps a session to the number of its cancellation token; `interrupting` is the session whose pending
  /// message the listener is about to remove.
  datatype State = State(active: map<string, nat>, cancelled: set<nat>, tokens: nat, pending: map<string, nat>,
    callers: seq<Caller>, interrupting: Option<string>)

  datatype Step =
    | Receive(c: nat, key: string, id: nat)
    | Stop(c: nat, key: string)
    | Advance(c: nat)
    | Fail(c: nat)                                    // the early error while the prompt is built
    | Expire(c: nat)                                  // the message timeout
    | Interrupt(key: string)                          // the listener: an entry is removed and its token cancelled
    | Sweep                                           // the listener, second half

  function Start(callers: nat): State {
    State(map[], {}, 0, map[], seq(callers, _ => Head), None)
  }

  ghost predicate Enabled(s: State, step: Step) {
    match step
    case Receive(c, _, _) => c < |s.callers| && s.callers[c].Head?
    case Stop(c, _) => c < |s.callers| && s.callers[c].Head?
    case Advance(c) => c < |s.callers| && !s.callers[c].Head?
    case Fail(c) => c < |s.callers| && s.callers[c].Preparing?
    case Expire(c) =>
      c < |s.callers| && (s.callers[c].Confirm? || s.callers[c].Preparing? || s.callers[c].Running?)
    case Interrupt(key) => s.interrupting.None?
    case Sweep => s.interrupting.Some?
  }

  function At(s: State, c: nat, where: Caller): State
    requires c < |s.callers|
  {
    s.(callers := s.callers[c := where])
  }

  predicate IsActive(s: State, key: string) {
    key in s.active && s.active[key] !in s.cancelled
  }

  /// Removing an entry and cancelling its token.
  function Cancelled(s: State, key: string): State {
    if key in s.active then s.(active := s.active - {key}, cancelled := s.cancelled + {s.active[key]}) else s
  }

  function Progress(s: State, c: nat): State
    requires c < |s.callers| && !s.callers[c].Head?
  {
    match s.callers[c]
    case Check(key, id) => At(s, c, if IsActive(s, key) then Busy(key, id) else Preparing(key, id))
    case Busy(key, id) => At(Cancelled(s, key), c, Confirm(key, id))
    case Confirm(key, id) => At(s, c, Head).(pending := s.pending[key := id])
    case Preparing(key, id) => At(s, c, Running(key, id)).(active := s.active[key := s.tokens], tokens := s.tokens + 1)
    case Running(key, id) => At(s, c, Draining(key, id))
    case Draining(key, id) =>
      var next := if key in s.pending then Some(s.pending[key]) else None;
      At(s, c, Releasing(key, id, next)).(pending := s.pending - {key})
    case Releasing(key, _, next) =>
      At(s, c, if next.Some? then Check(key, next.value) else Head).(active := s.active - {key})
    case TimedOut(key) => At(Cancelled(s, key), c, Sweeping(key))
    case Stopping(key) => At(Cancelled(s, key), c, Sweeping(key))
    case Sweeping(key) => At(s, c, Head).(pending := s.pending - {key})
  }

  ghost function Next(s: State, step: Step): State
    requires Enabled(s, step)
  {
    match step
    case Receive(c, key, id) => At(s, c, Check(key, id))
    case Stop(c, key) => At(s, c, Stopping(key))
    case Advance(c) => Progress(s, c)
    case Fail(c) => At(s, c, Head)
    case Expire(c) => At(s, c, TimedOut(s.callers[c].key))
    case Interrupt(key) => if key in s.active then Cancelled(s, key).(interrupting := Some(key)) else s
    case Sweep => s.(pending := s.pending - {s.interrupting.value}, interrupting := None)
  }

  ghost predicate IsRun(states: seq<State>, steps: seq<Step>, callers: nat) {
    && |states| == |steps| + 1 && states[0] == Start(callers)
    && forall k {:trigger steps[k]} | 0 <= k < |steps| ::
         Enabled(states[k], steps[k]) && states[k + 1] == Next(states[k], steps[k])
  }

  // ----- At most one caller to a session -----

  ghost predicate WorksOn(s: State, c: nat, key: string) {
    c < |s.callers| && !s.callers[c].Head? && s.callers[c].key == key
  }

  /// No session is worked on by two callers at the same time.
  ghost predicate Exclusive(s: State) {
    forall c, d, key | WorksOn(s, c, key) && WorksOn(s, d, key) :: c == d
  }

  ghost predicate Holds(s: State, c: nat, key: string) {
    && WorksOn(s, c, key)
    && (s.callers[c].Running? || s.callers[c].Draining? || s.callers[c].Releasing? || s.callers[c].TimedOut?)
  }

  ghost predicate NeverBusy(where: Caller) {
    !where.Busy? && !where.Confirm? && (where.Releasing? ==> where.next.None?)
  }

  ghost predicate Held(s: State, key: string) {
    exists c :: Holds(s, c, key)
  }

  /// Tokens are numbered upwards, no two entries share one, and no entry's token is cancelled.
  ghost predicate LiveTokens(s: State) {
    && (forall t | t in s.cancelled :: t < s.tokens)
    && (forall key | key in s.active :: s.active[key] < s.tokens && IsActive(s, key))
    && forall key, other | key in s.active && other in s.active && s.active[key] == s.active[other] :: key == other
  }

  /// Nothing is ever pending, no caller takes the way of a busy session, and every active session has a caller that
  /// will release it.
  ghost predicate Inv(s: State) {
    && s.pending == map[] && LiveTokens(s)
    && (forall c | 0 <= c < |s.callers| :: NeverBusy(s.callers[c]))
    && forall key | key in s.active :: Held(s, key)
  }

  lemma NotActiveYet(s: State, c: nat)
    requires Inv(s) && Exclusive(s) && c < |s.callers|
      && (s.callers[c].Check? || s.callers[c].Stopping? || s.callers[c].Preparing?)
    ensures s.callers[c].key !in s.active
  {
    var key := s.callers[c].key;
    if key in s.active {
      var d :| Holds(s, d, key);
      assert WorksOn(s, c, key);
    }
  }

  /// Moving one caller leaves every session held by another caller held.
  lemma StillHeld(s: State, t: State, c: nat, key: string)
    requires Held(s, key) && |t.callers| == |s.callers| && c < |s.callers|
    requires forall d | 0 <= d < |s.callers| && d != c :: t.callers[d] == s.callers[d]
    requires Holds(s, c, key) ==> Holds(t, c, key)
    ensures Held(t, key)
  {
    var d :| Holds(s, d, key);
    assert Holds(t, d, key);
  }

  lemma CancelKeepsTokens(s: State, key: string)
    requires LiveTokens(s)
    ensures LiveTokens(Cancelled(s, key))
  {
  }

  lemma ProgressKeepsTokens(s: State, c: nat)
    requires Inv(s) && c < |s.callers| && !s.callers[c].Head?
    ensures LiveTokens(Progress(s, c))
  {
    var where := s.callers[c];
    if where.TimedOut? || where.Stopping? {
      CancelKeepsTokens(s, where.key);
    }
  }

  lemma ProgressKeepsHeld(s: State, c: nat)
    requires Inv(s) && c < |s.callers| && !s.callers[c].Head?
    ensures forall key | key in Progress(s, c).active :: Held(Progress(s, c), key)
  {
    var t := Progress(s, c);
    forall key | key in t.active ensures Held(t, key) {
      if key in s.active {
        StillHeld(s, t, c, key);
      } else {
        assert Holds(t, c, key);
      }
    }
  }

  lemma ProgressKeepsInv(s: State, c: nat)
    requires Inv(s) && Exclusive(s) && c < |s.callers| && !s.callers[c].Head?
    ensures Inv(Progress(s, c))
  {
    if s.callers[c].Check? {
      NotActiveYet(s, c);
    }
    ProgressKeepsTokens(s, c);
    ProgressKeepsHeld(s, c);
    hide LiveTokens, Held, Exclusive;
    assert NeverBusy(s.callers[c]);
  }

  lemma StepKeepsInv(s: State, step: Step)
    requires Inv(s) && Exclusive(s) && Enabled(s, step)
    ensures Inv(Next(s, step))
  {
    var t := Next(s, step);
    match step {
      case Advance(c) => ProgressKeepsInv(s, c);
      case Interrupt(key) =>
        CancelKeepsTokens(s, key);
        forall other | other in t.active ensures Held(t, other) {
          var d :| Holds(s, d, other);
          assert Holds(t, d, other);
        }
      case Sweep =>
        forall other | other in t.active ensures Held(t, other) {
          var d :| Holds(s, d, other);
          assert Holds(t, d, other);
        }
      case Receive(c, _, _) => OtherStepKeepsHeld(s, t, c);
      case Stop(c, _) => OtherStepKeepsHeld(s, t, c);
      case Fail(c) => OtherStepKeepsHeld(s, t, c);
      case Expire(c) => OtherStepKeepsHeld(s, t, c);
    }
  }

  lemma OtherStepKeepsHeld(s: State, t: State, c: nat)
    requires Inv(s) && c < |s.callers| && |t.callers| == |s.callers| && t.active == s.active
    requires forall d | 0 <= d < |s.callers| && d != c :: t.callers[d] == s.callers[d]
    requires forall key | Holds(s, c, key) :: Holds(t, c, key)
    ensures forall key | key in t.active :: Held(t, key)
  {
    forall key | key in t.active ensures Held(t, key) {
      StillHeld(s, t, c, key);
    }
  }

  lemma {:induction false} EveryStateKeepsInv(states: seq<State>, steps: seq<Step>, callers: nat, k: nat)
    requires IsRun(states, steps, callers) && k < |states|
    requires forall j | 0 <= j < k :: Exclusive(states[j])
    ensures Inv(states[k])
  {
    if k > 0 {
      EveryStateKeepsInv(states, steps, callers, k - 1);
      var _ := steps[k - 1];
      StepKeepsInv(states[k - 1], steps[k - 1]);
    }
  }

  // ----- What follows -----

  /// A session nobody works on has an entry in neither map; so whenever a pass is over - after /stop, a result, an
  /// error, an early error or a timeout - its session is in neither.
  lemma NothingIsLeftBehind(states: seq<State>, steps: seq<Step>, callers: nat, k: nat, key: string)
    requires IsRun(states, steps, callers) && k < |states| && forall j | 0 <= j < k :: Exclusive(states[j])
    requires forall c :: !WorksOn(states[k], c, key)
    ensures key !in states[k].active && key !in states[k].pending
  {
    EveryStateKeepsInv(states, steps, callers, k);
    assert !Held(states[k], key);
  }

  /// The main loop alone never finds a session busy, never cancels anything by "/stop", and never sees a run that was
  /// interrupted by a new message.
  lemma BusyIsNeverSeen(states: seq<State>, steps: seq<Step>, callers: nat, k: nat, c: nat)
    requires IsRun(states, steps, callers) && k < |states| && forall j | 0 <= j <= k :: Exclusive(states[j])
    requires c < |states[k].callers|
    ensures
      var s := states[k];
      && NeverBusy(s.callers[c]) && s.pending == map[]
      && (s.callers[c].Check? || s.callers[c].Stopping? ==> s.callers[c].key !in s.active)
  {
    EveryStateKeepsInv(states, steps, callers, k);
    if states[k].callers[c].Check? || states[k].callers[c].Stopping? {
      NotActiveYet(states[k], c);
    }
  }

  /// One caller, as in the main loop, is always exclusive.
  lemma {:induction false} OneCallerIsExclusive(states: seq<State>, steps: seq<Step>, callers: nat, k: nat)
    requires IsRun(states, steps, callers) && k < |states| && callers <= 1
    ensures |states[k].callers| == callers && Exclusive(states[k])
  {
    if k > 0 {
      OneCallerIsExclusive(states, steps, callers, k - 1);
      var _ := steps[k - 1];
    }
  }

  // ----- Every pass ends -----

  function Rank(where: Caller): nat {
    match where
    case Head => 0
    case Check(_, _) => 5
    case Preparing(_, _) => 4
    case Running(_, _) => 3
    case Draining(_, _) => 2
    case Releasing(_, _, _) => 1
    case TimedOut(_) => 2
    case Stopping(_) => 2
    case Sweeping(_) => 1
    case Busy(_, _) => 4
    case Confirm(_, _) => 3
  }

  predicate Moves(step: Step, c: nat) {
    !step.Interrupt? && !step.Sweep? && step.c == c
  }

  /// How many of the steps from the given one on, up to the n-th, are the caller's own.
  function OwnSteps(steps: seq<Step>, c: nat, start: nat, n: nat): nat
    requires start <= n <= |steps|
  {
    if n == start then 0 else OwnSteps(steps, c, start, n - 1) + if Moves(steps[n - 1], c) then 1 else 0
  }

  /// An own step brings a caller nearer to its next wait for a message, and no other step changes where it stands.
  lemma StepOfPass(s: State, step: Step, c: nat)
    requires Inv(s) && c < |s.callers| && !s.callers[c].Head? && Enabled(s, step)
    ensures c < |Next(s, step).callers|
    ensures if Moves(step, c) then Rank(Next(s, step).callers[c]) < Rank(s.callers[c])
      else Next(s, step).callers[c] == s.callers[c]
  {
    assert NeverBusy(s.callers[c]);
  }

  /// A pass that has begun is over after at most five steps of its own, whatever the others do meanwhile, and it can
  /// always take one.
  lemma {:induction false} EveryPassEnds(states: seq<State>, steps: seq<Step>, callers: nat, start: nat, k: nat, c: nat)
    requires IsRun(states, steps, callers) && start <= k < |states| && forall j | 0 <= j < k :: Exclusive(states[j])
    requires forall j | start <= j < k :: c < |states[j].callers| && !states[j].callers[c].Head?
    requires c < |states[start].callers|
    ensures c < |states[k].callers|
    ensures OwnSteps(steps, c, start, k) + Rank(states[k].callers[c]) <= Rank(states[start].callers[c]) <= 5
    ensures !states[k].callers[c].Head? ==> Enabled(states[k], Advance(c))
  {
    if k > start {
      EveryPassEnds(states, steps, callers, start, k - 1, c);
      EveryStateKeepsInv(states, steps, callers, k - 1);
      var step := steps[k - 1];
      StepOfPass(states[k - 1], step, c);
    }
  }

  // ----- Two callers for one session -----

  /// When no message is being processed, both maps are empty.
  ghost predicate CleanWhenIdle(s: State) {
    (forall c | 0 <= c < |s.callers| :: s.callers[c].Head?) ==> s.active == map[] && s.pending == map[]
  }

  /// The maps are clean in every run exactly when there is at most one caller.
  lemma CleanExactly(callers: nat)
    ensures (forall states, steps, k: nat | IsRun(states, steps, callers) && k < |states| :: CleanWhenIdle(states[k]))
      <==> callers <= 1
  {
    if callers <= 1 {
      forall states, steps, k: nat | IsRun(states, steps, callers) && k < |states| ensures CleanWhenIdle(states[k]) {
        forall j | 0 <= j <= k ensures Exclusive(states[j]) {
          OneCallerIsExclusive(states, steps, callers, j);
        }
        IdleIsClean(states, steps, callers, k);
      }
    } else {
      var states, steps := PendingIsLeftBehind(callers);
      assert "s" in states[10].pending;
      assert !CleanWhenIdle(states[10]);
    }
  }

  lemma IdleIsClean(states: seq<State>, steps: seq<Step>, callers: nat, k: nat)
    requires IsRun(states, steps, callers) && k < |states| && forall j | 0 <= j < k :: Exclusive(states[j])
    ensures CleanWhenIdle(states[k])
  {
    var s := states[k];
    EveryStateKeepsInv(states, steps, callers, k);
    if forall c | 0 <= c < |s.callers| :: s.callers[c].Head? {
      forall key ensures key !in s.active {
        assert !Held(s, key);
      }
      assert s.active.Keys == {};
    }
  }

  /// A state that is idle but for the first two callers.
  function Two(callers: nat, a: Caller, b: Caller, active: map<string, nat>, cancelled: set<nat>, tokens: nat,
      pending: map<string, nat>): State
    requires callers >= 2
  {
    State(active, cancelled, tokens, pending, seq(callers, i => if i == 0 then a else if i == 1 then b else Head), None)
  }

  /// The first message's run is on when the second message comes.
  lemma FirstRuns(callers: nat, steps: seq<Step>) returns (states: seq<State>)
    requires callers >= 2 && steps == [Receive(0, "s", 1), Advance(0), Advance(0)]
    ensures |states| == 4 && states[0] == Start(callers)
    ensures forall k {:trigger steps[k]} | 0 <= k < 3 ::
      Enabled(states[k], steps[k]) && states[k + 1] == Next(states[k], steps[k])
    ensures states[3] == Two(callers, Running("s", 1), Head, map["s" := 0], {}, 1, map[])
  {
    var s0, s1 := Start(callers), Two(callers, Check("s", 1), Head, map[], {}, 0, map[]);
    var s2 := Two(callers, Preparing("s", 1), Head, map[], {}, 0, map[]);
    var s3 := Two(callers, Running("s", 1), Head, map["s" := 0], {}, 1, map[]);
    assert Next(s0, steps[0]) == s1;
    assert Next(s1, steps[1]) == s2;
    assert Next(s2, steps[2]) == s3;
    states := [s0, s1, s2, s3];
  }

  /// The second message finds the session busy and cancels the run.
  lemma SecondCancels(callers: nat, steps: seq<Step>) returns (states: seq<State>)
    requires callers >= 2 && steps == [Receive(1, "s", 2), Advance(1), Advance(1)]
    ensures |states| == 4 && states[0] == Two(callers, Running("s", 1), Head, map["s" := 0], {}, 1, map[])
    ensures forall k {:trigger steps[k]} | 0 <= k < 3 ::
      Enabled(states[k], steps[k]) && states[k + 1] == Next(states[k], steps[k])
    ensures states[3] == Two(callers, Running("s", 1), Confirm("s", 2), map[], {0}, 1, map[])
  {
    var s0 := Two(callers, Running("s", 1), Head, map["s" := 0], {}, 1, map[]);
    var s1 := Two(callers, Running("s", 1), Check("s", 2), map["s" := 0], {}, 1, map[]);
    var s2 := Two(callers, Running("s", 1), Busy("s", 2), map["s" := 0], {}, 1, map[]);
    var s3 := Two(callers, Running("s", 1), Confirm("s", 2), map[], {0}, 1, map[]);
    assert Next(s0, steps[0]) == s1;
    assert Next(s1, steps[1]) == s2;
    assert Next(s2, steps[2]) == s3;
    states := [s0, s1, s2, s3];
  }

  /// The cancelled run ends before the second message is queued.
  lemma QueuedTooLate(callers: nat, steps: seq<Step>) returns (states: seq<State>)
    requires callers >= 2 && steps == [Advance(0), Advance(0), Advance(0), Advance(1)]
    ensures |states| == 5 && states[0] == Two(callers, Running("s", 1), Confirm("s", 2), map[], {0}, 1, map[])
    ensures forall k {:trigger steps[k]} | 0 <= k < 4 ::
      Enabled(states[k], steps[k]) && states[k + 1] == Next(states[k], steps[k])
    ensures states[4] == Two(callers, Head, Head, map[], {0}, 1, map["s" := 2])
  {
    var s0 := Two(callers, Running("s", 1), Confirm("s", 2), map[], {0}, 1, map[]);
    var s1 := Two(callers, Draining("s", 1), Confirm("s", 2), map[], {0}, 1, map[]);
    var s2 := Two(callers, Releasing("s", 1, None), Confirm("s", 2), map[], {0}, 1, map[]);
    var s3 := Two(callers, Head, Confirm("s", 2), map[], {0}, 1, map[]);
    var s4 := Two(callers, Head, Head, map[], {0}, 1, map["s" := 2]);
    assert Next(s0, steps[0]) == s1;
    assert Next(s1, steps[1]) == s2;
    assert Next(s2, steps[2]) == s3;
    assert Next(s3, steps[3]) == s4;
    states := [s0, s1, s2, s3, s4];
  }

  /// So nobody takes the second message, and it stays behind while every caller waits for the next one.
  lemma PendingIsLeftBehind(callers: nat) returns (states: seq<State>, steps: seq<Step>)
    requires callers >= 2
    ensures IsRun(states, steps, callers) && |states| == 11
    ensures states[10] == Two(callers, Head, Head, map[], {0}, 1, map["s" := 2])
  {
    var first := [Receive(0, "s", 1), Advance(0), Advance(0)];
    var second := [Receive(1, "s", 2), Advance(1), Advance(1)];
    var after := [Advance(0), Advance(0), Advance(0), Advance(1)];
    var early := FirstRuns(callers, first);
    var middle := SecondCancels(callers, second);
    var late := QueuedTooLate(callers, after);
    hide Two, Enabled;
    steps := first + second + after;
    states := early + middle[1..] + late[1..];
    assert |steps| == 10;
    forall k {:trigger steps[k]} | 0 <= k < |steps|
      ensures Enabled(states[k], steps[k]) && states[k + 1] == Next(states[k], steps[k])
    {
      if k < 3 {
        assert steps[k] == first[k];
      } else if k < 6 {
        assert steps[k] == second[k - 3];
      } else {
        assert steps[k] == after[k - 6];
      }
    }
  }
}
