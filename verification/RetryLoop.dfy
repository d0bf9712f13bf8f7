/// The outer retry loop around agent runs (loop_mod.rs, process_message).

module RetryLoop {
  import opened Core
  import opened Streaming
  import opened ExecuteTools
  import opened Runner

  const MAX_RETRIES := 3

  predicate IsTransient(e: AgentError) {
    match e
    case StreamDead => false
    case StreamTimedOut => true
    case ErrorText(text) =>
      || Contains(text, "Stream error")
      || Contains(text, "connection")
      || Contains(text, "timeout")
      || Contains(text, "timed out")
      || Contains(text, "error decoding response body")
      || Contains(text, "broken pipe")
      || Contains(text, "reset by peer")
  }

  predicate ShortBackoff(e: AgentError) {
    e.ErrorText? && (Contains(e.text, "Stream error") || Contains(e.text, "error decoding response body"))
  }

  function Power2(n: nat): nat {
    if n == 0 then 1 else 2 * Power2(n - 1)
  }

  /// Milliseconds to wait after the given attempt (counted from 0) failed with e.
  function BackoffAfter(e: AgentError, attempt: nat): nat {
    if ShortBackoff(e) then 500 * Power2(attempt) else 1_000 * Power2(attempt + 1)
  }

  /// A run that failed.
  ghost predicate HasFailed(t: RunTrace) {
    t.result.Some? && t.result.value.Err?
  }

  /// Run k failed and was retried: the error is transient and the wait ends before the deadline.
  ghost predicate RetriedInTime(t: RunTrace, k: nat, deadline: nat) {
    HasFailed(t) && IsTransient(t.result.value.error) && t.finish + BackoffAfter(t.result.value.error, k) < deadline
  }

  /// Milliseconds to wait after run k, if it failed.
  ghost function WaitAfter(t: RunTrace, k: nat): nat {
    if HasFailed(t) then BackoffAfter(t.result.value.error, k) else 0
  }

  ghost function TotalBackoff(runs: seq<RunTrace>): nat {
    if runs == [] then 0
    else TotalBackoff(runs[..|runs| - 1]) + WaitAfter(runs[|runs| - 1], |runs| - 1)
  }

  function SentBy(t: RunTrace): seq<Exchange> {
    if |t.served| == |t.requests| then AllExchanges(t.requests, t.served) else []
  }

  /// Every provider call of the runs, in order.
  function ExchangesOf(runs: seq<RunTrace>): seq<Exchange> {
    if runs == [] then [] else ExchangesOf(runs[..|runs| - 1]) + SentBy(runs[|runs| - 1])
  }

  /// Run k was retried, and the next run started after the backoff.
  ghost predicate RetriedAt(runs: seq<RunTrace>, k: nat, deadline: nat) {
    k + 1 < |runs| && RetriedInTime(runs[k], k, deadline) && runs[k].finish + WaitAfter(runs[k], k) <= runs[k + 1].start
  }

  /// Each run is a run of the agent on the same conversation; every run but the last failed with a transient error and
  /// was retried after its backoff and before the deadline.
  ghost predicate Chained(runs: seq<RunTrace>, config: Config, opening: seq<Message>, start: nat, deadline: nat) {
    && (forall k | 0 <= k < |runs| :: RunFollows(runs[k], config, opening))
    && (runs != [] ==> start <= runs[0].start)
    && forall k: nat | k < |runs| - 1 :: RetriedAt(runs, k, deadline)
  }

  /// Runs after which another one may start at this moment.
  ghost predicate MayContinue(runs: seq<RunTrace>, config: Config, opening: seq<Message>, start: nat, deadline: nat,
      now: nat) {
    && Chained(runs, config, opening, start, deadline) && start + TotalBackoff(runs) <= now
    && (runs != [] ==>
         var n := |runs| - 1;
         RetriedInTime(runs[n], n, deadline) && runs[n].finish + WaitAfter(runs[n], n) <= now)
  }

  /// The retry loop: one to four runs, each recorded with everything it sent and received. Every run but the last
  /// failed with a transient error and was retried within the deadline; a failed last one was not to be retried.
  method RunWithRetries(config: Config, provider: Provider, host: ToolHost, prompt: string,
      history: seq<Message>, memory: Option<string>, messageTimeout: nat, start: nat)
    returns (r: Option<Result<RunResult, AgentError>>, slept: nat, finish: nat, ghost runs: seq<RunTrace>)
    modifies provider, host
    ensures 1 <= |runs| <= MAX_RETRIES + 1
    ensures Chained(runs, config, [SystemMessage(prompt, memory)] + history, start, start + messageTimeout)
    ensures provider.log == old(provider.log) + ExchangesOf(runs)
    ensures r == runs[|runs| - 1].result && finish == runs[|runs| - 1].finish
    ensures |runs| == MAX_RETRIES + 1 || !RetriedInTime(runs[|runs| - 1], |runs| - 1, start + messageTimeout)
    ensures slept == TotalBackoff(runs[..|runs| - 1]) <= 14_000 && start + slept <= finish
    ensures |provider.log| - |old(provider.log)| <= 4 * 3 * config.maxIterations
  {
    hide RunFollows, Chained, MayContinue, ExchangesOf, SentBy, TotalBackoff, BackoffAfter, IsTransient;
    hide AllExchanges, SpawnedBy;
    ghost var opening, deadline := [SystemMessage(prompt, memory)] + history, start + messageTimeout;
    var retryDeadline := start + messageTimeout;
    var attempt := 0;
    slept, finish, runs := 0, start, [];
    NoRuns(config, opening, start, deadline);
    while true
      invariant |runs| == attempt <= MAX_RETRIES && deadline == retryDeadline
      invariant MayContinue(runs, config, opening, start, deadline, finish)
      invariant provider.log == old(provider.log) + ExchangesOf(runs) && slept == TotalBackoff(runs)
      decreases MAX_RETRIES - attempt
    {
      ghost var t, log, earlier := Begun(0), provider.log, runs;
      r, finish, t := Runner.Run(config, provider, host, prompt, history, memory, finish);
      OneMoreRun(runs, t, config, opening, start, deadline);
      runs := runs + [t];
      OneMessageIsBounded(runs, config, opening, start, deadline);
      if r.None? || r.value.Ok? {
        return;
      }
      var e := r.value.error;
      if !IsTransient(e) || attempt == MAX_RETRIES {
        return;
      }
      var backoff := BackoffAfter(e, attempt);
      if finish + backoff >= retryDeadline {
        return;
      }
      finish := Elapse(finish, backoff);
      OneMoreRetry(earlier, t, config, opening, start, deadline, finish);
      slept := slept + backoff;
      attempt := attempt + 1;
    }
  }

  lemma NoRuns(config: Config, opening: seq<Message>, start: nat, deadline: nat)
    ensures MayContinue([], config, opening, start, deadline, start)
    ensures ExchangesOf([]) == [] && TotalBackoff([]) == 0
  {
  }

  lemma OneMoreRun(runs: seq<RunTrace>, t: RunTrace, config: Config, opening: seq<Message>, start: nat, deadline: nat)
    requires MayContinue(runs, config, opening, start, deadline, t.start) && RunFollows(t, config, opening)
    ensures Chained(runs + [t], config, opening, start, deadline) && (runs + [t])[..|runs|] == runs
    ensures start + TotalBackoff(runs) <= t.finish
    ensures ExchangesOf(runs + [t]) == ExchangesOf(runs) + AllExchanges(t.requests, t.served)
  {
    hide MayContinue, Chained, RunFollows, ExchangesOf, AllExchanges, TotalBackoff;
    Front(runs, t);
    RunFacts(t, config, opening);
    Grows(runs, t, config, opening, start, deadline);
    ExchangesGrow(runs, t);
  }

  lemma RunFacts(t: RunTrace, config: Config, opening: seq<Message>)
    requires RunFollows(t, config, opening)
    ensures |t.served| == |t.requests| && t.start <= t.finish
  {
  }

  lemma ExchangesGrow(runs: seq<RunTrace>, t: RunTrace)
    ensures ExchangesOf(runs + [t]) == ExchangesOf(runs) + SentBy(t)
  {
    hide SentBy;
    Front(runs, t);
  }

  lemma Grows(runs: seq<RunTrace>, t: RunTrace, config: Config, opening: seq<Message>, start: nat, deadline: nat)
    requires MayContinue(runs, config, opening, start, deadline, t.start) && RunFollows(t, config, opening)
    ensures Chained(runs + [t], config, opening, start, deadline) && start + TotalBackoff(runs) <= t.start
  {
    hide RunFollows, WaitAfter, RetriedInTime, TotalBackoff;
    var longer := runs + [t];
    forall k: nat | k < |longer| - 1 ensures RetriedAt(longer, k, deadline) {
      assert longer[k] == runs[k];
      if k + 1 < |runs| {
        assert RetriedAt(runs, k, deadline);
      }
    }
  }

  lemma OneMoreRetry(runs: seq<RunTrace>, t: RunTrace, config: Config, opening: seq<Message>, start: nat, deadline: nat,
      now: nat)
    requires Chained(runs + [t], config, opening, start, deadline) && RetriedInTime(t, |runs|, deadline)
    requires start + TotalBackoff(runs) <= t.finish && t.finish + WaitAfter(t, |runs|) <= now
    ensures MayContinue(runs + [t], config, opening, start, deadline, now)
    ensures TotalBackoff(runs + [t]) == TotalBackoff(runs) + BackoffAfter(t.result.value.error, |runs|)
  {
    Front(runs, t);
    hide Chained, BackoffAfter, RunFollows;
  }

  // ----- The bounds over both loops -----

  /// Each run makes at most three calls for each of at most max_iterations requests.
  lemma {:induction false} CallsAreBounded(runs: seq<RunTrace>, most: nat)
    requires forall k | 0 <= k < |runs| :: |SentBy(runs[k])| <= most
    ensures |ExchangesOf(runs)| <= |runs| * most
  {
    hide SentBy;
    if runs != [] {
      CallsAreBounded(runs[..|runs| - 1], most);
      OneMoreTime(|runs| - 1, most);
    }
  }

  lemma OneMoreTime(n: nat, most: nat)
    ensures (n + 1) * most == n * most + most
  {
  }

  lemma OneRunIsBounded(t: RunTrace, config: Config, opening: seq<Message>)
    requires RunFollows(t, config, opening)
    ensures |SentBy(t)| <= 3 * config.maxIterations
  {
    CallsPerRequest(t.requests, t.served, config);
  }

  lemma WaitIsBounded(t: RunTrace, attempt: nat)
    ensures WaitAfter(t, attempt) <= 2_000 * Power2(attempt)
  {
  }

  lemma {:induction false} WaitsAreBounded(runs: seq<RunTrace>)
    ensures TotalBackoff(runs) <= 2_000 * (Power2(|runs|) - 1)
  {
    if runs != [] {
      var n := |runs| - 1;
      WaitsAreBounded(runs[..n]);
      WaitIsBounded(runs[n], n);
    }
  }

  /// At most 12 calls per iteration allowed, and at most 14 s of sleep.
  lemma OneMessageIsBounded(runs: seq<RunTrace>, config: Config, opening: seq<Message>, start: nat, deadline: nat)
    requires Chained(runs, config, opening, start, deadline) && 1 <= |runs| <= MAX_RETRIES + 1
    ensures |ExchangesOf(runs)| <= 12 * config.maxIterations && TotalBackoff(runs[..|runs| - 1]) <= 14_000
  {
    forall k | 0 <= k < |runs| ensures |SentBy(runs[k])| <= 3 * config.maxIterations {
      OneRunIsBounded(runs[k], config, opening);
    }
    CallsAreBounded(runs, 3 * config.maxIterations);
    FourAtMost(|runs|, config.maxIterations);
    WaitsAreBounded(runs[..|runs| - 1]);
    PowersOfTwo(|runs| - 1);
  }

  lemma FourAtMost(n: nat, iterations: nat)
    requires n <= 4
    ensures n * (3 * iterations) <= 12 * iterations
  {
  }

  lemma PowersOfTwo(n: nat)
    requires n <= MAX_RETRIES
    ensures Power2(n) <= 8
  {
    assert Power2(0) == 1 && Power2(1) == 2 && Power2(2) == 4 && Power2(3) == 8;
  }

  /// What a stream retry inside a completion gives up on is retried outside as well, a dead stream nowhere:
  /// when the last attempt of a completion ends dead, no later call of the same message asks again.
  lemma StreamFailuresAcrossBothLoops(trace: seq<Attempt>, t: Timeouts)
    requires RetriedProperly(trace, t) && Outcome(trace[|trace| - 1]).Err?
    ensures
      var last := trace[|trace| - 1];
      && (Retryable(last.end) ==> |trace| == 3 && IsTransient(Outcome(last).error))
      && (last.end.Dead? ==> !IsTransient(Outcome(last).error))
  {
  }
}
