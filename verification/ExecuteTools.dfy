/// Concurrent execution of the tool calls of one turn (runner.rs, execute_tools and AbortOnDrop).
/// Times are milliseconds on one clock. When a tool is ready, when the run is cancelled and from when on the future
/// that executes the tools may be dropped is given.

module ExecuteTools {
  import opened Core

  const HEARTBEAT_INTERVAL := 10_000

  /// What a spawned task does if left alone, and from when on its handle is ready.
  datatype Task = Finishes(text: string, duration: nat, ok: bool, at: nat) | Panics(at: nat) | RunsOn
  {
    function ReadyAt(): Option<nat> {
      if RunsOn? then None else Some(at)
    }

    predicate IsReady(now: nat) {
      Due(ReadyAt(), now)
    }

    /// What there is to report on a task that is ready.
    function Result(): ToolResult
      requires !RunsOn?
    {
      if Finishes? then Output(text, duration, ok) else ExecutionFailed
    }
  }

  datatype Handle = Running | Ended | Aborted

  datatype ToolResult =
    | Output(text: string, duration: nat, ok: bool)
    | ExecutionFailed
    | TimedOut(tool: string, elapsed: nat)
    | Cancelled(tool: string)
  {
    /// The text that goes into the conversation.
    function Text(): string {
      match this
      case Output(text, _, _) => text
      case ExecutionFailed => "Tool execution failed"
      case TimedOut(tool, _) => "Tool '" + tool + "' timed out"
      case Cancelled(tool) => "Tool '" + tool + "' cancelled"
    }
  }

  /// The result reports on this call and this task, awaited from `begun` to `ended`. A ready task is reported on
  /// unless the run was cancelled before, or at a heartbeat it was not ready for; a timeout finds the task not ready,
  /// if it had any time.
  ghost predicate Reports(r: ToolResult, call: ToolCall, task: Task, cancelledAt: Option<nat>, toolTimeout: nat,
      begun: nat, ended: nat)
  {
    begun <= ended
    && match r
       case Output(_, _, _) => task.IsReady(ended) && r == task.Result() && !Due(cancelledAt, begun)
       case ExecutionFailed => task.IsReady(ended) && r == task.Result() && !Due(cancelledAt, begun)
       case TimedOut(tool, elapsed) =>
         && tool == call.name && elapsed >= toolTimeout && ended == begun + elapsed
         && !Due(cancelledAt, begun) && (toolTimeout > 0 ==> !task.IsReady(ended))
       case Cancelled(tool) =>
         && tool == call.name && Due(cancelledAt, ended)
         && (Due(cancelledAt, begun) || (begun + HEARTBEAT_INTERVAL <= ended && !task.IsReady(ended)))
  }

  /// The tool names of the results that are announced: all but the cancelled ones, in order.
  function Announced(calls: seq<ToolCall>, results: seq<ToolResult>): seq<string>
    requires |results| <= |calls|
  {
    if results == [] then []
    else
      var rest := Announced(calls, results[..|results| - 1]);
      if results[|results| - 1].Cancelled? then rest else rest + [calls[|results| - 1].name]
  }

  /// A spawned task and the call it was spawned for.
  datatype Spawned = Spawned(call: ToolCall, task: Task)

  function SpawnedFor(calls: seq<ToolCall>, tasks: seq<Task>): (spawned: seq<Spawned>)
    requires |tasks| == |calls|
    ensures |spawned| == |calls| && forall i | 0 <= i < |calls| :: spawned[i] == Spawned(calls[i], tasks[i])
  {
    seq(|calls|, i requires 0 <= i < |calls| => Spawned(calls[i], tasks[i]))
  }

  /// The runtime that executes tools; `spawned` records every task it was given.
  class ToolHost {
    ghost var spawned: seq<Spawned>

    constructor ()
      ensures spawned == []
    {
      spawned := [];
    }

    method Spawn(call: ToolCall) returns (task: Task)
      modifies this
      ensures spawned == old(spawned) + [Spawned(call, task)]
    {
      task := *;
      spawned := spawned + [Spawned(call, task)];
    }
  }

  /// Waits for one handle under its deadline: finished, failed, timed out, cancelled, or the whole future dropped.
  /// Every heartbeat uses up ten seconds of the deadline, so the loop ends with the time that remains.
  method AwaitTool(call: ToolCall, task: Task, cancelledAt: Option<nat>, dropDue: Option<nat>, toolTimeout: nat,
      toolStart: nat)
    returns (result: Option<ToolResult>, handle: Handle, heartbeats: nat, now: nat)
    ensures now >= toolStart
    ensures result.Some? ==>
      && Reports(result.value, call, task, cancelledAt, toolTimeout, toolStart, now) && handle != Running
      && (handle == Ended <==> result.value.Output? || result.value.ExecutionFailed?)
    ensures result.None? ==> Due(dropDue, now) && !task.IsReady(now) && !Due(cancelledAt, toolStart) && toolTimeout > 0
    ensures heartbeats > 0 ==> heartbeats * HEARTBEAT_INTERVAL < toolTimeout
  {
    heartbeats, now := 0, toolStart;
    while true
      invariant toolStart <= now && toolStart + heartbeats * HEARTBEAT_INTERVAL <= now
      invariant heartbeats > 0 ==>
        now - toolStart < toolTimeout && !task.IsReady(now) && !Due(cancelledAt, toolStart)
      invariant heartbeats == 0 ==> now == toolStart
      decreases if toolTimeout > now - toolStart then toolTimeout - (now - toolStart) else 0
    {
      if Due(cancelledAt, now) {
        return Some(Cancelled(call.name)), Aborted, heartbeats, now;
      }
      var remaining := if toolTimeout > now - toolStart then toolTimeout - (now - toolStart) else 0;
      if remaining == 0 {
        return Some(TimedOut(call.name, now - toolStart)), Aborted, heartbeats, now;
      }
      var pollTimeout: nat := if HEARTBEAT_INTERVAL < remaining then HEARTBEAT_INTERVAL else remaining;
      var outcome;
      outcome, now := Await(task.ReadyAt(), pollTimeout, dropDue, now);
      match outcome {
        case Arrived => return Some(task.Result()), Ended, heartbeats, now;
        case Dropped => return None, Running, heartbeats, now;
        case RanOut =>
      }
      if now - toolStart >= toolTimeout {
        return Some(TimedOut(call.name, now - toolStart)), Aborted, heartbeats, now;
      }
      heartbeats := heartbeats + 1;
    }
  }

  /// Drop of the guard: every handle still in it is aborted.
  method AbortAll(handles: seq<Handle>) returns (after: seq<Handle>)
    ensures |after| == |handles|
    ensures forall i | 0 <= i < |after| :: after[i] == if handles[i] == Running then Aborted else handles[i]
  {
    after := handles;
    for i := 0 to |handles|
      invariant |after| == |handles|
      invariant forall j | 0 <= j < |after| ::
        after[j] == if handles[j] == Running && j < i then Aborted else handles[j]
    {
      if after[i] == Running {
        after := after[i := Aborted];
      }
    }
  }

  /// Spawns one task per call, in call order.
  method SpawnAll(calls: seq<ToolCall>, host: ToolHost) returns (tasks: seq<Task>, handles: seq<Handle>)
    modifies host
    ensures |tasks| == |handles| == |calls| && host.spawned == old(host.spawned) + SpawnedFor(calls, tasks)
    ensures forall i | 0 <= i < |handles| :: handles[i] == Running
  {
    tasks, handles := [], [];
    for k := 0 to |calls|
      invariant |tasks| == |handles| == k && forall i | 0 <= i < k :: handles[i] == Running
      invariant host.spawned == old(host.spawned) + SpawnedFor(calls[..k], tasks)
    {
      var task := host.Spawn(calls[k]);
      assert SpawnedFor(calls[..k + 1], tasks + [task]) == SpawnedFor(calls[..k], tasks) + [Spawned(calls[k], task)];
      tasks, handles := tasks + [task], handles + [Running];
    }
    assert calls[..|calls|] == calls;
  }

  /// What has been collected: result k reports on call k and was awaited from times[k] to times[k + 1].
  ghost predicate Collected(calls: seq<ToolCall>, tasks: seq<Task>, results: seq<ToolResult>, times: seq<nat>,
      cancelledAt: Option<nat>, toolTimeout: nat)
  {
    && |results| <= |calls| == |tasks| && |times| == |results| + 1
    && forall i | 0 <= i < |results| ::
         Reports(results[i], calls[i], tasks[i], cancelledAt, toolTimeout, times[i], times[i + 1])
  }

  ghost predicate FewHeartbeats(heartbeats: seq<nat>, toolTimeout: nat) {
    forall i | 0 <= i < |heartbeats| :: heartbeats[i] > 0 ==> heartbeats[i] * HEARTBEAT_INTERVAL < toolTimeout
  }

  /// Every handle awaited has ended or been aborted, and those not reached still run.
  ghost predicate Settled(handles: seq<Handle>, results: seq<ToolResult>) {
    && |results| <= |handles|
    && (forall i | 0 <= i < |handles| :: handles[i] == Running <==> i >= |results|)
    && forall i | 0 <= i < |results| :: handles[i] == Ended <==> results[i].Output? || results[i].ExecutionFailed?
  }

  /// One result per call, in call order, unless the future is dropped midway; either way every call's task has been
  /// spawned and none is left running. The future is dropped only when that is due, waiting for a task that is not
  /// ready.
  method Execute(calls: seq<ToolCall>, host: ToolHost, cancelledAt: Option<nat>, dropDue: Option<nat>, toolTimeout: nat,
      start: nat)
    returns (results: seq<ToolResult>, dropped: bool, events: seq<string>, handles: seq<Handle>, tasks: seq<Task>,
      finish: nat, ghost times: seq<nat>, ghost heartbeats: seq<nat>)
    modifies host
    ensures |tasks| == |handles| == |calls| && host.spawned == old(host.spawned) + SpawnedFor(calls, tasks)
    ensures Collected(calls, tasks, results, times, cancelledAt, toolTimeout) && FewHeartbeats(heartbeats, toolTimeout)
    ensures !dropped <==> |results| == |calls|
    ensures dropped ==> DropWasDue(tasks, results, times, cancelledAt, dropDue, toolTimeout, finish)
    ensures events == Announced(calls, results)
    ensures forall i | 0 <= i < |calls| :: handles[i] != Running
    ensures forall i | 0 <= i < |results| :: handles[i] == Ended <==> results[i].Output? || results[i].ExecutionFailed?
    ensures times[0] == start && times[|results|] <= finish && start <= finish
      && (!dropped ==> finish == times[|results|])
  {
    hide Collected, Settled, FewHeartbeats, Reports, DropWasDue;
    tasks, handles := SpawnAll(calls, host);
    results, events, heartbeats, finish, dropped, times := [], [], [], start, false, [start];
    NothingCollected(calls, tasks, handles, start, cancelledAt, toolTimeout);
    for k := 0 to |calls|
      invariant |results| == k && |handles| == |tasks| == |calls| && |times| == k + 1
      invariant host.spawned == old(host.spawned) + SpawnedFor(calls, tasks)
      invariant Collected(calls, tasks, results, times, cancelledAt, toolTimeout) && Settled(handles, results)
      invariant FewHeartbeats(heartbeats, toolTimeout) && events == Announced(calls, results)
      invariant times[0] == start <= finish == times[k]
    {
      var result, handle, beats;
      result, handle, beats, finish := AwaitTool(calls[k], tasks[k], cancelledAt, dropDue, toolTimeout, finish);
      OneMoreCount(heartbeats, beats, toolTimeout);
      heartbeats := heartbeats + [beats];
      if result.None? {
        DropDue(tasks, results, times, cancelledAt, dropDue, toolTimeout, finish);
        SettledByAbort(handles, results);
        handles := AbortAll(handles);
        dropped := true;
        return;
      }
      CollectNext(calls, tasks, results, times, cancelledAt, toolTimeout, result.value, finish);
      SettleNext(handles, results, result.value, handle);
      AnnounceNext(calls, results, result.value);
      handles := handles[k := handle];
      results, times := results + [result.value], times + [finish];
      if !result.value.Cancelled? {
        events := events + [calls[k].name];
      }
    }
    SettledByAbort(handles, results);
  }

  /// The future was waiting for the first task without a result, which was not ready yet.
  ghost predicate DropWasDue(tasks: seq<Task>, results: seq<ToolResult>, times: seq<nat>, cancelledAt: Option<nat>,
      dropDue: Option<nat>, toolTimeout: nat, finish: nat)
  {
    && |results| < |tasks| && |results| < |times| && Due(dropDue, finish) && !tasks[|results|].IsReady(finish)
    && !Due(cancelledAt, times[|results|]) && toolTimeout > 0
  }

  lemma DropDue(tasks: seq<Task>, results: seq<ToolResult>, times: seq<nat>, cancelledAt: Option<nat>,
      dropDue: Option<nat>, toolTimeout: nat, finish: nat)
    requires |results| < |tasks| && |results| < |times| && Due(dropDue, finish) && !tasks[|results|].IsReady(finish)
    requires !Due(cancelledAt, times[|results|]) && toolTimeout > 0
    ensures DropWasDue(tasks, results, times, cancelledAt, dropDue, toolTimeout, finish)
  {
  }

  lemma NothingCollected(calls: seq<ToolCall>, tasks: seq<Task>, handles: seq<Handle>, start: nat,
      cancelledAt: Option<nat>, toolTimeout: nat)
    requires |tasks| == |handles| == |calls| && forall i | 0 <= i < |handles| :: handles[i] == Running
    ensures Collected(calls, tasks, [], [start], cancelledAt, toolTimeout) && Settled(handles, [])
    ensures FewHeartbeats([], toolTimeout)
  {
  }

  lemma OneMoreCount(heartbeats: seq<nat>, beats: nat, toolTimeout: nat)
    requires FewHeartbeats(heartbeats, toolTimeout) && (beats > 0 ==> beats * HEARTBEAT_INTERVAL < toolTimeout)
    ensures FewHeartbeats(heartbeats + [beats], toolTimeout)
  {
  }

  lemma CollectNext(calls: seq<ToolCall>, tasks: seq<Task>, results: seq<ToolResult>, times: seq<nat>,
      cancelledAt: Option<nat>, toolTimeout: nat, result: ToolResult, now: nat)
    requires Collected(calls, tasks, results, times, cancelledAt, toolTimeout) && |results| < |calls|
    requires Reports(result, calls[|results|], tasks[|results|], cancelledAt, toolTimeout, times[|results|], now)
    ensures Collected(calls, tasks, results + [result], times + [now], cancelledAt, toolTimeout)
  {
    hide Reports;
    var more, later := results + [result], times + [now];
    forall i | 0 <= i < |more|
      ensures Reports(more[i], calls[i], tasks[i], cancelledAt, toolTimeout, later[i], later[i + 1])
    {
      if i < |results| {
        assert more[i] == results[i] && later[i] == times[i] && later[i + 1] == times[i + 1];
      }
    }
  }

  lemma SettleNext(handles: seq<Handle>, results: seq<ToolResult>, result: ToolResult, handle: Handle)
    requires Settled(handles, results) && |results| < |handles|
    requires handle != Running && (handle == Ended <==> result.Output? || result.ExecutionFailed?)
    ensures Settled(handles[|results| := handle], results + [result])
  {
  }

  lemma SettledByAbort(handles: seq<Handle>, results: seq<ToolResult>)
    requires Settled(handles, results)
    ensures forall i | 0 <= i < |results| ::
      handles[i] != Running && (handles[i] == Ended <==> results[i].Output? || results[i].ExecutionFailed?)
  {
  }

  lemma AnnounceNext(calls: seq<ToolCall>, results: seq<ToolResult>, result: ToolResult)
    requires |results| < |calls|
    ensures Announced(calls, results + [result]) ==
      if result.Cancelled? then Announced(calls, results) else Announced(calls, results) + [calls[|results|].name]
  {
    assert (results + [result])[..|results|] == results;
  }

  // ----- Who is reported on -----

  lemma {:induction false} TimesAreOrdered(calls: seq<ToolCall>, tasks: seq<Task>, results: seq<ToolResult>,
      times: seq<nat>, cancelledAt: Option<nat>, toolTimeout: nat, i: nat, j: nat)
    requires Collected(calls, tasks, results, times, cancelledAt, toolTimeout) && i <= j <= |results|
    ensures times[i] <= times[j]
    decreases j
  {
    if i < j {
      TimesAreOrdered(calls, tasks, results, times, cancelledAt, toolTimeout, i, j - 1);
      assert Reports(results[j - 1], calls[j - 1], tasks[j - 1], cancelledAt, toolTimeout, times[j - 1], times[j]);
    }
  }

  /// A task ready before its deadline is reported on, whatever happens to the run from its first ten seconds on,
  /// unless the run was cancelled before it was its turn.
  lemma ReadyToolIsReported(r: ToolResult, call: ToolCall, task: Task, cancelledAt: Option<nat>, toolTimeout: nat,
      begun: nat, ended: nat)
    requires Reports(r, call, task, cancelledAt, toolTimeout, begun, ended) && toolTimeout > 0
    requires task.IsReady(begun + toolTimeout)
    requires task.IsReady(begun + HEARTBEAT_INTERVAL) || !Due(cancelledAt, ended)
    ensures if Due(cancelledAt, begun) then r == Cancelled(call.name) else r == task.Result()
  {
  }

  /// If all tasks are ready within the limit of one, and the run is neither cancelled nor may be dropped before they
  /// are, then every task is reported on, and nothing else is.
  lemma ReadyToolsAreReported(calls: seq<ToolCall>, tasks: seq<Task>, results: seq<ToolResult>, times: seq<nat>,
      dropped: bool, cancelledAt: Option<nat>, dropDue: Option<nat>, toolTimeout: nat, finish: nat)
    requires Collected(calls, tasks, results, times, cancelledAt, toolTimeout) && (!dropped <==> |results| == |calls|)
    requires dropped ==> DropWasDue(tasks, results, times, cancelledAt, dropDue, toolTimeout, finish)
    requires times[|results|] <= finish && toolTimeout > 0 && !Due(cancelledAt, finish)
    requires forall i | 0 <= i < |tasks| :: tasks[i].IsReady(times[0] + toolTimeout)
    requires dropDue.Some? ==> forall i | 0 <= i < |tasks| :: tasks[i].IsReady(dropDue.value)
    ensures !dropped && |results| == |tasks|
    ensures forall i | 0 <= i < |tasks| :: !tasks[i].RunsOn? && results[i] == tasks[i].Result()
  {
    assert dropDue.Some? && |results| < |tasks| ==> tasks[|results|].IsReady(dropDue.value);
    forall i | 0 <= i < |tasks| ensures !tasks[i].RunsOn? && results[i] == tasks[i].Result() {
      TimesAreOrdered(calls, tasks, results, times, cancelledAt, toolTimeout, 0, i);
      TimesAreOrdered(calls, tasks, results, times, cancelledAt, toolTimeout, i + 1, |results|);
      ReadyToolIsReported(results[i], calls[i], tasks[i], cancelledAt, toolTimeout, times[i], times[i + 1]);
    }
  }

  /// From the first cancelled result on all are: nothing is awaited any more.
  lemma CancelledFromThenOn(calls: seq<ToolCall>, tasks: seq<Task>, results: seq<ToolResult>, times: seq<nat>,
      cancelledAt: Option<nat>, toolTimeout: nat, i: nat, j: nat)
    requires Collected(calls, tasks, results, times, cancelledAt, toolTimeout) && i < j < |results|
    requires results[i].Cancelled? || Due(cancelledAt, times[i])
    ensures results[j] == Cancelled(calls[j].name)
  {
    TimesAreOrdered(calls, tasks, results, times, cancelledAt, toolTimeout, i, j);
    TimesAreOrdered(calls, tasks, results, times, cancelledAt, toolTimeout, i + 1, j);
    assert Reports(results[i], calls[i], tasks[i], cancelledAt, toolTimeout, times[i], times[i + 1]);
    assert Reports(results[j], calls[j], tasks[j], cancelledAt, toolTimeout, times[j], times[j + 1]);
  }
}
