/// The iterative LLM, tool, LLM loop (runner.rs, AgentRunner::run).

module Runner {
  import opened Core
  import opened Streaming
  import opened ExecuteTools

  /// The settings of a runner, and what its surroundings do to it: when its cancellation token is cancelled, if ever,
  /// and from when on the future that runs it may be dropped.
  datatype Config = Config(
    maxIterations: nat, useStreaming: bool, toolTimeout: nat, timeouts: Timeouts,
    cancelledAt: Option<nat>, dropDue: Option<nat>)

  datatype RunResult = RunResult(
    content: string,
    reasoningContent: Option<string>,
    usage: Usage,
    toolCallsMade: nat,
    iterationsUsed: nat,
    hitLimit: bool)

  const CANCELLED_TEXT := "Agent run was cancelled."
  const LIMIT_TEXT := "I've reached the maximum number of iterations. Please continue the conversation if needed."

  // ----- Conversations -----

  /// One turn of tool use: the assistant message and the tool messages that answer it.
  datatype Block = Block(assistant: Message, answers: seq<Message>)

  ghost predicate WellFormed(b: Block) {
    && b.assistant.role == Assistant && b.assistant.toolCallId.None?
    && b.assistant.toolCalls.Some? && b.assistant.toolCalls.value != []
    && |b.answers| == |b.assistant.toolCalls.value|
    && forall i | 0 <= i < |b.answers| ::
         && b.answers[i].role == Tool && b.answers[i].toolCalls.None?
         && b.answers[i].toolCallId == Some(b.assistant.toolCalls.value[i].id)
         && b.answers[i].name == Some(b.assistant.toolCalls.value[i].name)
  }

  function Flatten(blocks: seq<Block>): seq<Message> {
    if blocks == [] then []
    else Flatten(blocks[..|blocks| - 1]) + [blocks[|blocks| - 1].assistant] + blocks[|blocks| - 1].answers
  }

  function CallCount(blocks: seq<Block>): nat {
    if blocks == [] then 0 else CallCount(blocks[..|blocks| - 1]) + |blocks[|blocks| - 1].answers|
  }

  function SystemMessage(prompt: string, memory: Option<string>): Message {
    var content := if memory.Some? && memory.value != "" then prompt + "\n\n" + memory.value else prompt;
    Message(System, content, None, None, None, None)
  }

  /// The k-th request holds the system message, the history and exactly the first k blocks.
  ghost predicate RequestsFollow(requests: seq<seq<Message>>, opening: seq<Message>, blocks: seq<Block>) {
    && |blocks| <= |requests| <= |blocks| + 1
    && (forall k | 0 <= k < |blocks| :: WellFormed(blocks[k]))
    && forall k | 0 <= k < |requests| :: requests[k] == opening + Flatten(blocks[..k])
  }

  // ----- Token usage -----

  datatype Counter = Prompt | Completion | Total | CacheRead | CacheWrite

  function Get(u: Usage, c: Counter): Option<nat> {
    match c
    case Prompt => u.promptTokens
    case Completion => u.completionTokens
    case Total => u.totalTokens
    case CacheRead => u.cacheReadTokens
    case CacheWrite => u.cacheWriteTokens
  }

  function Reported(responses: seq<CompletionResponse>): bool {
    exists r | r in responses :: r.usage.Some?
  }

  /// The sum of one counter over all responses; absent usage and absent counters add nothing.
  function CounterSum(responses: seq<CompletionResponse>, c: Counter): nat {
    if responses == [] then 0
    else
      var last := responses[|responses| - 1].usage;
      CounterSum(responses[..|responses| - 1], c) + if last.Some? then Get(last.value, c).UnwrapOr(0) else 0
  }

  ghost predicate IsTotalUsage(total: Usage, responses: seq<CompletionResponse>) {
    forall c :: Get(total, c) == if Reported(responses) then Some(CounterSum(responses, c)) else None
  }

  method AddUsage(total: Usage, usage: Option<Usage>, ghost responses: seq<CompletionResponse>,
      ghost response: CompletionResponse)
    returns (sum: Usage)
    requires IsTotalUsage(total, responses) && response.usage == usage
    ensures IsTotalUsage(sum, responses + [response])
  {
    ghost var all := responses + [response];
    assert all[..|all| - 1] == responses && all[|all| - 1] == response;
    assert Reported(all) <==> Reported(responses) || usage.Some? by {
      assert forall r :: r in all <==> r in responses || r == response;
    }
    sum := total;
    if usage.Some? {
      var u := usage.value;
      forall c ensures CounterSum(responses, c) == Get(total, c).UnwrapOr(0) {
        if !Reported(responses) {
          NothingReported(responses, c);
        }
      }
      assert CounterSum(responses, Prompt) == Get(total, Prompt).UnwrapOr(0);
      sum := Usage(
        Some(total.promptTokens.UnwrapOr(0) + u.promptTokens.UnwrapOr(0)),
        Some(total.completionTokens.UnwrapOr(0) + u.completionTokens.UnwrapOr(0)),
        Some(total.totalTokens.UnwrapOr(0) + u.totalTokens.UnwrapOr(0)),
        Some(total.cacheReadTokens.UnwrapOr(0) + u.cacheReadTokens.UnwrapOr(0)),
        Some(total.cacheWriteTokens.UnwrapOr(0) + u.cacheWriteTokens.UnwrapOr(0)));
    }
  }

  lemma {:induction false} NothingReported(responses: seq<CompletionResponse>, c: Counter)
    requires !Reported(responses)
    ensures CounterSum(responses, c) == 0
  {
    if responses != [] {
      var front, last := responses[..|responses| - 1], responses[|responses| - 1];
      assert last in responses;
      assert forall r | r in front :: r in responses;
      NothingReported(front, c);
    }
  }

  // ----- How a request was answered -----

  /// One request is answered by the attempts of a stream, or by one completion.
  datatype Served = ByStream(trace: seq<Attempt>) | ByCompletion(reply: Result<CompletionResponse, AgentError>)

  ghost predicate ServedProperly(served: Served, config: Config) {
    if config.useStreaming then served.ByStream? && RetriedProperly(served.trace, config.timeouts)
    else served.ByCompletion?
  }

  ghost function Reply(served: Served): Result<CompletionResponse, AgentError> {
    match served
    case ByStream(trace) => if trace == [] then Err(StreamDead) else Outcome(trace[|trace| - 1])
    case ByCompletion(reply) => reply
  }

  /// The provider calls behind it, all with this request.
  function ExchangesFor(request: seq<Message>, served: Served): seq<Exchange> {
    match served
    case ByStream(trace) => Calls(request, trace)
    case ByCompletion(reply) => [Completed(request, reply)]
  }

  function AllExchanges(requests: seq<seq<Message>>, served: seq<Served>): seq<Exchange>
    requires |served| == |requests|
  {
    if requests == [] then []
    else
      var n := |requests| - 1;
      AllExchanges(requests[..n], served[..n]) + ExchangesFor(requests[n], served[n])
  }

  /// The responses are the replies received; only the last request may have failed.
  ghost predicate Replied(served: seq<Served>, responses: seq<CompletionResponse>) {
    && |responses| <= |served| <= |responses| + 1
    && (forall k | 0 <= k < |responses| :: Reply(served[k]) == Ok(responses[k]))
    && (|responses| < |served| ==> Reply(served[|responses|]).Err?)
  }

  // ----- How tool calls were executed -----

  /// One turn of tool use: the response that asked for it, the tasks spawned for its calls, their results, and the
  /// times between which each was awaited.
  datatype Round = Round(response: CompletionResponse, tasks: seq<Task>, results: seq<ToolResult>, times: seq<nat>)

  ghost predicate Executed(r: Round, config: Config) {
    && r.response.toolCalls.Some? && r.response.toolCalls.value != []
    && |r.results| == |r.tasks| == |r.response.toolCalls.value|
    && Collected(r.response.toolCalls.value, r.tasks, r.results, r.times, config.cancelledAt, config.toolTimeout)
  }

  ghost predicate AllExecuted(rounds: seq<Round>, config: Config) {
    forall k | 0 <= k < |rounds| :: Executed(rounds[k], config)
  }

  /// The tools of these rounds were awaited between these times.
  ghost predicate Between(rounds: seq<Round>, start: nat, finish: nat) {
    forall k | 0 <= k < |rounds| :: RoundBetween(rounds[k], start, finish)
  }

  predicate RoundBetween(r: Round, start: nat, finish: nat) {
    r.times != [] && start <= r.times[0] && r.times[|r.times| - 1] <= finish
  }

  lemma BetweenLater(rounds: seq<Round>, start: nat, finish: nat, later: nat)
    requires Between(rounds, start, finish) && finish <= later
    ensures Between(rounds, start, later)
  {
    forall k | 0 <= k < |rounds| ensures RoundBetween(rounds[k], start, later) {
      assert RoundBetween(rounds[k], start, finish);
    }
  }

  lemma OneMoreBetween(rounds: seq<Round>, r: Round, start: nat, finish: nat, later: nat)
    requires Between(rounds, start, finish) && start <= finish <= later && RoundBetween(r, finish, later)
    ensures Between(rounds + [r], start, later)
  {
    BetweenLater(rounds, start, finish, later);
  }

  predicate Fits(r: Round) {
    r.response.toolCalls.Some? && |r.results| == |r.tasks| == |r.response.toolCalls.value|
  }

  /// The block of a turn: the assistant message of the response and, for each call in order, a tool message with the
  /// call's id and name and the text of its result.
  function BlockOf(r: Round): Block
    requires Fits(r)
  {
    var calls := r.response.toolCalls.value;
    Block(
      Message(Assistant, r.response.content.UnwrapOr(""), None, None, Some(calls), r.response.reasoning),
      seq(|calls|, i requires 0 <= i < |calls| =>
        Message(Tool, r.results[i].Text(), Some(calls[i].name), Some(calls[i].id), None, None)))
  }

  function BlocksOf(rounds: seq<Round>): (blocks: seq<Block>)
    requires forall k | 0 <= k < |rounds| :: Fits(rounds[k])
    ensures |blocks| == |rounds| && forall k | 0 <= k < |rounds| :: blocks[k] == BlockOf(rounds[k])
  {
    seq(|rounds|, k requires 0 <= k < |rounds| => BlockOf(rounds[k]))
  }

  /// The tasks the turns have spawned, in order.
  function SpawnedIn(rounds: seq<Round>): seq<Spawned>
    requires forall k | 0 <= k < |rounds| :: Fits(rounds[k])
  {
    if rounds == [] then []
    else
      var last := rounds[|rounds| - 1];
      assert Fits(last);
      SpawnedIn(rounds[..|rounds| - 1]) + SpawnedFor(last.response.toolCalls.value, last.tasks)
  }

  lemma BlockIsWellFormed(r: Round, config: Config)
    requires Executed(r, config)
    ensures WellFormed(BlockOf(r))
  {
  }

  // ----- What a run does -----

  /// The record of one run. `abandoned` are the tasks of the turn during which the future was dropped.
  datatype RunTrace = RunTrace(
    start: nat, finish: nat, requests: seq<seq<Message>>, served: seq<Served>, responses: seq<CompletionResponse>,
    rounds: seq<Round>, abandoned: seq<Task>, cancelled: bool, result: Option<Result<RunResult, AgentError>>)

  /// The reasoning of the newest response.
  function LastReasoning(responses: seq<CompletionResponse>): Option<string> {
    if responses == [] then None else responses[|responses| - 1].reasoning
  }

  /// What a finished run reports, in terms of the requests sent, the responses received and the blocks appended.
  ghost predicate Accounts(
      result: RunResult, config: Config, requests: nat, responses: seq<CompletionResponse>,
      blocks: seq<Block>, cancelled: bool)
  {
    && |responses| == requests == result.iterationsUsed <= config.maxIterations
    && result.toolCallsMade == CallCount(blocks)
    && IsTotalUsage(result.usage, responses)
    && (result.hitLimit <==> |blocks| == config.maxIterations)
    && (result.hitLimit ==>
          !cancelled && result.content == LIMIT_TEXT && result.reasoningContent == LastReasoning(responses))
    && (cancelled ==> |blocks| == requests && result.content == CANCELLED_TEXT && result.reasoningContent == None)
    && (!result.hitLimit && !cancelled ==>
          && requests == |blocks| + 1
          && result.content == responses[|blocks|].content.UnwrapOr("")
          && result.reasoningContent == responses[|blocks|].reasoning
          && responses[|blocks|].toolCalls.UnwrapOr([]) == [])
  }

  /// Every turn answers the response of its request.
  ghost predicate Consistent(requests: seq<seq<Message>>, served: seq<Served>, responses: seq<CompletionResponse>,
      rounds: seq<Round>, config: Config, opening: seq<Message>)
  {
    && |served| == |requests| <= config.maxIterations
    && (forall k | 0 <= k < |served| :: ServedProperly(served[k], config))
    && Replied(served, responses) && |rounds| <= |responses|
    && AllExecuted(rounds, config)
    && (forall k | 0 <= k < |rounds| :: rounds[k].response == responses[k])
    && RequestsFollow(requests, opening, BlocksOf(rounds))
  }

  /// The future may be dropped, and it was waiting for a tool that is not ready.
  ghost predicate DroppedMidway(tasks: seq<Task>, config: Config, now: nat) {
    Due(config.dropDue, now) && exists i :: 0 <= i < |tasks| && !tasks[i].IsReady(now)
  }

  /// The record holds together, and the result is the one it calls for.
  ghost predicate RunFollows(t: RunTrace, config: Config, opening: seq<Message>) {
    && t.start <= t.finish && Consistent(t.requests, t.served, t.responses, t.rounds, config, opening)
    && Between(t.rounds, t.start, t.finish) && (t.cancelled ==> Due(config.cancelledAt, t.finish))
    && match t.result
       case None =>
         && |t.requests| == |t.responses| == |t.rounds| + 1
         && t.responses[|t.rounds|].toolCalls.Some? && |t.abandoned| == |t.responses[|t.rounds|].toolCalls.value|
         && DroppedMidway(t.abandoned, config, t.finish)
       case Some(Err(error)) =>
         |t.requests| == |t.responses| + 1 == |t.rounds| + 1 && Reply(t.served[|t.responses|]) == Err(error)
       case Some(Ok(result)) => Accounts(result, config, |t.requests|, t.responses, BlocksOf(t.rounds), t.cancelled)
  }

  /// The tasks a run has spawned.
  ghost function SpawnedBy(t: RunTrace, config: Config, opening: seq<Message>): seq<Spawned>
    requires RunFollows(t, config, opening)
  {
    if t.result.None? then SpawnedIn(t.rounds) + SpawnedFor(t.responses[|t.rounds|].toolCalls.value, t.abandoned)
    else SpawnedIn(t.rounds)
  }

  // ----- The code -----

  /// One request, streaming or not.
  method Ask(config: Config, provider: Provider, request: seq<Message>, start: nat)
    returns (r: Result<CompletionResponse, AgentError>, finish: nat, ghost served: Served)
    modifies provider
    ensures provider.log == old(provider.log) + ExchangesFor(request, served)
    ensures ServedProperly(served, config) && r == Reply(served)
    ensures start <= finish
  {
    if config.useStreaming {
      var shown, slept;
      ghost var trace;
      r, shown, slept, finish, trace := CompleteStreaming(provider, request, config.timeouts, start);
      served := ByStream(trace);
    } else {
      r := provider.Complete(request);
      finish := Elapse(start, 0);
      served := ByCompletion(r);
    }
  }

  /// The provider part of one turn: ask, and account for the usage reported.
  method Turn(config: Config, provider: Provider, request: seq<Message>, total: Usage,
      ghost responses: seq<CompletionResponse>, start: nat)
    returns (reply: Result<CompletionResponse, AgentError>, sum: Usage, finish: nat, ghost served: Served)
    requires IsTotalUsage(total, responses)
    modifies provider
    ensures provider.log == old(provider.log) + ExchangesFor(request, served)
    ensures ServedProperly(served, config) && reply == Reply(served)
    ensures start <= finish
    ensures reply.Ok? ==> IsTotalUsage(sum, responses + [reply.value])
  {
    sum := total;
    reply, finish, served := Ask(config, provider, request, start);
    if reply.Ok? {
      sum := AddUsage(total, reply.value.usage, responses, reply.value);
    }
  }

  /// Appends the assistant message and one tool message per call.
  method AppendBlock(conversation: seq<Message>, response: CompletionResponse, results: seq<ToolResult>, ghost r: Round)
    returns (longer: seq<Message>)
    requires Fits(r) && r.response == response && r.results == results
    ensures
      var block := BlockOf(r);
      longer == conversation + ([block.assistant] + block.answers)
  {
    var calls := response.toolCalls.value;
    var assistant := Message(Assistant, response.content.UnwrapOr(""), None, None, Some(calls), response.reasoning);
    longer := conversation + [assistant];
    ghost var answers := BlockOf(r).answers;
    for i := 0 to |calls|
      invariant longer == conversation + ([assistant] + answers[..i])
    {
      longer := longer + [Message(Tool, results[i].Text(), Some(calls[i].name), Some(calls[i].id), None, None)];
      assert answers[..i + 1] == answers[..i] + [answers[i]];
    }
    assert answers[..|calls|] == answers;
  }

  /// The tool part of one turn: execute the calls, then append the block. False when the future is dropped.
  method UseTools(config: Config, host: ToolHost, response: CompletionResponse, conversation: seq<Message>, start: nat)
    returns (done: bool, longer: seq<Message>, finish: nat, ghost round: Round)
    requires response.toolCalls.Some? && response.toolCalls.value != []
    modifies host
    ensures start <= finish
    ensures round.response == response && |round.tasks| == |response.toolCalls.value|
    ensures host.spawned == old(host.spawned) + SpawnedFor(response.toolCalls.value, round.tasks)
    ensures done ==> Executed(round, config) && RoundBetween(round, start, finish)
    ensures done ==> longer == conversation + ([BlockOf(round).assistant] + BlockOf(round).answers)
    ensures !done ==> DroppedMidway(round.tasks, config, finish)
  {
    var results, dropped, events, handles, tasks;
    ghost var times, heartbeats;
    results, dropped, events, handles, tasks, finish, times, heartbeats := ExecuteTools.Execute(
      response.toolCalls.value, host, config.cancelledAt, config.dropDue, config.toolTimeout, start);
    done, longer, round := !dropped, conversation, Round(response, tasks, results, times);
    if done {
      longer := AppendBlock(conversation, response, results, round);
    }
  }

  /// The state at the head of the loop: every request sent so far has been answered and its calls executed.
  ghost predicate AtHead(conversation: seq<Message>, toolCallsMade: nat, usage: Usage, t: RunTrace,
      config: Config, opening: seq<Message>)
  {
    && |t.requests| == |t.responses| == |t.rounds| && !t.cancelled && t.start <= t.finish
    && Consistent(t.requests, t.served, t.responses, t.rounds, config, opening) && Between(t.rounds, t.start, t.finish)
    && conversation == opening + Flatten(BlocksOf(t.rounds))
    && toolCallsMade == CallCount(BlocksOf(t.rounds)) && IsTotalUsage(usage, t.responses)
  }

  /// The state once a response has come.
  ghost predicate Heard(conversation: seq<Message>, toolCallsMade: nat, usage: Usage, t: RunTrace,
      config: Config, opening: seq<Message>)
  {
    && |t.requests| == |t.responses| == |t.rounds| + 1 && !t.cancelled && t.start <= t.finish
    && Consistent(t.requests, t.served, t.responses, t.rounds, config, opening) && Between(t.rounds, t.start, t.finish)
    && conversation == opening + Flatten(BlocksOf(t.rounds))
    && toolCallsMade == CallCount(BlocksOf(t.rounds)) && IsTotalUsage(usage, t.responses)
  }

  function Begun(start: nat): RunTrace {
    RunTrace(start, start, [], [], [], [], [], false, None)
  }

  /// The record with one more request and its answer.
  ghost function WithReply(t: RunTrace, request: seq<Message>, answer: Served, now: nat): RunTrace {
    t.(requests := t.requests + [request], served := t.served + [answer],
       responses := if Reply(answer).Ok? then t.responses + [Reply(answer).value] else t.responses, finish := now)
  }

  lemma AtFirst(config: Config, opening: seq<Message>, start: nat)
    ensures AtHead(opening, 0, NO_USAGE, Begun(start), config, opening)
  {
    assert opening + [] == opening;
  }

  lemma NothingLogged(log: seq<Exchange>, spawned: seq<Spawned>, start: nat)
    ensures Logged(log, log, spawned, spawned, Begun(start))
  {
    assert log + [] == log && spawned + [] == spawned;
  }

  lemma Replies(conversation: seq<Message>, requests: seq<seq<Message>>, served: seq<Served>,
      responses: seq<CompletionResponse>, rounds: seq<Round>, config: Config, opening: seq<Message>, answer: Served)
    requires Consistent(requests, served, responses, rounds, config, opening) && |requests| == |responses| == |rounds|
    requires conversation == opening + Flatten(BlocksOf(rounds))
    requires |requests| < config.maxIterations && ServedProperly(answer, config)
    ensures
      var received := if Reply(answer).Ok? then responses + [Reply(answer).value] else responses;
      Consistent(requests + [conversation], served + [answer], received, rounds, config, opening)
  {
    hide ServedProperly, Flatten, Reply;
    OneMoreRequest(requests, opening, BlocksOf(rounds));
    hide RequestsFollow;
  }

  lemma ResponseCame(conversation: seq<Message>, toolCallsMade: nat, usage: Usage, t: RunTrace,
      config: Config, opening: seq<Message>, answer: Served, sum: Usage, now: nat)
    requires AtHead(conversation, toolCallsMade, usage, t, config, opening)
    requires |t.requests| < config.maxIterations && ServedProperly(answer, config) && t.finish <= now
    requires Reply(answer).Ok? && IsTotalUsage(sum, t.responses + [Reply(answer).value])
    ensures Heard(conversation, toolCallsMade, sum, WithReply(t, conversation, answer, now), config, opening)
  {
    hide Between, Consistent, Reply, ServedProperly, Flatten, IsTotalUsage;
    BetweenLater(t.rounds, t.start, t.finish, now);
    Replies(conversation, t.requests, t.served, t.responses, t.rounds, config, opening, answer);
  }

  lemma ErrorCame(conversation: seq<Message>, toolCallsMade: nat, usage: Usage, t: RunTrace,
      config: Config, opening: seq<Message>, answer: Served, now: nat)
    requires AtHead(conversation, toolCallsMade, usage, t, config, opening)
    requires |t.requests| < config.maxIterations && ServedProperly(answer, config) && t.finish <= now
      && Reply(answer).Err?
    ensures RunFollows(WithReply(t, conversation, answer, now).(result := Some(Err(Reply(answer).error))), config,
      opening)
  {
    hide Between, Consistent, Reply, ServedProperly, Flatten, IsTotalUsage, Accounts, BlocksOf, CallCount,
      DroppedMidway;
    BetweenLater(t.rounds, t.start, t.finish, now);
    HeadFacts(conversation, toolCallsMade, usage, t, config, opening);
    Replies(conversation, t.requests, t.served, t.responses, t.rounds, config, opening, answer);
  }

  lemma ToolsRan(conversation: seq<Message>, toolCallsMade: nat, usage: Usage, t: RunTrace,
      config: Config, opening: seq<Message>, round: Round, now: nat)
    requires Heard(conversation, toolCallsMade, usage, t, config, opening)
    requires Executed(round, config) && round.response == t.responses[|t.rounds|] && t.finish <= now
      && RoundBetween(round, t.finish, now)
    ensures
      var longer := conversation + ([BlockOf(round).assistant] + BlockOf(round).answers);
      AtHead(longer, toolCallsMade + |round.tasks|, usage, t.(rounds := t.rounds + [round], finish := now), config,
        opening)
  {
    OneMoreBetween(t.rounds, round, t.start, t.finish, now);
    TurnDone(t.requests, t.served, t.responses, t.rounds, config, opening, round);
  }

  // The ways a run can end.

  lemma EndsCancelled(conversation: seq<Message>, toolCallsMade: nat, usage: Usage, t: RunTrace, config: Config,
      opening: seq<Message>)
    requires AtHead(conversation, toolCallsMade, usage, t, config, opening) && |t.requests| < config.maxIterations
    requires Due(config.cancelledAt, t.finish)
    ensures
      var result := RunResult(CANCELLED_TEXT, None, usage, toolCallsMade, |t.requests|, false);
      RunFollows(t.(cancelled := true, result := Some(Ok(result))), config, opening)
  {
  }

  lemma EndsAtLimit(conversation: seq<Message>, toolCallsMade: nat, usage: Usage, t: RunTrace, config: Config,
      opening: seq<Message>, reasoning: Option<string>)
    requires AtHead(conversation, toolCallsMade, usage, t, config, opening) && |t.requests| == config.maxIterations
    requires reasoning == LastReasoning(t.responses)
    ensures
      var result := RunResult(LIMIT_TEXT, reasoning, usage, toolCallsMade, config.maxIterations, true);
      RunFollows(t.(result := Some(Ok(result))), config, opening)
  {
  }

  lemma EndsAnswered(conversation: seq<Message>, toolCallsMade: nat, usage: Usage, t: RunTrace, config: Config,
      opening: seq<Message>)
    requires Heard(conversation, toolCallsMade, usage, t, config, opening)
    requires t.responses[|t.rounds|].toolCalls.UnwrapOr([]) == []
    ensures
      var last := t.responses[|t.rounds|];
      var result := RunResult(last.content.UnwrapOr(""), last.reasoning, usage, toolCallsMade, |t.requests|, false);
      RunFollows(t.(result := Some(Ok(result))), config, opening)
  {
  }

  lemma EndsDropped(conversation: seq<Message>, toolCallsMade: nat, usage: Usage, t: RunTrace, config: Config,
      opening: seq<Message>, tasks: seq<Task>, now: nat)
    requires Heard(conversation, toolCallsMade, usage, t, config, opening) && t.finish <= now
    requires t.responses[|t.rounds|].toolCalls.Some? && |tasks| == |t.responses[|t.rounds|].toolCalls.value|
    requires DroppedMidway(tasks, config, now)
    ensures RunFollows(t.(abandoned := tasks, finish := now, result := None), config, opening)
  {
    BetweenLater(t.rounds, t.start, t.finish, now);
  }

  /// The parts of the record the loop itself looks at.
  lemma HeadFacts(conversation: seq<Message>, toolCallsMade: nat, usage: Usage, t: RunTrace, config: Config,
      opening: seq<Message>)
    requires AtHead(conversation, toolCallsMade, usage, t, config, opening)
    ensures |t.requests| == |t.served| == |t.responses| == |t.rounds| && t.start <= t.finish && !t.cancelled
    ensures IsTotalUsage(usage, t.responses) && forall k | 0 <= k < |t.rounds| :: Fits(t.rounds[k])
  {
  }

  lemma OneMoreRequest(requests: seq<seq<Message>>, opening: seq<Message>, blocks: seq<Block>)
    requires RequestsFollow(requests, opening, blocks) && |requests| == |blocks|
    ensures RequestsFollow(requests + [opening + Flatten(blocks)], opening, blocks)
  {
    assert blocks[..|blocks|] == blocks;
  }

  lemma OneMoreBlock(requests: seq<seq<Message>>, opening: seq<Message>, blocks: seq<Block>, block: Block)
    requires RequestsFollow(requests, opening, blocks) && |requests| == |blocks| + 1 && WellFormed(block)
    ensures RequestsFollow(requests, opening, blocks + [block])
  {
    var longer := blocks + [block];
    forall k | 0 <= k < |requests| ensures requests[k] == opening + Flatten(longer[..k]) {
      assert longer[..k] == blocks[..k];
    }
    assert forall k | 0 <= k < |longer| :: WellFormed(longer[k]);
  }

  lemma BlockAdds(opening: seq<Message>, blocks: seq<Block>, block: Block)
    ensures opening + Flatten(blocks + [block]) == opening + Flatten(blocks) + ([block.assistant] + block.answers)
    ensures CallCount(blocks + [block]) == CallCount(blocks) + |block.answers|
  {
    assert (blocks + [block])[..|blocks|] == blocks;
  }

  lemma Front<T>(front: seq<T>, last: T)
    ensures (front + [last])[..|front|] == front && (front + [last])[|front|] == last
  {
  }

  lemma BlocksAdd(rounds: seq<Round>, round: Round)
    requires Fits(round) && forall k | 0 <= k < |rounds| :: Fits(rounds[k])
    ensures BlocksOf(rounds + [round]) == BlocksOf(rounds) + [BlockOf(round)]
  {
    hide BlockOf;
  }

  lemma SpawnedAdds(rounds: seq<Round>, round: Round)
    requires Fits(round) && forall k | 0 <= k < |rounds| :: Fits(rounds[k])
    ensures SpawnedIn(rounds + [round]) == SpawnedIn(rounds) + SpawnedFor(round.response.toolCalls.value, round.tasks)
  {
    hide SpawnedFor;
    Front(rounds, round);
  }

  lemma ExchangesAdd(requests: seq<seq<Message>>, served: seq<Served>, request: seq<Message>, answer: Served)
    requires |served| == |requests|
    ensures AllExchanges(requests + [request], served + [answer])
      == AllExchanges(requests, served) + ExchangesFor(request, answer)
  {
    assert (requests + [request])[..|requests|] == requests && (served + [answer])[..|served|] == served;
  }

  /// Executing the calls of the response brings the loop back to its head.
  lemma TurnDone(requests: seq<seq<Message>>, served: seq<Served>, responses: seq<CompletionResponse>,
      rounds: seq<Round>, config: Config, opening: seq<Message>, round: Round)
    requires Consistent(requests, served, responses, rounds, config, opening)
    requires |requests| == |responses| == |rounds| + 1
    requires Executed(round, config) && round.response == responses[|rounds|]
    ensures Consistent(requests, served, responses, rounds + [round], config, opening)
    ensures
      var block := BlockOf(round);
      && opening + Flatten(BlocksOf(rounds + [round])) ==
         opening + Flatten(BlocksOf(rounds)) + ([block.assistant] + block.answers)
      && CallCount(BlocksOf(rounds + [round])) == CallCount(BlocksOf(rounds)) + |block.answers|
  {
    hide RequestsFollow, Flatten, BlocksOf, BlockOf, CallCount, ServedProperly, WellFormed, Replied;
    BlockIsWellFormed(round, config);
    BlocksAdd(rounds, round);
    OneMoreBlock(requests, opening, BlocksOf(rounds), BlockOf(round));
    BlockAdds(opening, BlocksOf(rounds), BlockOf(round));
    assert AllExecuted(rounds + [round], config);
  }

  /// What the run has done to the provider and the tool host.
  ghost predicate Logged(log: seq<Exchange>, before: seq<Exchange>, spawned: seq<Spawned>, spawnedBefore: seq<Spawned>,
      t: RunTrace) {
    && |t.served| == |t.requests| && (forall k | 0 <= k < |t.rounds| :: Fits(t.rounds[k]))
    && log == before + AllExchanges(t.requests, t.served) && spawned == spawnedBefore + SpawnedIn(t.rounds)
  }

  /// The same once the run is over.
  ghost predicate LoggedAll(log: seq<Exchange>, before: seq<Exchange>, spawned: seq<Spawned>,
      spawnedBefore: seq<Spawned>, t: RunTrace, config: Config, opening: seq<Message>)
  {
    && RunFollows(t, config, opening)
    && log == before + AllExchanges(t.requests, t.served) && spawned == spawnedBefore + SpawnedBy(t, config, opening)
  }

  lemma LoggedReply(log: seq<Exchange>, before: seq<Exchange>, spawned: seq<Spawned>, spawnedBefore: seq<Spawned>,
      t: RunTrace, request: seq<Message>, answer: Served, now: nat)
    requires Logged(log, before, spawned, spawnedBefore, t)
    ensures Logged(log + ExchangesFor(request, answer), before, spawned, spawnedBefore,
      WithReply(t, request, answer, now))
  {
    hide AllExchanges, ExchangesFor, SpawnedIn, Reply;
    ExchangesAdd(t.requests, t.served, request, answer);
  }

  lemma LoggedTools(log: seq<Exchange>, before: seq<Exchange>, spawned: seq<Spawned>, spawnedBefore: seq<Spawned>,
      t: RunTrace, round: Round, now: nat)
    requires Logged(log, before, spawned, spawnedBefore, t) && Fits(round)
    ensures Logged(log, before, spawned + SpawnedFor(round.response.toolCalls.value, round.tasks), spawnedBefore,
      t.(rounds := t.rounds + [round], finish := now))
  {
    SpawnedAdds(t.rounds, round);
  }

  lemma LoggedDrop(log: seq<Exchange>, before: seq<Exchange>, spawned: seq<Spawned>, spawnedBefore: seq<Spawned>,
      t: RunTrace, config: Config, opening: seq<Message>, tasks: seq<Task>, now: nat)
    requires Logged(log, before, spawned, spawnedBefore, t) && |t.responses| == |t.rounds| + 1
    requires RunFollows(t.(abandoned := tasks, finish := now, result := None), config, opening)
    ensures
      var calls := t.responses[|t.rounds|].toolCalls.value;
      LoggedAll(log, before, spawned + SpawnedFor(calls, tasks), spawnedBefore,
        t.(abandoned := tasks, finish := now, result := None), config, opening)
  {
    hide Consistent, Between, DroppedMidway, SpawnedIn, SpawnedFor, AllExchanges;
  }

  /// The second half of a turn: execute the calls of the response; the run is over when the future is dropped.
  method ToolTurn(config: Config, host: ToolHost, response: CompletionResponse,
      conversation: seq<Message>, toolCallsMade: nat, usage: Usage, start: nat, ghost t: RunTrace,
      ghost opening: seq<Message>, ghost log: seq<Exchange>, ghost before: seq<Exchange>,
      ghost spawnedBefore: seq<Spawned>)
    returns (done: bool, longer: seq<Message>, made: nat, finish: nat, ghost t': RunTrace)
    requires Heard(conversation, toolCallsMade, usage, t, config, opening) && t.finish == start && t.result.None?
    requires |t.responses| == |t.rounds| + 1 && t.responses[|t.rounds|] == response
    requires response.toolCalls.Some? && response.toolCalls.value != []
    requires Logged(log, before, host.spawned, spawnedBefore, t)
    modifies host
    ensures t'.start == t.start && t'.finish == finish && t'.result.None? && t'.requests == t.requests
      && t'.served == t.served
    ensures t'.responses == t.responses
    ensures done ==>
      AtHead(longer, made, usage, t', config, opening) && Logged(log, before, host.spawned, spawnedBefore, t')
    ensures !done ==> LoggedAll(log, before, host.spawned, spawnedBefore, t', config, opening)
    ensures t'.cancelled == t.cancelled
  {
    hide Heard, AtHead, RunFollows, Logged, LoggedAll, Executed, SpawnedFor, BlockOf, Between, RoundBetween,
      DroppedMidway;
    longer, made := conversation, toolCallsMade;
    ghost var round, spawned := Round(response, [], [], []), host.spawned;
    done, longer, finish, round := UseTools(config, host, response, conversation, start);
    if done {
      ToolsRan(conversation, toolCallsMade, usage, t, config, opening, round, finish);
      LoggedTools(log, before, spawned, spawnedBefore, t, round, finish);
      made := toolCallsMade + |response.toolCalls.value|;
      t' := t.(rounds := t.rounds + [round], finish := finish);
    } else {
      EndsDropped(conversation, toolCallsMade, usage, t, config, opening, round.tasks, finish);
      LoggedDrop(log, before, spawned, spawnedBefore, t, config, opening, round.tasks, finish);
      t' := t.(abandoned := round.tasks, finish := finish, result := None);
    }
  }

  datatype Progress = Continues | Over(result: Option<Result<RunResult, AgentError>>)

  /// One pass of the loop behind the check for cancellation.
  method TakeTurn(config: Config, provider: Provider, host: ToolHost, iteration: nat,
      conversation: seq<Message>, toolCallsMade: nat, usage: Usage, start: nat, ghost t: RunTrace,
      ghost opening: seq<Message>, ghost before: seq<Exchange>, ghost spawnedBefore: seq<Spawned>)
    returns (progress: Progress, longer: seq<Message>, made: nat, sum: Usage, reasoning: Option<string>, finish: nat,
      ghost t': RunTrace)
    requires AtHead(conversation, toolCallsMade, usage, t, config, opening) && t.finish == start && t.result.None?
    requires |t.requests| == iteration < config.maxIterations
    requires Logged(provider.log, before, host.spawned, spawnedBefore, t)
    modifies provider, host
    ensures t'.start == t.start && t'.finish == finish && !t'.cancelled
    ensures progress.Continues? ==>
      && |t'.requests| == iteration + 1 && t'.result.None? && AtHead(longer, made, sum, t', config, opening)
      && Logged(provider.log, before, host.spawned, spawnedBefore, t') && reasoning == LastReasoning(t'.responses)
    ensures progress.Over? ==>
      t'.result == progress.result && LoggedAll(provider.log, before, host.spawned, spawnedBefore, t', config, opening)
  {
    hide AtHead, Heard, RunFollows, Logged, LoggedAll, ExchangesFor, ServedProperly, Reply, IsTotalUsage;
    HeadFacts(conversation, toolCallsMade, usage, t, config, opening);
    longer, made := conversation, toolCallsMade;
    var reply;
    ghost var answer, log;
    log := provider.log;
    reply, sum, finish, answer := Turn(config, provider, conversation, usage, t.responses, start);
    LoggedReply(log, before, host.spawned, spawnedBefore, t, conversation, answer, finish);
    t', reasoning := WithReply(t, conversation, answer, finish), None;
    if reply.Err? {
      ErrorCame(conversation, toolCallsMade, usage, t, config, opening, answer, finish);
      progress := Over(Some(Err(reply.error)));
      t' := t'.(result := progress.result);
      LoggedEnd(provider.log, before, host.spawned, spawnedBefore, WithReply(t, conversation, answer, finish), t',
        config, opening);
      return;
    }
    var response := reply.value;
    reasoning := response.reasoning;
    ResponseCame(conversation, toolCallsMade, usage, t, config, opening, answer, sum, finish);
    if response.toolCalls.None? || response.toolCalls.value == [] {
      EndsAnswered(conversation, toolCallsMade, sum, t', config, opening);
      progress := Over(Some(Ok(RunResult(
        response.content.UnwrapOr(""), reasoning, sum, toolCallsMade, iteration + 1, false))));
      t' := t'.(result := progress.result);
      LoggedEnd(provider.log, before, host.spawned, spawnedBefore, WithReply(t, conversation, answer, finish), t',
        config, opening);
      return;
    }
    var done;
    done, longer, made, finish, t' := ToolTurn(config, host, response, conversation, toolCallsMade, sum, finish,
      t', opening, provider.log, before, spawnedBefore);
    progress := if done then Continues else Over(None);
  }

  /// Setting the result leaves the logs alone.
  lemma LoggedEnd(log: seq<Exchange>, before: seq<Exchange>, spawned: seq<Spawned>, spawnedBefore: seq<Spawned>,
      t: RunTrace, ended: RunTrace, config: Config, opening: seq<Message>)
    requires Logged(log, before, spawned, spawnedBefore, t)
    requires ended.requests == t.requests && ended.served == t.served && ended.rounds == t.rounds
    requires RunFollows(ended, config, opening) && ended.result.Some?
    ensures LoggedAll(log, before, spawned, spawnedBefore, ended, config, opening)
  {
  }

  /// Everything the provider received and every task spawned is in the record; a token cancelled before the run keeps
  /// it from sending anything, and only a cancelled token makes it report a cancellation, its own or a tool's.
  method Run(config: Config, provider: Provider, host: ToolHost, prompt: string,
      history: seq<Message>, memory: Option<string>, start: nat)
    returns (r: Option<Result<RunResult, AgentError>>, finish: nat, ghost t: RunTrace)
    modifies provider, host
    ensures RunFollows(t, config, [SystemMessage(prompt, memory)] + history)
    ensures t.result == r && t.start == start && t.finish == finish
    ensures provider.log == old(provider.log) + AllExchanges(t.requests, t.served)
    ensures host.spawned == old(host.spawned) + SpawnedBy(t, config, [SystemMessage(prompt, memory)] + history)
    ensures Due(config.cancelledAt, start) ==> t.requests == []
  {
    hide AtHead, RunFollows, Logged;
    var conversation := [SystemMessage(prompt, memory)] + history;
    ghost var opening := conversation;
    var totalUsage, toolCallsMade: nat := NO_USAGE, 0;
    var reasoningContent: Option<string> := None;
    finish, t := start, Begun(start);
    AtFirst(config, opening, start);
    NothingLogged(provider.log, host.spawned, start);

    for iteration := 0 to config.maxIterations
      invariant |t.requests| == iteration && t.result.None? && !t.cancelled && t.start == start && t.finish == finish
      invariant AtHead(conversation, toolCallsMade, totalUsage, t, config, opening)
      invariant Logged(provider.log, old(provider.log), host.spawned, old(host.spawned), t)
      invariant Due(config.cancelledAt, start) ==> iteration == 0
      invariant (iteration == 0 ==> finish == start) && reasoningContent == LastReasoning(t.responses)
    {
      if Due(config.cancelledAt, finish) {
        EndsCancelled(conversation, toolCallsMade, totalUsage, t, config, opening);
        r := Some(Ok(RunResult(CANCELLED_TEXT, None, totalUsage, toolCallsMade, iteration, false)));
        ghost var ended := t.(cancelled := true, result := r);
        LoggedEnd(provider.log, old(provider.log), host.spawned, old(host.spawned), t, ended, config, opening);
        t := ended;
        return;
      }
      var progress;
      progress, conversation, toolCallsMade, totalUsage, reasoningContent, finish, t :=
        TakeTurn(config, provider, host, iteration, conversation, toolCallsMade, totalUsage, finish,
          t, opening, old(provider.log), old(host.spawned));
      if progress.Over? {
        r := progress.result;
        return;
      }
    }
    EndsAtLimit(conversation, toolCallsMade, totalUsage, t, config, opening, reasoningContent);
    r := Some(Ok(RunResult(LIMIT_TEXT, reasoningContent, totalUsage, toolCallsMade, config.maxIterations, true)));
    ghost var ended := t.(result := r);
    LoggedEnd(provider.log, old(provider.log), host.spawned, old(host.spawned), t, ended, config, opening);
    t := ended;
  }

  // ----- Consequences for the tools of one run -----

  /// A tool of a finished turn that was ready before its deadline has its own result in the conversation, in the tool
  /// message that answers its call, unless the run was cancelled.
  lemma ReadyToolIsAnswered(t: RunTrace, config: Config, opening: seq<Message>, k: nat, i: nat)
    requires RunFollows(t, config, opening) && k < |t.rounds| && i < |t.rounds[k].tasks|
    requires config.toolTimeout > 0 && !Due(config.cancelledAt, t.finish)
    requires t.rounds[k].times != [] && t.rounds[k].tasks[i].IsReady(t.rounds[k].times[0] + config.toolTimeout)
    ensures Fits(t.rounds[k]) && !t.rounds[k].tasks[i].RunsOn?
    ensures
      var call, answer := t.rounds[k].response.toolCalls.value[i], BlockOf(t.rounds[k]).answers[i];
      answer.toolCallId == Some(call.id) && answer.content == t.rounds[k].tasks[i].Result().Text()
  {
    hide Consistent, Collected, Reports;
    RoundFacts(t, config, opening, k);
    RoundIsAnswered(t.rounds[k], config, t.start, t.finish, i);
  }

  lemma RoundFacts(t: RunTrace, config: Config, opening: seq<Message>, k: nat)
    requires RunFollows(t, config, opening) && k < |t.rounds|
    ensures Executed(t.rounds[k], config) && RoundBetween(t.rounds[k], t.start, t.finish)
  {
  }

  lemma RoundIsAnswered(r: Round, config: Config, start: nat, finish: nat, i: nat)
    requires Executed(r, config) && RoundBetween(r, start, finish) && i < |r.tasks| && config.toolTimeout > 0
    requires !Due(config.cancelledAt, finish) && r.tasks[i].IsReady(r.times[0] + config.toolTimeout)
    ensures r.results[i] == r.tasks[i].Result()
  {
    var calls := r.response.toolCalls.value;
    TimesAreOrdered(calls, r.tasks, r.results, r.times, config.cancelledAt, config.toolTimeout, 0, i);
    TimesAreOrdered(calls, r.tasks, r.results, r.times, config.cancelledAt, config.toolTimeout, i + 1, |r.results|);
    ReadyToolIsReported(r.results[i], calls[i], r.tasks[i], config.cancelledAt, config.toolTimeout, r.times[i],
      r.times[i + 1]);
  }

  /// A run reports a tool as cancelled only when its token has been.
  lemma CancelledToolMeansCancelledRun(t: RunTrace, config: Config, opening: seq<Message>, k: nat, i: nat)
    requires RunFollows(t, config, opening) && k < |t.rounds| && i < |t.rounds[k].results|
    requires t.rounds[k].results[i].Cancelled?
    ensures Due(config.cancelledAt, t.finish)
  {
    RoundFacts(t, config, opening, k);
    var r := t.rounds[k];
    var calls := r.response.toolCalls.value;
    TimesAreOrdered(calls, r.tasks, r.results, r.times, config.cancelledAt, config.toolTimeout, i + 1, |r.results|);
    assert Reports(r.results[i], calls[i], r.tasks[i], config.cancelledAt, config.toolTimeout, r.times[i],
      r.times[i + 1]);
  }

  // ----- Consequences for the requests of one run -----

  /// Every provider call of a run carries a well-formed conversation: the system message, the history and the blocks of
  /// the turns completed before it.
  lemma EveryCallIsWellFormed(t: RunTrace, config: Config, opening: seq<Message>, i: nat) returns (k: nat)
    requires RunFollows(t, config, opening) && i < |AllExchanges(t.requests, t.served)|
    ensures k <= |t.rounds|
      && AllExchanges(t.requests, t.served)[i].request == opening + Flatten(BlocksOf(t.rounds)[..k])
    ensures forall j | 0 <= j < k :: WellFormed(BlocksOf(t.rounds)[j])
  {
    k := RequestOf(t.requests, t.served, i);
  }

  lemma {:induction false} RequestOf(requests: seq<seq<Message>>, served: seq<Served>, i: nat) returns (k: nat)
    requires |served| == |requests| && i < |AllExchanges(requests, served)|
    ensures k < |requests| && AllExchanges(requests, served)[i].request == requests[k]
    decreases |requests|
  {
    var n := |requests| - 1;
    if i < |AllExchanges(requests[..n], served[..n])| {
      k := RequestOf(requests[..n], served[..n], i);
    } else {
      k := n;
    }
  }

  /// One to three calls per request with streaming, one without.
  lemma {:induction false} CallsPerRequest(requests: seq<seq<Message>>, served: seq<Served>, config: Config)
    requires |served| == |requests| && forall k | 0 <= k < |served| :: ServedProperly(served[k], config)
    ensures |requests| <= |AllExchanges(requests, served)| <= (if config.useStreaming then 3 else 1) * |requests|
  {
    if requests != [] {
      var n := |requests| - 1;
      CallsPerRequest(requests[..n], served[..n], config);
    }
  }

  /// Each request extends the previous one by exactly one well-formed block.
  lemma RequestsGrowByOneBlock(requests: seq<seq<Message>>, opening: seq<Message>, blocks: seq<Block>, k: nat)
    requires RequestsFollow(requests, opening, blocks) && k + 1 < |requests|
    ensures requests[0] == opening
    ensures requests[k + 1] == requests[k] + ([blocks[k].assistant] + blocks[k].answers) && WellFormed(blocks[k])
  {
    assert blocks[..k + 1] == blocks[..k] + [blocks[k]] && blocks[..0] == [];
    BlockAdds(opening, blocks[..k], blocks[k]);
  }

  function ToolMessages(messages: seq<Message>): nat {
    if messages == [] then 0
    else ToolMessages(messages[..|messages| - 1]) + if messages[|messages| - 1].role == Tool then 1 else 0
  }

  lemma {:induction false} ToolMessagesConcat(a: seq<Message>, b: seq<Message>)
    ensures ToolMessages(a + b) == ToolMessages(a) + ToolMessages(b)
  {
    if b == [] {
      assert a + b == a;
    } else {
      assert (a + b)[..|a + b| - 1] == a + b[..|b| - 1];
      ToolMessagesConcat(a, b[..|b| - 1]);
    }
  }

  lemma {:induction false} AllTool(messages: seq<Message>)
    requires forall m | m in messages :: m.role == Tool
    ensures ToolMessages(messages) == |messages|
  {
    if messages != [] {
      assert forall m | m in messages[..|messages| - 1] :: m in messages;
      AllTool(messages[..|messages| - 1]);
    }
  }

  /// The reported number of tool calls is the number of tool messages appended to the conversation.
  lemma {:induction false} CallCountIsToolMessages(blocks: seq<Block>)
    requires forall k | 0 <= k < |blocks| :: WellFormed(blocks[k])
    ensures ToolMessages(Flatten(blocks)) == CallCount(blocks)
  {
    if blocks != [] {
      var front, last := blocks[..|blocks| - 1], blocks[|blocks| - 1];
      CallCountIsToolMessages(front);
      ToolMessagesConcat(Flatten(front) + [last.assistant], last.answers);
      ToolMessagesConcat(Flatten(front), [last.assistant]);
      AllTool(last.answers);
    }
  }
}
