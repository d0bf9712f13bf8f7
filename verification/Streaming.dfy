/// One streaming completion with its stream retries (runner.rs, complete_streaming).
/// The provider is an oracle: any connection, any finite run of items, available at any times.

module Streaming {
  import opened Core
  import opened ToolCallAssembly
  import opened StreamHealth
  import opened StreamProgress

  const MAX_STREAM_RETRIES := 2
  const PROGRESS_INTERVAL := 5_000

  datatype Chunk = Chunk(
    delta: Option<string>,
    reasoning: Option<string>,
    toolCallDeltas: Option<seq<ToolCallDelta>>,
    usage: Option<Usage>,
    done: bool)

  /// What a stream yields, and from when on it can be had.
  datatype Item = Data(chunk: Chunk, at: nat) | Failure(error: string, at: nat)

  /// After its items a stream ends, or it never yields again.
  datatype Connection = Refused(error: string) | Opened(items: seq<Item>, closesAt: Option<nat>)

  /// One call of the provider: the conversation it was sent and what it gave back.
  datatype Exchange =
    | Streamed(request: seq<Message>, connection: Connection)
    | Completed(request: seq<Message>, reply: Result<CompletionResponse, AgentError>)

  /// The provider; `log` records every call it has received.
  class Provider {
    ghost var log: seq<Exchange>

    constructor ()
      ensures log == []
    {
      log := [];
    }

    /// Whatever the provider answers.
    method OpenStream(request: seq<Message>) returns (connection: Connection)
      modifies this
      ensures log == old(log) + [Streamed(request, connection)]
    {
      connection := *;
      log := log + [Streamed(request, connection)];
    }

    /// A completion without streaming; a failure carries the context the runner adds.
    method Complete(request: seq<Message>) returns (r: Result<CompletionResponse, AgentError>)
      modifies this
      ensures log == old(log) + [Completed(request, r)]
    {
      var response: CompletionResponse := *;
      var failed: bool, text: string := *, *;
      r := if failed then Err(ErrorText("LLM completion failed: " + text)) else Ok(response);
      log := log + [Completed(request, r)];
    }
  }

  /// Resolved timeouts of one request, in milliseconds.
  datatype Timeouts = Timeouts(
    firstByte: nat, idle: nat, message: nat, absoluteMax: nat, stalePoll: nat)

  /// The errors of a run; the first two have fixed wording of their own.
  datatype AgentError = StreamDead | StreamTimedOut | ErrorText(text: string)

  /// The stream errors that complete_streaming itself retries.
  predicate IsStreamError(text: string) {
    || Contains(text, "Stream error")
    || Contains(text, "error decoding response body")
    || Contains(text, "timed out")
    || Contains(text, "timeout")
  }

  datatype CompletionResponse = CompletionResponse(
    content: Option<string>,
    reasoning: Option<string>,
    toolCalls: Option<seq<ToolCall>>,
    usage: Option<Usage>)

  // ----- What a run of chunks amounts to -----

  function Deltas(chunks: seq<Chunk>): seq<string> {
    if chunks == [] then []
    else
      var rest := Deltas(chunks[..|chunks| - 1]);
      if chunks[|chunks| - 1].delta.Some? then rest + [chunks[|chunks| - 1].delta.value] else rest
  }

  function Join(parts: seq<string>): string {
    if parts == [] then "" else Join(parts[..|parts| - 1]) + parts[|parts| - 1]
  }

  function Reasoning(chunks: seq<Chunk>): string {
    if chunks == [] then ""
    else Reasoning(chunks[..|chunks| - 1]) + chunks[|chunks| - 1].reasoning.UnwrapOr("")
  }

  function LastUsage(chunks: seq<Chunk>): Option<Usage> {
    if chunks == [] then None
    else if chunks[|chunks| - 1].usage.Some? then chunks[|chunks| - 1].usage
    else LastUsage(chunks[..|chunks| - 1])
  }

  function CallDeltas(chunks: seq<Chunk>): seq<ToolCallDelta> {
    if chunks == [] then []
    else CallDeltas(chunks[..|chunks| - 1]) + chunks[|chunks| - 1].toolCallDeltas.UnwrapOr([])
  }

  /// The response a finished stream stands for.
  ghost function Assembled(chunks: seq<Chunk>): CompletionResponse {
    var content, reasoning, calls := Join(Deltas(chunks)), Reasoning(chunks), ToolCallsOf(CallDeltas(chunks));
    CompletionResponse(
      if content == "" && calls == [] then None else Some(content),
      if reasoning == "" then None else Some(reasoning),
      if calls == [] then None else Some(calls),
      LastUsage(chunks))
  }

  // ----- One attempt -----

  datatype AttemptEnd = NotConnected(error: string) | Complete | Idle | Broken(error: string) | Dead

  /// The record of one provider call: what it answered, which chunks were taken and when they came, how and when it
  /// ended, and which progress notices it caused.
  datatype Attempt = Attempt(
    connection: Connection, consumed: seq<Chunk>, arrivals: seq<nat>, end: AttemptEnd,
    startedAt: nat, endedAt: nat, sent: Tally, longestThinking: nat)

  predicate Retryable(end: AttemptEnd) {
    end.Idle? || (end.Broken? && IsStreamError(end.error))
  }

  /// The chunks are a prefix of the items, and nothing is read past a final chunk.
  ghost predicate ReadFrom(consumed: seq<Chunk>, items: seq<Item>) {
    && |consumed| <= |items|
    && (forall i | 0 <= i < |consumed| :: items[i].Data? && items[i].chunk == consumed[i])
    && (forall i | 0 <= i < |consumed| - 1 :: !consumed[i].done)
  }

  ghost predicate Finished(consumed: seq<Chunk>) {
    consumed != [] && consumed[|consumed| - 1].done
  }

  predicate HasContent(chunk: Chunk) {
    chunk.delta.Some? || chunk.reasoning.Some?
  }

  /// The arrival of the last chunk with text or reasoning, or the start.
  function LastContent(start: nat, consumed: seq<Chunk>, arrivals: seq<nat>): nat
    requires |arrivals| == |consumed|
  {
    if consumed == [] then start
    else if HasContent(consumed[|consumed| - 1]) then arrivals[|arrivals| - 1]
    else LastContent(start, consumed[..|consumed| - 1], arrivals[..|arrivals| - 1])
  }

  function LastArrival(start: nat, arrivals: seq<nat>): nat {
    if arrivals == [] then start else arrivals[|arrivals| - 1]
  }

  /// The last chunk with text or reasoning carried reasoning.
  function ThinkingAfter(consumed: seq<Chunk>): bool {
    if consumed == [] then false
    else if HasContent(consumed[|consumed| - 1]) then consumed[|consumed| - 1].reasoning.Some?
    else ThinkingAfter(consumed[..|consumed| - 1])
  }

  /// How long a stream may go without content.
  function IdleLimit(t: Timeouts, thinking: bool): nat {
    EffectiveStale(Setting(0, t.idle, t.absoluteMax), thinking)
  }

  /// Chunks arrive one after the other between start and finish.
  ghost predicate InTime(arrivals: seq<nat>, start: nat, finish: nat) {
    && start <= finish
    && (forall i | 0 <= i < |arrivals| :: start <= arrivals[i] <= finish)
    && forall i, j | 0 <= i < j < |arrivals| :: arrivals[i] <= arrivals[j]
  }

  /// No chunk is taken before it can be had.
  ghost predicate TakenWhenReady(items: seq<Item>, arrivals: seq<nat>) {
    |arrivals| <= |items| && forall i | 0 <= i < |arrivals| :: items[i].at <= arrivals[i]
  }

  /// When the stream yields next, or ends, after n items.
  function NextAt(items: seq<Item>, closesAt: Option<nat>, n: nat): Option<nat> {
    if n < |items| then Some(items[n].at) else closesAt
  }

  /// The end of a read is the one the items, the chunks taken and the silence since the last of them call for; a stream
  /// is given up only while there is nothing to be had from it.
  ghost predicate JustifiedEnd(items: seq<Item>, closesAt: Option<nat>, consumed: seq<Chunk>, arrivals: seq<nat>,
      end: AttemptEnd, start: nat, finish: nat, t: Timeouts)
  {
    && ReadFrom(consumed, items) && |arrivals| == |consumed| && InTime(arrivals, start, finish)
    && TakenWhenReady(items, arrivals)
    && match end
       case NotConnected(_) => false
       case Complete => Finished(consumed) || (|consumed| == |items| && Due(closesAt, finish))
       case Broken(error) =>
         && !Finished(consumed) && |consumed| < |items| && items[|consumed|].at <= finish
         && items[|consumed|].Failure? && items[|consumed|].error == error
       case Idle =>
         && !Finished(consumed) && !Due(NextAt(items, closesAt, |consumed|), finish)
         && finish - LastContent(start, consumed, arrivals) >= IdleLimit(t, ThinkingAfter(consumed))
         && (consumed == [] && t.idle > 0 ==> finish - start >= t.firstByte)
       case Dead =>
         && !Finished(consumed) && finish - LastArrival(start, arrivals) >= t.absoluteMax
         && (t.absoluteMax > 0 ==> !Due(NextAt(items, closesAt, |consumed|), finish))
  }

  ghost predicate Justified(a: Attempt, t: Timeouts) {
    && a.startedAt <= a.endedAt
    && Bounded(a.sent, 1, a.longestThinking) && a.longestThinking <= a.endedAt - a.startedAt
    && match a.connection
       case Refused(error) => a.end == NotConnected(error) && a.consumed == [] && a.arrivals == []
       case Opened(items, closesAt) =>
         JustifiedEnd(items, closesAt, a.consumed, a.arrivals, a.end, a.startedAt, a.endedAt, t)
  }

  datatype Buffers = Buffers(
    content: string, reasoning: string, usage: Option<Usage>, calls: map<nat, PartialCall>)

  ghost predicate Holds(b: Buffers, chunks: seq<Chunk>) {
    && b.content == Join(Deltas(chunks))
    && b.reasoning == Reasoning(chunks)
    && b.usage == LastUsage(chunks)
    && Describes(b.calls, CallDeltas(chunks))
  }

  lemma OneMoreChunk(chunks: seq<Chunk>, chunk: Chunk)
    ensures
      var all := chunks + [chunk];
      && Deltas(all) == (if chunk.delta.Some? then Deltas(chunks) + [chunk.delta.value] else Deltas(chunks))
      && Join(Deltas(all)) == Join(Deltas(chunks)) + chunk.delta.UnwrapOr("")
      && Reasoning(all) == Reasoning(chunks) + chunk.reasoning.UnwrapOr("")
      && LastUsage(all) == (if chunk.usage.Some? then chunk.usage else LastUsage(chunks))
      && CallDeltas(all) == CallDeltas(chunks) + chunk.toolCallDeltas.UnwrapOr([])
  {
    assert (chunks + [chunk])[..|chunks|] == chunks;
    if chunk.delta.Some? {
      assert (Deltas(chunks) + [chunk.delta.value])[..|Deltas(chunks)|] == Deltas(chunks);
    }
  }

  /// Adds one chunk to the accumulated text, reasoning, tool calls and usage.
  method Absorb(b: Buffers, chunk: Chunk, ghost chunks: seq<Chunk>) returns (r: Buffers)
    requires Holds(b, chunks)
    ensures Holds(r, chunks + [chunk])
  {
    OneMoreChunk(chunks, chunk);
    r := b;
    if chunk.delta.Some? {
      r := r.(content := r.content + chunk.delta.value);
    }
    if chunk.reasoning.Some? {
      r := r.(reasoning := r.reasoning + chunk.reasoning.value);
    }
    if chunk.toolCallDeltas.Some? {
      var calls := AccumulateDeltas(r.calls, chunk.toolCallDeltas.value, CallDeltas(chunks));
      r := r.(calls := calls);
    }
    if chunk.usage.Some? {
      r := r.(usage := chunk.usage);
    }
    assert chunk.toolCallDeltas.None? ==> CallDeltas(chunks + [chunk]) == CallDeltas(chunks);
  }

  /// Moves the progress phase for one received chunk.
  method NotePhase(progress: StreamProgressTracker, chunk: Chunk, first: bool, now: nat)
    requires progress.Valid() && progress.clock <= now
    modifies progress
    ensures progress.Valid() && progress.clock <= now
    ensures progress.waits == old(progress.waits) && progress.sent == old(progress.sent)
    ensures progress.longestThinking == old(progress.longestThinking)
  {
    if first {
      if chunk.reasoning.Some? && chunk.delta.None? {
        progress.Transition(Thinking, now);
      } else {
        progress.Transition(StreamPhase.Streaming, now);
      }
    } else if progress.phase == Thinking && chunk.delta.Some? {
      progress.Transition(StreamPhase.Streaming, now);
    }
  }

  /// Tells the health monitor about one received chunk.
  method NoteHealth(health: StreamHealthMonitor, chunk: Chunk, now: nat)
    requires health.Valid() && health.clock <= now
    modifies health
    ensures health.Valid() && health.clock == now
    ensures health.state == if HasContent(chunk) then Healthy else old(health.state)
    ensures health.lastChunkAt == now
    ensures health.lastContentAt == if HasContent(chunk) then now else old(health.lastContentAt)
    ensures health.inThinkingBlock == if HasContent(chunk) then chunk.reasoning.Some? else old(health.inThinkingBlock)
  {
    var hasContent := chunk.delta.Some? || chunk.reasoning.Some?;
    var tokenCount := Utf8Len(chunk.delta.UnwrapOr("")) / 4;
    health.RecordChunk(now, hasContent, tokenCount);
    if chunk.reasoning.Some? {
      health.SetThinkingBlock(true);
    } else if chunk.delta.Some? {
      health.SetThinkingBlock(false);
    }
  }

  /// Waits for the next item or the end of the stream, whichever is ready at that time, or a timeout; polls for
  /// progress notices afterwards.
  method AwaitNext(progress: StreamProgressTracker, readyAt: Option<nat>, now: nat, pollTimeout: nat)
    returns (timedOut: bool, later: nat)
    requires progress.Valid() && progress.clock <= now && progress.longestThinking <= now - progress.streamStartedAt
    modifies progress
    ensures now <= later && (timedOut <==> !Due(readyAt, later)) && (timedOut ==> now + pollTimeout <= later)
    ensures progress.Valid() && progress.clock <= later && progress.longestThinking <= later - progress.streamStartedAt
    ensures progress.waits == old(progress.waits)
  {
    var outcome;
    outcome, later := Await(readyAt, pollTimeout, None, now);
    timedOut := outcome == RanOut;
    var notice := progress.Poll(later);
  }

  /// Time until the monitor would call the stream stale.
  ghost function TimeToStale(health: StreamHealthMonitor, now: nat): nat
    reads health
  {
    var deadline := health.lastContentAt + EffectiveStale(health.setting, health.inThinkingBlock);
    if deadline > now then deadline - now else 0
  }

  ghost predicate Watching(health: StreamHealthMonitor, t: Timeouts, start: nat, now: nat)
    reads health
  {
    && health.Valid() && health.clock <= now && health.setting == Setting(start, t.idle, t.absoluteMax)
    && start <= health.lastContentAt <= health.lastChunkAt <= now && health.state != HealthState.Dead
    && (health.state == Stale ==> now - health.lastContentAt >= IdleLimit(t, health.inThinkingBlock))
  }

  /// The last chunk is not so old that the stream is dead, unless it is called dead at once.
  ghost predicate Alive(health: StreamHealthMonitor, t: Timeouts, now: nat)
    reads health
  {
    t.absoluteMax > 0 ==> now - health.lastChunkAt < t.absoluteMax
  }

  /// The stream has just been opened, and is not called stale at once.
  ghost predicate Fresh(health: StreamHealthMonitor, t: Timeouts, now: nat)
    reads health
  {
    now == health.lastContentAt && t.idle > 0
  }

  /// The monitor has seen exactly these chunks.
  ghost predicate HasSeen(health: StreamHealthMonitor, start: nat, consumed: seq<Chunk>, arrivals: seq<nat>)
    reads health
  {
    && |arrivals| == |consumed|
    && health.lastContentAt == LastContent(start, consumed, arrivals)
    && health.lastChunkAt == LastArrival(start, arrivals)
    && health.inThinkingBlock == ThinkingAfter(consumed)
  }

  ghost predicate Reporting(progress: StreamProgressTracker, start: nat, now: nat)
    reads progress
  {
    && progress.Valid() && progress.clock <= now && progress.streamStartedAt == start
    && progress.waits == 1 && progress.longestThinking <= now - start
  }

  datatype PollOutcome = Ready | StillHealthy | TimedOutStale | FoundDead

  /// One turn of the poll loop up to the point where an item (or the end) is in hand, or is not.
  method PollOnce(
      health: StreamHealthMonitor, progress: StreamProgressTracker, t: Timeouts, isFirst: bool, readyAt: Option<nat>,
      ghost start: nat, now: nat)
    returns (outcome: PollOutcome, later: nat)
    requires start <= now && Watching(health, t, start, now) && Reporting(progress, start, now)
    requires Alive(health, t, now)
    modifies health, progress
    ensures now <= later && Reporting(progress, start, later)
    ensures outcome.Ready? || outcome.StillHealthy? ==> Watching(health, t, start, later)
    ensures outcome.Ready? ==> Due(readyAt, later)
    ensures outcome.StillHealthy? ==> Alive(health, t, later)
    ensures !outcome.Ready? && (outcome.FoundDead? ==> t.absoluteMax > 0) ==> !Due(readyAt, later)
    ensures isFirst && old(Fresh(health, t, now)) && (outcome.StillHealthy? || outcome.TimedOutStale?) ==>
      now + t.firstByte <= later
    ensures outcome == StillHealthy ==>
      TimeToStale(health, later) < old(TimeToStale(health, now))
        || (isFirst && TimeToStale(health, later) <= old(TimeToStale(health, now)))
    ensures health.lastContentAt == old(health.lastContentAt) && health.lastChunkAt == old(health.lastChunkAt)
    ensures health.inThinkingBlock == old(health.inThinkingBlock)
    ensures outcome == TimedOutStale ==> later - health.lastContentAt >= IdleLimit(t, health.inThinkingBlock)
    ensures outcome == FoundDead ==> later - health.lastChunkAt >= t.absoluteMax
  {
    hide FitsHistory;
    later := now;
    assert health.state == Stale ==> !Fresh(health, t, now);
    var state := health.CheckHealth(now);
    if state == HealthState.Dead {
      return FoundDead, later;
    }
    var pollTimeout: nat :=
      if state == Stale then t.stalePoll
      else if isFirst then t.firstByte
      else if t.idle < PROGRESS_INTERVAL then t.idle else PROGRESS_INTERVAL;
    var timedOut;
    timedOut, later := AwaitNext(progress, readyAt, now, pollTimeout);
    if !timedOut {
      return Ready, later;
    }
    outcome := AfterTimeout(health, progress, t, start, later);
  }

  /// The second look at the stream's health, after the poll has timed out.
  method AfterTimeout(health: StreamHealthMonitor, progress: StreamProgressTracker, t: Timeouts, ghost start: nat,
      now: nat)
    returns (outcome: PollOutcome)
    requires start <= now && Watching(health, t, start, now) && Reporting(progress, start, now)
    modifies health, progress
    ensures Reporting(progress, start, now) && !outcome.Ready?
    ensures outcome == StillHealthy ==>
      && Watching(health, t, start, now) && old(health.state) == Healthy
      && now - health.lastContentAt < IdleLimit(t, health.inThinkingBlock) && Alive(health, t, now)
    ensures health.lastContentAt == old(health.lastContentAt) && health.lastChunkAt == old(health.lastChunkAt)
    ensures health.inThinkingBlock == old(health.inThinkingBlock)
    ensures outcome == TimedOutStale ==> now - health.lastContentAt >= IdleLimit(t, health.inThinkingBlock)
    ensures outcome == FoundDead ==> now - health.lastChunkAt >= t.absoluteMax
  {
    hide FitsHistory;
    var state := health.CheckHealth(now);
    if state == Healthy {
      return StillHealthy;
    }
    if state == HealthState.Dead {
      return FoundDead;
    }
    var notice := progress.OnReconnect();
    outcome := TimedOutStale;
  }

  /// What has been read so far and what it adds up to.
  ghost predicate Reading(items: seq<Item>, consumed: seq<Chunk>, b: Buffers, emitted: seq<string>) {
    ReadFrom(consumed, items) && Holds(b, consumed) && emitted == Deltas(consumed)
  }

  method TakeChunk(items: seq<Item>, chunk: Chunk, b: Buffers, emitted: seq<string>, ghost consumed: seq<Chunk>)
    returns (b': Buffers, emitted': seq<string>)
    requires Reading(items, consumed, b, emitted) && !Finished(consumed)
    requires |consumed| < |items| && items[|consumed|].Data? && items[|consumed|].chunk == chunk
    ensures Reading(items, consumed + [chunk], b', emitted')
    ensures Finished(consumed + [chunk]) <==> chunk.done
  {
    b' := Absorb(b, chunk, consumed);
    assert (consumed + [chunk])[..|consumed|] == consumed;
    emitted' := if chunk.delta.Some? then emitted + [chunk.delta.value] else emitted;
  }

  /// Feeds one received chunk to the tracker and the monitor.
  method NoteChunk(health: StreamHealthMonitor, progress: StreamProgressTracker, t: Timeouts, chunk: Chunk, first: bool,
      ghost start: nat, now: nat, ghost consumed: seq<Chunk>, ghost arrivals: seq<nat>)
    requires start <= now && Watching(health, t, start, now) && Reporting(progress, start, now)
    requires HasSeen(health, start, consumed, arrivals)
    modifies health, progress
    ensures Watching(health, t, start, now) && Reporting(progress, start, now)
    ensures HasSeen(health, start, consumed + [chunk], arrivals + [now])
  {
    OneMoreArrival(start, consumed, arrivals, chunk, now);
    NotePhase(progress, chunk, first, now);
    NoteHealth(health, chunk, now);
  }

  lemma OneMoreArrival(start: nat, consumed: seq<Chunk>, arrivals: seq<nat>, chunk: Chunk, now: nat)
    requires |arrivals| == |consumed|
    ensures LastContent(start, consumed + [chunk], arrivals + [now]) ==
      if HasContent(chunk) then now else LastContent(start, consumed, arrivals)
    ensures ThinkingAfter(consumed + [chunk]) == if HasContent(chunk) then chunk.reasoning.Some?
      else ThinkingAfter(consumed)
  {
    assert (consumed + [chunk])[..|consumed|] == consumed && (arrivals + [now])[..|arrivals|] == arrivals;
  }

  /// Acts on what the poll returned: the end of the stream, an error, or a chunk.
  method TakeItem(health: StreamHealthMonitor, progress: StreamProgressTracker, t: Timeouts, items: seq<Item>,
      closesAt: Option<nat>, canRetry: bool, first: bool, b: Buffers, emitted: seq<string>, next: nat,
      ghost consumed: seq<Chunk>, ghost arrivals: seq<nat>, ghost start: nat, now: nat)
    returns (end: Option<AttemptEnd>, b': Buffers, emitted': seq<string>, ghost consumed': seq<Chunk>,
      ghost arrivals': seq<nat>)
    requires start <= now && Watching(health, t, start, now) && Reporting(progress, start, now)
    requires Reading(items, consumed, b, emitted) && !Finished(consumed) && next == |consumed|
    requires HasSeen(health, start, consumed, arrivals) && InTime(arrivals, start, now)
    requires Due(NextAt(items, closesAt, next), now) && TakenWhenReady(items, arrivals)
    modifies health, progress
    ensures Reporting(progress, start, now) && Reading(items, consumed', b', emitted')
    ensures HasSeen(health, start, consumed', arrivals') && InTime(arrivals', start, now)
    ensures TakenWhenReady(items, arrivals')
    ensures end.None? ==> Watching(health, t, start, now) && !Finished(consumed') && |consumed'| == next + 1
    ensures end.None? ==> Alive(health, t, now)
    ensures end.Some? ==> JustifiedEnd(items, closesAt, consumed', arrivals', end.value, start, now, t)
  {
    end, b', emitted', consumed', arrivals' := None, b, emitted, consumed, arrivals;
    if next == |items| {
      progress.Transition(StreamPhase.Done, now);
      end := Some(Complete);
    } else if items[next].Failure? {
      if IsStreamError(items[next].error) && canRetry {
        var notice := progress.OnReconnect();
      }
      end := Some(Broken(items[next].error));
    } else {
      end, b', emitted', consumed', arrivals' := TakeData(health, progress, t, items, closesAt, items[next].chunk,
        first, b, emitted, consumed, arrivals, start, now);
    }
  }

  method TakeData(health: StreamHealthMonitor, progress: StreamProgressTracker, t: Timeouts, items: seq<Item>,
      ghost closesAt: Option<nat>, chunk: Chunk, first: bool, b: Buffers, emitted: seq<string>,
      ghost consumed: seq<Chunk>, ghost arrivals: seq<nat>, ghost start: nat, now: nat)
    returns (end: Option<AttemptEnd>, b': Buffers, emitted': seq<string>, ghost consumed': seq<Chunk>,
      ghost arrivals': seq<nat>)
    requires start <= now && Watching(health, t, start, now) && Reporting(progress, start, now)
    requires Reading(items, consumed, b, emitted) && !Finished(consumed)
    requires HasSeen(health, start, consumed, arrivals) && InTime(arrivals, start, now)
    requires |consumed| < |items| && items[|consumed|].Data? && items[|consumed|].chunk == chunk
    requires items[|consumed|].at <= now && TakenWhenReady(items, arrivals)
    modifies health, progress
    ensures Reporting(progress, start, now) && Reading(items, consumed', b', emitted')
    ensures consumed' == consumed + [chunk]
    ensures HasSeen(health, start, consumed', arrivals') && InTime(arrivals', start, now)
    ensures TakenWhenReady(items, arrivals')
    ensures end.None? ==> Watching(health, t, start, now) && !Finished(consumed') && Alive(health, t, now)
    ensures end.Some? ==> JustifiedEnd(items, closesAt, consumed', arrivals', end.value, start, now, t)
  {
    hide Reading, JustifiedEnd, InTime, TakenWhenReady, LastContent, LastArrival, ThinkingAfter, IdleLimit;
    StillInTime(arrivals, start, now);
    LastIsNow(start, arrivals, now);
    TakenNow(items, arrivals, now);
    NoteChunk(health, progress, t, chunk, first, start, now, consumed, arrivals);
    b', emitted' := TakeChunk(items, chunk, b, emitted, consumed);
    consumed', arrivals', end := consumed + [chunk], arrivals + [now], None;
    if chunk.done {
      progress.Transition(StreamPhase.Done, now);
      end := Some(Complete);
      FinalChunkEnds(items, closesAt, consumed', b', emitted', arrivals', start, now, t);
    }
  }

  lemma StillInTime(arrivals: seq<nat>, start: nat, now: nat)
    requires InTime(arrivals, start, now)
    ensures InTime(arrivals + [now], start, now)
  {
  }

  lemma LastIsNow(start: nat, arrivals: seq<nat>, now: nat)
    ensures LastArrival(start, arrivals + [now]) == now
  {
  }

  lemma TakenNow(items: seq<Item>, arrivals: seq<nat>, now: nat)
    requires TakenWhenReady(items, arrivals) && |arrivals| < |items| && items[|arrivals|].at <= now
    ensures TakenWhenReady(items, arrivals + [now])
  {
  }

  lemma FinalChunkEnds(items: seq<Item>, closesAt: Option<nat>, consumed: seq<Chunk>, b: Buffers, emitted: seq<string>,
      arrivals: seq<nat>, start: nat, now: nat, t: Timeouts)
    requires Reading(items, consumed, b, emitted) && Finished(consumed)
    requires |arrivals| == |consumed| && InTime(arrivals, start, now) && TakenWhenReady(items, arrivals)
    ensures JustifiedEnd(items, closesAt, consumed, arrivals, Complete, start, now, t)
  {
  }

  /// Reads one opened stream until it completes, breaks, or is given up as stale or dead.
  /// Terminates by (items left, time left to stale, first poll still to come).
  method PollStream(items: seq<Item>, closesAt: Option<nat>, t: Timeouts, canRetry: bool, start: nat)
    returns (end: AttemptEnd, b: Buffers, emitted: seq<string>, finish: nat,
      ghost consumed: seq<Chunk>, ghost arrivals: seq<nat>, ghost sent: Tally, ghost longestThinking: nat)
    ensures JustifiedEnd(items, closesAt, consumed, arrivals, end, start, finish, t)
    ensures Bounded(sent, 1, longestThinking) && start <= finish && longestThinking <= finish - start
    ensures Holds(b, consumed) && emitted == Deltas(consumed)
  {
    hide Reading, JustifiedEnd, InTime, TakenWhenReady, LastContent, LastArrival, ThinkingAfter, IdleLimit;
    finish := start;
    var health := new StreamHealthMonitor(start, t.idle, t.absoluteMax);
    var progress := new StreamProgressTracker(start, t.message);
    progress.Transition(WaitingFirstByte, start);
    var firstByteLogged, isFirst := false, true;
    var next := 0;
    b, emitted, consumed, arrivals := Buffers("", "", None, map[]), [], [], [];
    NothingRead(items, b, start);

    while true
      invariant start <= finish && next == |consumed|
      invariant fresh(health) && fresh(progress)
      invariant Watching(health, t, start, finish) && Reporting(progress, start, finish)
      invariant Reading(items, consumed, b, emitted) && !Finished(consumed) && |consumed| <= |items|
      invariant HasSeen(health, start, consumed, arrivals) && InTime(arrivals, start, finish)
      invariant TakenWhenReady(items, arrivals) && Alive(health, t, finish)
      invariant isFirst ==> finish == start && consumed == []
      invariant !isFirst && consumed == [] && t.idle > 0 ==> finish - start >= t.firstByte
      decreases |items| - next, TimeToStale(health, finish), if isFirst then 1 else 0
    {
      var outcome;
      ghost var before := finish;
      outcome, finish := PollOnce(health, progress, t, isFirst, NextAt(items, closesAt, next), start, finish);
      InTimeLater(arrivals, start, before, finish);
      isFirst := false;
      match outcome {
        case StillHealthy => continue;
        case FoundDead =>
          end := AttemptEnd.Dead;
          DeadEnds(health, items, closesAt, consumed, b, emitted, arrivals, start, finish, t);
          break;
        case TimedOutStale =>
          end := Idle;
          StaleEnds(health, items, closesAt, consumed, b, emitted, arrivals, start, finish, t);
          break;
        case Ready =>
      }
      var ended;
      ended, b, emitted, consumed, arrivals := TakeItem(health, progress, t, items, closesAt, canRetry,
        !firstByteLogged, b, emitted, next, consumed, arrivals, start, finish);
      ReadingMeans(items, consumed, b, emitted);
      firstByteLogged := true;
      if ended.Some? {
        end := ended.value;
        break;
      }
      next := next + 1;
    }
    ReadingMeans(items, consumed, b, emitted);
    progress.NoticesAreBounded();
    sent, longestThinking := progress.sent, progress.longestThinking;
  }

  lemma NothingRead(items: seq<Item>, b: Buffers, start: nat)
    requires b == Buffers("", "", None, map[])
    ensures Reading(items, [], b, []) && InTime([], start, start) && TakenWhenReady(items, [])
    ensures LastContent(start, [], []) == LastArrival(start, []) == start && !ThinkingAfter([])
  {
  }

  lemma ReadingMeans(items: seq<Item>, consumed: seq<Chunk>, b: Buffers, emitted: seq<string>)
    requires Reading(items, consumed, b, emitted)
    ensures |consumed| <= |items| && Holds(b, consumed) && emitted == Deltas(consumed)
  {
  }

  lemma InTimeLater(arrivals: seq<nat>, start: nat, now: nat, later: nat)
    requires InTime(arrivals, start, now) && now <= later
    ensures InTime(arrivals, start, later)
  {
  }

  lemma StaleEnds(health: StreamHealthMonitor, items: seq<Item>, closesAt: Option<nat>, consumed: seq<Chunk>,
      b: Buffers, emitted: seq<string>, arrivals: seq<nat>, start: nat, finish: nat, t: Timeouts)
    requires Reading(items, consumed, b, emitted) && !Finished(consumed) && HasSeen(health, start, consumed, arrivals)
    requires InTime(arrivals, start, finish) && TakenWhenReady(items, arrivals)
    requires !Due(NextAt(items, closesAt, |consumed|), finish)
    requires finish - health.lastContentAt >= IdleLimit(t, health.inThinkingBlock)
    requires consumed == [] && t.idle > 0 ==> finish - start >= t.firstByte
    ensures JustifiedEnd(items, closesAt, consumed, arrivals, Idle, start, finish, t)
  {
  }

  lemma DeadEnds(health: StreamHealthMonitor, items: seq<Item>, closesAt: Option<nat>, consumed: seq<Chunk>, b: Buffers,
      emitted: seq<string>, arrivals: seq<nat>, start: nat, finish: nat, t: Timeouts)
    requires Reading(items, consumed, b, emitted) && !Finished(consumed) && HasSeen(health, start, consumed, arrivals)
    requires InTime(arrivals, start, finish) && TakenWhenReady(items, arrivals)
    requires t.absoluteMax > 0 ==> !Due(NextAt(items, closesAt, |consumed|), finish)
    requires finish - health.lastChunkAt >= t.absoluteMax
    ensures JustifiedEnd(items, closesAt, consumed, arrivals, AttemptEnd.Dead, start, finish, t)
  {
  }

  // ----- The whole completion -----

  /// The text chunks shown to the user: those of every attempt, not only of the last.
  function Shown(trace: seq<Attempt>): seq<string> {
    if trace == [] then [] else Shown(trace[..|trace| - 1]) + Deltas(trace[|trace| - 1].consumed)
  }

  /// The provider calls of these attempts, all for the same request.
  function Calls(request: seq<Message>, trace: seq<Attempt>): (calls: seq<Exchange>)
    ensures |calls| == |trace| && forall i | 0 <= i < |trace| :: calls[i] == Streamed(request, trace[i].connection)
  {
    seq(|trace|, i requires 0 <= i < |trace| => Streamed(request, trace[i].connection))
  }

  /// Milliseconds slept before the attempts after the first.
  function Backoff(calls: nat): nat {
    if calls <= 1 then 0 else if calls == 2 then 1_000 else 3_000
  }

  ghost function Outcome(last: Attempt): Result<CompletionResponse, AgentError> {
    match last.end
    case NotConnected(error) => Err(ErrorText(error))
    case Broken(error) => Err(ErrorText(error))
    case Idle => Err(StreamTimedOut)
    case Dead => Err(StreamDead)
    case Complete => Ok(Assembled(last.consumed))
  }

  /// Every attempt but the last failed in a retryable way; a retryable last one is the third.
  ghost predicate RetriedProperly(trace: seq<Attempt>, t: Timeouts) {
    && 1 <= |trace| <= MAX_STREAM_RETRIES + 1
    && (forall i | 0 <= i < |trace| :: Justified(trace[i], t))
    && (forall i | 0 <= i < |trace| - 1 :: Retryable(trace[i].end))
    && (Retryable(trace[|trace| - 1].end) ==> |trace| == MAX_STREAM_RETRIES + 1)
  }

  /// Attempts that were all given up for another one.
  ghost predicate GivenUp(trace: seq<Attempt>, t: Timeouts) {
    forall i | 0 <= i < |trace| :: Justified(trace[i], t) && Retryable(trace[i].end)
  }

  lemma LastAttempt(trace: seq<Attempt>, a: Attempt, t: Timeouts)
    requires GivenUp(trace, t) && Justified(a, t) && |trace| <= MAX_STREAM_RETRIES
    ensures !Retryable(a.end) || |trace| == MAX_STREAM_RETRIES ==> RetriedProperly(trace + [a], t)
    ensures Retryable(a.end) ==> GivenUp(trace + [a], t)
  {
  }

  method Conclude(end: AttemptEnd, b: Buffers, ghost a: Attempt) returns (r: Result<CompletionResponse, AgentError>)
    requires end == a.end && Holds(b, a.consumed)
    ensures r == Outcome(a)
  {
    match end {
      case NotConnected(error) => r := Err(ErrorText(error));
      case Broken(error) => r := Err(ErrorText(error));
      case Idle => r := Err(StreamTimedOut);
      case Dead => r := Err(StreamDead);
      case Complete =>
        var toolCalls := BuildToolCalls(b.calls, CallDeltas(a.consumed));
        r := Ok(CompletionResponse(
          if b.content == "" && toolCalls == [] then None else Some(b.content),
          if b.reasoning == "" then None else Some(b.reasoning),
          if toolCalls == [] then None else Some(toolCalls),
          b.usage));
    }
  }

  /// One provider call and the reading of its stream.
  method RunAttempt(provider: Provider, request: seq<Message>, t: Timeouts, canRetry: bool, start: nat)
    returns (end: AttemptEnd, b: Buffers, emitted: seq<string>, finish: nat, ghost a: Attempt)
    modifies provider
    ensures provider.log == old(provider.log) + [Streamed(request, a.connection)]
    ensures start <= a.startedAt && finish == a.endedAt && end == a.end && Justified(a, t)
    ensures Holds(b, a.consumed) && emitted == Deltas(a.consumed)
  {
    var connection := provider.OpenStream(request);
    var begun := Elapse(start, 0);
    if connection.Refused? {
      end, b, emitted, finish := NotConnected(connection.error), Buffers("", "", None, map[]), [], begun;
      a := Attempt(connection, [], [], end, begun, begun, NOTHING_SENT, 0);
    } else {
      ghost var consumed, arrivals, sent, longest;
      end, b, emitted, finish, consumed, arrivals, sent, longest :=
        PollStream(connection.items, connection.closesAt, t, canRetry, begun);
      a := Attempt(connection, consumed, arrivals, end, begun, finish, sent, longest);
    }
  }

  /// The retry loop.
  method RunAttempts(provider: Provider, request: seq<Message>, t: Timeouts, start: nat)
    returns (end: AttemptEnd, b: Buffers, shown: seq<string>, slept: nat, finish: nat, ghost trace: seq<Attempt>)
    modifies provider
    ensures RetriedProperly(trace, t)
    ensures end == trace[|trace| - 1].end && Holds(b, trace[|trace| - 1].consumed)
    ensures Accounted(old(provider.log), provider.log, shown, request, trace)
    ensures slept == Backoff(|trace|)
    ensures start + slept <= finish
  {
    var streamAttempt := 0;
    shown, slept, finish, trace := [], 0, start, [];
    while true
      invariant |trace| == streamAttempt <= MAX_STREAM_RETRIES
      invariant GivenUp(trace, t)
      invariant Accounted(old(provider.log), provider.log, shown, request, trace)
      invariant slept == Backoff(streamAttempt + 1) && start + slept <= finish
      decreases MAX_STREAM_RETRIES - streamAttempt
    {
      var emitted;
      ghost var a;
      ghost var log := provider.log;
      end, b, emitted, finish, a := RunAttempt(provider, request, t, streamAttempt < MAX_STREAM_RETRIES, finish);
      TraceGrows(old(provider.log), log, shown, request, trace, a);
      LastAttempt(trace, a, t);
      trace, shown := trace + [a], shown + emitted;
      if !Retryable(end) || streamAttempt == MAX_STREAM_RETRIES {
        break;
      }
      streamAttempt := streamAttempt + 1;
      var backoff := if streamAttempt == 1 then 500 * 2 else 500 * 4;
      slept := slept + backoff;
      finish := Elapse(finish, backoff);
    }
  }

  /// One to three provider calls, all with the same request; the result is built from the chunks of the last attempt
  /// alone, and a retryable failure is returned only after the third call.
  method CompleteStreaming(provider: Provider, request: seq<Message>, t: Timeouts, start: nat)
    returns (r: Result<CompletionResponse, AgentError>, shown: seq<string>, slept: nat, finish: nat,
      ghost trace: seq<Attempt>)
    modifies provider
    ensures RetriedProperly(trace, t)
    ensures provider.log == old(provider.log) + Calls(request, trace)
    ensures r == Outcome(trace[|trace| - 1])
    ensures shown == Shown(trace) && slept == Backoff(|trace|)
    ensures start + slept <= finish
  {
    var end, b;
    end, b, shown, slept, finish, trace := RunAttempts(provider, request, t, start);
    r := Conclude(end, b, trace[|trace| - 1]);
  }

  /// The provider has answered these attempts since then, and their text has been shown.
  ghost predicate Accounted(before: seq<Exchange>, log: seq<Exchange>, shown: seq<string>,
      request: seq<Message>, trace: seq<Attempt>)
  {
    log == before + Calls(request, trace) && shown == Shown(trace)
  }

  lemma TraceGrows(before: seq<Exchange>, log: seq<Exchange>, shown: seq<string>, request: seq<Message>,
      trace: seq<Attempt>, a: Attempt)
    requires Accounted(before, log, shown, request, trace)
    ensures Accounted(before, log + [Streamed(request, a.connection)], shown + Deltas(a.consumed), request, trace + [a])
  {
    assert (trace + [a])[..|trace|] == trace;
    assert Calls(request, trace + [a]) == Calls(request, trace) + [Streamed(request, a.connection)];
  }

  lemma {:induction false} JoinConcat(a: seq<string>, b: seq<string>)
    ensures Join(a + b) == Join(a) + Join(b)
  {
    if b == [] {
      assert a + b == a;
    } else {
      var front, last := b[..|b| - 1], b[|b| - 1];
      assert (a + b)[..|a + b| - 1] == a + front;
      JoinConcat(a, front);
      assert Join(a) + (Join(front) + last) == (Join(a) + Join(front)) + last;
    }
  }

  lemma AnswerText(chunks: seq<Chunk>)
    ensures Assembled(chunks).content.UnwrapOr("") == Join(Deltas(chunks))
  {
    hide ToolCallsOf, Reasoning, LastUsage, CallDeltas;
  }

  lemma NothingBefore(before: string, answer: string)
    ensures before + answer == answer <==> before == ""
  {
    assert |before + answer| == |before| + |answer|;
  }

  ghost predicate ShowsNoText(chunks: seq<Chunk>) {
    forall j | 0 <= j < |chunks| :: chunks[j].delta.UnwrapOr("") == ""
  }

  lemma {:induction false} NoTextExactly(chunks: seq<Chunk>)
    ensures Join(Deltas(chunks)) == "" <==> ShowsNoText(chunks)
  {
    hide Join, Deltas;
    if chunks == [] {
      NothingJoined();
    } else {
      var front, last := chunks[..|chunks| - 1], chunks[|chunks| - 1];
      assert chunks == front + [last];
      NoTextExactly(front);
      OneMoreChunk(front, last);
      assert |Join(Deltas(chunks))| == |Join(Deltas(front))| + |last.delta.UnwrapOr("")|;
    }
  }

  lemma NothingJoined()
    ensures Deltas([]) == [] && Join([]) == ""
  {
  }

  /// No chunk of these attempts carries text.
  ghost predicate NoneShowsText(trace: seq<Attempt>) {
    forall i | 0 <= i < |trace| :: ShowsNoText(trace[i].consumed)
  }

  lemma {:induction false} NothingShownExactly(trace: seq<Attempt>)
    ensures Join(Shown(trace)) == "" <==> NoneShowsText(trace)
  {
    hide Join, Deltas, ShowsNoText;
    if trace == [] {
      NothingJoined();
    } else {
      var front, chunks := trace[..|trace| - 1], trace[|trace| - 1].consumed;
      NothingShownExactly(front);
      JoinConcat(Shown(front), Deltas(chunks));
      NoTextExactly(chunks);
      assert |Join(Shown(trace))| == |Join(Shown(front))| + |Join(Deltas(chunks))|;
    }
  }

  /// What the user saw live is the returned text exactly when no attempt given up has taken a chunk with text: a retry
  /// starts the answer again but takes nothing back.
  lemma LiveTextIsTheAnswer(trace: seq<Attempt>)
    requires trace != [] && trace[|trace| - 1].end.Complete?
    ensures
      var answer := Assembled(trace[|trace| - 1].consumed).content.UnwrapOr("");
      && Join(Shown(trace)) == Join(Shown(trace[..|trace| - 1])) + answer
      && (Join(Shown(trace)) == answer <==> NoneShowsText(trace[..|trace| - 1]))
  {
    hide Assembled, Join, Deltas, NoneShowsText;
    var front, chunks := trace[..|trace| - 1], trace[|trace| - 1].consumed;
    assert Shown(trace) == Shown(front) + Deltas(chunks);
    hide Shown;
    JoinConcat(Shown(front), Deltas(chunks));
    AnswerText(chunks);
    NothingBefore(Join(Shown(front)), Join(Deltas(chunks)));
    NothingShownExactly(front);
  }

  function TextChunk(text: string, done: bool): Chunk {
    Chunk.Chunk(Some(text), None, None, None, done)
  }

  function BrokenAttempt(chunk: Chunk): Attempt {
    Attempt(Opened([Data(chunk, 0), Failure("timed out", 0)], None), [chunk], [0], Broken("timed out"), 0, 0,
      NOTHING_SENT, 0)
  }

  function WholeAttempt(chunk: Chunk): Attempt {
    Attempt(Opened([Data(chunk, 0)], None), [chunk], [1_000], Complete, 1_000, 1_000, NOTHING_SENT, 0)
  }

  lemma BrokenIsJustified(chunk: Chunk, t: Timeouts)
    requires !chunk.done
    ensures Justified(BrokenAttempt(chunk), t) && Retryable(BrokenAttempt(chunk).end)
  {
    assert OccursAt("timed out", "timed out", 0);
  }

  lemma WholeIsJustified(chunk: Chunk, t: Timeouts)
    requires chunk.done
    ensures Justified(WholeAttempt(chunk), t)
  {
  }

  lemma TwoAttemptsShow(first: Chunk, second: Chunk)
    requires first.delta.Some? && second.delta.Some?
    ensures Join(Shown([BrokenAttempt(first), WholeAttempt(second)])) == first.delta.value + second.delta.value
    ensures Join(Deltas([second])) == second.delta.value
  {
    var broken, whole := BrokenAttempt(first), WholeAttempt(second);
    OneText(first);
    OneText(second);
    assert [broken, whole][..1] == [broken] && [broken][..0] == [];
    assert Shown([broken]) == [first.delta.value];
    JoinConcat([first.delta.value], [second.delta.value]);
    OneJoined(first.delta.value);
    OneJoined(second.delta.value);
  }

  lemma OneText(chunk: Chunk)
    requires chunk.delta.Some?
    ensures Deltas([chunk]) == [chunk.delta.value]
  {
    assert [chunk][..0] == [];
  }

  lemma OneJoined(text: string)
    ensures Join([text]) == text
  {
    assert [text][..0] == [];
  }

  /// Such a completion exists under all timeouts: the first stream breaks after some text, the second one says it all;
  /// the user has read both, one after the other.
  lemma RetryShowsTextTwice(begun: string, whole: string, t: Timeouts) returns (trace: seq<Attempt>)
    requires begun != "" && whole != ""
    ensures RetriedProperly(trace, t) && trace[|trace| - 1].end.Complete?
    ensures Assembled(trace[|trace| - 1].consumed).content == Some(whole)
    ensures Join(Shown(trace)) == begun + whole != whole
  {
    var first, second := TextChunk(begun, false), TextChunk(whole, true);
    trace := [BrokenAttempt(first), WholeAttempt(second)];
    BrokenIsJustified(first, t);
    WholeIsJustified(second, t);
    TwoAttemptsShow(first, second);
    AnswerText([second]);
    NothingBefore(begun, whole);
    hide Justified, Shown, Join, Deltas;
    assert trace[|trace| - 1].consumed == [second];
  }

  // ----- Streams that keep coming -----

  /// The earliest times at which these items can be taken, one after the other.
  function Earliest(start: nat, items: seq<Item>): (times: seq<nat>)
    ensures |times| == |items|
  {
    if items == [] then []
    else
      var earlier, at := Earliest(start, items[..|items| - 1]), items[|items| - 1].at;
      earlier + [if at > LastArrival(start, earlier) then at else LastArrival(start, earlier)]
  }

  /// Behind these chunks the stream goes on before it is given up: before the absolute limit, and before the idle limit
  /// or, at its beginning, the first-byte limit.
  ghost predicate GoesOn(items: seq<Item>, closesAt: Option<nat>, consumed: seq<Chunk>, start: nat, t: Timeouts)
    requires |consumed| <= |items|
  {
    var times, next := Earliest(start, items[..|consumed|]), NextAt(items, closesAt, |consumed|);
    && next.Some? && next.value <= LastArrival(start, times) + t.absoluteMax
    && (|| next.value <= LastContent(start, consumed, times) + IdleLimit(t, ThinkingAfter(consumed))
        || (consumed == [] && t.idle > 0 && next.value <= start + t.firstByte))
  }

  /// The stream goes on at every point of it, up to its end.
  ghost predicate Lively(items: seq<Item>, closesAt: Option<nat>, start: nat, t: Timeouts) {
    && t.absoluteMax > 0
    && forall consumed | ReadFrom(consumed, items) && !Finished(consumed) :: GoesOn(items, closesAt, consumed, start, t)
  }

  lemma {:induction false} ArrivalsAreLater(items: seq<Item>, arrivals: seq<nat>, start: nat, finish: nat)
    requires InTime(arrivals, start, finish) && TakenWhenReady(items, arrivals)
    ensures forall i | 0 <= i < |arrivals| :: Earliest(start, items[..|arrivals|])[i] <= arrivals[i]
    decreases |arrivals|
  {
    if arrivals != [] {
      var n := |arrivals| - 1;
      ArrivalsAreLater(items, arrivals[..n], start, finish);
      assert items[..n + 1][..n] == items[..n];
    }
  }

  lemma {:induction false} LaterContent(start: nat, consumed: seq<Chunk>, early: seq<nat>, late: seq<nat>)
    requires |early| == |late| == |consumed| && forall i | 0 <= i < |early| :: early[i] <= late[i]
    requires forall i | 0 <= i < |late| :: start <= late[i]
    ensures LastContent(start, consumed, early) <= LastContent(start, consumed, late)
  {
    if consumed != [] {
      var n := |consumed| - 1;
      LaterContent(start, consumed[..n], early[..n], late[..n]);
    }
  }

  /// What there is to read: up to a final chunk, an error or the end.
  function ReadThrough(items: seq<Item>): seq<Chunk> {
    if items == [] || items[0].Failure? then []
    else if items[0].chunk.done then [items[0].chunk]
    else [items[0].chunk] + ReadThrough(items[1..])
  }

  lemma {:induction false} ReadToTheEnd(consumed: seq<Chunk>, items: seq<Item>)
    requires ReadFrom(consumed, items)
    requires Finished(consumed) || |consumed| == |items| || items[|consumed|].Failure?
    ensures consumed == ReadThrough(items)
    decreases |items|
  {
    if consumed != [] {
      assert items[0].chunk == consumed[0];
      if consumed[0].done {
        assert |consumed| == 1;
      } else {
        ReadToTheEnd(consumed[1..], items[1..]);
        assert consumed == [consumed[0]] + consumed[1..];
      }
    }
  }

  /// A lively stream is never given up: it is read through, and the read ends there, with an error only where the
  /// stream has one.
  lemma LivelyStreamIsReadThrough(items: seq<Item>, closesAt: Option<nat>, consumed: seq<Chunk>, arrivals: seq<nat>,
      end: AttemptEnd, start: nat, finish: nat, t: Timeouts)
    requires JustifiedEnd(items, closesAt, consumed, arrivals, end, start, finish, t)
      && Lively(items, closesAt, start, t)
    ensures consumed == ReadThrough(items)
    ensures if Finished(consumed) || |consumed| == |items| then end == Complete
      else items[|consumed|].Failure? && end == Broken(items[|consumed|].error)
  {
    hide LastContent, Earliest, IdleLimit, ThinkingAfter;
    ArrivalsAreLater(items, arrivals, start, finish);
    LaterContent(start, consumed, Earliest(start, items[..|consumed|]), arrivals);
    if !Finished(consumed) {
      assert GoesOn(items, closesAt, consumed, start, t);
    }
    ReadToTheEnd(consumed, items);
  }

  /// So a completion whose first stream is lively and has no error makes one provider call and returns all of its text.
  lemma LivelyStreamIsTheAnswer(trace: seq<Attempt>, t: Timeouts)
    requires RetriedProperly(trace, t) && trace[0].connection.Opened?
    requires Lively(trace[0].connection.items, trace[0].connection.closesAt, trace[0].startedAt, t)
    requires forall i | 0 <= i < |trace[0].connection.items| :: trace[0].connection.items[i].Data?
    ensures |trace| == 1 && Outcome(trace[0]) == Ok(Assembled(ReadThrough(trace[0].connection.items)))
  {
    hide JustifiedEnd, Lively, Assembled, ReadThrough;
    var a, c := trace[0], trace[0].connection;
    LivelyStreamIsReadThrough(c.items, c.closesAt, a.consumed, a.arrivals, a.end, a.startedAt, a.endedAt, t);
    ReadWithin(c.items, c.closesAt, a, t);
  }

  lemma ReadWithin(items: seq<Item>, closesAt: Option<nat>, a: Attempt, t: Timeouts)
    requires JustifiedEnd(items, closesAt, a.consumed, a.arrivals, a.end, a.startedAt, a.endedAt, t)
    ensures |a.consumed| <= |items|
  {
  }
}
