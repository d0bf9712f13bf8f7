/// The stream health monitor (stream_health.rs). Times are milliseconds on one non-decreasing clock.

module StreamHealth {

  datatype HealthState = Healthy | Stale | Dead

  datatype TokenRecord = TokenRecord(at: nat, tokenCount: nat)

  const WINDOW := 30_000
  const THINKING_STALE_MULTIPLIER := 3

  // ----- The history a monitor has seen, and what it means -----

  datatype Event =
    | Chunk(at: nat, hasContent: bool, tokenCount: nat)
    | Check(at: nat)
    | SetThinking(inThinking: bool)

  /// Creation time and thresholds of one monitor.
  datatype Setting = Setting(createdAt: nat, staleThreshold: nat, absoluteMax: nat)

  function LastChunkAt(s: Setting, log: seq<Event>): nat {
    if log == [] then s.createdAt
    else match log[|log| - 1]
      case Chunk(at, _, _) => at
      case _ => LastChunkAt(s, log[..|log| - 1])
  }

  ghost predicate IsContent(e: Event) {
    e.Chunk? && e.hasContent
  }

  function LastContentAt(s: Setting, log: seq<Event>): nat {
    if log == [] then s.createdAt
    else match log[|log| - 1]
      case Chunk(at, true, _) => at
      case _ => LastContentAt(s, log[..|log| - 1])
  }

  function InThinking(log: seq<Event>): bool {
    if log == [] then false
    else match log[|log| - 1]
      case SetThinking(inThinking) => inThinking
      case _ => InThinking(log[..|log| - 1])
  }

  /// Every content chunk ever received, in order.
  function ContentHistory(log: seq<Event>): seq<TokenRecord> {
    if log == [] then []
    else
      var rest := ContentHistory(log[..|log| - 1]);
      match log[|log| - 1]
      case Chunk(at, true, tokenCount) => rest + [TokenRecord(at, tokenCount)]
      case _ => rest
  }

  function ChunkCount(log: seq<Event>): nat {
    if log == [] then 0
    else ChunkCount(log[..|log| - 1]) + if log[|log| - 1].Chunk? then 1 else 0
  }

  /// The condition a check at time `now` observes after this history.
  function Observed(s: Setting, log: seq<Event>, now: nat): HealthState {
    Condition(s, now - LastChunkAt(s, log), now - LastContentAt(s, log), InThinking(log))
  }

  function Condition(s: Setting, sinceAny: int, sinceContent: int, inThinking: bool): HealthState {
    if sinceAny >= s.absoluteMax then Dead
    else if sinceContent >= EffectiveStale(s, inThinking) then Stale
    else Healthy
  }

  function EffectiveStale(s: Setting, inThinking: bool): nat {
    if inThinking then s.staleThreshold * THINKING_STALE_MULTIPLIER else s.staleThreshold
  }

  /// No content chunk at or after position k.
  ghost predicate SinceLastContent(log: seq<Event>, k: nat) {
    forall m | k <= m < |log| :: !IsContent(log[m])
  }

  /// Position k is a check after the last content chunk that observed a stale or dead stream.
  ghost predicate BadCheck(s: Setting, log: seq<Event>, k: nat) {
    && k < |log| && log[k].Check? && SinceLastContent(log, k)
    && Observed(s, log[..k], log[k].at) != Healthy
  }

  /// The state agrees with the history: Healthy when no bad check stands, otherwise what the latest one saw.
  ghost predicate Agrees(s: Setting, log: seq<Event>, state: HealthState) {
    && (state == Healthy <==> forall k: nat :: !BadCheck(s, log, k))
    && forall k: nat | BadCheck(s, log, k) && (forall m: nat | m > k :: !BadCheck(s, log, m)) ::
         state == Observed(s, log[..k], log[k].at)
  }

  /// The history alone determines the state: no other value agrees with it.
  lemma AgreementIsUnique(s: Setting, log: seq<Event>, a: HealthState, b: HealthState)
    requires Agrees(s, log, a) && Agrees(s, log, b)
    ensures a == b
  {
    if a != Healthy {
      var k: nat :| BadCheck(s, log, k);
      var last := LatestBadCheck(s, log, k);
    }
  }

  lemma {:induction false} LatestBadCheck(s: Setting, log: seq<Event>, k: nat) returns (last: nat)
    requires BadCheck(s, log, k)
    ensures BadCheck(s, log, last) && forall m: nat | m > last :: !BadCheck(s, log, m)
    decreases |log| - k
  {
    if m: nat :| m > k && BadCheck(s, log, m) {
      last := LatestBadCheck(s, log, m);
    } else {
      last := k;
    }
  }

  /// Checks of the shorter history keep their verdict; only the new event can add or void one.
  lemma BadCheckExtends(s: Setting, log: seq<Event>, e: Event, k: nat)
    ensures k < |log| ==> (BadCheck(s, log + [e], k) <==> BadCheck(s, log, k) && !IsContent(e))
    ensures k == |log| ==> (BadCheck(s, log + [e], k) <==> e.Check? && Observed(s, log, e.at) != Healthy)
  {
    if k <= |log| {
      assert (log + [e])[..k] == log[..k];
    }
    if k < |log| {
      if BadCheck(s, log + [e], k) {
        assert (log + [e])[|log|] == e;
        forall m | k <= m < |log| ensures !IsContent(log[m]) {
          assert (log + [e])[m] == log[m];
        }
      }
    } else if k == |log| {
      assert log[..|log|] == log;
    }
  }

  /// A new event keeps the agreement when the state moves as the monitor moves it.
  lemma AgreementExtends(s: Setting, log: seq<Event>, e: Event, before: HealthState, after: HealthState)
    requires Agrees(s, log, before)
    requires after ==
      if IsContent(e) then Healthy
      else if e.Check? && Observed(s, log, e.at) != Healthy then Observed(s, log, e.at)
      else before
    ensures Agrees(s, log + [e], after)
  {
    forall k: nat
      ensures BadCheck(s, log + [e], k) <==>
        || (k < |log| && BadCheck(s, log, k) && !IsContent(e))
        || (k == |log| && e.Check? && Observed(s, log, e.at) != Healthy)
    {
      BadCheckExtends(s, log, e, k);
    }
    assert (log + [e])[..|log|] == log && (log + [e])[|log|] == e;
    if e.Check? && Observed(s, log, e.at) != Healthy {
      assert BadCheck(s, log + [e], |log|);
    } else {
      forall k: nat | BadCheck(s, log + [e], k) && (forall m: nat | m > k :: !BadCheck(s, log + [e], m))
        ensures after == Observed(s, (log + [e])[..k], (log + [e])[k].at)
      {
        assert (log + [e])[..k] == log[..k];
        assert forall m: nat | m > k :: !BadCheck(s, log, m);
      }
    }
  }

  /// The state after a history, event by event.
  function Verdict(s: Setting, log: seq<Event>): HealthState {
    if log == [] then Healthy
    else
      var before := Verdict(s, log[..|log| - 1]);
      match log[|log| - 1]
      case Chunk(_, hasContent, _) => if hasContent then Healthy else before
      case Check(at) =>
        var seen := Observed(s, log[..|log| - 1], at);
        if seen != Healthy then seen else before
      case SetThinking(_) => before
  }

  /// The step-by-step state is the one the whole history determines.
  lemma {:induction false} VerdictAgrees(s: Setting, log: seq<Event>)
    ensures Agrees(s, log, Verdict(s, log))
  {
    if log != [] {
      var front, last := log[..|log| - 1], log[|log| - 1];
      VerdictAgrees(s, front);
      AgreementExtends(s, front, last, Verdict(s, front), Verdict(s, log));
      assert log == front + [last];
    }
  }

  /// A monitor is healthy exactly when no check since the last content chunk (or creation) saw a bad condition.
  lemma HealthyExactlyWhenNoBadCheck(s: Setting, log: seq<Event>)
    ensures Verdict(s, log) == Healthy <==> forall k: nat :: !BadCheck(s, log, k)
  {
    VerdictAgrees(s, log);
  }

  // ----- Sliding windows -----

  /// The records at or after a cutoff, in order.
  function Retain(records: seq<TokenRecord>, cutoff: int): seq<TokenRecord> {
    if records == [] then []
    else
      var rest := Retain(records[..|records| - 1], cutoff);
      if records[|records| - 1].at >= cutoff then rest + [records[|records| - 1]] else rest
  }

  function TokenSum(records: seq<TokenRecord>): nat {
    if records == [] then 0 else TokenSum(records[..|records| - 1]) + records[|records| - 1].tokenCount
  }

  /// Tokens per second over the last 30 seconds of the given records.
  function Rate(records: seq<TokenRecord>, now: nat): real {
    var recent := Retain(records, now - WINDOW);
    if recent == [] then 0.0
    else TokenSum(recent) as real * 1000.0 / (if now - recent[0].at > 1 then now - recent[0].at else 1) as real
  }

  lemma {:induction false} RetainTwice(records: seq<TokenRecord>, early: int, late: int)
    requires early <= late
    ensures Retain(Retain(records, early), late) == Retain(records, late)
  {
    if records != [] {
      var front, last := records[..|records| - 1], records[|records| - 1];
      RetainTwice(front, early, late);
      assert (Retain(front, early) + [last])[..|Retain(front, early)|] == Retain(front, early);
    }
  }

  lemma {:induction false} RetainAll(records: seq<TokenRecord>, cutoff: int)
    ensures |Retain(records, cutoff)| <= |records|
    ensures |Retain(records, cutoff)| == |records| <==> forall r | r in records :: r.at >= cutoff
  {
    if records != [] {
      var front, last := records[..|records| - 1], records[|records| - 1];
      assert records == front + [last];
      RetainAll(front, cutoff);
    }
  }

  /// Pruning the already pruned window plus one record is pruning the whole history plus that record.
  lemma WindowGrows(history: seq<TokenRecord>, r: TokenRecord, early: int, late: int)
    requires early <= late
    ensures Retain(Retain(history, early) + [r], late) == Retain(history + [r], late)
    ensures TokenSum(history + [r]) == TokenSum(history) + r.tokenCount
  {
    RetainTwice(history, early, late);
    assert (history + [r])[..|history|] == history;
    assert (Retain(history, early) + [r])[..|Retain(history, early)|] == Retain(history, early);
  }

  /// Dropping records older than 30 s before some earlier moment never shows in a later rate.
  lemma PrunedRateIsNaiveRate(history: seq<TokenRecord>, prunedAt: nat, now: nat)
    requires prunedAt <= now
    ensures Rate(Retain(history, prunedAt - WINDOW), now) == Rate(history, now)
  {
    RetainTwice(history, prunedAt - WINDOW, now - WINDOW);
  }

  // ----- The fields of a monitor against the history -----

  datatype Fields = Fields(
    lastChunkAt: nat, lastContentAt: nat, chunksReceived: nat, tokensReceived: nat,
    tokenWindow: seq<TokenRecord>, state: HealthState, inThinkingBlock: bool)

  /// Every field is what the whole history says it is; only the window may be shorter.
  ghost predicate FitsHistory(f: Fields, s: Setting, log: seq<Event>) {
    && f.lastChunkAt == LastChunkAt(s, log) && f.lastContentAt == LastContentAt(s, log)
    && s.createdAt <= f.lastContentAt <= f.lastChunkAt
    && f.inThinkingBlock == InThinking(log) && f.chunksReceived == ChunkCount(log)
    && f.tokensReceived == TokenSum(ContentHistory(log))
    && f.tokenWindow == Retain(ContentHistory(log), f.lastContentAt - WINDOW)
    && f.state == Verdict(s, log)
  }

  lemma DescribesNew(now: nat, s: Setting)
    requires s.createdAt == now
    ensures FitsHistory(Fields(now, now, 0, 0, [], Healthy, false), s, [])
  {
  }

  lemma ContentKeepsDescription(f: Fields, s: Setting, log: seq<Event>, at: nat, tokenCount: nat)
    requires FitsHistory(f, s, log) && f.lastChunkAt <= at
    ensures
      var window := Retain(f.tokenWindow + [TokenRecord(at, tokenCount)], at - WINDOW);
      var tokens := f.tokensReceived + tokenCount;
      FitsHistory(Fields(at, at, f.chunksReceived + 1, tokens, window, Healthy, f.inThinkingBlock),
        s, log + [Chunk(at, true, tokenCount)])
  {
    hide LastChunkAt, LastContentAt, InThinking, ChunkCount, ContentHistory, TokenSum, Retain, Verdict;
    var record := TokenRecord(at, tokenCount);
    ContentComes(s, log, at, tokenCount);
    WindowGrows(ContentHistory(log), record, f.lastContentAt - WINDOW, at - WINDOW);
  }

  lemma ContentComes(s: Setting, log: seq<Event>, at: nat, tokenCount: nat)
    ensures
      var grown := log + [Chunk(at, true, tokenCount)];
      && LastChunkAt(s, grown) == LastContentAt(s, grown) == at
      && InThinking(grown) == InThinking(log) && ChunkCount(grown) == ChunkCount(log) + 1
      && ContentHistory(grown) == ContentHistory(log) + [TokenRecord(at, tokenCount)] && Verdict(s, grown) == Healthy
  {
    hide Observed;
    var grown := log + [Chunk(at, true, tokenCount)];
    assert grown[..|log|] == log;
  }

  lemma EmptyChunkKeepsDescription(f: Fields, s: Setting, log: seq<Event>, at: nat, tokenCount: nat)
    requires FitsHistory(f, s, log) && f.lastChunkAt <= at
    ensures FitsHistory(
      f.(lastChunkAt := at, chunksReceived := f.chunksReceived + 1), s, log + [Chunk(at, false, tokenCount)])
  {
    assert (log + [Chunk(at, false, tokenCount)])[..|log|] == log;
  }

  lemma ThinkingKeepsDescription(f: Fields, s: Setting, log: seq<Event>, inThinking: bool)
    requires FitsHistory(f, s, log)
    ensures FitsHistory(f.(inThinkingBlock := inThinking), s, log + [SetThinking(inThinking)])
  {
    assert (log + [SetThinking(inThinking)])[..|log|] == log;
  }

  lemma CheckKeepsDescription(f: Fields, s: Setting, log: seq<Event>, at: nat)
    requires FitsHistory(f, s, log)
    ensures
      var seen := Condition(s, at - f.lastChunkAt, at - f.lastContentAt, f.inThinkingBlock);
      FitsHistory(f.(state := if seen != Healthy then seen else f.state), s, log + [Check(at)])
  {
    assert (log + [Check(at)])[..|log|] == log;
  }

  lemma DescribedTimes(f: Fields, s: Setting, log: seq<Event>)
    requires FitsHistory(f, s, log)
    ensures s.createdAt <= f.lastContentAt <= f.lastChunkAt
  {
  }

  // ----- The monitor -----

  class StreamHealthMonitor {
    var lastChunkAt: nat
    var lastContentAt: nat
    var chunksReceived: nat
    var tokensReceived: nat
    var tokenWindow: seq<TokenRecord>
    var state: HealthState
    var inThinkingBlock: bool
    const staleThreshold: nat
    const absoluteMax: nat
    ghost const setting: Setting
    ghost var log: seq<Event>
    ghost var clock: nat

    ghost function Current(): Fields
      reads this
    {
      Fields(lastChunkAt, lastContentAt, chunksReceived, tokensReceived, tokenWindow, state, inThinkingBlock)
    }

    ghost predicate Valid()
      reads this
    {
      && setting.staleThreshold == staleThreshold && setting.absoluteMax == absoluteMax
      && FitsHistory(Current(), setting, log) && lastChunkAt <= clock
    }

    constructor (now: nat, staleThreshold: nat, absoluteMax: nat)
      ensures Valid() && log == [] && clock == now && state == Healthy
      ensures lastChunkAt == lastContentAt == now && !inThinkingBlock
      ensures setting == Setting(now, staleThreshold, absoluteMax)
    {
      lastChunkAt, lastContentAt := now, now;
      chunksReceived, tokensReceived, tokenWindow := 0, 0, [];
      state, inThinkingBlock := Healthy, false;
      this.staleThreshold, this.absoluteMax := staleThreshold, absoluteMax;
      setting := Setting(now, staleThreshold, absoluteMax);
      log, clock := [], now;
      new;
      DescribesNew(now, setting);
    }

    method RecordChunk(now: nat, hasContent: bool, tokenCount: nat)
      requires Valid() && clock <= now
      modifies this
      ensures Valid() && clock == now
      ensures log == old(log) + [Chunk(now, hasContent, tokenCount)]
      ensures state == if hasContent then Healthy else old(state)
      ensures lastChunkAt == now && lastContentAt == (if hasContent then now else old(lastContentAt))
      ensures inThinkingBlock == old(inThinkingBlock)
    {
      hide FitsHistory, Retain;
      if hasContent {
        ContentKeepsDescription(Current(), setting, log, now, tokenCount);
      } else {
        EmptyChunkKeepsDescription(Current(), setting, log, now, tokenCount);
      }
      lastChunkAt := now;
      chunksReceived := chunksReceived + 1;
      if hasContent {
        lastContentAt := now;
        tokensReceived := tokensReceived + tokenCount;
        tokenWindow := tokenWindow + [TokenRecord(now, tokenCount)];
        tokenWindow := Retain(tokenWindow, now - WINDOW);
        if state != Healthy {
          state := Healthy;
        }
      }
      log, clock := log + [Chunk(now, hasContent, tokenCount)], now;
    }

    method SetThinkingBlock(inThinking: bool)
      requires Valid()
      modifies this
      ensures Valid() && clock == old(clock) && state == old(state)
      ensures log == old(log) + [SetThinking(inThinking)]
      ensures lastChunkAt == old(lastChunkAt) && lastContentAt == old(lastContentAt) && inThinkingBlock == inThinking
    {
      ThinkingKeepsDescription(Current(), setting, log, inThinking);
      hide FitsHistory;
      inThinkingBlock := inThinking;
      log := log + [SetThinking(inThinking)];
    }

    /// The answer moves to what this check sees when that is bad, and stays otherwise; with
    /// HealthyExactlyWhenNoBadCheck, Healthy means that no check since the last content chunk was bad.
    method CheckHealth(now: nat) returns (result: HealthState)
      requires Valid() && clock <= now
      modifies this`state, this`log, this`clock
      ensures Valid() && clock == now && result == state
      ensures log == old(log) + [Check(now)]
      ensures result ==
        var seen := Condition(setting, now - lastChunkAt, now - lastContentAt, inThinkingBlock);
        if seen != Healthy then seen else old(state)
    {
      CheckKeepsDescription(Current(), setting, log, now);
      DescribedTimes(Current(), setting, log);
      hide FitsHistory;
      var effectiveStale := if inThinkingBlock then staleThreshold * THINKING_STALE_MULTIPLIER else staleThreshold;
      var sinceContent := now - lastContentAt;
      var sinceAny := now - lastChunkAt;
      if sinceAny >= absoluteMax {
        state := Dead;
      } else if sinceContent >= effectiveStale {
        state := Stale;
      }
      log, clock := log + [Check(now)], now;
      result := state;
    }

    /// The rate over the pruned window is the rate over everything ever received.
    method TokenRate(now: nat) returns (rate: real)
      requires Valid() && clock <= now
      ensures rate == Rate(ContentHistory(log), now)
    {
      PrunedRateIsNaiveRate(ContentHistory(log), lastContentAt, now);
      if tokenWindow == [] {
        return 0.0;
      }
      var inWindow := Retain(tokenWindow, now - WINDOW);
      if inWindow == [] {
        return 0.0;
      }
      var total := TokenSum(inWindow);
      var elapsed := now - inWindow[0].at;
      rate := total as real * 1000.0 / (if elapsed > 1 then elapsed else 1) as real;
    }

    /// Documented as the total number of content chunks: it is that exactly while every content chunk
    /// is at most 30 s older than the newest one.
    method ContentChunks() returns (count: nat)
      requires Valid()
      ensures count <= |ContentHistory(log)|
      ensures count == |ContentHistory(log)| <==>
        forall r | r in ContentHistory(log) :: LastContentAt(setting, log) - r.at <= WINDOW
    {
      RetainAll(ContentHistory(log), lastContentAt - WINDOW);
      count := |tokenWindow|;
    }
  }

  /// Two content chunks 31 s apart: the window holds one of them.
  lemma WindowUndercounts(s: Setting)
    ensures
      var log := [Chunk(s.createdAt, true, 1), Chunk(s.createdAt + 31_000, true, 1)];
      && |ContentHistory(log)| == 2
      && |Retain(ContentHistory(log), LastContentAt(s, log) - WINDOW)| == 1
  {
    var first, second := Chunk(s.createdAt, true, 1), Chunk(s.createdAt + 31_000, true, 1);
    var log := [first, second];
    assert log[..1] == [first] && [first][..0] == [];
    assert ContentHistory([first]) == [TokenRecord(s.createdAt, 1)];
    var h := ContentHistory(log);
    assert h == [TokenRecord(s.createdAt, 1), TokenRecord(s.createdAt + 31_000, 1)];
    assert h[..1] == [TokenRecord(s.createdAt, 1)];
    assert Retain(h[..1], s.createdAt + 1_000) == [];
  }
}
