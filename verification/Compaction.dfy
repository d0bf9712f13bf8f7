/// Compaction of the history (compaction.rs) and what it does over a whole run of a session.

module Compaction {
  import opened Core
  import opened ContextBudget
  import opened NotesCompact
  import opened Sessions

  datatype Strategy = Summarize | Truncate

  /// The threshold in tokens is given; the floating-point product it comes from is not part of this model.
  datatype Config = Config(thresholdTokens: nat, keepRecent: nat, strategy: Strategy)

  datatype CompactionResult = CompactionResult(
    messagesBefore: nat, messagesAfter: nat, tokensBefore: nat, tokensAfter: nat, notesExtracted: nat)

  const SUMMARY_HEADER :=
    "## Conversation Summary (compacted)\n"
    + "The following is a summary of earlier conversation history that was compacted to save context space:\n\n"

  function SummaryEntry(summary: string, now: nat): SessionEntry {
    SessionEntry(System, SUMMARY_HEADER + summary, None, None, None, None, Some(now))
  }

  predicate Fires(messages: seq<SessionEntry>, config: Config) {
    TotalTokens(messages) > config.thresholdTokens && |messages| > config.keepRecent + 1
  }

  function Summarized(messages: seq<SessionEntry>, keepRecent: nat, summary: SessionEntry): seq<SessionEntry>
    requires keepRecent <= |messages|
  {
    (if LeadingSystem(messages) then [messages[0]] else []) + [summary] + messages[|messages| - keepRecent..]
  }

  function Compacted(messages: seq<SessionEntry>, config: Config, summary: SessionEntry): seq<SessionEntry> {
    if !Fires(messages, config) then messages
    else if config.strategy.Summarize? then Summarized(messages, config.keepRecent, summary)
    else Truncated(messages, config.keepRecent)
  }

  /// The messages a summary replaces.
  function Replaced(messages: seq<SessionEntry>, keepRecent: nat): seq<SessionEntry>
    requires EnoughToSummarize(messages, keepRecent)
  {
    messages[OlderFrom(messages)..|messages| - keepRecent]
  }

  predicate EnoughToSummarize(messages: seq<SessionEntry>, keepRecent: nat) {
    |messages| > keepRecent + OlderFrom(messages)
  }

  predicate Summarizes(messages: seq<SessionEntry>, config: Config) {
    Fires(messages, config) && config.strategy.Summarize?
  }

  // ----- The code -----

  /// Whenever the tokens exceed the threshold and there are more than keep_recent + 1 messages, the history is really
  /// rewritten: the "not enough old messages" exit of CompactSummarize is never taken from here.
  method CompactSession(session: Session, config: Config, summary: string, now: nat, lower: string -> string)
    returns (r: CompactionResult)
    modifies session
    ensures session.messages == Compacted(old(session.messages), config, SummaryEntry(summary, now))
    ensures
      var before := old(session.messages);
      if Summarizes(before, config) then
        && session.notes == Extracted(old(session.notes), FindingsIn(Replaced(before, config.keepRecent), lower))
        && r.notesExtracted == |FoundNotes(FindingsIn(Replaced(before, config.keepRecent), lower), 4)|
      else session.notes == old(session.notes) && r.notesExtracted == 0
    ensures r.messagesBefore == |old(session.messages)| && r.messagesAfter == |session.messages|
    ensures r.tokensBefore == TotalTokens(old(session.messages)) && r.tokensAfter == TotalTokens(session.messages)
  {
    hide FindingsIn, TotalTokens;
    var tokensBefore, messagesBefore := TotalTokens(session.messages), |session.messages|;
    if tokensBefore <= config.thresholdTokens {
      return CompactionResult(messagesBefore, messagesBefore, tokensBefore, tokensBefore, 0);
    }
    if messagesBefore <= config.keepRecent + 1 {
      return CompactionResult(messagesBefore, messagesBefore, tokensBefore, tokensBefore, 0);
    }
    match config.strategy {
      case Summarize =>
        r := CompactSummarize(session, config.keepRecent, summary, now, lower);
      case Truncate =>
        session.Truncate(config.keepRecent);
        r := CompactionResult(messagesBefore, |session.messages|, tokensBefore, TotalTokens(session.messages), 0);
    }
  }

  method CompactSummarize(session: Session, keepRecent: nat, summary: string, now: nat, lower: string -> string)
    returns (r: CompactionResult)
    modifies session
    ensures
      var before := old(session.messages);
      if EnoughToSummarize(before, keepRecent) then
        && session.messages == Summarized(before, keepRecent, SummaryEntry(summary, now))
        && session.notes == Extracted(old(session.notes), FindingsIn(Replaced(before, keepRecent), lower))
        && r.notesExtracted == |FoundNotes(FindingsIn(Replaced(before, keepRecent), lower), 4)|
      else
        session.messages == before && session.notes == old(session.notes) && r.notesExtracted == 0
    ensures r.messagesBefore == |old(session.messages)| && r.messagesAfter == |session.messages|
    ensures r.tokensBefore == TotalTokens(old(session.messages)) && r.tokensAfter == TotalTokens(session.messages)
  {
    hide FindingsIn, TotalTokens;
    var tokensBefore, messagesBefore := TotalTokens(session.messages), |session.messages|;
    var splitPoint := if messagesBefore > keepRecent then messagesBefore - keepRecent else 0;
    var hasSystem := session.messages != [] && session.messages[0].role == System;
    var summaryStart := if hasSystem then 1 else 0;
    if splitPoint <= summaryStart {
      return CompactionResult(messagesBefore, messagesBefore, tokensBefore, tokensBefore, 0);
    }
    var oldMessages := session.messages[summaryStart..splitPoint];
    var notesExtracted := ExtractCompactionNotes(session, oldMessages, lower);
    var messages := [];
    if hasSystem {
      messages := messages + [session.messages[0]];
    }
    messages := messages + [SummaryEntry(summary, now)];
    messages := messages + session.messages[splitPoint..];
    session.messages := messages;
    r := CompactionResult(messagesBefore, |messages|, tokensBefore, TotalTokens(messages), notesExtracted);
  }

  // ----- One compaction -----

  /// A compaction that fires keeps a leading system message and the last keep_recent entries, leaves at most
  /// keep_recent + 2 entries, and never lengthens the history; it keeps the length exactly at keep_recent + 2 entries
  /// behind a system message.
  lemma OneCompaction(messages: seq<SessionEntry>, config: Config, summary: SessionEntry)
    requires Fires(messages, config) && config.strategy.Summarize?
    ensures
      var after, keep := Compacted(messages, config, summary), config.keepRecent;
      && |after| <= keep + 2 && |after| <= |messages|
      && after[|after| - keep..] == messages[|messages| - keep..]
      && (LeadingSystem(messages) ==> after[0] == messages[0])
      && (|after| == |messages| <==> LeadingSystem(messages) && |messages| == keep + 2)
  {
    assert Compacted(messages, config, summary)[|Compacted(messages, config, summary)| - config.keepRecent..]
      == messages[|messages| - config.keepRecent..];
  }

  /// Tokens are saved exactly when the summary is no longer than what it replaces.
  lemma TokensSavedExactly(messages: seq<SessionEntry>, keepRecent: nat, summary: SessionEntry)
    requires |messages| > keepRecent + 1
    ensures
      TotalTokens(Summarized(messages, keepRecent, summary)) <= TotalTokens(messages) <==>
        EstimateTokens(summary.content) <= TotalTokens(messages[OlderFrom(messages)..|messages| - keepRecent])
  {
    var split := |messages| - keepRecent;
    var system := messages[..OlderFrom(messages)];
    var replaced, recent := messages[OlderFrom(messages)..split], messages[split..];
    InThreeParts(messages, OlderFrom(messages), split);
    SummarizedParts(messages, keepRecent, summary);
    ThreeParts(system, replaced, recent);
    ThreeParts(system, [summary], recent);
    OneEntry(summary);
  }

  lemma InThreeParts(messages: seq<SessionEntry>, i: nat, j: nat)
    requires i <= j <= |messages|
    ensures messages == messages[..i] + messages[i..j] + messages[j..]
  {
  }

  lemma SummarizedParts(messages: seq<SessionEntry>, keepRecent: nat, summary: SessionEntry)
    requires keepRecent <= |messages|
    ensures Summarized(messages, keepRecent, summary) ==
      messages[..OlderFrom(messages)] + [summary] + messages[|messages| - keepRecent..]
  {
  }

  lemma ThreeParts(a: seq<SessionEntry>, b: seq<SessionEntry>, c: seq<SessionEntry>)
    ensures TotalTokens(a + b + c) == TotalTokens(a) + TotalTokens(b) + TotalTokens(c)
  {
    TotalTokensConcat(a + b, c);
    TotalTokensConcat(a, b);
  }

  lemma OneEntry(e: SessionEntry)
    ensures TotalTokens([e]) == EstimateTokens(e.content)
  {
    assert [e][..0] == [];
    assert TotalTokens([e]) == TotalTokens([]) + EstimateTokens(e.content);
  }

  /// A compacted history is compacted again at once exactly when it is still too long and had a system message; then
  /// the new summary just takes the place of the previous one.
  lemma CompactingAgain(messages: seq<SessionEntry>, config: Config, first: SessionEntry, second: SessionEntry)
    requires Fires(messages, config) && config.strategy.Summarize? && first.role == System
    ensures
      var once := Compacted(messages, config, first);
      && (Fires(once, config) <==> LeadingSystem(messages) && TotalTokens(once) > config.thresholdTokens)
      && (Fires(once, config) ==> Compacted(once, config, second) == Compacted(messages, config, second))
  {
    OneCompaction(messages, config, first);
  }

  // ----- Whole runs -----

  datatype Op =
    | Add(entry: SessionEntry)
    | Compact(config: Config, summary: string, now: nat)
    | Trim(maxMessages: nat)
    | Clear

  function Apply(messages: seq<SessionEntry>, op: Op): seq<SessionEntry> {
    match op
    case Add(entry) => messages + [entry]
    case Compact(config, summary, now) => Compacted(messages, config, SummaryEntry(summary, now))
    case Trim(maxMessages) => Truncated(messages, maxMessages)
    case Clear => []
  }

  /// The history after the operations, from an empty session.
  function After(ops: seq<Op>): seq<SessionEntry> {
    if ops == [] then [] else Apply(After(ops[..|ops| - 1]), ops[|ops| - 1])
  }

  /// One operation on a session; `lower` is the lower-casing of the runtime.
  method Perform(session: Session, op: Op, lower: string -> string)
    modifies session
    ensures session.messages == Apply(old(session.messages), op)
  {
    match op {
      case Add(entry) => session.AddMessage(entry);
      case Compact(config, summary, now) => var _ := CompactSession(session, config, summary, now, lower);
      case Trim(maxMessages) => session.Truncate(maxMessages);
      case Clear => session.Reset();
    }
  }

  /// A session on which the operations are performed has the history the lemmas below speak about.
  method PerformAll(ops: seq<Op>, lower: string -> string) returns (session: Session)
    ensures fresh(session) && session.messages == After(ops)
  {
    session := new Session();
    for i := 0 to |ops|
      invariant fresh(session) && session.messages == After(ops[..i])
    {
      assert ops[..i + 1][..i] == ops[..i];
      Perform(session, ops[i], lower);
    }
    assert ops[..|ops|] == ops;
  }

  /// Everything ever added.
  function Log(ops: seq<Op>): seq<SessionEntry> {
    if ops == [] then []
    else if ops[|ops| - 1].Add? then Log(ops[..|ops| - 1]) + [ops[|ops| - 1].entry]
    else Log(ops[..|ops| - 1])
  }

  function Later(cut: nat, other: int): nat {
    if other > cut then other else cut
  }

  /// How much of the log no longer stands in the history.
  function Cut(ops: seq<Op>): nat {
    if ops == [] then 0
    else
      var front := ops[..|ops| - 1];
      match ops[|ops| - 1]
      case Add(_) => Cut(front)
      case Compact(config, _, _) =>
        if Fires(After(front), config) then Later(Cut(front), |Log(front)| - config.keepRecent) else Cut(front)
      case Trim(maxMessages) =>
        if |After(front)| > maxMessages then Later(Cut(front), |Log(front)| - maxMessages) else Cut(front)
      case Clear => |Log(front)|
  }

  /// The history is at most two System messages and then an unchanged tail of everything ever added.
  ghost predicate Shape(messages: seq<SessionEntry>, log: seq<SessionEntry>, cut: nat) {
    && cut <= |log| && |messages| >= |log| - cut
    && var head := |messages| - (|log| - cut);
    && head <= 2 && messages[head..] == log[cut..]
    && forall i | 0 <= i < head :: messages[i].role == System
  }

  ghost predicate AllSystem(messages: seq<SessionEntry>) {
    forall i | 0 <= i < |messages| :: messages[i].role == System
  }

  lemma HasShape(heads: seq<SessionEntry>, log: seq<SessionEntry>, cut: nat)
    requires |heads| <= 2 && AllSystem(heads) && cut <= |log|
    ensures Shape(heads + log[cut..], log, cut)
  {
    assert (heads + log[cut..])[|heads|..] == log[cut..];
  }

  lemma HeadsOf(messages: seq<SessionEntry>, log: seq<SessionEntry>, cut: nat) returns (heads: seq<SessionEntry>)
    requires Shape(messages, log, cut)
    ensures cut <= |log| && messages == heads + log[cut..] && |heads| <= 2 && AllSystem(heads)
  {
    heads := messages[..|messages| - (|log| - cut)];
  }

  lemma {:induction false} EveryRunKeepsATail(ops: seq<Op>)
    ensures Shape(After(ops), Log(ops), Cut(ops))
  {
    hide Shape, Truncated, Compacted, Fires;
    if ops == [] {
      HasShape([], [], 0);
    } else {
      var front, op := ops[..|ops| - 1], ops[|ops| - 1];
      var messages, log, cut := After(front), Log(front), Cut(front);
      EveryRunKeepsATail(front);
      match op {
        case Add(entry) =>
          AddKeepsShape(messages, log, cut, entry);
        case Compact(config, summary, now) =>
          CompactKeepsShape(messages, log, cut, config, SummaryEntry(summary, now));
        case Trim(maxMessages) =>
          TruncateKeepsShape(messages, log, cut, maxMessages);
        case Clear =>
          HasShape([], log, |log|);
      }
    }
  }

  lemma AddKeepsShape(messages: seq<SessionEntry>, log: seq<SessionEntry>, cut: nat, entry: SessionEntry)
    requires Shape(messages, log, cut)
    ensures Shape(messages + [entry], log + [entry], cut)
  {
    hide Shape, AllSystem;
    var heads := HeadsOf(messages, log, cut);
    HasShape(heads, log + [entry], cut);
    assert heads + (log + [entry])[cut..] == messages + [entry];
  }

  lemma CompactKeepsShape(messages: seq<SessionEntry>, log: seq<SessionEntry>, cut: nat, config: Config,
      summary: SessionEntry)
    requires Shape(messages, log, cut) && summary.role == System
    ensures Shape(Compacted(messages, config, summary), log,
      if Fires(messages, config) then Later(cut, |log| - config.keepRecent) else cut)
  {
    hide Shape, Summarized, Truncated, TotalTokens;
    if Fires(messages, config) {
      if config.strategy.Summarize? {
        SummarizeKeepsShape(messages, log, cut, config.keepRecent, summary);
      } else {
        TruncateKeepsShape(messages, log, cut, config.keepRecent);
      }
    }
  }

  lemma SummarizeKeepsShape(messages: seq<SessionEntry>, log: seq<SessionEntry>, cut: nat, keepRecent: nat,
      summary: SessionEntry)
    requires Shape(messages, log, cut) && |messages| > keepRecent + 1 && summary.role == System
    ensures Shape(Summarized(messages, keepRecent, summary), log, Later(cut, |log| - keepRecent))
  {
    hide Shape, Summarized, AllSystem;
    var heads := HeadsOf(messages, log, cut);
    TailOfTail(heads, log, cut, keepRecent);
    SystemsInFront(messages, summary);
    HasShape(messages[..OlderFrom(messages)] + [summary], log, |log| - keepRecent);
    SummarizedParts(messages, keepRecent, summary);
  }

  lemma SystemsInFront(messages: seq<SessionEntry>, summary: SessionEntry)
    requires summary.role == System
    ensures AllSystem(messages[..OlderFrom(messages)] + [summary])
  {
  }

  lemma TruncateKeepsShape(messages: seq<SessionEntry>, log: seq<SessionEntry>, cut: nat, maxMessages: nat)
    requires Shape(messages, log, cut)
    ensures Shape(Truncated(messages, maxMessages), log,
      if |messages| > maxMessages then Later(cut, |log| - maxMessages) else cut)
  {
    hide Shape, Truncated, AllSystem, LeadingSystem;
    if |messages| <= maxMessages {
      NotTruncated(messages, maxMessages);
    } else {
      var heads := HeadsOf(messages, log, cut);
      if maxMessages <= |log| - cut {
        TailOfTail(heads, log, cut, maxMessages);
        TruncatedParts(messages, maxMessages);
        HasShape(messages[..OlderFrom(messages)], log, |log| - maxMessages);
      } else {
        FirstIsSystem(messages, heads, log[cut..]);
        TruncatedByNone(messages, maxMessages);
      }
    }
  }

  lemma NotTruncated(messages: seq<SessionEntry>, maxMessages: nat)
    requires |messages| <= maxMessages
    ensures Truncated(messages, maxMessages) == messages
  {
  }

  lemma TruncatedParts(messages: seq<SessionEntry>, maxMessages: nat)
    requires |messages| > maxMessages
    ensures Truncated(messages, maxMessages) == messages[..OlderFrom(messages)] + messages[|messages| - maxMessages..]
    ensures AllSystem(messages[..OlderFrom(messages)])
  {
  }

  lemma TruncatedByNone(messages: seq<SessionEntry>, maxMessages: nat)
    requires |messages| == maxMessages + 1 && LeadingSystem(messages)
    ensures Truncated(messages, maxMessages) == messages
  {
  }

  lemma FirstIsSystem(messages: seq<SessionEntry>, heads: seq<SessionEntry>, rest: seq<SessionEntry>)
    requires heads != [] && AllSystem(heads) && messages == heads + rest
    ensures LeadingSystem(messages)
  {
  }

  lemma TailOfTail(heads: seq<SessionEntry>, log: seq<SessionEntry>, cut: nat, n: nat)
    requires cut + n <= |log|
    ensures
      var messages := heads + log[cut..];
      messages[|messages| - n..] == log[|log| - n..]
  {
  }

  /// What has left the history never comes back.
  lemma {:induction false} CutNeverDecreases(ops: seq<Op>, n: nat)
    requires n <= |ops|
    ensures Cut(ops[..n]) <= Cut(ops)
  {
    if n < |ops| {
      var front := ops[..|ops| - 1];
      assert front[..n] == ops[..n];
      CutNeverDecreases(front, n);
      EveryRunKeepsATail(front);
      hide After, Fires;
    } else {
      assert ops[..n] == ops;
    }
  }

  lemma StepKeepsLeadingSystem(messages: seq<SessionEntry>, op: Op)
    requires LeadingSystem(messages) && !op.Clear?
    ensures LeadingSystem(Apply(messages, op)) && Apply(messages, op)[0] == messages[0]
  {
    hide Fires;
  }

  /// Once the history starts with a System message, that message stays in front until the history is cleared: the
  /// system prompt, or the first summary if there was none.
  lemma {:induction false} LeadingSystemIsPinned(ops: seq<Op>, n: nat)
    requires n <= |ops| && LeadingSystem(After(ops[..n])) && forall i | n <= i < |ops| :: !ops[i].Clear?
    ensures LeadingSystem(After(ops)) && After(ops)[0] == After(ops[..n])[0]
  {
    if n < |ops| {
      var front := ops[..|ops| - 1];
      assert front[..n] == ops[..n];
      LeadingSystemIsPinned(front, n);
      StepKeepsLeadingSystem(After(front), ops[|ops| - 1]);
    } else {
      assert ops[..n] == ops;
    }
  }
}
