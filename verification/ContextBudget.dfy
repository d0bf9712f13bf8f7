/// Pruning of the history to a token budget (context_budget.rs, prune_messages).

module ContextBudget {
  import opened Core

  datatype PruneResult = PruneResult(
    kept: seq<SessionEntry>, removed: seq<SessionEntry>, tokensBefore: nat, tokensAfter: nat)

  // ----- Selections by position -----

  ghost predicate InRange(positions: seq<nat>, n: nat) {
    forall i | 0 <= i < |positions| :: positions[i] < n
  }

  function Pick(messages: seq<SessionEntry>, positions: seq<nat>): (picked: seq<SessionEntry>)
    requires InRange(positions, |messages|)
    ensures |picked| == |positions| && forall i | 0 <= i < |picked| :: picked[i] == messages[positions[i]]
  {
    seq(|positions|, i requires 0 <= i < |positions| => messages[positions[i]])
  }

  ghost predicate Ascending(positions: seq<nat>) {
    forall i, j | 0 <= i < j < |positions| :: positions[i] < positions[j]
  }

  ghost predicate Distinct(positions: seq<nat>) {
    forall i, j | 0 <= i < j < |positions| :: positions[i] != positions[j]
  }

  function Range(from: nat, until: nat): (positions: seq<nat>)
    requires from <= until
    ensures |positions| == until - from && forall i | 0 <= i < |positions| :: positions[i] == from + i
  {
    seq(until - from, i requires 0 <= i => from + i)
  }

  function LeadingSystem(messages: seq<SessionEntry>): bool {
    messages != [] && messages[0].role == System
  }

  function OlderFrom(messages: seq<SessionEntry>): nat {
    if LeadingSystem(messages) then 1 else 0
  }

  function RecentFrom(messages: seq<SessionEntry>, keepRecent: nat): (from: nat)
    ensures OlderFrom(messages) <= from <= |messages|
  {
    var tail := if |messages| > keepRecent then |messages| - keepRecent else 0;
    if tail > OlderFrom(messages) then tail else OlderFrom(messages)
  }

  /// Positions in [from, to) with (or without) tool calls.
  function Split(messages: seq<SessionEntry>, from: nat, until: nat, withTools: bool): (positions: seq<nat>)
    requires from <= until <= |messages|
    ensures InRange(positions, until)
    decreases until
  {
    if from == until then []
    else
      var earlier := Split(messages, from, until - 1, withTools);
      if messages[until - 1].toolCalls.Some? == withTools then earlier + [until - 1] else earlier
  }

  /// Greedy choice from the newest candidate to the oldest: whatever still fits is taken.
  function Fill(messages: seq<SessionEntry>, candidates: seq<nat>, used: nat, budget: nat): (chosen: seq<nat>)
    requires InRange(candidates, |messages|)
    ensures InRange(chosen, |messages|)
  {
    if candidates == [] then []
    else
      var front, last := candidates[..|candidates| - 1], candidates[|candidates| - 1];
      var cost := EstimateTokens(messages[last].content);
      if used + cost <= budget then Fill(messages, front, used + cost, budget) + [last]
      else Fill(messages, front, used, budget)
  }

  // ----- The selection a prune makes -----

  function SystemPositions(messages: seq<SessionEntry>): seq<nat> {
    if LeadingSystem(messages) then [0] else []
  }

  function RecentPositions(messages: seq<SessionEntry>, keepRecent: nat): seq<nat> {
    Range(RecentFrom(messages, keepRecent), |messages|)
  }

  function AnchorPositions(messages: seq<SessionEntry>, keepRecent: nat): seq<nat> {
    Split(messages, OlderFrom(messages), RecentFrom(messages, keepRecent), true)
  }

  function PlainPositions(messages: seq<SessionEntry>, keepRecent: nat): seq<nat> {
    Split(messages, OlderFrom(messages), RecentFrom(messages, keepRecent), false)
  }

  /// The tokens of the messages at these positions.
  function Cost(messages: seq<SessionEntry>, positions: seq<nat>): nat
    requires InRange(positions, |messages|)
  {
    if positions == [] then 0
    else
      Cost(messages, positions[..|positions| - 1]) + EstimateTokens(messages[positions[|positions| - 1]].content)
  }

  lemma {:induction false} CostIsTotal(messages: seq<SessionEntry>, positions: seq<nat>)
    requires InRange(positions, |messages|)
    ensures Cost(messages, positions) == TotalTokens(Pick(messages, positions))
  {
    if positions != [] {
      CostIsTotal(messages, positions[..|positions| - 1]);
      assert Pick(messages, positions)[..|positions| - 1] == Pick(messages, positions[..|positions| - 1]);
    }
  }

  /// The anchors survive exactly when they fit together with the system message and the recent block.
  function KeptAnchors(messages: seq<SessionEntry>, budget: nat, keepRecent: nat): seq<nat> {
    var anchors := AnchorPositions(messages, keepRecent);
    var ahead, recent := SystemPositions(messages) + anchors, RecentPositions(messages, keepRecent);
    if Cost(messages, ahead) + Cost(messages, recent) <= budget
    then anchors else []
  }

  function Base(messages: seq<SessionEntry>, budget: nat, keepRecent: nat): (base: seq<nat>)
    ensures InRange(base, |messages|)
  {
    SystemPositions(messages) + KeptAnchors(messages, budget, keepRecent) + RecentPositions(messages, keepRecent)
  }

  function FillPositions(messages: seq<SessionEntry>, budget: nat, keepRecent: nat): (fill: seq<nat>)
    ensures InRange(fill, |messages|)
  {
    Fill(messages, PlainPositions(messages, keepRecent), Cost(messages, Base(messages, budget, keepRecent)), budget)
  }

  /// A System message at the head of the base stays in front; the fill comes next, then the rest.
  function Merge(messages: seq<SessionEntry>, base: seq<nat>, fill: seq<nat>): (merged: seq<nat>)
    requires InRange(base, |messages|) && InRange(fill, |messages|)
    ensures InRange(merged, |messages|)
  {
    if base != [] && messages[base[0]].role == System then [base[0]] + fill + base[1..] else fill + base
  }

  function KeptPositions(messages: seq<SessionEntry>, budget: nat, keepRecent: nat): (kept: seq<nat>)
    ensures InRange(kept, |messages|)
  {
    Merge(messages, Base(messages, budget, keepRecent), FillPositions(messages, budget, keepRecent))
  }

  /// The entries without a twin, by content and role, among the others.
  function WithoutTwin(messages: seq<SessionEntry>, others: seq<SessionEntry>): seq<SessionEntry> {
    if messages == [] then []
    else
      var earlier, last := WithoutTwin(messages[..|messages| - 1], others), messages[|messages| - 1];
      if HasTwin(last, others) then earlier else earlier + [last]
  }

  predicate HasTwin(m: SessionEntry, others: seq<SessionEntry>) {
    exists o | o in others :: o.content == m.content && o.role == m.role
  }

  // ----- The code -----

  /// What a prune returns: everything within the budget, otherwise the messages selected, the others that have no twin
  /// among these, and the tokens before and after.
  ghost predicate Prunes(messages: seq<SessionEntry>, budget: nat, keepRecent: nat, r: PruneResult) {
    && r.tokensBefore == TotalTokens(messages) && r.tokensAfter == TotalTokens(r.kept)
    && (r.tokensBefore <= budget ==> r.kept == messages && r.removed == [])
    && (r.tokensBefore > budget ==>
          && r.kept == Pick(messages, KeptPositions(messages, budget, keepRecent))
          && r.removed == WithoutTwin(messages, r.kept))
  }

  method Prune(messages: seq<SessionEntry>, budgetTokens: nat, keepRecent: nat) returns (r: PruneResult)
    ensures Prunes(messages, budgetTokens, keepRecent, r)
  {
    var tokensBefore := TotalTokens(messages);
    if tokensBefore <= budgetTokens {
      return PruneResult(messages, [], tokensBefore, tokensBefore);
    }
    var kept, plain := SelectBase(messages, budgetTokens, keepRecent);
    ghost var plainAt := PlainPositions(messages, keepRecent);
    CostIsTotal(messages, Base(messages, budgetTokens, keepRecent));
    var fill := FillFrom(messages, plain, plainAt, TotalTokens(kept), budgetTokens);
    var merged := MergeFill(messages, kept, fill,
      Base(messages, budgetTokens, keepRecent), FillPositions(messages, budgetTokens, keepRecent));
    r := PruneResult(merged, WithoutTwin(messages, merged), tokensBefore, TotalTokens(merged));
  }

  /// Steps 1 to 4: the leading system message, the anchors if they fit, the recent block.
  method SelectBase(messages: seq<SessionEntry>, budget: nat, keepRecent: nat)
    returns (kept: seq<SessionEntry>, plain: seq<SessionEntry>)
    ensures kept == Pick(messages, Base(messages, budget, keepRecent))
    ensures plain == Pick(messages, PlainPositions(messages, keepRecent))
  {
    hide Split, Pick, Base, Cost, TotalTokens, EstimateTokens;
    var total := |messages|;
    var hasSystem := messages != [] && messages[0].role == System;
    var startIdx := if hasSystem then 1 else 0;
    var tail := if total > keepRecent then total - keepRecent else 0;
    var recentStart := if tail > startIdx then tail else startIdx;
    var recent := messages[recentStart..];
    var anchors;
    anchors, plain := Partition(messages, startIdx, recentStart);

    var system := if hasSystem then [messages[0]] else [];
    BaseOf(messages, budget, keepRecent, system, anchors, recent);
    kept := KeepWhatFits(system, anchors, recent, budget);
  }

  /// The check against the budget: with too many tokens the anchors are truncated away again.
  method KeepWhatFits(system: seq<SessionEntry>, anchors: seq<SessionEntry>, recent: seq<SessionEntry>, budget: nat)
    returns (kept: seq<SessionEntry>)
    ensures kept ==
      if TotalTokens(system + anchors) + TotalTokens(recent) <= budget then system + anchors + recent
      else system + recent
  {
    kept := system + anchors;
    if TotalTokens(kept) + TotalTokens(recent) <= budget {
      kept := kept + recent;
    } else {
      kept := kept[..|system|];
      kept := kept + recent;
    }
  }

  lemma BaseOf(messages: seq<SessionEntry>, budget: nat, keepRecent: nat,
      system: seq<SessionEntry>, anchors: seq<SessionEntry>, recent: seq<SessionEntry>)
    requires system == if LeadingSystem(messages) then [messages[0]] else []
    requires anchors == Pick(messages, AnchorPositions(messages, keepRecent))
    requires recent == messages[RecentFrom(messages, keepRecent)..]
    ensures Pick(messages, Base(messages, budget, keepRecent)) ==
      if TotalTokens(system + anchors) + TotalTokens(recent) <= budget then system + anchors + recent
      else system + recent
  {
    hide Cost, TotalTokens, EstimateTokens, Split;
    var systemAt, anchorAt := SystemPositions(messages), AnchorPositions(messages, keepRecent);
    var recentAt := RecentPositions(messages, keepRecent);
    assert system == Pick(messages, systemAt);
    assert recent == Pick(messages, recentAt);
    PickThree(messages, systemAt, anchorAt, recentAt);
    PickThree(messages, systemAt, [], recentAt);
    assert systemAt + [] == systemAt;
  }

  lemma PickThree(messages: seq<SessionEntry>, a: seq<nat>, b: seq<nat>, c: seq<nat>)
    requires InRange(a, |messages|) && InRange(b, |messages|) && InRange(c, |messages|)
    ensures Pick(messages, a + b) == Pick(messages, a) + Pick(messages, b)
    ensures Pick(messages, a + b + c) == Pick(messages, a) + Pick(messages, b) + Pick(messages, c)
    ensures Cost(messages, a + b) == TotalTokens(Pick(messages, a + b))
      && Cost(messages, c) == TotalTokens(Pick(messages, c))
  {
    PickConcat(messages, a, b);
    PickConcat(messages, a + b, c);
    CostIsTotal(messages, a + b);
    CostIsTotal(messages, c);
  }

  /// Step 5, the rebuild.
  method MergeFill(messages: seq<SessionEntry>, kept: seq<SessionEntry>, fill: seq<SessionEntry>,
      ghost base: seq<nat>, ghost fillAt: seq<nat>)
    returns (merged: seq<SessionEntry>)
    requires InRange(base, |messages|) && InRange(fillAt, |messages|)
    requires kept == Pick(messages, base) && fill == Pick(messages, fillAt)
    ensures merged == Pick(messages, Merge(messages, base, fillAt))
  {
    if kept != [] && kept[0].role == System {
      merged := [kept[0]] + fill + kept[1..];
      assert merged == Pick(messages, [base[0]] + fillAt + base[1..]);
    } else {
      merged := fill + kept;
    }
  }

  lemma PickConcat(messages: seq<SessionEntry>, a: seq<nat>, b: seq<nat>)
    requires InRange(a, |messages|) && InRange(b, |messages|)
    ensures Pick(messages, a + b) == Pick(messages, a) + Pick(messages, b)
  {
  }

  /// The loop over the older range.
  method Partition(messages: seq<SessionEntry>, from: nat, until: nat)
    returns (anchors: seq<SessionEntry>, plain: seq<SessionEntry>)
    requires from <= until <= |messages|
    ensures anchors == Pick(messages, Split(messages, from, until, true))
    ensures plain == Pick(messages, Split(messages, from, until, false))
  {
    anchors, plain := [], [];
    for i := from to until
      invariant anchors == Pick(messages, Split(messages, from, i, true))
      invariant plain == Pick(messages, Split(messages, from, i, false))
    {
      if messages[i].toolCalls.Some? {
        anchors := anchors + [messages[i]];
      } else {
        plain := plain + [messages[i]];
      }
    }
  }

  /// The loop over the older plain messages, newest first; the collected ones are reversed at the end.
  method FillFrom(messages: seq<SessionEntry>, plain: seq<SessionEntry>, ghost plainAt: seq<nat>, used: nat,
      budget: nat)
    returns (fill: seq<SessionEntry>)
    requires InRange(plainAt, |messages|) && plain == Pick(messages, plainAt)
    ensures fill == Pick(messages, Fill(messages, plainAt, used, budget))
  {
    hide Fill, EstimateTokens, Pick;
    var current: nat := used;
    fill := [];
    ghost var chosen: seq<nat> := [];
    WholeIsKept(messages, plainAt, used, budget);
    for i := |plain| downto 0
      invariant InRange(chosen, |messages|) && fill == Pick(messages, chosen)
      invariant Fill(messages, plainAt, used, budget) == Fill(messages, plainAt[..i], current, budget) + chosen
    {
      OneBack(messages, plainAt, i, current, budget, chosen);
      var cost := EstimateTokens(plain[i].content);
      if current + cost <= budget {
        PickFront(messages, plainAt[i], chosen);
        fill := [plain[i]] + fill;
        chosen := [plainAt[i]] + chosen;
        current := current + cost;
      }
    }
    NothingLeft(messages, current, budget);
    assert plainAt[..0] == [] && [] + chosen == chosen;
  }

  lemma PickFront(messages: seq<SessionEntry>, p: nat, chosen: seq<nat>)
    requires p < |messages| && InRange(chosen, |messages|)
    ensures Pick(messages, [p] + chosen) == [messages[p]] + Pick(messages, chosen)
  {
  }

  lemma OneBack(messages: seq<SessionEntry>, plainAt: seq<nat>, i: nat, used: nat, budget: nat, chosen: seq<nat>)
    requires InRange(plainAt, |messages|) && i < |plainAt|
    ensures
      var cost := EstimateTokens(messages[plainAt[i]].content);
      Fill(messages, plainAt[..i + 1], used, budget) + chosen ==
        if used + cost <= budget then Fill(messages, plainAt[..i], used + cost, budget) + ([plainAt[i]] + chosen)
        else Fill(messages, plainAt[..i], used, budget) + chosen
  {
    hide EstimateTokens;
    assert plainAt[..i + 1][..i] == plainAt[..i];
  }

  lemma WholeIsKept(messages: seq<SessionEntry>, plainAt: seq<nat>, used: nat, budget: nat)
    requires InRange(plainAt, |messages|)
    ensures plainAt[..|plainAt|] == plainAt
    ensures Fill(messages, plainAt, used, budget) == Fill(messages, plainAt[..|plainAt|], used, budget) + []
    ensures Pick(messages, []) == []
  {
    hide Fill;
    assert plainAt[..|plainAt|] == plainAt;
  }

  lemma NothingLeft(messages: seq<SessionEntry>, used: nat, budget: nat)
    ensures Fill(messages, [], used, budget) == []
  {
  }
}
