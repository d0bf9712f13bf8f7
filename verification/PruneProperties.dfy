/// What a prune keeps, drops, spends and reorders, for every history, budget and keep_recent.

module PruneProperties {
  import opened Core
  import opened ContextBudget

  // ----- Selections -----

  lemma SplitIsExact(messages: seq<SessionEntry>, from: nat, until: nat, withTools: bool)
    requires from <= until <= |messages|
    ensures Ascending(Split(messages, from, until, withTools))
    ensures forall p: nat :: p in Split(messages, from, until, withTools) <==>
      from <= p < until && (messages[p].toolCalls.Some? <==> withTools)
  {
    SplitAscends(messages, from, until, withTools);
    forall p: nat
      ensures p in Split(messages, from, until, withTools) <==>
        from <= p < until && (messages[p].toolCalls.Some? <==> withTools)
    {
      SplitHas(messages, from, until, withTools, p);
    }
  }

  lemma {:induction false} SplitHas(messages: seq<SessionEntry>, from: nat, until: nat, withTools: bool, p: nat)
    requires from <= until <= |messages|
    ensures p in Split(messages, from, until, withTools) <==>
      from <= p < until && (messages[p].toolCalls.Some? <==> withTools)
    decreases until
  {
    if from < until {
      SplitHas(messages, from, until - 1, withTools, p);
    }
  }

  lemma {:induction false} SplitAscends(messages: seq<SessionEntry>, from: nat, until: nat, withTools: bool)
    requires from <= until <= |messages|
    ensures Ascending(Split(messages, from, until, withTools))
    decreases until
  {
    hide Ascending;
    if from < until {
      SplitAscends(messages, from, until - 1, withTools);
      AscendsWith(Split(messages, from, until - 1, withTools), until - 1);
    } else {
      NothingChosen();
    }
  }

  lemma AscendsWith(positions: seq<nat>, p: nat)
    requires Ascending(positions) && InRange(positions, p)
    ensures Ascending(positions + [p])
  {
  }

  lemma FillStep(messages: seq<SessionEntry>, candidates: seq<nat>, used: nat, budget: nat)
    requires InRange(candidates, |messages|) && candidates != []
    ensures
      var front, last := candidates[..|candidates| - 1], candidates[|candidates| - 1];
      var cost := EstimateTokens(messages[last].content);
      && candidates == front + [last]
      && Fill(messages, candidates, used, budget) ==
        if used + cost <= budget then Fill(messages, front, used + cost, budget) + [last]
        else Fill(messages, front, used, budget)
  {
  }

  /// Every chosen position is a candidate.
  ghost predicate ChosenFrom(chosen: seq<nat>, candidates: seq<nat>) {
    forall i | 0 <= i < |chosen| :: chosen[i] in candidates
  }

  lemma {:induction false} FillIsSelection(messages: seq<SessionEntry>, candidates: seq<nat>, used: nat, budget: nat)
    requires InRange(candidates, |messages|) && Ascending(candidates)
    ensures Ascending(Fill(messages, candidates, used, budget))
      && ChosenFrom(Fill(messages, candidates, used, budget), candidates)
  {
    hide Fill, Ascending, ChosenFrom, EstimateTokens;
    if candidates == [] {
      NothingLeft(messages, used, budget);
      NothingChosen();
    } else {
      var front, last := candidates[..|candidates| - 1], candidates[|candidates| - 1];
      var cost := EstimateTokens(messages[last].content);
      FillStep(messages, candidates, used, budget);
      FrontAscends(front, last);
      if used + cost <= budget {
        FillIsSelection(messages, front, used + cost, budget);
        AppendLarger(front, Fill(messages, front, used + cost, budget), last);
      } else {
        FillIsSelection(messages, front, used, budget);
        StillChosenFrom(front, Fill(messages, front, used, budget), last);
      }
    }
  }

  lemma NothingChosen()
    ensures Ascending([]) && ChosenFrom([], [])
  {
  }

  lemma FrontAscends(front: seq<nat>, last: nat)
    requires Ascending(front + [last])
    ensures Ascending(front)
  {
    assert forall i | 0 <= i < |front| :: (front + [last])[i] == front[i];
  }

  lemma StillChosenFrom(front: seq<nat>, chosen: seq<nat>, last: nat)
    requires ChosenFrom(chosen, front)
    ensures ChosenFrom(chosen, front + [last])
  {
  }

  lemma AppendLarger(front: seq<nat>, chosen: seq<nat>, last: nat)
    requires Ascending(front + [last]) && Ascending(chosen) && ChosenFrom(chosen, front)
    ensures Ascending(chosen + [last]) && ChosenFrom(chosen + [last], front + [last])
  {
    forall i | 0 <= i < |chosen| ensures chosen[i] < last {
      var j :| 0 <= j < |front| && front[j] == chosen[i];
      assert (front + [last])[j] < (front + [last])[|front|];
    }
  }

  lemma {:induction false} CostConcat(messages: seq<SessionEntry>, a: seq<nat>, b: seq<nat>)
    requires InRange(a, |messages|) && InRange(b, |messages|)
    ensures Cost(messages, a + b) == Cost(messages, a) + Cost(messages, b)
  {
    if b == [] {
      assert a + b == a;
    } else {
      assert (a + b)[..|a + b| - 1] == a + b[..|b| - 1];
      CostConcat(messages, a, b[..|b| - 1]);
    }
  }

  lemma CostAppend(messages: seq<SessionEntry>, positions: seq<nat>, p: nat)
    requires InRange(positions, |messages|) && p < |messages|
    ensures Cost(messages, positions + [p]) == Cost(messages, positions) + EstimateTokens(messages[p].content)
  {
    assert (positions + [p])[..|positions|] == positions;
  }

  lemma CostOne(messages: seq<SessionEntry>, p: nat)
    requires p < |messages|
    ensures Cost(messages, [p]) == EstimateTokens(messages[p].content)
  {
    CostAppend(messages, [], p);
    assert [] + [p] == [p];
  }

  lemma NoCost(messages: seq<SessionEntry>)
    ensures Cost(messages, []) == 0
  {
  }

  /// The cost of the chosen messages, one step back.
  lemma FillCost(messages: seq<SessionEntry>, candidates: seq<nat>, used: nat, budget: nat)
    requires InRange(candidates, |messages|) && candidates != []
    requires used + EstimateTokens(messages[candidates[|candidates| - 1]].content) <= budget
    ensures
      var front, cost := candidates[..|candidates| - 1], EstimateTokens(messages[candidates[|candidates| - 1]].content);
      Cost(messages, Fill(messages, candidates, used, budget))
        == Cost(messages, Fill(messages, front, used + cost, budget)) + cost
  {
    hide Fill, Cost;
    var front, last := candidates[..|candidates| - 1], candidates[|candidates| - 1];
    FillStep(messages, candidates, used, budget);
    CostAppend(messages, Fill(messages, front, used + EstimateTokens(messages[last].content), budget), last);
  }

  /// The greedy fill never exceeds the budget by its own doing.
  lemma {:induction false} FillIsBounded(messages: seq<SessionEntry>, candidates: seq<nat>, used: nat, budget: nat)
    requires InRange(candidates, |messages|)
    ensures Fill(messages, candidates, used, budget) == []
      || used + Cost(messages, Fill(messages, candidates, used, budget)) <= budget
  {
    if candidates != [] {
      hide Fill, Cost;
      var front, cost := candidates[..|candidates| - 1], EstimateTokens(messages[candidates[|candidates| - 1]].content);
      FillStep(messages, candidates, used, budget);
      if used + cost <= budget {
        FillIsBounded(messages, front, used + cost, budget);
        FillCost(messages, candidates, used, budget);
        NoCost(messages);
      } else {
        FillIsBounded(messages, front, used, budget);
      }
    }
  }

  /// It leaves out only what no longer fits at the end.
  lemma {:induction false} FillIsMaximal(messages: seq<SessionEntry>, candidates: seq<nat>, used: nat, budget: nat,
      p: nat)
    requires InRange(candidates, |messages|) && p in candidates && p !in Fill(messages, candidates, used, budget)
    ensures p < |messages|
    ensures used + Cost(messages, Fill(messages, candidates, used, budget))
      + EstimateTokens(messages[p].content) > budget
  {
    hide Fill, Cost;
    var front, last := candidates[..|candidates| - 1], candidates[|candidates| - 1];
    var cost := EstimateTokens(messages[last].content);
    FillStep(messages, candidates, used, budget);
    if used + cost <= budget {
      FillIsMaximal(messages, front, used + cost, budget, p);
      FillCost(messages, candidates, used, budget);
    } else if p in front {
      FillIsMaximal(messages, front, used, budget, p);
    }
  }

  // ----- Conservation -----

  /// The positions below n that are not listed, in order.
  function Others(n: nat, positions: seq<nat>): (others: seq<nat>)
    ensures InRange(others, n)
  {
    if n == 0 then []
    else if n - 1 in positions then Others(n - 1, positions)
    else Others(n - 1, positions) + [n - 1]
  }

  lemma {:induction false} OthersIgnoresLarger(n: nat, positions: seq<nat>, j: nat)
    requires j < |positions| && positions[j] >= n
    ensures Others(n, positions[..j] + positions[j + 1..]) == Others(n, positions)
  {
    var fewer := positions[..j] + positions[j + 1..];
    assert forall p: nat | p < n :: p in fewer <==> p in positions;
    if n > 0 {
      OthersIgnoresLarger(n - 1, positions, j);
    }
  }

  lemma PickAppend(messages: seq<SessionEntry>, positions: seq<nat>, p: nat)
    requires InRange(positions, |messages|) && p < |messages|
    ensures multiset(Pick(messages, positions + [p])) == multiset(Pick(messages, positions)) + multiset{messages[p]}
  {
    assert Pick(messages, positions + [p]) == Pick(messages, positions) + [messages[p]];
  }

  /// Where a position stands in a selection does not matter for the multiset.
  lemma MoveToEnd(messages: seq<SessionEntry>, positions: seq<nat>, j: nat)
    requires InRange(positions, |messages|) && j < |positions|
    ensures multiset(Pick(messages, positions)) ==
      multiset(Pick(messages, positions[..j] + positions[j + 1..])) + multiset{messages[positions[j]]}
  {
    var before, after, it := positions[..j], positions[j + 1..], [positions[j]];
    assert positions == before + it + after;
    PickConcat(messages, before + it, after);
    PickAppend(messages, before, positions[j]);
    PickConcat(messages, before, after);
  }

  lemma WithoutTop(positions: seq<nat>, j: nat, top: nat)
    requires InRange(positions, top + 1) && Distinct(positions) && j < |positions| && positions[j] == top
    ensures
      var fewer := positions[..j] + positions[j + 1..];
      InRange(fewer, top) && Distinct(fewer) && |fewer| == |positions| - 1
  {
    var fewer := positions[..j] + positions[j + 1..];
    forall i | 0 <= i < |fewer| ensures fewer[i] < top {
      assert fewer[i] == positions[if i < j then i else i + 1];
    }
  }

  lemma PrefixAppend(messages: seq<SessionEntry>, n: nat)
    requires n < |messages|
    ensures multiset(messages[..n + 1]) == multiset(messages[..n]) + multiset{messages[n]}
  {
    assert messages[..n + 1] == messages[..n] + [messages[n]];
  }

  lemma FirstIsInRange(positions: seq<nat>, n: nat)
    requires InRange(positions, n)
    ensures positions == [] || positions[0] < n
  {
  }

  lemma NotAmong(positions: seq<nat>, n: nat)
    requires InRange(positions, n + 1) && n !in positions
    ensures InRange(positions, n)
  {
    forall i | 0 <= i < |positions| ensures positions[i] < n {
      assert positions[i] in positions;
    }
  }

  lemma Regroup<T>(kept: multiset<T>, dropped: multiset<T>, last: multiset<T>)
    ensures (kept + last) + dropped == (kept + dropped) + last == kept + (dropped + last)
  {
  }

  /// The selection and the rest are the first n messages.
  ghost predicate Conserves(messages: seq<SessionEntry>, positions: seq<nat>, n: nat)
    requires n <= |messages| && InRange(positions, |messages|)
  {
    && multiset(Pick(messages, positions)) + multiset(Pick(messages, Others(n, positions))) == multiset(messages[..n])
    && |positions| + |Others(n, positions)| == n
  }

  /// A selection without repetition and the rest make up the whole.
  lemma {:induction false} Conservation(messages: seq<SessionEntry>, positions: seq<nat>, n: nat)
    requires n <= |messages| && InRange(positions, n) && Distinct(positions)
    ensures Conserves(messages, positions, n)
    decreases n
  {
    hide Conserves, Others, Distinct, Pick;
    if n == 0 {
      FirstIsInRange(positions, 0);
      NothingConserved(messages);
    } else if n - 1 in positions {
      var fewer := TakeOffTop(messages, positions, n - 1);
      Conservation(messages, fewer, n - 1);
      TopKept(messages, positions, fewer, n - 1);
    } else {
      NotAmong(positions, n - 1);
      Conservation(messages, positions, n - 1);
      TopDropped(messages, positions, n - 1);
    }
  }

  lemma NothingConserved(messages: seq<SessionEntry>)
    ensures Conserves(messages, [], 0)
  {
    assert messages[..0] == [] && Pick(messages, []) == [];
  }

  lemma TopKept(messages: seq<SessionEntry>, positions: seq<nat>, fewer: seq<nat>, top: nat)
    requires top < |messages| && InRange(positions, |messages|) && InRange(fewer, |messages|) && top in positions
    requires Others(top, fewer) == Others(top, positions) && |positions| == |fewer| + 1
    requires Conserves(messages, fewer, top)
    requires multiset(Pick(messages, positions)) == multiset(Pick(messages, fewer)) + multiset{messages[top]}
    ensures Conserves(messages, positions, top + 1)
  {
    PrefixAppend(messages, top);
    assert Others(top + 1, positions) == Others(top, positions);
    hide Pick, Others;
    Regroup(multiset(Pick(messages, fewer)), multiset(Pick(messages, Others(top, positions))), multiset{messages[top]});
  }

  lemma TopDropped(messages: seq<SessionEntry>, positions: seq<nat>, top: nat)
    requires top < |messages| && InRange(positions, |messages|) && top !in positions
    requires Conserves(messages, positions, top)
    ensures Conserves(messages, positions, top + 1)
  {
    PrefixAppend(messages, top);
    PickAppend(messages, Others(top, positions), top);
    assert Others(top + 1, positions) == Others(top, positions) + [top];
    hide Pick, Others;
    Regroup(multiset(Pick(messages, positions)), multiset(Pick(messages, Others(top, positions))),
      multiset{messages[top]});
  }

  lemma TakeOffTop(messages: seq<SessionEntry>, positions: seq<nat>, top: nat) returns (fewer: seq<nat>)
    requires top < |messages| && InRange(positions, top + 1) && Distinct(positions) && top in positions
    ensures InRange(fewer, top) && Distinct(fewer) && |positions| == |fewer| + 1
    ensures Others(top, fewer) == Others(top, positions)
    ensures multiset(Pick(messages, positions)) == multiset(Pick(messages, fewer)) + multiset{messages[top]}
  {
    var j :| 0 <= j < |positions| && positions[j] == top;
    fewer := positions[..j] + positions[j + 1..];
    WithoutTop(positions, j, top);
    OthersIgnoresLarger(top, positions, j);
    hide Pick, Others, Distinct;
    MoveToEnd(messages, positions, j);
  }

  /// The token estimate depends only on which messages there are.
  lemma {:induction false} SameMessagesSameTokens(a: seq<SessionEntry>, b: seq<SessionEntry>)
    requires multiset(a) == multiset(b)
    ensures TotalTokens(a) == TotalTokens(b)
  {
    if a == [] {
      assert |multiset(b)| == 0;
    } else {
      var front, last := a[..|a| - 1], a[|a| - 1];
      var j := Occurrence(b, a, |a| - 1);
      var rest := b[..j] + b[j + 1..];
      MultisetWithout(a, |a| - 1);
      assert front + a[|a|..] == front;
      MultisetWithout(b, j);
      Cancel(multiset(front), multiset(rest), last);
      SameMessagesSameTokens(front, rest);
      TokensWithout(b, j);
    }
  }

  lemma Occurrence<T>(b: seq<T>, a: seq<T>, i: nat) returns (j: nat)
    requires multiset(a) == multiset(b) && i < |a|
    ensures j < |b| && b[j] == a[i]
  {
    assert a[i] in multiset(a);
    assert a[i] in b;
    j :| j < |b| && b[j] == a[i];
  }

  lemma MultisetWithout<T>(b: seq<T>, j: nat)
    requires j < |b|
    ensures multiset(b) == multiset(b[..j] + b[j + 1..]) + multiset{b[j]}
  {
    assert b == b[..j] + ([b[j]] + b[j + 1..]);
  }

  lemma Cancel<T>(a: multiset<T>, b: multiset<T>, x: T)
    requires a + multiset{x} == b + multiset{x}
    ensures a == b
  {
    assert a == (a + multiset{x}) - multiset{x};
    assert b == (b + multiset{x}) - multiset{x};
  }

  lemma TokensWithout(b: seq<SessionEntry>, j: nat)
    requires j < |b|
    ensures TotalTokens(b) == TotalTokens(b[..j] + b[j + 1..]) + EstimateTokens(b[j].content)
  {
    var front, back := b[..j], b[j + 1..];
    InTwoParts(b, j);
    TotalTokensConcat(b[..j + 1], back);
    TotalTokensConcat(front, back);
    assert b[..j + 1][..j] == front;
  }

  lemma InTwoParts<T>(b: seq<T>, j: nat)
    requires j < |b|
    ensures b == b[..j + 1] + b[j + 1..]
  {
  }

  // ----- What a prune keeps -----

  ghost predicate Within(positions: seq<nat>, from: nat, until: nat) {
    forall i | 0 <= i < |positions| :: from <= positions[i] < until
  }

  ghost predicate Precede(a: seq<nat>, b: seq<nat>) {
    forall i, j | 0 <= i < |a| && 0 <= j < |b| :: a[i] < b[j]
  }

  ghost predicate Disjoint(a: seq<nat>, b: seq<nat>) {
    forall i, j | 0 <= i < |a| && 0 <= j < |b| :: a[i] != b[j]
  }

  lemma DistinctConcat(a: seq<nat>, b: seq<nat>)
    requires Distinct(a) && Distinct(b) && Disjoint(a, b)
    ensures Distinct(a + b)
  {
  }

  lemma AscendingConcat(a: seq<nat>, b: seq<nat>)
    ensures Ascending(a + b) <==> Ascending(a) && Ascending(b) && Precede(a, b)
  {
    if Ascending(a + b) {
      forall i, j | 0 <= i < j < |a| ensures a[i] < a[j] {
        assert (a + b)[i] < (a + b)[j];
      }
      forall i, j | 0 <= i < j < |b| ensures b[i] < b[j] {
        assert (a + b)[|a| + i] < (a + b)[|a| + j];
      }
      forall i, j | 0 <= i < |a| && 0 <= j < |b| ensures a[i] < b[j] {
        assert (a + b)[i] < (a + b)[|a| + j];
      }
    }
  }

  /// Anchors and fill come from the older range, with and without tool calls; the recent block follows it.
  lemma Parts(messages: seq<SessionEntry>, budget: nat, keepRecent: nat)
    ensures
      var anchors, fill := KeptAnchors(messages, budget, keepRecent), FillPositions(messages, budget, keepRecent);
      var older, recent := OlderFrom(messages), RecentFrom(messages, keepRecent);
      && Ascending(anchors) && Within(anchors, older, recent)
      && Ascending(fill) && Within(fill, older, recent)
      && Disjoint(anchors, fill)
  {
    var older, recent := OlderFrom(messages), RecentFrom(messages, keepRecent);
    var anchors, fill := KeptAnchors(messages, budget, keepRecent), FillPositions(messages, budget, keepRecent);
    SplitIsExact(messages, older, recent, true);
    SplitIsExact(messages, older, recent, false);
    FillIsSelection(messages, PlainPositions(messages, keepRecent), Cost(messages, Base(messages, budget, keepRecent)),
      budget);
    forall i | 0 <= i < |anchors| ensures older <= anchors[i] < recent && messages[anchors[i]].toolCalls.Some? {
      assert anchors[i] in AnchorPositions(messages, keepRecent);
    }
    forall i | 0 <= i < |fill| ensures older <= fill[i] < recent && messages[fill[i]].toolCalls.None? {
      assert fill[i] in fill;
    }
  }

  /// Concatenation of blocks that follow one another.
  lemma AscendingParts(system: seq<nat>, anchors: seq<nat>, recent: seq<nat>, older: nat, from: nat, n: nat)
    requires Ascending(system) && Ascending(anchors) && Ascending(recent)
    requires older <= from && Within(system, 0, older) && Within(anchors, older, from) && Within(recent, from, n)
    ensures Ascending(system + anchors + recent)
  {
    AscendingConcat(system, anchors);
    AscendingConcat(system + anchors, recent);
  }

  /// The base is in the order of the history and disjoint from the fill.
  lemma BaseParts(messages: seq<SessionEntry>, budget: nat, keepRecent: nat)
    ensures Ascending(Base(messages, budget, keepRecent))
    ensures Disjoint(FillPositions(messages, budget, keepRecent), Base(messages, budget, keepRecent))
  {
    Parts(messages, budget, keepRecent);
    var system, anchors := SystemPositions(messages), KeptAnchors(messages, budget, keepRecent);
    var recent, fill := RecentPositions(messages, keepRecent), FillPositions(messages, budget, keepRecent);
    AscendingParts(system, anchors, recent, OlderFrom(messages), RecentFrom(messages, keepRecent), |messages|);
    DisjointParts(system, anchors, recent, fill, OlderFrom(messages), RecentFrom(messages, keepRecent), |messages|);
  }

  lemma DisjointParts(system: seq<nat>, anchors: seq<nat>, recent: seq<nat>, fill: seq<nat>, older: nat, from: nat,
      n: nat)
    requires Within(system, 0, older) && Within(recent, from, n) && Within(fill, older, from) && Disjoint(anchors, fill)
    ensures Disjoint(fill, system + anchors + recent)
  {
  }

  lemma MergeIsDistinct(messages: seq<SessionEntry>, base: seq<nat>, fill: seq<nat>)
    requires InRange(base, |messages|) && InRange(fill, |messages|)
    requires Distinct(base) && Distinct(fill) && Disjoint(fill, base)
    ensures Distinct(Merge(messages, base, fill))
  {
    if base != [] && messages[base[0]].role == System {
      DistinctConcat(fill, base[1..]);
      DistinctConcat([base[0]], fill + base[1..]);
      assert [base[0]] + (fill + base[1..]) == [base[0]] + fill + base[1..];
    } else {
      DistinctConcat(fill, base);
    }
  }

  /// No input message is used twice.
  lemma KeptIsDistinct(messages: seq<SessionEntry>, budget: nat, keepRecent: nat)
    ensures Distinct(KeptPositions(messages, budget, keepRecent))
  {
    BaseParts(messages, budget, keepRecent);
    Parts(messages, budget, keepRecent);
    MergeIsDistinct(messages, Base(messages, budget, keepRecent), FillPositions(messages, budget, keepRecent));
  }

  /// Kept and dropped messages together are exactly the input, and so are their tokens: pruning never adds tokens.
  lemma PruneConserves(messages: seq<SessionEntry>, budget: nat, keepRecent: nat)
    ensures
      var kept := KeptPositions(messages, budget, keepRecent);
      var dropped := Others(|messages|, kept);
      && multiset(Pick(messages, kept)) + multiset(Pick(messages, dropped)) == multiset(messages)
      && Cost(messages, kept) <= TotalTokens(messages)
      && |kept| + |dropped| == |messages|
  {
    var kept := KeptPositions(messages, budget, keepRecent);
    var dropped := Others(|messages|, kept);
    KeptIsDistinct(messages, budget, keepRecent);
    Conservation(messages, kept, |messages|);
    assert messages[..|messages|] == messages;
    TokensConserved(messages, Pick(messages, kept), Pick(messages, dropped));
    CostIsTotal(messages, kept);
  }

  lemma TokensConserved(messages: seq<SessionEntry>, kept: seq<SessionEntry>, dropped: seq<SessionEntry>)
    requires multiset(kept) + multiset(dropped) == multiset(messages)
    ensures TotalTokens(kept) + TotalTokens(dropped) == TotalTokens(messages)
  {
    SameMessagesSameTokens(kept + dropped, messages);
    TotalTokensConcat(kept, dropped);
  }

  lemma MergeMembers(messages: seq<SessionEntry>, base: seq<nat>, fill: seq<nat>, p: nat)
    requires InRange(base, |messages|) && InRange(fill, |messages|)
    ensures p in Merge(messages, base, fill) <==> p in base || p in fill
  {
    if base != [] {
      assert base == [base[0]] + base[1..];
    }
  }

  lemma MergeCost(messages: seq<SessionEntry>, base: seq<nat>, fill: seq<nat>)
    requires InRange(base, |messages|) && InRange(fill, |messages|)
    ensures Cost(messages, Merge(messages, base, fill)) == Cost(messages, base) + Cost(messages, fill)
  {
    hide Cost;
    CostConcat(messages, fill, base);
    if base != [] {
      assert base == [base[0]] + base[1..];
      BehindFirst(messages, [base[0]], fill, base[1..]);
    }
  }

  lemma BehindFirst(messages: seq<SessionEntry>, first: seq<nat>, fill: seq<nat>, rest: seq<nat>)
    requires InRange(first, |messages|) && InRange(fill, |messages|) && InRange(rest, |messages|)
    ensures Cost(messages, first + fill + rest) == Cost(messages, first + rest) + Cost(messages, fill)
  {
    hide Cost;
    CostConcat(messages, first + fill, rest);
    CostConcat(messages, first, fill);
    CostConcat(messages, first, rest);
  }

  function Max(a: nat, b: nat): nat {
    if a > b then a else b
  }

  /// What a prune cannot go below: the system message and the recent block.
  function Floor(messages: seq<SessionEntry>, keepRecent: nat): nat {
    Cost(messages, SystemPositions(messages) + RecentPositions(messages, keepRecent))
  }

  /// The anchors are dropped before they break the budget.
  lemma BaseCost(messages: seq<SessionEntry>, budget: nat, keepRecent: nat)
    ensures Cost(messages, Base(messages, budget, keepRecent)) <= Max(Floor(messages, keepRecent), budget)
  {
    var system, anchors := SystemPositions(messages), AnchorPositions(messages, keepRecent);
    var recent := RecentPositions(messages, keepRecent);
    CostConcat(messages, system + anchors, recent);
    hide Cost, EstimateTokens;
    assert system + [] + recent == system + recent;
  }

  /// The budget is exceeded only by the system message and the recent block.
  lemma PruneMeetsBudget(messages: seq<SessionEntry>, budget: nat, keepRecent: nat)
    ensures Cost(messages, KeptPositions(messages, budget, keepRecent)) <= Max(Floor(messages, keepRecent), budget)
  {
    var base, fill := Base(messages, budget, keepRecent), FillPositions(messages, budget, keepRecent);
    BaseCost(messages, budget, keepRecent);
    MergeCost(messages, base, fill);
    FillIsBounded(messages, PlainPositions(messages, keepRecent), Cost(messages, base), budget);
    NoCost(messages);
  }

  /// So what a prune returns is within the budget, unless the system message and the recent block alone are not, and
  /// never has more tokens than what it was given.
  lemma ResultMeetsBudget(messages: seq<SessionEntry>, budget: nat, keepRecent: nat, r: PruneResult)
    requires Prunes(messages, budget, keepRecent, r)
    ensures r.tokensAfter <= Max(Floor(messages, keepRecent), budget) && r.tokensAfter <= r.tokensBefore
    ensures |r.kept| <= |messages| && multiset(r.kept) <= multiset(messages)
  {
    hide Cost, TotalTokens, KeptPositions, Pick, WithoutTwin, Floor;
    if r.tokensBefore > budget {
      CostIsTotal(messages, KeptPositions(messages, budget, keepRecent));
      PruneMeetsBudget(messages, budget, keepRecent);
      PruneConserves(messages, budget, keepRecent);
    }
  }

  /// No older message without tool calls that was dropped would still fit.
  lemma PruneIsMaximal(messages: seq<SessionEntry>, budget: nat, keepRecent: nat, p: nat)
    requires p in PlainPositions(messages, keepRecent) && p !in KeptPositions(messages, budget, keepRecent)
    ensures p < |messages|
    ensures Cost(messages, KeptPositions(messages, budget, keepRecent)) + EstimateTokens(messages[p].content) > budget
  {
    var base, fill := Base(messages, budget, keepRecent), FillPositions(messages, budget, keepRecent);
    MergeMembers(messages, base, fill, p);
    MergeCost(messages, base, fill);
    FillIsMaximal(messages, PlainPositions(messages, keepRecent), Cost(messages, base), budget, p);
    SplitIsExact(messages, OlderFrom(messages), RecentFrom(messages, keepRecent), false);
  }

  lemma Member(positions: seq<nat>, p: nat)
    requires p in positions
    ensures exists i | 0 <= i < |positions| :: positions[i] == p
  {
  }

  /// Older messages with tool calls are kept exactly when all of them fit beside the system message and the recent
  /// block: together or not at all.
  lemma AnchorsAllOrNone(messages: seq<SessionEntry>, budget: nat, keepRecent: nat, p: nat)
    requires p in AnchorPositions(messages, keepRecent)
    ensures
      var system, recent := SystemPositions(messages), RecentPositions(messages, keepRecent);
      p in KeptPositions(messages, budget, keepRecent) <==>
        Cost(messages, system + AnchorPositions(messages, keepRecent) + recent) <= budget
  {
    var system, anchors := SystemPositions(messages), AnchorPositions(messages, keepRecent);
    var recent := RecentPositions(messages, keepRecent);
    CostConcat(messages, system + anchors, recent);
    MergeMembers(messages, Base(messages, budget, keepRecent), FillPositions(messages, budget, keepRecent), p);
    SplitIsExact(messages, OlderFrom(messages), RecentFrom(messages, keepRecent), true);
    AnchorIsNotFilled(messages, budget, keepRecent, p);
    assert p in Base(messages, budget, keepRecent) <==> p in KeptAnchors(messages, budget, keepRecent);
  }

  lemma AnchorIsNotFilled(messages: seq<SessionEntry>, budget: nat, keepRecent: nat, p: nat)
    requires p in AnchorPositions(messages, keepRecent)
    ensures p !in FillPositions(messages, budget, keepRecent)
    ensures p !in SystemPositions(messages) && p !in RecentPositions(messages, keepRecent)
  {
    SplitIsExact(messages, OlderFrom(messages), RecentFrom(messages, keepRecent), true);
    SplitIsExact(messages, OlderFrom(messages), RecentFrom(messages, keepRecent), false);
    FillIsSelection(messages, PlainPositions(messages, keepRecent), Cost(messages, Base(messages, budget, keepRecent)),
      budget);
  }

  // ----- Order -----

  /// The history has no System message but a leading one.
  ghost predicate SystemOnlyFirst(messages: seq<SessionEntry>) {
    forall i | 0 < i < |messages| :: messages[i].role != System
  }

  lemma MergeInOrder(messages: seq<SessionEntry>, system: seq<nat>, rest: seq<nat>, fill: seq<nat>)
    requires InRange(system, |messages|) && InRange(rest, |messages|) && InRange(fill, |messages|)
    requires system == SystemPositions(messages) && Within(rest, OlderFrom(messages), |messages|)
      && SystemOnlyFirst(messages)
    ensures Merge(messages, system + rest, fill) == system + fill + rest
  {
    var base := system + rest;
    if LeadingSystem(messages) {
      assert base[0] == 0 && base[1..] == rest;
    } else if base != [] {
      assert base == rest && messages[base[0]].role != System;
      assert fill + base == system + fill + rest;
    } else {
      assert fill + base == system + fill + rest;
    }
  }

  lemma ConcatAssociates(a: seq<nat>, b: seq<nat>, c: seq<nat>)
    ensures a + (b + c) == a + b + c
  {
  }

  /// With System only in front, the result is the system message, the fill, the anchors and the recent block,
  /// so the recent block is the end of it.
  lemma RecentBlockIsTheSuffix(messages: seq<SessionEntry>, budget: nat, keepRecent: nat)
    requires SystemOnlyFirst(messages)
    ensures KeptPositions(messages, budget, keepRecent) ==
      SystemPositions(messages) + FillPositions(messages, budget, keepRecent)
      + KeptAnchors(messages, budget, keepRecent) + RecentPositions(messages, keepRecent)
  {
    var system, fill := SystemPositions(messages), FillPositions(messages, budget, keepRecent);
    var anchors, recent := KeptAnchors(messages, budget, keepRecent), RecentPositions(messages, keepRecent);
    Parts(messages, budget, keepRecent);
    MergeInOrder(messages, system, anchors + recent, fill);
    ConcatAssociates(system, anchors, recent);
    ConcatAssociates(system + fill, anchors, recent);
  }

  /// Everything filled in stands at or before a exactly when no candidate behind a fits on its own.
  lemma {:induction false} FilledUpTo(messages: seq<SessionEntry>, candidates: seq<nat>, used: nat, budget: nat, a: nat)
    requires InRange(candidates, |messages|) && Ascending(candidates)
    ensures AtMost(Fill(messages, candidates, used, budget), a)
      <==> NoneFitsBehind(messages, candidates, used, budget, a)
  {
    hide Fill, EstimateTokens, AtMost, NoneFitsBehind, Ascending, ChosenFrom;
    if candidates == [] {
      NothingLeft(messages, used, budget);
      NoneBehind(messages, used, budget, a);
    } else {
      var front, last := candidates[..|candidates| - 1], candidates[|candidates| - 1];
      var cost := EstimateTokens(messages[last].content);
      FillStep(messages, candidates, used, budget);
      FrontAscends(front, last);
      if last <= a {
        FillIsSelection(messages, candidates, used, budget);
        AllAtMost(messages, candidates, Fill(messages, candidates, used, budget), used, budget, a);
      } else if used + cost <= budget {
        LastTooFar(messages, candidates, Fill(messages, front, used + cost, budget), used, budget, a);
      } else {
        FilledUpTo(messages, front, used, budget, a);
        LastTooLong(messages, candidates, used, budget, a);
      }
    }
  }

  lemma NoneBehind(messages: seq<SessionEntry>, used: nat, budget: nat, a: nat)
    ensures AtMost([], a) && NoneFitsBehind(messages, [], used, budget, a)
  {
  }

  lemma LastTooFar(messages: seq<SessionEntry>, candidates: seq<nat>, chosen: seq<nat>, used: nat, budget: nat, a: nat)
    requires InRange(candidates, |messages|) && candidates != [] && candidates[|candidates| - 1] > a
    requires used + EstimateTokens(messages[candidates[|candidates| - 1]].content) <= budget
    ensures !AtMost(chosen + [candidates[|candidates| - 1]], a)
      && !NoneFitsBehind(messages, candidates, used, budget, a)
  {
    assert (chosen + [candidates[|candidates| - 1]])[|chosen|] > a;
  }

  lemma LastTooLong(messages: seq<SessionEntry>, candidates: seq<nat>, used: nat, budget: nat, a: nat)
    requires InRange(candidates, |messages|) && candidates != []
    requires used + EstimateTokens(messages[candidates[|candidates| - 1]].content) > budget
    ensures NoneFitsBehind(messages, candidates, used, budget, a) <==>
      NoneFitsBehind(messages, candidates[..|candidates| - 1], used, budget, a)
  {
    hide EstimateTokens;
    var front := candidates[..|candidates| - 1];
    if NoneFitsBehind(messages, candidates, used, budget, a) {
      assert forall i | 0 <= i < |front| :: front[i] == candidates[i];
    }
  }

  ghost predicate AtMost(positions: seq<nat>, a: nat) {
    forall i | 0 <= i < |positions| :: positions[i] <= a
  }

  /// Each of these messages behind position a is too long for what is left beside the tokens already used.
  ghost predicate NoneFitsBehind(messages: seq<SessionEntry>, candidates: seq<nat>, used: nat, budget: nat, a: nat)
    requires InRange(candidates, |messages|)
  {
    forall i | 0 <= i < |candidates| && candidates[i] > a ::
      used + EstimateTokens(messages[candidates[i]].content) > budget
  }

  lemma AllAtMost(messages: seq<SessionEntry>, candidates: seq<nat>, chosen: seq<nat>, used: nat, budget: nat, a: nat)
    requires InRange(candidates, |messages|) && Ascending(candidates) && candidates != []
    requires candidates[|candidates| - 1] <= a && ChosenFrom(chosen, candidates)
    ensures AtMost(chosen, a) && NoneFitsBehind(messages, candidates, used, budget, a)
  {
    forall i | 0 <= i < |candidates| ensures candidates[i] <= a {
    }
    forall i | 0 <= i < |chosen| ensures chosen[i] <= a {
      Member(candidates, chosen[i]);
    }
  }

  /// The result is called chronological. With System only in front it is exactly when there is no older tool-call
  /// message, or they do not all fit beside the system message and the recent block, or beside all these no older
  /// message without tool calls that stands behind the first of them would fit on its own.
  lemma ChronologicalExactly(messages: seq<SessionEntry>, budget: nat, keepRecent: nat)
    requires SystemOnlyFirst(messages)
    ensures
      var anchors := AnchorPositions(messages, keepRecent);
      var used := Cost(messages, SystemPositions(messages) + anchors + RecentPositions(messages, keepRecent));
      Ascending(KeptPositions(messages, budget, keepRecent)) <==>
        || anchors == [] || used > budget
        || NoneFitsBehind(messages, PlainPositions(messages, keepRecent), used, budget, anchors[0])
  {
    ChronologicalByPieces(messages, budget, keepRecent);
    var anchors, plain := AnchorPositions(messages, keepRecent), PlainPositions(messages, keepRecent);
    var fill := FillPositions(messages, budget, keepRecent);
    KeptAnchorsExactly(messages, budget, keepRecent);
    hide KeptPositions;
    if KeptAnchors(messages, budget, keepRecent) != [] {
      SplitIsExact(messages, OlderFrom(messages), RecentFrom(messages, keepRecent), false);
      FilledUpTo(messages, plain, Cost(messages, Base(messages, budget, keepRecent)), budget, anchors[0]);
      Parts(messages, budget, keepRecent);
      PrecedeFirst(fill, anchors);
    }
  }

  lemma KeptAnchorsExactly(messages: seq<SessionEntry>, budget: nat, keepRecent: nat)
    ensures
      var anchors := AnchorPositions(messages, keepRecent);
      var used := Cost(messages, SystemPositions(messages) + anchors + RecentPositions(messages, keepRecent));
      && KeptAnchors(messages, budget, keepRecent) == (if used <= budget then anchors else [])
      && (used <= budget ==> Cost(messages, Base(messages, budget, keepRecent)) == used)
  {
    CostConcat(messages, SystemPositions(messages) + AnchorPositions(messages, keepRecent),
      RecentPositions(messages, keepRecent));
  }

  lemma PrecedeFirst(fill: seq<nat>, anchors: seq<nat>)
    requires anchors != [] && Ascending(anchors) && Disjoint(anchors, fill)
    ensures Precede(fill, anchors) <==> AtMost(fill, anchors[0])
  {
    if AtMost(fill, anchors[0]) {
      forall i, j | 0 <= i < |fill| && 0 <= j < |anchors| ensures fill[i] < anchors[j] {
        assert fill[i] <= anchors[0] && anchors[0] != fill[i];
      }
    }
  }

  lemma ChronologicalByPieces(messages: seq<SessionEntry>, budget: nat, keepRecent: nat)
    requires SystemOnlyFirst(messages)
    ensures Ascending(KeptPositions(messages, budget, keepRecent)) <==>
      Precede(FillPositions(messages, budget, keepRecent), KeptAnchors(messages, budget, keepRecent))
  {
    RecentBlockIsTheSuffix(messages, budget, keepRecent);
    Parts(messages, budget, keepRecent);
    InOrderExactly(SystemPositions(messages), FillPositions(messages, budget, keepRecent),
      KeptAnchors(messages, budget, keepRecent), RecentPositions(messages, keepRecent),
      OlderFrom(messages), RecentFrom(messages, keepRecent), |messages|);
  }

  lemma InOrderExactly(system: seq<nat>, fill: seq<nat>, anchors: seq<nat>, recent: seq<nat>, older: nat, from: nat,
      n: nat)
    requires Ascending(system) && Ascending(fill) && Ascending(anchors) && Ascending(recent)
    requires older <= from
    requires Within(system, 0, older) && Within(fill, older, from) && Within(anchors, older, from)
      && Within(recent, from, n)
    ensures Ascending(system + fill + anchors + recent) <==> Precede(fill, anchors)
  {
    var middle := fill + anchors;
    assert Within(middle, older, from) && Within(system + middle, 0, from);
    AscendingConcat(fill, anchors);
    AscendingConcat(system, middle);
    AscendingConcat(system + middle, recent);
    assert system + middle + recent == system + fill + anchors + recent;
  }

  /// The candidates from k on fit together, and no older one still fits beside them.
  ghost predicate NewestThatFit(messages: seq<SessionEntry>, candidates: seq<nat>, used: nat, budget: nat, k: nat)
    requires InRange(candidates, |messages|) && k <= |candidates|
  {
    var spent := used + Cost(messages, candidates[k..]);
    && (k == |candidates| || spent <= budget)
    && forall i | 0 <= i < k :: spent + EstimateTokens(messages[candidates[i]].content) > budget
  }

  /// The fill is called "dropping the oldest first"; it is the newest candidates from k on exactly when these fit
  /// together and no older one still fits beside them.
  lemma {:induction false} OldestFirstExactly(messages: seq<SessionEntry>, candidates: seq<nat>, used: nat, budget: nat,
      k: nat)
    requires InRange(candidates, |messages|) && Ascending(candidates) && k <= |candidates|
    ensures Fill(messages, candidates, used, budget) == candidates[k..]
      <==> NewestThatFit(messages, candidates, used, budget, k)
    decreases |candidates|
  {
    if candidates == [] {
      NoCost(messages);
    } else if used + EstimateTokens(messages[candidates[|candidates| - 1]].content) <= budget {
      LastFitsCase(messages, candidates, used, budget, k);
    } else {
      LastDoesNotFit(messages, candidates, used, budget, k);
    }
  }

  lemma LastFitsCase(messages: seq<SessionEntry>, candidates: seq<nat>, used: nat, budget: nat, k: nat)
    requires InRange(candidates, |messages|) && Ascending(candidates) && k <= |candidates| && candidates != []
    requires used + EstimateTokens(messages[candidates[|candidates| - 1]].content) <= budget
    ensures Fill(messages, candidates, used, budget) == candidates[k..]
      <==> NewestThatFit(messages, candidates, used, budget, k)
    decreases |candidates|, 0
  {
    hide NewestThatFit, Fill, EstimateTokens, Cost;
    var front, last := candidates[..|candidates| - 1], candidates[|candidates| - 1];
    var cost := EstimateTokens(messages[last].content);
    FillStep(messages, candidates, used, budget);
    if k == |candidates| {
      NoneFits(messages, candidates, used, budget);
      assert candidates[k..] == [];
    } else {
      OldestFirstExactly(messages, front, used + cost, budget, k);
      hide Ascending;
      LastFits(messages, candidates, used, budget, k);
      DropLast(candidates, Fill(messages, candidates, used, budget), front, Fill(messages, front, used + cost, budget),
        last, k);
    }
  }

  lemma LastDoesNotFit(messages: seq<SessionEntry>, candidates: seq<nat>, used: nat, budget: nat, k: nat)
    requires InRange(candidates, |messages|) && Ascending(candidates) && k <= |candidates| && candidates != []
    requires used + EstimateTokens(messages[candidates[|candidates| - 1]].content) > budget
    ensures Fill(messages, candidates, used, budget) == candidates[k..]
      <==> NewestThatFit(messages, candidates, used, budget, k)
    decreases |candidates|, 0
  {
    if k == |candidates| {
      var front := candidates[..|candidates| - 1];
      hide NewestThatFit;
      NoneFits(messages, candidates, used, budget);
      OldestFirstExactly(messages, front, used, budget, |front|);
      assert candidates[k..] == [] && front[|front|..] == [];
    } else {
      SuffixCost(messages, candidates, k);
      LastIsNotFilled(messages, candidates, used, budget, k);
    }
  }

  lemma NoneFits(messages: seq<SessionEntry>, candidates: seq<nat>, used: nat, budget: nat)
    requires InRange(candidates, |messages|) && candidates != []
    ensures
      var front, last := candidates[..|candidates| - 1], candidates[|candidates| - 1];
      NewestThatFit(messages, candidates, used, budget, |candidates|) <==>
        used + EstimateTokens(messages[last].content) > budget && NewestThatFit(messages, front, used, budget, |front|)
  {
    var front := candidates[..|candidates| - 1];
    assert candidates[|candidates|..] == [] && front[|front|..] == [] && Cost(messages, []) == 0;
    assert forall i | 0 <= i < |front| :: front[i] == candidates[i];
  }

  lemma LastFits(messages: seq<SessionEntry>, candidates: seq<nat>, used: nat, budget: nat, k: nat)
    requires InRange(candidates, |messages|) && k < |candidates|
    requires used + EstimateTokens(messages[candidates[|candidates| - 1]].content) <= budget
    ensures
      var front, last := candidates[..|candidates| - 1], candidates[|candidates| - 1];
      NewestThatFit(messages, candidates, used, budget, k) <==>
        NewestThatFit(messages, front, used + EstimateTokens(messages[last].content), budget, k)
  {
    var front := candidates[..|candidates| - 1];
    SuffixCost(messages, candidates, k);
    assert forall i | 0 <= i < k :: front[i] == candidates[i];
  }

  lemma SuffixCost(messages: seq<SessionEntry>, candidates: seq<nat>, k: nat)
    requires InRange(candidates, |messages|) && k < |candidates|
    ensures
      var front, last := candidates[..|candidates| - 1], candidates[|candidates| - 1];
      && Cost(messages, candidates[k..]) == Cost(messages, front[k..]) + EstimateTokens(messages[last].content)
      && (k == |front| ==> Cost(messages, front[k..]) == 0)
  {
    var front, last := candidates[..|candidates| - 1], candidates[|candidates| - 1];
    hide Cost, EstimateTokens;
    SuffixSplit(candidates, k);
    CostAppend(messages, front[k..], last);
    NoCost(messages);
  }

  lemma SuffixSplit(candidates: seq<nat>, k: nat)
    requires k < |candidates|
    ensures
      var front := candidates[..|candidates| - 1];
      && candidates[k..] == front[k..] + [candidates[|candidates| - 1]]
      && (k == |front| ==> front[k..] == [])
  {
  }

  lemma DropLast(whole: seq<nat>, filled: seq<nat>, front: seq<nat>, chosen: seq<nat>, last: nat, k: nat)
    requires whole == front + [last] && filled == chosen + [last] && k <= |front|
    ensures filled == whole[k..] <==> chosen == front[k..]
  {
    assert whole[k..] == front[k..] + [last];
    if filled == whole[k..] {
      assert chosen == filled[..|chosen|] == front[k..];
    }
  }

  lemma LastIsNotFilled(messages: seq<SessionEntry>, candidates: seq<nat>, used: nat, budget: nat, k: nat)
    requires InRange(candidates, |messages|) && Ascending(candidates) && k < |candidates|
    requires used + EstimateTokens(messages[candidates[|candidates| - 1]].content) > budget
    ensures Fill(messages, candidates, used, budget) != candidates[k..]
  {
    var front, last := candidates[..|candidates| - 1], candidates[|candidates| - 1];
    FillIsSelection(messages, front, used, budget);
    assert last !in front;
    assert candidates[k..][|candidates| - 1 - k] == last;
  }

  // ----- The report of removed messages -----

  /// No message outside the selection has a twin inside it.
  ghost predicate NoDroppedTwin(messages: seq<SessionEntry>, positions: seq<nat>, n: nat)
    requires n <= |messages| && InRange(positions, |messages|)
  {
    forall p: nat | p < n && p !in positions :: !HasTwin(messages[p], Pick(messages, positions))
  }

  lemma KeptIsItsOwnTwin(messages: seq<SessionEntry>, positions: seq<nat>, p: nat)
    requires InRange(positions, |messages|) && p in positions
    ensures p < |messages| && HasTwin(messages[p], Pick(messages, positions))
  {
    Member(positions, p);
    var i :| 0 <= i < |positions| && positions[i] == p;
    assert Pick(messages, positions)[i] == messages[p];
  }

  /// The report never lists more than was dropped, and lists exactly that when no dropped message has a twin.
  lemma {:induction false} RemovedUpTo(messages: seq<SessionEntry>, positions: seq<nat>, n: nat)
    requires InRange(positions, |messages|) && n <= |messages|
    ensures
      var removed, others := WithoutTwin(messages[..n], Pick(messages, positions)), Others(n, positions);
      && |removed| <= |others|
      && (NoDroppedTwin(messages, positions, n) ==> removed == Pick(messages, others))
      && (!NoDroppedTwin(messages, positions, n) ==> |removed| < |others|)
  {
    if n > 0 {
      var last := n - 1;
      RemovedUpTo(messages, positions, last);
      assert messages[..n][..last] == messages[..last];
      if last in positions {
        KeptIsItsOwnTwin(messages, positions, last);
      } else {
        PickConcat(messages, Others(last, positions), [last]);
        assert Pick(messages, [last]) == [messages[last]];
      }
    }
  }

  /// Kept and reported messages are at most the input, and the report is the dropped messages exactly when no dropped
  /// message shares content and role with a kept one.
  lemma RemovedExactly(messages: seq<SessionEntry>, budget: nat, keepRecent: nat)
    ensures
      var kept := KeptPositions(messages, budget, keepRecent);
      var removed := WithoutTwin(messages, Pick(messages, kept));
      && |kept| + |removed| <= |messages|
      && (removed == Pick(messages, Others(|messages|, kept)) <==> NoDroppedTwin(messages, kept, |messages|))
  {
    var kept := KeptPositions(messages, budget, keepRecent);
    assert messages[..|messages|] == messages;
    PruneConserves(messages, budget, keepRecent);
    RemovedUpTo(messages, kept, |messages|);
  }

  /// With distinct pairs of content and role the report is always right.
  lemma DistinctPairsAreReported(messages: seq<SessionEntry>, budget: nat, keepRecent: nat)
    requires forall i, j | 0 <= i < j < |messages| ::
      (messages[i].content, messages[i].role) != (messages[j].content, messages[j].role)
    ensures
      var kept := KeptPositions(messages, budget, keepRecent);
      WithoutTwin(messages, Pick(messages, kept)) == Pick(messages, Others(|messages|, kept))
  {
    var kept := KeptPositions(messages, budget, keepRecent);
    forall p: nat | p < |messages| && p !in kept ensures !HasTwin(messages[p], Pick(messages, kept)) {
      forall i | 0 <= i < |kept|
        ensures (messages[kept[i]].content, messages[kept[i]].role) != (messages[p].content, messages[p].role)
      {
        assert kept[i] != p;
      }
    }
    RemovedExactly(messages, budget, keepRecent);
  }

  // ----- Small histories -----

  function Note(content: string): SessionEntry {
    SessionEntry(User, content, None, None, None, None, None)
  }

  lemma OnlyTheLast(messages: seq<SessionEntry>)
    requires |messages| == 2 && forall i | 0 <= i < 2 :: messages[i].role == User && messages[i].toolCalls.None?
    requires forall i | 0 <= i < 2 :: EstimateTokens(messages[i].content) == 1
    ensures KeptPositions(messages, 1, 1) == [1]
  {
    hide EstimateTokens, Cost, Fill, SystemPositions, AnchorPositions, PlainPositions, RecentPositions, KeptAnchors;
    PiecesOfTwo(messages);
    assert Base(messages, 1, 1) == [1];
    CostOne(messages, 1);
    FillStep(messages, [0], 1, 1);
    NothingLeft(messages, 1, 1);
  }

  lemma PiecesOfTwo(messages: seq<SessionEntry>)
    requires |messages| == 2 && forall i | 0 <= i < 2 :: messages[i].role == User && messages[i].toolCalls.None?
    ensures SystemPositions(messages) == [] && RecentPositions(messages, 1) == [1]
    ensures KeptAnchors(messages, 1, 1) == [] && PlainPositions(messages, 1) == [0]
  {
    hide EstimateTokens, Cost;
    assert Split(messages, 0, 0, false) == [] && Split(messages, 0, 0, true) == [];
    assert Split(messages, 0, 1, false) == [0] && Split(messages, 0, 1, true) == [];
  }

  /// A dropped message with a kept twin is not reported.
  lemma TwinIsNotReported()
    ensures
      var messages := [Note("stop"), Note("stop")];
      && KeptPositions(messages, 1, 1) == [1]
      && WithoutTwin(messages, Pick(messages, KeptPositions(messages, 1, 1))) == []
  {
    var messages := [Note("stop"), Note("stop")];
    AsciiBytes("stop");
    OnlyTheLast(messages);
    NothingReported(messages);
  }

  lemma NothingReported(messages: seq<SessionEntry>)
    requires |messages| == 2 && messages[0] == messages[1]
    ensures WithoutTwin(messages, Pick(messages, [1])) == []
  {
    var kept := Pick(messages, [1]);
    KeptIsItsOwnTwin(messages, [1], 1);
    assert messages[..1] == [messages[0]] && messages[..1][..0] == [];
    assert WithoutTwin(messages[..1], kept) == [];
  }

  /// A newer message is dropped while an older, shorter one is kept.
  lemma OlderKeptNewerDropped()
    ensures KeptPositions([Note("stop"), Note("stopstop"), Note("stop")], 2, 1) == [0, 2]
  {
    AsciiBytes("stop");
    AsciiBytes("stopstop");
    OlderStillFits([Note("stop"), Note("stopstop"), Note("stop")]);
  }

  lemma OlderStillFits(messages: seq<SessionEntry>)
    requires |messages| == 3 && forall i | 0 <= i < 3 :: messages[i].role == User && messages[i].toolCalls.None?
    requires EstimateTokens(messages[0].content) == EstimateTokens(messages[2].content) == 1
    requires EstimateTokens(messages[1].content) == 2
    ensures KeptPositions(messages, 2, 1) == [0, 2]
  {
    hide EstimateTokens;
    assert Split(messages, 0, 1, false) == [0] && Split(messages, 0, 1, true) == [];
    assert PlainPositions(messages, 1) == [0, 1] && AnchorPositions(messages, 1) == [];
    hide Split, Cost;
    assert Base(messages, 2, 1) == [2];
    CostOne(messages, 2);
    hide Base, Fill;
    FillStep(messages, [0, 1], 1, 2);
    FillStep(messages, [0], 1, 2);
    NothingLeft(messages, 2, 2);
  }

  function ToolNote(content: string): SessionEntry {
    SessionEntry(Assistant, content, None, None, Some([]), None, None)
  }

  /// A later message is put before an earlier tool call.
  lemma OutOfOrder()
    ensures
      var messages := [ToolNote("stop"), Note("stop"), Note("stop"), Note("stopstopstopstop")];
      SystemOnlyFirst(messages) && !Ascending(KeptPositions(messages, 6, 1))
  {
    var messages := [ToolNote("stop"), Note("stop"), Note("stop"), Note("stopstopstopstop")];
    AsciiBytes("stop");
    AsciiBytes("stopstopstopstop");
    AnchorThenPlain(messages);
  }

  lemma AnchorThenPlain(messages: seq<SessionEntry>)
    requires |messages| == 4 && SystemOnlyFirst(messages) && messages[0].role != System
    requires messages[0].toolCalls.Some? && messages[1].toolCalls.None? && messages[2].toolCalls.None?
    requires forall i | 0 <= i < 3 :: EstimateTokens(messages[i].content) == 1
    requires EstimateTokens(messages[3].content) == 4
    ensures !Ascending(KeptPositions(messages, 6, 1))
  {
    hide EstimateTokens;
    assert Split(messages, 0, 1, true) == [0] && Split(messages, 0, 1, false) == [];
    assert Split(messages, 0, 2, true) == [0] && Split(messages, 0, 2, false) == [1];
    assert AnchorPositions(messages, 1) == [0] && PlainPositions(messages, 1) == [1, 2];
    assert RecentPositions(messages, 1) == [3] && SystemPositions(messages) == [];
    CostOne(messages, 0);
    CostAppend(messages, [0], 3);
    assert [] + [0] + [3] == [0] + [3];
    hide Split, Cost, KeptPositions;
    ChronologicalExactly(messages, 6, 1);
    assert !NoneFitsBehind(messages, [1, 2], 5, 6, 0) by {
      assert [1, 2][0] > 0 && 5 + EstimateTokens(messages[1].content) <= 6;
    }
  }
}
