/// Reassembly of tool calls from the interleaved deltas of a stream (runner.rs, complete_streaming).

module ToolCallAssembly {
  import opened Core

  datatype ToolCallDelta = ToolCallDelta(
    index: nat,
    id: Option<string>,
    functionName: Option<string>,
    functionArguments: Option<string>)

  /// One value of the accumulation map: id, name and arguments received so far.
  datatype PartialCall = PartialCall(id: string, name: string, arguments: string)

  // ----- What a delta sequence means, index by index -----

  /// The deltas of one index, in arrival order.
  function OwnDeltas(deltas: seq<ToolCallDelta>, index: nat): seq<ToolCallDelta> {
    if deltas == [] then []
    else if deltas[|deltas| - 1].index == index then OwnDeltas(deltas[..|deltas| - 1], index) + [deltas[|deltas| - 1]]
    else OwnDeltas(deltas[..|deltas| - 1], index)
  }

  function Indices(deltas: seq<ToolCallDelta>): set<nat> {
    set d | d in deltas :: d.index
  }

  function LastId(deltas: seq<ToolCallDelta>): string {
    if deltas == [] then ""
    else deltas[|deltas| - 1].id.UnwrapOr(LastId(deltas[..|deltas| - 1]))
  }

  function LastName(deltas: seq<ToolCallDelta>): string {
    if deltas == [] then ""
    else deltas[|deltas| - 1].functionName.UnwrapOr(LastName(deltas[..|deltas| - 1]))
  }

  function JoinedArguments(deltas: seq<ToolCallDelta>): string {
    if deltas == [] then ""
    else JoinedArguments(deltas[..|deltas| - 1]) + deltas[|deltas| - 1].functionArguments.UnwrapOr("")
  }

  function CallOf(own: seq<ToolCallDelta>): ToolCall {
    ToolCall(LastId(own), "function", LastName(own), JoinedArguments(own))
  }

  function Finish(call: PartialCall): ToolCall {
    ToolCall(call.id, "function", call.name, call.arguments)
  }

  /// The map holds exactly the indices seen, each with the value of its own deltas.
  ghost predicate Describes(calls: map<nat, PartialCall>, deltas: seq<ToolCallDelta>) {
    && calls.Keys == Indices(deltas)
    && forall i | i in calls :: Finish(calls[i]) == CallOf(OwnDeltas(deltas, i))
  }

  // ----- The ascending enumeration of a finite set of indices -----

  ghost predicate StrictlyAscending(s: seq<nat>) {
    forall i, j | 0 <= i < j < |s| :: s[i] < s[j]
  }

  ghost predicate Enumerates(order: seq<nat>, indices: set<nat>) {
    && StrictlyAscending(order)
    && (forall i | 0 <= i < |order| :: order[i] in indices)
    && (forall x | x in indices :: x in order)
  }

  lemma {:induction false} EnumerationExists(indices: set<nat>) returns (order: seq<nat>)
    ensures Enumerates(order, indices)
    decreases |indices|
  {
    order := [];
    if indices != {} {
      var top := Largest(indices);
      var rest := EnumerationExists(indices - {top});
      order := rest + [top];
    }
  }

  lemma {:induction false} Largest(indices: set<nat>) returns (top: nat)
    requires indices != {}
    ensures top in indices && forall x | x in indices :: x <= top
    decreases |indices|
  {
    var some :| some in indices;
    top := some;
    if indices != {some} {
      var other := Largest(indices - {some});
      top := if other > some then other else some;
      assert forall x | x in indices :: x in indices - {some} || x == some;
    }
  }

  lemma {:induction false} EnumerationIsUnique(a: seq<nat>, b: seq<nat>, indices: set<nat>)
    requires Enumerates(a, indices) && Enumerates(b, indices)
    ensures a == b
    decreases |a|
  {
    assert a != [] ==> a[0] in b;
    assert b != [] ==> b[0] in a;
    if a != [] {
      var x, y := a[|a| - 1], b[|b| - 1];
      assert x in b && y in a;
      assert x == y;
      DropLargest(a, indices);
      DropLargest(b, indices);
      EnumerationIsUnique(a[..|a| - 1], b[..|b| - 1], indices - {x});
      assert a == a[..|a| - 1] + [x] && b == b[..|b| - 1] + [x];
    }
  }

  lemma DropLargest(order: seq<nat>, indices: set<nat>)
    requires order != [] && Enumerates(order, indices)
    ensures Enumerates(order[..|order| - 1], indices - {order[|order| - 1]})
  {
    var front, last := order[..|order| - 1], order[|order| - 1];
    forall x | x in indices - {last} ensures x in front {
      var i :| 0 <= i < |order| && order[i] == x;
      assert front[i] == x;
    }
  }

  /// The one ascending order of a set of indices.
  ghost function InOrder(indices: set<nat>): (order: seq<nat>)
    ensures Enumerates(order, indices)
  {
    assert exists order: seq<nat> :: Enumerates(order, indices) by {
      var order := EnumerationExists(indices);
    }
    var order: seq<nat> :| Enumerates(order, indices);
    order
  }

  /// The tool calls a delta sequence stands for: one per index, by ascending index.
  ghost function ToolCallsOf(deltas: seq<ToolCallDelta>): seq<ToolCall> {
    var order := InOrder(Indices(deltas));
    seq(|order|, i requires 0 <= i < |order| => CallOf(OwnDeltas(deltas, order[i])))
  }

  // ----- The code -----

  /// The loop over the deltas of one chunk; `before` is what earlier chunks of the attempt brought.
  method AccumulateDeltas(calls: map<nat, PartialCall>, deltas: seq<ToolCallDelta>, ghost before: seq<ToolCallDelta>)
    returns (result: map<nat, PartialCall>)
    requires Describes(calls, before)
    ensures Describes(result, before + deltas)
  {
    result := calls;
    ghost var seen := before;
    for k := 0 to |deltas|
      invariant seen == before + deltas[..k] && Describes(result, seen)
    {
      result := AccumulateDelta(result, deltas[k], seen);
      seen := seen + [deltas[k]];
    }
    assert deltas[..|deltas|] == deltas;
  }

  method AccumulateDelta(calls: map<nat, PartialCall>, delta: ToolCallDelta, ghost before: seq<ToolCallDelta>)
    returns (result: map<nat, PartialCall>)
    requires Describes(calls, before)
    ensures Describes(result, before + [delta])
  {
    var entry := if delta.index in calls then calls[delta.index] else PartialCall("", "", "");
    if delta.id.Some? {
      entry := entry.(id := delta.id.value);
    }
    if delta.functionName.Some? {
      entry := entry.(name := delta.functionName.value);
    }
    if delta.functionArguments.Some? {
      entry := entry.(arguments := entry.arguments + delta.functionArguments.value);
    }
    ExtendDescription(calls, before, delta, entry);
    result := calls[delta.index := entry];
  }

  /// One delta changes the entry of its own index only.
  lemma ExtendDescription(calls: map<nat, PartialCall>, deltas: seq<ToolCallDelta>, delta: ToolCallDelta,
      entry: PartialCall)
    requires Describes(calls, deltas)
    requires
      var was := if delta.index in calls then calls[delta.index] else PartialCall("", "", "");
      && entry.id == delta.id.UnwrapOr(was.id)
      && entry.name == delta.functionName.UnwrapOr(was.name)
      && entry.arguments == was.arguments + delta.functionArguments.UnwrapOr("")
    ensures Describes(calls[delta.index := entry], deltas + [delta])
  {
    var all, own := deltas + [delta], OwnDeltas(deltas, delta.index);
    if delta.index !in calls {
      AbsentIndex(deltas, delta.index);
    }
    CallOfOneMore(own, delta);
    assert all[..|all| - 1] == deltas;
    IndicesOfOneMore(deltas, delta);
    forall i | i in Indices(all) && i != delta.index
      ensures OwnDeltas(all, i) == OwnDeltas(deltas, i)
    {
    }
  }

  lemma CallOfOneMore(own: seq<ToolCallDelta>, delta: ToolCallDelta)
    ensures CallOf(own + [delta]) == ToolCall(
      delta.id.UnwrapOr(LastId(own)), "function", delta.functionName.UnwrapOr(LastName(own)),
      JoinedArguments(own) + delta.functionArguments.UnwrapOr(""))
  {
    assert (own + [delta])[..|own|] == own;
  }

  lemma IndicesOfOneMore(deltas: seq<ToolCallDelta>, delta: ToolCallDelta)
    ensures Indices(deltas + [delta]) == Indices(deltas) + {delta.index}
  {
    assert forall d :: d in deltas + [delta] <==> d in deltas || d == delta;
    assert delta in deltas + [delta];
  }

  lemma {:induction false} AbsentIndex(deltas: seq<ToolCallDelta>, index: nat)
    requires index !in Indices(deltas)
    ensures OwnDeltas(deltas, index) == []
  {
    if deltas != [] {
      assert deltas[|deltas| - 1] in deltas;
      assert Indices(deltas[..|deltas| - 1]) <= Indices(deltas);
      AbsentIndex(deltas[..|deltas| - 1], index);
    }
  }

  /// The standard library's stable sort by key, as an insertion sort on values.
  function SortByIndex(pairs: seq<(nat, ToolCall)>): seq<(nat, ToolCall)> {
    if pairs == [] then [] else Insert(pairs[|pairs| - 1], SortByIndex(pairs[..|pairs| - 1]))
  }

  function Insert(pair: (nat, ToolCall), sorted: seq<(nat, ToolCall)>): seq<(nat, ToolCall)> {
    if sorted == [] || sorted[|sorted| - 1].0 <= pair.0 then sorted + [pair]
    else Insert(pair, sorted[..|sorted| - 1]) + [sorted[|sorted| - 1]]
  }

  ghost predicate AscendingPairs(pairs: seq<(nat, ToolCall)>) {
    forall i, j | 0 <= i < j < |pairs| :: pairs[i].0 < pairs[j].0
  }

  lemma {:induction false} InsertSorts(pair: (nat, ToolCall), sorted: seq<(nat, ToolCall)>)
    requires AscendingPairs(sorted) && forall q | q in sorted :: q.0 != pair.0
    ensures AscendingPairs(Insert(pair, sorted))
    ensures forall q :: q in Insert(pair, sorted) <==> q == pair || q in sorted
  {
    if sorted != [] && sorted[|sorted| - 1].0 > pair.0 {
      var front, last := sorted[..|sorted| - 1], sorted[|sorted| - 1];
      assert sorted == front + [last];
      InsertSorts(pair, front);
      BehindAll(Insert(pair, front), last);
    }
  }

  lemma BehindAll(front: seq<(nat, ToolCall)>, last: (nat, ToolCall))
    requires AscendingPairs(front) && forall q | q in front :: q.0 < last.0
    ensures AscendingPairs(front + [last])
  {
  }

  lemma {:induction false} SortSorts(pairs: seq<(nat, ToolCall)>)
    requires forall i, j | 0 <= i < j < |pairs| :: pairs[i].0 != pairs[j].0
    ensures AscendingPairs(SortByIndex(pairs))
    ensures forall q :: q in SortByIndex(pairs) <==> q in pairs
  {
    if pairs != [] {
      var front, last := pairs[..|pairs| - 1], pairs[|pairs| - 1];
      assert pairs == front + [last];
      SortSorts(front);
      InsertSorts(last, SortByIndex(front));
    }
  }

  /// Drains the map in whatever order the hash map yields.
  method Collect(calls: map<nat, PartialCall>) returns (pairs: seq<(nat, ToolCall)>)
    ensures forall q | q in pairs :: q.0 in calls && q.1 == Finish(calls[q.0])
    ensures forall i, j | 0 <= i < j < |pairs| :: pairs[i].0 != pairs[j].0
    ensures forall x | x in calls :: (x, Finish(calls[x])) in pairs
  {
    pairs := [];
    var rest := calls.Keys;
    while rest != {}
      invariant rest <= calls.Keys
      invariant forall i | 0 <= i < |pairs| ::
        pairs[i].0 in calls && pairs[i].0 !in rest && pairs[i].1 == Finish(calls[pairs[i].0])
      invariant forall i, j | 0 <= i < j < |pairs| :: pairs[i].0 != pairs[j].0
      invariant forall x | x in calls && x !in rest :: (x, Finish(calls[x])) in pairs
      decreases |rest|
    {
      var k :| k in rest;
      pairs := pairs + [(k, Finish(calls[k]))];
      rest := rest - {k};
    }
  }

  /// Collects the map, sorts by index, drops the indices.
  method BuildToolCalls(calls: map<nat, PartialCall>, ghost deltas: seq<ToolCallDelta>) returns (list: seq<ToolCall>)
    requires Describes(calls, deltas)
    ensures list == ToolCallsOf(deltas)
  {
    var pairs := Collect(calls);
    SortSorts(pairs);
    pairs := SortByIndex(pairs);
    list := seq(|pairs|, i requires 0 <= i < |pairs| => pairs[i].1);
    SortedListIsToolCalls(calls, deltas, pairs, list);
  }

  lemma SortedListIsToolCalls(
      calls: map<nat, PartialCall>, deltas: seq<ToolCallDelta>, pairs: seq<(nat, ToolCall)>, list: seq<ToolCall>)
    requires Describes(calls, deltas) && AscendingPairs(pairs)
    requires forall q | q in pairs :: q.0 in calls && q.1 == Finish(calls[q.0])
    requires forall x | x in calls :: (x, Finish(calls[x])) in pairs
    requires |list| == |pairs| && forall i | 0 <= i < |pairs| :: list[i] == pairs[i].1
    ensures list == ToolCallsOf(deltas)
  {
    hide Finish, CallOf, OwnDeltas, Indices;
    var order := seq(|pairs|, i requires 0 <= i < |pairs| => pairs[i].0);
    PairsEnumerate(calls, pairs, order);
    EnumerationIsUnique(order, InOrder(calls.Keys), calls.Keys);
    forall i | 0 <= i < |pairs| ensures list[i] == CallOf(OwnDeltas(deltas, order[i])) {
      assert pairs[i] in pairs;
    }
  }

  lemma PairsEnumerate(calls: map<nat, PartialCall>, pairs: seq<(nat, ToolCall)>, order: seq<nat>)
    requires AscendingPairs(pairs) && |order| == |pairs| && forall i | 0 <= i < |pairs| :: order[i] == pairs[i].0
    requires forall q | q in pairs :: q.0 in calls
    requires forall x | x in calls :: (x, Finish(calls[x])) in pairs
    ensures Enumerates(order, calls.Keys)
  {
    hide Finish;
    forall i | 0 <= i < |order| ensures order[i] in calls {
      assert pairs[i] in pairs;
    }
    forall x | x in calls.Keys ensures x in order {
      var i :| 0 <= i < |pairs| && pairs[i] == (x, Finish(calls[x]));
      assert order[i] == x;
    }
  }

  // ----- What follows about the assembled list -----

  /// Ascending by index, one call per index, none lost and none repeated.
  lemma OneCallPerIndex(deltas: seq<ToolCallDelta>) returns (order: seq<nat>)
    ensures Enumerates(order, Indices(deltas))
    ensures |ToolCallsOf(deltas)| == |order| == |Indices(deltas)|
    ensures forall i | 0 <= i < |order| :: ToolCallsOf(deltas)[i] == CallOf(OwnDeltas(deltas, order[i]))
  {
    order := InOrder(Indices(deltas));
    EnumerationLength(order, Indices(deltas));
  }

  lemma {:induction false} EnumerationLength(order: seq<nat>, indices: set<nat>)
    requires Enumerates(order, indices)
    ensures |order| == |indices|
    decreases |order|
  {
    if order == [] {
      assert indices == {};
    } else {
      DropLargest(order, indices);
      EnumerationLength(order[..|order| - 1], indices - {order[|order| - 1]});
    }
  }

  /// The result depends on each index's own deltas only, not on how they interleave.
  lemma InterleavingIsIrrelevant(a: seq<ToolCallDelta>, b: seq<ToolCallDelta>)
    requires forall i: nat :: OwnDeltas(a, i) == OwnDeltas(b, i)
    ensures ToolCallsOf(a) == ToolCallsOf(b)
  {
    forall i: nat ensures i in Indices(a) <==> i in Indices(b) {
      PresentIndex(a, i);
      PresentIndex(b, i);
    }
    assert Indices(a) == Indices(b);
  }

  lemma {:induction false} PresentIndex(deltas: seq<ToolCallDelta>, index: nat)
    ensures index in Indices(deltas) <==> OwnDeltas(deltas, index) != []
  {
    if index !in Indices(deltas) {
      AbsentIndex(deltas, index);
    } else if deltas[|deltas| - 1].index != index {
      var front := deltas[..|deltas| - 1];
      var d :| d in deltas && d.index == index;
      assert d in front;
      PresentIndex(front, index);
    }
  }

  lemma {:induction false} OwnOfConcat(a: seq<ToolCallDelta>, b: seq<ToolCallDelta>, index: nat)
    ensures OwnDeltas(a + b, index) == OwnDeltas(a, index) + OwnDeltas(b, index)
  {
    if b == [] {
      assert a + b == a;
    } else {
      var front := b[..|b| - 1];
      assert (a + b)[..|a + b| - 1] == a + front;
      OwnOfConcat(a, front, index);
    }
  }

  /// The state of one call depends on its own deltas through a fold that concatenation extends.
  lemma {:induction false} CallOfExtension(a: seq<ToolCallDelta>, b: seq<ToolCallDelta>, tail: seq<ToolCallDelta>)
    requires CallOf(a) == CallOf(b)
    ensures CallOf(a + tail) == CallOf(b + tail)
  {
    if tail == [] {
      assert a + tail == a && b + tail == b;
    } else {
      var front, last := tail[..|tail| - 1], tail[|tail| - 1];
      assert (a + tail)[..|a + tail| - 1] == a + front && (b + tail)[..|b + tail| - 1] == b + front;
      CallOfExtension(a, b, front);
    }
  }

  lemma FragmentsJoin(own: seq<ToolCallDelta>, delta: ToolCallDelta, left: string, right: string)
    requires delta.functionArguments == Some(left + right)
    ensures
      var first := delta.(functionArguments := Some(left));
      var second := ToolCallDelta(delta.index, None, None, Some(right));
      CallOf(own + [first] + [second]) == CallOf(own + [delta])
  {
    var first := delta.(functionArguments := Some(left));
    var second := ToolCallDelta(delta.index, None, None, Some(right));
    var both := own + [first] + [second];
    assert both[..|both| - 1] == own + [first];
    assert (own + [first])[..|own|] == own && (own + [delta])[..|own|] == own;
    assert LastId(both) == LastId(own + [first]) == LastId(own + [delta]);
    assert LastName(both) == LastName(own + [first]) == LastName(own + [delta]);
    assert JoinedArguments(both) == JoinedArguments(own + [first]) + right;
    assert JoinedArguments(own + [first]) == JoinedArguments(own) + left;
    assert JoinedArguments(own + [delta]) == JoinedArguments(own) + (left + right);
    assert (JoinedArguments(own) + left) + right == JoinedArguments(own) + (left + right);
  }

  /// Splitting one argument fragment in two changes nothing, whatever deltas of other indices come between.
  lemma SplittingAFragmentIsIrrelevant(
      before: seq<ToolCallDelta>, delta: ToolCallDelta, left: string, right: string,
      between: seq<ToolCallDelta>, after: seq<ToolCallDelta>)
    requires delta.functionArguments == Some(left + right)
    requires delta.index !in Indices(between)
    ensures
      var whole := before + [delta] + between + after;
      var first := delta.(functionArguments := Some(left));
      var second := ToolCallDelta(delta.index, None, None, Some(right));
      ToolCallsOf(before + [first] + between + [second] + after) == ToolCallsOf(whole)
  {
    var whole := before + [delta] + between + after;
    var first := delta.(functionArguments := Some(left));
    var second := ToolCallDelta(delta.index, None, None, Some(right));
    var split := before + [first] + between + [second] + after;
    forall i: nat
      ensures CallOf(OwnDeltas(split, i)) == CallOf(OwnDeltas(whole, i))
      ensures i in Indices(split) <==> i in Indices(whole)
    {
      OwnOfConcat(before + [delta] + between, after, i);
      OwnOfConcat(before + [delta], between, i);
      OwnOfConcat(before, [delta], i);
      OwnOfConcat(before + [first] + between + [second], after, i);
      OwnOfConcat(before + [first] + between, [second], i);
      OwnOfConcat(before + [first], between, i);
      OwnOfConcat(before, [first], i);
      PresentIndex(split, i);
      PresentIndex(whole, i);
      if i == delta.index {
        AbsentIndex(between, i);
        var own := OwnDeltas(before, i);
        assert OwnDeltas([first], i) == [first] && OwnDeltas([second], i) == [second]
          && OwnDeltas([delta], i) == [delta];
        assert own + [first] + [] + [second] == own + [first] + [second];
        assert own + [delta] + [] == own + [delta];
        FragmentsJoin(own, delta, left, right);
        CallOfExtension(own + [first] + [second], own + [delta], OwnDeltas(after, i));
      }
    }
    assert Indices(split) == Indices(whole);
  }
}
