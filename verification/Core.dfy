/// Types shared by every component: the values of kestrel-core and kestrel-session that the agent passes around.

module Core {

  datatype Option<+T> = None | Some(value: T) {
    function UnwrapOr(default: T): T {
      match this
      case Some(v) => v
      case None => default
    }
  }

  datatype Result<+T, +E> = Ok(value: T) | Err(error: E)

  datatype MessageRole = System | User | Assistant | Tool

  datatype ToolCall = ToolCall(id: string, callType: string, name: string, arguments: string)

  datatype Message = Message(
    role: MessageRole,
    content: string,
    name: Option<string>,
    toolCallId: Option<string>,
    toolCalls: Option<seq<ToolCall>>,
    reasoningContent: Option<string>)

  /// One entry of the stored history.
  datatype SessionEntry = SessionEntry(
    role: MessageRole,
    content: string,
    name: Option<string>,
    toolCallId: Option<string>,
    toolCalls: Option<seq<ToolCall>>,
    reasoningContent: Option<string>,
    timestamp: Option<nat>)

  /// The token estimate used everywhere: four bytes a token.
  function EstimateTokens(text: string): nat {
    Utf8Len(text) / 4
  }

  function TotalTokens(entries: seq<SessionEntry>): nat {
    if entries == [] then 0 else TotalTokens(entries[..|entries| - 1]) + EstimateTokens(entries[|entries| - 1].content)
  }

  lemma {:induction false} TotalTokensConcat(a: seq<SessionEntry>, b: seq<SessionEntry>)
    ensures TotalTokens(a + b) == TotalTokens(a) + TotalTokens(b)
  {
    if b == [] {
      assert a + b == a;
    } else {
      assert (a + b)[..|a + b| - 1] == a + b[..|b| - 1];
      TotalTokensConcat(a, b[..|b| - 1]);
    }
  }

  /// Token counts of one response, or of a whole run. Every field may be absent.
  datatype Usage = Usage(
    promptTokens: Option<nat>,
    completionTokens: Option<nat>,
    totalTokens: Option<nat>,
    cacheReadTokens: Option<nat>,
    cacheWriteTokens: Option<nat>)

  const NO_USAGE := Usage(None, None, None, None, None)

  /// Bytes of one character in UTF-8 (section 3 of RFC 3629).
  function Utf8Width(c: char): (n: nat)
    ensures 1 <= n <= 4
  {
    if c as int < 0x80 then 1 else if c as int < 0x800 then 2 else if c as int < 0x1_0000 then 3 else 4
  }

  /// Length of a string in bytes.
  function Utf8Len(s: string): nat {
    if s == "" then 0 else Utf8Len(s[..|s| - 1]) + Utf8Width(s[|s| - 1])
  }

  lemma {:induction false} AsciiBytes(s: string)
    requires forall i | 0 <= i < |s| :: s[i] as int < 0x80
    ensures Utf8Len(s) == |s|
  {
    if s != "" {
      AsciiBytes(s[..|s| - 1]);
    }
  }

  predicate OccursAt(text: string, part: string, i: nat) {
    i + |part| <= |text| && text[i..i + |part|] == part
  }

  predicate Contains(text: string, part: string) {
    exists i: nat | i <= |text| :: OccursAt(text, part, i)
  }

  /// Any amount of time, at least the given one: a timer never fires early.
  method Elapse(now: nat, atLeast: nat) returns (later: nat)
    ensures later >= now + atLeast
  {
    var extra: int := *;
    later := now + atLeast + if extra > 0 then extra else 0;
  }

  /// An event that may be known to come at some time, and has come by now.
  predicate Due(at: Option<nat>, now: nat) {
    at.Some? && at.value <= now
  }

  datatype Waited = Arrived | RanOut | Dropped

  /// Awaits a value that is ready from some time on, if ever, for at most the given time. Whoever wakes looks at the
  /// value first, however late. The future that waits may be dropped instead once that is due.
  method Await(readyAt: Option<nat>, timeout: nat, dropDue: Option<nat>, now: nat) returns (outcome: Waited, later: nat)
    ensures now <= later
    ensures outcome.Arrived? <==> Due(readyAt, later)
    ensures outcome.RanOut? ==> now + timeout <= later
    ensures outcome.Dropped? ==> Due(dropDue, later)
  {
    var wait: nat := timeout;
    if readyAt.Some? && readyAt.value < now + wait {
      wait := if now < readyAt.value then readyAt.value - now else 0;
    }
    if dropDue.Some? && dropDue.value < now + wait {
      wait := if now < dropDue.value then dropDue.value - now else 0;
    }
    later := Elapse(now, wait);
    outcome := if Due(readyAt, later) then Arrived else if now + timeout <= later then RanOut else Dropped;
  }
}
