/// The stream progress tracker (stream_progress.rs). Times are milliseconds on one non-decreasing clock.

module StreamProgress {
  import opened Core

  datatype StreamPhase = Connecting | WaitingFirstByte | Thinking | Streaming | Done

  /// The status messages, without their wording.
  datatype Notice =
    | FirstByteWarning
    | FirstByteSlow(waitedSeconds: nat)
    | TimeoutWarning(elapsedSeconds: nat, limitSeconds: nat)
    | ThinkingIndicator
    | StillThinking(seconds: nat)
    | Reconnecting

  const FIRST_BYTE_WARNING_AFTER := 10_000
  const FIRST_BYTE_SLOW_AFTER := 30_000
  const THINKING_FIRST_INDICATOR_AFTER := 15_000
  const THINKING_UPDATE_INTERVAL := 30_000

  /// 80 % of the limit is used up; with a zero limit the quotient is infinite (or undefined at zero elapsed).
  predicate NearTimeout(elapsed: nat, limit: nat) {
    if limit == 0 then elapsed > 0 else 10 * elapsed >= 8 * limit
  }

  /// Thinking notices a stay of this length calls for, once the first has been sent.
  function ExpectedUpdates(phaseElapsed: nat): nat {
    1 + (if phaseElapsed > THINKING_FIRST_INDICATOR_AFTER then phaseElapsed - THINKING_FIRST_INDICATOR_AFTER else 0)
    / THINKING_UPDATE_INTERVAL
  }

  /// The most thinking notices a longest polled stay of this length allows.
  function ThinkingAllowance(longestStay: nat): nat {
    if longestStay < THINKING_FIRST_INDICATOR_AFTER then 0 else ExpectedUpdates(longestStay)
  }

  datatype Kind = Warning | Slow | Timeout | Indicator | Update | Reconnect

  function KindOf(notice: Option<Notice>): Option<Kind> {
    match notice
    case None => None
    case Some(FirstByteWarning) => Some(Warning)
    case Some(FirstByteSlow(_)) => Some(Slow)
    case Some(TimeoutWarning(_, _)) => Some(Timeout)
    case Some(ThinkingIndicator) => Some(Indicator)
    case Some(StillThinking(_)) => Some(Update)
    case Some(Reconnecting) => Some(Reconnect)
  }

  /// How many notices of each kind.
  datatype Tally = Tally(warnings: nat, slows: nat, thinking: nat, timeouts: nat, reconnects: nat) {
    function Add(notice: Option<Notice>): Tally {
      if notice.None? then this
      else match notice.value
        case FirstByteWarning => this.(warnings := warnings + 1)
        case FirstByteSlow(_) => this.(slows := slows + 1)
        case TimeoutWarning(_, _) => this.(timeouts := timeouts + 1)
        case Reconnecting => this.(reconnects := reconnects + 1)
        case _ => this.(thinking := thinking + 1)
    }
  }

  const NOTHING_SENT := Tally(0, 0, 0, 0, 0)

  /// What may have been sent after this many waits for a first byte, whatever the poll times were.
  ghost predicate Bounded(sent: Tally, waits: nat, longestThinking: nat) {
    && sent.slows <= sent.warnings <= waits
    && sent.thinking <= ThinkingAllowance(longestThinking)
    && sent.timeouts <= 1
    && sent.reconnects <= 1
  }

  class StreamProgressTracker {
    var phase: StreamPhase
    var phaseEnteredAt: nat
    const streamStartedAt: nat
    var thinkingStartedAt: Option<nat>
    const messageTimeout: nat
    var sentFirstByteWarning: bool
    var sentFirstByteSlow: bool
    var sentTimeoutWarning: bool
    var sentReconnecting: bool
    var thinkingUpdatesSent: nat
    ghost var sent: Tally
    ghost var waits: nat            // transitions into WaitingFirstByte
    ghost var longestThinking: nat  // longest Thinking stay seen by a poll
    ghost var clock: nat

    ghost predicate Valid()
      reads this
    {
      && streamStartedAt <= phaseEnteredAt <= clock
      && (thinkingStartedAt.Some? ==> thinkingStartedAt.value <= clock)
      && sent.thinking <= thinkingUpdatesSent
      && (thinkingUpdatesSent > 0 ==>
            THINKING_FIRST_INDICATOR_AFTER + (thinkingUpdatesSent - 1) * THINKING_UPDATE_INTERVAL <= longestThinking)
      && sent.timeouts == (if sentTimeoutWarning then 1 else 0)
      && sent.reconnects == (if sentReconnecting then 1 else 0)
      && (sentFirstByteSlow ==> sentFirstByteWarning)
      && (phase == WaitingFirstByte && !sentFirstByteWarning ==> sent.warnings < waits)
      && (sentFirstByteWarning && !sentFirstByteSlow ==> sent.slows < sent.warnings)
      && sent.slows <= sent.warnings <= waits
    }

    /// In every reachable state the notices sent so far are within the bounds.
    lemma NoticesAreBounded()
      requires Valid()
      ensures Bounded(sent, waits, longestThinking)
    {
    }

    constructor (now: nat, messageTimeout: nat)
      ensures Valid() && phase == Connecting && clock == now
      ensures this.streamStartedAt == now && this.messageTimeout == messageTimeout
      ensures sent == NOTHING_SENT && waits == 0 && longestThinking == 0
    {
      phase, phaseEnteredAt, streamStartedAt := Connecting, now, now;
      thinkingStartedAt := None;
      this.messageTimeout := messageTimeout;
      sentFirstByteWarning, sentFirstByteSlow := false, false;
      sentTimeoutWarning, sentReconnecting, thinkingUpdatesSent := false, false, 0;
      sent, waits, longestThinking, clock := NOTHING_SENT, 0, 0, now;
    }

    method Transition(newPhase: StreamPhase, now: nat)
      requires Valid() && clock <= now
      modifies this
      ensures Valid() && clock == now
      ensures phase == newPhase && phaseEnteredAt == now
      ensures waits == old(waits) + if newPhase == WaitingFirstByte then 1 else 0
      ensures sent == old(sent) && longestThinking == old(longestThinking)
      ensures !sentFirstByteWarning && !sentFirstByteSlow
      ensures thinkingStartedAt == if newPhase == Thinking && old(thinkingStartedAt).None? then Some(now)
        else old(thinkingStartedAt)
    {
      if newPhase == Thinking && thinkingStartedAt.None? {
        thinkingStartedAt := Some(now);
      }
      phase := newPhase;
      phaseEnteredAt := now;
      sentFirstByteWarning := false;
      sentFirstByteSlow := false;
      waits := waits + if newPhase == WaitingFirstByte then 1 else 0;
      clock := now;
    }

    method OnReconnect() returns (notice: Option<Notice>)
      requires Valid()
      modifies this`sentReconnecting, this`sent
      ensures Valid() && sentReconnecting
      ensures notice == if old(sentReconnecting) then None else Some(Reconnecting)
      ensures sent == old(sent).Add(notice)
    {
      if !sentReconnecting {
        sentReconnecting := true;
        sent := sent.Add(Some(Reconnecting));
        notice := Some(Reconnecting);
      } else {
        notice := None;
      }
    }

    /// The notice that is due at a poll, given phase, time and what was sent before.
    ghost function Due(now: nat): Option<Kind>
      requires phaseEnteredAt <= now && streamStartedAt <= now
      reads this
    {
      var phaseElapsed := now - phaseEnteredAt;
      if phase == WaitingFirstByte then
        if !sentFirstByteWarning && phaseElapsed >= FIRST_BYTE_WARNING_AFTER then Some(Warning)
        else if !sentFirstByteSlow && phaseElapsed >= FIRST_BYTE_SLOW_AFTER then Some(Slow)
        else None
      else if phase == Thinking then
        if thinkingUpdatesSent == 0 && phaseElapsed >= THINKING_FIRST_INDICATOR_AFTER then Some(Indicator)
        else if 0 < thinkingUpdatesSent < ExpectedUpdates(phaseElapsed) then Some(Update)
        else None
      else if phase == Streaming && !sentTimeoutWarning && NearTimeout(now - streamStartedAt, messageTimeout)
        then Some(Timeout)
      else None
    }

    method Poll(now: nat) returns (notice: Option<Notice>)
      requires Valid() && clock <= now
      modifies this
      ensures Valid() && clock == now
      ensures sent == old(sent).Add(notice)
      ensures phase == old(phase) && phaseEnteredAt == old(phaseEnteredAt) && waits == old(waits)
      ensures longestThinking ==
        if phase == Thinking && now - phaseEnteredAt > old(longestThinking) then now - phaseEnteredAt
          else old(longestThinking)
      ensures KindOf(notice) == old(Due(now))
    {
      if phase == WaitingFirstByte {
        notice := PollFirstByte(now);
      } else if phase == Streaming {
        notice := PollTimeout(now);
      } else if phase == Thinking {
        notice := PollThinking(now);
      } else {
        notice := None;
      }
      clock := now;
    }

    /// The WaitingFirstByte arm of Poll.
    method PollFirstByte(now: nat) returns (notice: Option<Notice>)
      requires Valid() && clock <= now && phase == WaitingFirstByte
      modifies this`sentFirstByteWarning, this`sentFirstByteSlow, this`sent
      ensures Valid() && sent == old(sent).Add(notice)
      ensures KindOf(notice) == old(Due(now))
    {
      var phaseElapsed := now - phaseEnteredAt;
      if !sentFirstByteWarning && phaseElapsed >= FIRST_BYTE_WARNING_AFTER {
        sentFirstByteWarning := true;
        notice := Some(FirstByteWarning);
      } else if !sentFirstByteSlow && phaseElapsed >= FIRST_BYTE_SLOW_AFTER {
        sentFirstByteSlow := true;
        notice := Some(FirstByteSlow(phaseElapsed / 1000));
      } else {
        notice := None;
      }
      sent := sent.Add(notice);
    }

    /// The Streaming arm of Poll.
    method PollTimeout(now: nat) returns (notice: Option<Notice>)
      requires Valid() && clock <= now && phase == Streaming
      modifies this`sentTimeoutWarning, this`sent
      ensures Valid() && sent == old(sent).Add(notice)
      ensures KindOf(notice) == old(Due(now))
    {
      var totalElapsed := now - streamStartedAt;
      if !sentTimeoutWarning && NearTimeout(totalElapsed, messageTimeout) {
        sentTimeoutWarning := true;
        notice := Some(TimeoutWarning(totalElapsed / 1000, messageTimeout / 1000));
      } else {
        notice := None;
      }
      sent := sent.Add(notice);
    }

    /// The Thinking arm of Poll.
    method PollThinking(now: nat) returns (notice: Option<Notice>)
      requires Valid() && clock <= now && phase == Thinking
      modifies this`thinkingUpdatesSent, this`longestThinking, this`sent
      ensures Valid() && sent == old(sent).Add(notice)
      ensures longestThinking == if now - phaseEnteredAt > old(longestThinking) then now - phaseEnteredAt
        else old(longestThinking)
      ensures KindOf(notice) == old(Due(now))
    {
      hide ExpectedUpdates;
      var phaseElapsed := now - phaseEnteredAt;
      var thinkingElapsed := if thinkingStartedAt.Some? then now - thinkingStartedAt.value else 0;
      longestThinking := if phaseElapsed > longestThinking then phaseElapsed else longestThinking;
      var expectedUpdates := ExpectedUpdates(phaseElapsed);
      UpdatesAreDue(phaseElapsed);
      if thinkingUpdatesSent == 0 && phaseElapsed >= THINKING_FIRST_INDICATOR_AFTER {
        thinkingUpdatesSent := 1;
        notice := Some(ThinkingIndicator);
      } else if thinkingUpdatesSent > 0 && thinkingUpdatesSent < expectedUpdates {
        thinkingUpdatesSent := expectedUpdates;
        notice := Some(StillThinking(thinkingElapsed / 1000));
      } else {
        notice := None;
      }
      sent := sent.Add(notice);
    }
  }

  /// The updates a stay calls for are due by its end.
  lemma UpdatesAreDue(stay: nat)
    ensures ExpectedUpdates(stay) >= 1
    ensures ExpectedUpdates(stay) > 1 ==>
      THINKING_FIRST_INDICATOR_AFTER + (ExpectedUpdates(stay) - 1) * THINKING_UPDATE_INTERVAL <= stay
  {
  }
}
