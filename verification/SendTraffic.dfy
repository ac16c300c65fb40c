/** Which SENDs a client step puts on the network, and which acknowledgements it reports. */
module SendTraffic {
  import opened Wire
  import opened Protocol
  import opened ClientMachine
  import opened ClientInvariant
  import StateMerge
  import Text

  predicate IsSend(a: Action)
  {
    a.SendFrame? && a.request.Send?
  }

  predicate ReportsNothing(actions: seq<Action>)
  {
    forall i | 0 <= i < |actions| :: !actions[i].Acked?
  }

  /** Neither sends a SEND nor reports an acknowledgement. */
  predicate Mild(actions: seq<Action>)
  {
    forall i | 0 <= i < |actions| :: !actions[i].Acked? && !IsSend(actions[i])
  }

  lemma {:induction false} NothingAcked(actions: seq<Action>)
    requires ReportsNothing(actions)
    ensures AckedIn(actions) == multiset{}
    decreases |actions|
  {
    if actions == [] {
    } else {
      NothingAcked(actions[1..]);
    }
  }

  // ---------------------------------------------------------------- frames

  lemma {:induction false} FinishIsMild(config: Config, staged: Client, changes: seq<Action>)
    requires Mild(changes)
    ensures Mild(FinishReplay(config, staged, changes).actions)
  {
  }

  lemma {:induction false} EventIsMild(config: Config, c: Client, e: Event, ok: bool)
    ensures var r := HandleEvent(config, c, e, ok); r.Act? ==> Mild(r.actions)
  {
    if e.seqNo > c.lastSeq && c.phase == Resuming {
      ReplayEventCases(config, c, e);
      FinishIsMild(config, Grown(c, e, false), []);
    }
  }

  lemma {:induction false} SnapshotIsMild(config: Config, c: Client, id: string, states: seq<StateMerge.StateObject>)
    ensures var r := HandleSnapshot(config, c, id, states); r.Act? ==> Mild(r.actions)
  {
    var applied := ApplyStates(config, c, states);
    if c.phase == Resuming && applied.Act? {
      FinishIsMild(config, applied.client, applied.actions);
    }
  }

  lemma {:induction false} ControlIsMild(config: Config, c: Client, generation: u64, frame: Frame, ok: bool)
    requires frame.Welcome? || frame.Pong? || frame.StateUpdate? || frame.ErrorFrame? || frame.FromClient?
    ensures var r := Dispatch(config, c, generation, frame, ok); r.Act? ==> Mild(r.actions)
  {
    if frame.ErrorFrame? { ErrorIsMild(c, frame.error); }
  }

  lemma {:induction false} ErrorIsMild(c: Client, error: ErrorPayload)
    ensures Mild(HandleError(c, error).actions)
  {
  }

  lemma {:induction false} DispatchIsMild(config: Config, c: Client, generation: u64, frame: Frame, ok: bool)
    requires !frame.Ack?
    ensures var r := Dispatch(config, c, generation, frame, ok); r.Act? ==> Mild(r.actions)
  {
    match frame
    case EventFrame(e) => EventIsMild(config, c, e, ok);
    case StateSnapshot(id, _, states) => SnapshotIsMild(config, c, id, states);
    case _ => ControlIsMild(config, c, generation, frame, ok);
  }

  lemma {:induction false} FailureIsMild(c: Client, error: ClientError)
    ensures Mild(ActionsOf(OnFailure(c, error)))
  {
  }

  predicate IsAck(input: Incoming)
  {
    input.Parsed? && input.frame.Ack?
  }

  lemma {:induction false} IncomingIsMild(config: Config, c: Client, generation: u64, input: Incoming, ok: bool)
    requires !IsAck(input)
    ensures Mild(ActionsOf(HandleIncoming(config, c, generation, input, ok)))
  {
    match input
    case Malformed(_, code) => FailureIsMild(c, Violation(code));
    case Parsed(frame) =>
      FailureIsMild(c, Violation(ProtocolViolation));
      DispatchIsMild(config, c, generation, frame, ok);
      var handled := Dispatch(config, c, generation, frame, ok);
      if handled.Err? { FailureIsMild(c, handled.error); }
  }

  /** An ACK reports the SEND it names, if that is pending in the client's own Session, and nothing else. */
  lemma {:induction false} AckReports(config: Config, c: Client, generation: u64, sessionID: string, refID: string,
                                      ok: bool)
    ensures var actions := ActionsOf(HandleIncoming(config, c, generation, Parsed(Ack(sessionID, refID)), ok));
            Mild(actions) || (actions == [Acked(refID)] && refID in c.outbox && sessionID == c.sessionID)
  {
    FailureIsMild(c, Violation(ProtocolViolation));
    FailureIsMild(c, InvalidState);
  }

  // ---------------------------------------------------------------- calls

  lemma {:induction false} CallIsMild(config: Config, c: Client, op: Op)
    requires !op.OpIncoming? && !op.OpEnqueueSend? && !op.OpRetryPending?
    ensures Mild(ActionsOf(Step(config, c, op)))
  {
  }

  /** Retrying sends what is pending, as it is pending. */
  lemma {:induction false} RetrySends(c: Client, a: Action)
    requires a in ActionsOf(RetryPending(c))
    ensures exists m | m in c.outbox :: a == SendFrame(c.outbox[m])
  {
    var ids := Text.Ordered(c.outbox.Keys);
    var i :| 0 <= i < |ids| && a == SendFrame(c.outbox[ids[i]]);
    assert ids[i] in ids;
  }

  lemma {:induction false} RetryReportsNothing(c: Client)
    ensures ReportsNothing(ActionsOf(RetryPending(c)))
  {
  }

  // ---------------------------------------------------------------- every step

  /** A step reports only the pending SEND of its own Session that an incoming ACK names. */
  ghost predicate ReportsOnly(c: Client, op: Op, actions: seq<Action>)
  {
    forall m | m in AckedIn(actions) :: op.OpIncoming? && op.input == Parsed(Ack(c.sessionID, m)) && m in c.outbox
  }

  lemma {:induction false} IncomingReports(config: Config, c: Client, op: Op)
    requires op.OpIncoming?
    ensures ReportsOnly(c, op, ActionsOf(HandleIncoming(config, c, op.generation, op.input, op.outboundOK)))
  {
    var actions := ActionsOf(HandleIncoming(config, c, op.generation, op.input, op.outboundOK));
    if IsAck(op.input) {
      AckReports(config, c, op.generation, op.input.frame.sessionID, op.input.frame.refID, op.outboundOK);
      OneAcked(op.input.frame.refID);
    } else {
      IncomingIsMild(config, c, op.generation, op.input, op.outboundOK);
    }
    if Mild(actions) { NothingAcked(actions); }
  }

  lemma {:induction false} StepReports(config: Config, c: Client, op: Op)
    ensures ReportsOnly(c, op, ActionsOf(Step(config, c, op)))
  {
    if op.OpIncoming? {
      IncomingReports(config, c, op);
    } else {
      if op.OpEnqueueSend? {
        EnqueueShape(config, c, op.messageID, op.content, op.validJson, op.now, op.outboundOK);
      } else if op.OpRetryPending? {
        RetryReportsNothing(c);
      } else {
        CallIsMild(config, c, op);
      }
      NothingAcked(ActionsOf(Step(config, c, op)));
    }
  }

  /** A step sends only the SEND it accepts, or SENDs that are pending. */
  ghost predicate SendsOnly(c: Client, op: Op, r: Outcome)
  {
    forall a | a in ActionsOf(r) && IsSend(a) ::
      || (op.OpEnqueueSend? && r.Done? && a.request == Send(op.messageID, c.sessionID, op.now, op.content))
      || exists m | m in c.outbox :: a == SendFrame(c.outbox[m])
  }

  lemma {:induction false} MildSendsNothing(c: Client, op: Op, r: Outcome)
    requires Mild(ActionsOf(r))
    ensures SendsOnly(c, op, r)
  {
  }

  lemma {:induction false} IncomingSends(config: Config, c: Client, op: Op)
    requires op.OpIncoming?
    ensures SendsOnly(c, op, HandleIncoming(config, c, op.generation, op.input, op.outboundOK))
  {
    var r := HandleIncoming(config, c, op.generation, op.input, op.outboundOK);
    if IsAck(op.input) {
      AckReports(config, c, op.generation, op.input.frame.sessionID, op.input.frame.refID, op.outboundOK);
    } else {
      IncomingIsMild(config, c, op.generation, op.input, op.outboundOK);
    }
    if Mild(ActionsOf(r)) { MildSendsNothing(c, op, r); }
  }

  lemma {:induction false} StepSends(config: Config, c: Client, op: Op)
    ensures SendsOnly(c, op, Step(config, c, op))
  {
    if op.OpIncoming? {
      IncomingSends(config, c, op);
    } else if op.OpEnqueueSend? {
      EnqueueShape(config, c, op.messageID, op.content, op.validJson, op.now, op.outboundOK);
    } else if op.OpRetryPending? {
      forall a | a in ActionsOf(RetryPending(c))
        ensures exists m | m in c.outbox :: a == SendFrame(c.outbox[m])
      {
        RetrySends(c, a);
      }
    } else {
      CallIsMild(config, c, op);
      MildSendsNothing(c, op, Step(config, c, op));
    }
  }

  // ---------------------------------------------------------------- the outbox

  /** The outbox changes only by accepting a SEND, by an acknowledgement, or with its Session. */
  ghost predicate OutboxFrom(c: Client, op: Op, r: Outcome)
  {
    forall m | m in r.client.outbox ::
      || (m in c.outbox && r.client.outbox[m] == c.outbox[m] && r.client.sessionID == c.sessionID)
      || (&& op.OpEnqueueSend? && r.Done? && m == op.messageID && r.client.sessionID == c.sessionID
          && r.client.outbox[m] == Send(m, c.sessionID, op.now, op.content))
  }

  /** Nothing new is pending. */
  predicate Shrinks(c: Client, next: Client)
  {
    forall m | m in next.outbox :: m in c.outbox && next.outbox[m] == c.outbox[m] && next.sessionID == c.sessionID
  }

  lemma {:induction false} AdvanceKeepsOutbox(config: Config, c: Client, events: seq<Event>)
    ensures var a := Advance(config, c, events); a == c.(lastSeq := a.lastSeq, eventIDs := a.eventIDs)
    decreases |events|
  {
    if events == [] {
    } else {
      var e := events[0];
      var ids := Remember(c.eventIDs, config.eventIdentityWindow, e.seqNo, e.id);
      AdvanceKeepsOutbox(config, c.(lastSeq := e.seqNo, eventIDs := ids), events[1..]);
    }
  }

  lemma {:induction false} EventShrinks(config: Config, c: Client, e: Event, ok: bool)
    ensures var r := HandleEvent(config, c, e, ok); r.Act? ==> Shrinks(c, r.client)
  {
    AdvanceKeepsOutbox(config, c, [e]);
    if e.seqNo > c.lastSeq && c.phase == Resuming {
      ReplayEventCases(config, c, e);
      AdvanceKeepsOutbox(config, Grown(c, e, false), Grown(c, e, false).staging.buffer);
    }
  }

  lemma {:induction false} SnapshotShrinks(config: Config, c: Client, id: string, states: seq<StateMerge.StateObject>)
    ensures var r := HandleSnapshot(config, c, id, states); r.Act? ==> Shrinks(c, r.client)
  {
    var applied := ApplyStates(config, c, states);
    if applied.Act? { AdvanceKeepsOutbox(config, applied.client, applied.client.staging.buffer); }
  }

  lemma {:induction false} WelcomeShrinks(config: Config, c: Client, sessionID: string, mode: WelcomeMode)
    requires SessionOK(c)
    ensures var r := HandleWelcome(config, c, sessionID, mode); r.Act? ==> Shrinks(c, r.client)
  {
    NewWelcomeShape(config, c, sessionID, mode);
  }

  lemma {:induction false} AnswerShrinks(c: Client, generation: u64, id: string)
    ensures var r := HandlePong(c, generation, id); r.Act? ==> Shrinks(c, r.client)
    ensures var r := HandleAck(c, id); r.Act? ==> Shrinks(c, r.client)
  {
  }

  lemma {:induction false} UpdateShrinks(config: Config, c: Client, state: StateMerge.StateObject)
    ensures var r := HandleUpdate(config, c, state); r.Act? ==> Shrinks(c, r.client)
  {
  }

  lemma {:induction false} ErrorShrinks(c: Client, error: ErrorPayload)
    ensures Shrinks(c, HandleError(c, error).client)
  {
    ErrorCases(c, error);
  }

  lemma {:induction false} DispatchShrinks(config: Config, c: Client, generation: u64, frame: Frame, ok: bool)
    requires SessionOK(c)
    ensures var r := Dispatch(config, c, generation, frame, ok); r.Act? ==> Shrinks(c, r.client)
  {
    match frame
    case Welcome(sessionID, mode) => WelcomeShrinks(config, c, sessionID, mode);
    case Pong(_, id) => AnswerShrinks(c, generation, id);
    case Ack(_, id) => AnswerShrinks(c, generation, id);
    case EventFrame(e) => EventShrinks(config, c, e, ok);
    case StateSnapshot(id, _, states) => SnapshotShrinks(config, c, id, states);
    case StateUpdate(_, _, state) => UpdateShrinks(config, c, state);
    case ErrorFrame(_, error) => ErrorShrinks(c, error);
    case FromClient(_) =>
  }

  lemma {:induction false} FailureShrinks(c: Client, error: ClientError)
    ensures Shrinks(c, OnFailure(c, error).client) && Shrinks(c, Drop(c)) && Shrinks(c, c)
  {
  }

  lemma {:induction false} IncomingShrinks(config: Config, c: Client, generation: u64, input: Incoming, ok: bool)
    requires SessionOK(c)
    ensures Shrinks(c, HandleIncoming(config, c, generation, input, ok).client)
  {
    match input
    case Malformed(_, code) => FailureShrinks(c, Violation(code));
    case Parsed(frame) =>
      DispatchShrinks(config, c, generation, frame, ok);
      FailureShrinks(c, Violation(ProtocolViolation));
      var handled := Dispatch(config, c, generation, frame, ok);
      if handled.Err? { FailureShrinks(c, handled.error); }
  }

  lemma {:induction false} CallOutbox(config: Config, c: Client, op: Op)
    requires !op.OpIncoming? && !op.OpEnqueueSend?
    ensures Shrinks(c, Step(config, c, op).client)
  {
    hide HandleIncoming;
  }

  lemma {:induction false} StepOutbox(config: Config, c: Client, op: Op)
    requires SessionOK(c)
    ensures OutboxFrom(c, op, Step(config, c, op))
  {
    if op.OpIncoming? {
      IncomingShrinks(config, c, op.generation, op.input, op.outboundOK);
    } else if op.OpEnqueueSend? {
      EnqueueShape(config, c, op.messageID, op.content, op.validJson, op.now, op.outboundOK);
    } else {
      CallOutbox(config, c, op);
    }
  }
}
