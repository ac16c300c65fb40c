/** What the client guarantees about single frames in every reachable state. */
module ClientTheorems {
  import opened Wire
  import opened Protocol
  import opened ClientMachine
  import opened ClientInvariant
  import StateMerge

  // ---------------------------------------------------------------- old sequence numbers

  /** The verdict on an already delivered sequence number, computed from the full delivery history
      cut to the window, without any identity map. */
  ghost function HistoryVerdict(window: u64, delivered: seq<Event>, e: Event): Option<ClientError>
  {
    if e.seqNo == 0 || e.seqNo > |delivered| || e.seqNo <= |delivered| - window then Some(IdentityExpired)
    else if delivered[e.seqNo - 1].id == e.id then None
    else Some(ProtocolConflict)
  }

  /** In every reachable state the bounded identity map gives the verdict the full history gives:
      a duplicate changes nothing, another identity is a conflict, an expired one is refused. */
  lemma {:induction false} OldEventVerdict(config: Config, c: Client, h: History, e: Event, outboundOK: bool)
    requires Inv(config, Run(c, h)) && c.phase in {Ready, Resuming} && e.seqNo <= c.lastSeq
    ensures HandleEvent(config, c, e, outboundOK) ==
            match HistoryVerdict(config.eventIdentityWindow, h.delivered, e)
            case None => Act(c, [])
            case Some(error) => Err(error)
  {
    hide Local, OutboxOK, StateMerge.CacheOK, HandleReplayEvent, HandleLiveEvent;
    assert e.seqNo in c.eventIDs <==> 0 < e.seqNo <= c.lastSeq && e.seqNo > c.lastSeq - config.eventIdentityWindow;
  }

  // ---------------------------------------------------------------- recovery is all or nothing

  predicate Untouched(c: Client, next: Client)
  {
    && next.sessionID == c.sessionID && next.lastSeq == c.lastSeq && next.eventIDs == c.eventIDs
    && next.outbox == c.outbox && next.cache == c.cache && next.capabilities == c.capabilities
  }

  /** The end of the range this frame can complete. */
  function Boundary(c: Client, input: Incoming): u64
  {
    if input.Parsed? && input.frame.Welcome? && input.frame.mode.Resumed? then input.frame.mode.replayTo
    else c.staging.replayTo
  }

  predicate StillStaging(c: Client, r: Outcome)
  {
    r.Done? && r.client.phase == Resuming && Untouched(c, r.client) && r.actions == []
  }

  /** The whole range up to `to` is delivered, in order, and READY is announced last. */
  ghost predicate Recovered(c: Client, to: u64, r: Outcome)
  {
    && r.Done? && r.client.phase == Ready && r.client.staging == NO_STAGING
    && r.client.sessionID == c.sessionID && r.client.outbox == c.outbox
    && r.client.lastSeq == to
    && Consecutive(DeliveredIn(r.actions), c.sessionID, c.lastSeq)
    && |DeliveredIn(r.actions)| == to - c.lastSeq
    && r.actions != [] && r.actions[|r.actions| - 1] == SessionReady(c.sessionID)
  }

  predicate Ends(a: Action)
  {
    a.CloseConnection? || a.FullSyncRequired?
  }

  /** Nothing is delivered, all staging is gone, the caller is told to close or to synchronise in
      full, and the retained state is as it was, unless the Session itself was abandoned. */
  ghost predicate Aborted(c: Client, r: Outcome)
  {
    && r.Done? && r.client.phase == Disconnected && r.client.staging == NO_STAGING
    && DeliveredIn(r.actions) == []
    && (exists i | 0 <= i < |r.actions| :: Ends(r.actions[i]))
    && (Untouched(c, r.client) || (r.client.sessionID == "" && r.client.lastSeq == 0
                                   && r.client.cache == StateMerge.EMPTY))
  }

  ghost predicate AllOrNothing(c: Client, to: u64, r: Outcome)
  {
    StillStaging(c, r) || Recovered(c, to, r) || Aborted(c, r)
  }

  lemma {:induction false} StoppedAborts(c: Client, code: Code, reason: Reason)
    ensures Aborted(c, Done(Drop(c), StopActions(c, code, reason)))
  {
    var actions := StopActions(c, code, reason);
    NothingDelivered(actions);
    assert Ends(actions[1]);
  }

  lemma {:induction false} FailureAborts(c: Client, error: ClientError)
    requires c.phase == Resuming
    ensures OnFailure(c, error).Done? && Aborted(c, OnFailure(c, error))
  {
    StoppedAborts(c, StateSyncRequired, ResumeFailed(error));
    StoppedAborts(c, SyncRequired, ResumeFailed(error));
  }

  lemma {:induction false} InvalidErrorAborts(c: Client)
    ensures Aborted(c, Done(Drop(c), [CloseConnection(InvalidErrorFrame)]))
  {
    NothingDelivered([CloseConnection(InvalidErrorFrame)]);
    assert Ends([CloseConnection(InvalidErrorFrame)][0]);
  }

  lemma {:induction false} ErrorAborts(c: Client, payload: ErrorPayload)
    requires c.phase == Resuming
    ensures var r := HandleError(c, payload); Aborted(c, Done(r.client, r.actions))
  {
    ErrorCases(c, payload);
    var r := HandleError(c, payload);
    NothingDelivered(r.actions);
    assert |r.actions| >= 2 && Ends(r.actions[1]);
  }

  lemma {:induction false} FinishRecovers(config: Config, c: Client, h: History, staged: Client, changes: seq<Action>)
    requires Inv(config, Run(c, h)) && c.phase == Resuming && QuietActions(changes)
    requires staged == c.(cache := staged.cache, staging := staged.staging)
    requires Consecutive(staged.staging.buffer, c.sessionID, c.lastSeq)
    requires c.lastSeq + |staged.staging.buffer| <= MAX_U64
    ensures var events := staged.staging.buffer;
            var r := FinishReplay(config, staged, changes);
            && Recovered(c, c.lastSeq + |events|, Done(r.client, r.actions))
            && DeliveredIn(r.actions) == events
            && r.client.cache == staged.cache
  {
    hide OutboxOK, StateMerge.CacheOK, SessionOK, HeartbeatOK, StagingOK, WindowOK, DeliveredIn;
    var events := staged.staging.buffer;
    AdvanceDelivers(config, staged, events, h.delivered);
    RecoveryActions(events, changes, c.sessionID);
  }

  lemma {:induction false} ReplayEventAllOrNothing(config: Config, c: Client, h: History, e: Event)
    requires Inv(config, Run(c, h)) && c.phase == Resuming && e.sessionID == c.sessionID && e.seqNo > c.lastSeq
    ensures var r := HandleReplayEvent(config, c, e);
            r.Act? ==> AllOrNothing(c, c.staging.replayTo, Done(r.client, r.actions))
  {
    hide DeliveryOK, OutboxOK, StateMerge.CacheOK, SessionOK, HeartbeatOK, FinishReplay, HandleReplayEvent, Recovered,
         Aborted;
    ReplayEventCases(config, c, e);
    var st := c.staging;
    if Expected(c, e) {
      ExpectedInRange(c.lastSeq, |st.buffer|, e.seqNo, st.replayTo);
      if !Fits(config, st, e) {
        StoppedAborts(c, SyncRequired, ReplayMemoryLimit);
      } else if e.seqNo == st.replayTo && st.namespaces == [] {
        FinishRecovers(config, c, h, Grown(c, e, false), []);
      }
    }
  }

  lemma {:induction false} EventAllOrNothing(config: Config, c: Client, h: History, e: Event, outboundOK: bool)
    requires Inv(config, Run(c, h)) && c.phase == Resuming && e.sessionID == c.sessionID
    ensures var r := HandleEvent(config, c, e, outboundOK);
            r.Act? ==> AllOrNothing(c, c.staging.replayTo, Done(r.client, r.actions))
  {
    hide Inv, HandleReplayEvent, Recovered, Aborted;
    if e.seqNo > c.lastSeq { ReplayEventAllOrNothing(config, c, h, e); }
  }

  lemma {:induction false} SnapshotAllOrNothing(config: Config, c: Client, h: History,
                                                states: seq<StateMerge.StateObject>)
    requires Inv(config, Run(c, h)) && c.phase == Resuming
    ensures var r := HandleResumeSnapshot(config, c, states);
            r.Act? ==> AllOrNothing(c, c.staging.replayTo, Done(r.client, r.actions))
  {
    hide DeliveryOK, OutboxOK, SessionOK, HeartbeatOK, FinishReplay, Recovered, Aborted, ApplyStates;
    ApplyStatesKeeps(config, c, states);
    var applied := ApplyStates(config, c, states);
    var r := HandleResumeSnapshot(config, c, states);
    if r.Act? {
      if applied.Act? {
        FinishRecovers(config, c, h, applied.client, applied.actions);
      } else {
        StoppedAborts(c, StateSyncRequired, SnapshotConflict);
      }
    }
  }

  lemma {:induction false} WelcomeAllOrNothing(config: Config, c: Client, h: History, sessionID: string,
                                               mode: WelcomeMode)
    requires Inv(config, Run(c, h)) && c.phase == Resuming
    ensures var r := HandleResumedWelcome(config, c, sessionID, mode);
            r.Act? ==> mode.Resumed? && AllOrNothing(c, mode.replayTo, Done(r.client, r.actions))
  {
    hide DeliveryOK, OutboxOK, StateMerge.CacheOK, HeartbeatOK, StagingOK;
    var r := HandleResumedWelcome(config, c, sessionID, mode);
    if r.Act? {
      StoppedAborts(c, SyncRequired, ReplayEventLimit);
      NothingDelivered([SessionReady(c.sessionID)]);
    }
  }

  /** In RESUMING no frame of the current connection is reported as an error, and each one either
      leaves delivery untouched, completes the recovery as a whole, or ends it. */
  lemma {:induction false} RecoveryIsAllOrNothing(config: Config, c: Client, h: History, input: Incoming,
                                                  outboundOK: bool)
    requires Inv(config, Run(c, h)) && c.phase == Resuming
    ensures var o := HandleIncoming(config, c, c.generation, input, outboundOK);
            o.Done? && AllOrNothing(c, Boundary(c, input), o)
  {
    hide Inv, Recovered, Aborted, StillStaging, Dispatch, OnFailure, Correlated;
    match input
    case Malformed(isError, code) =>
      FailureAborts(c, Violation(code));
      InvalidErrorAborts(c);
    case Parsed(frame) =>
      if !Correlated(c, frame) {
        FailureAborts(c, Violation(ProtocolViolation));
      } else {
        var handled := Dispatch(config, c, c.generation, frame, outboundOK);
        if handled.Err? {
          FailureAborts(c, handled.error);
        } else {
          DispatchAllOrNothing(config, c, h, frame, outboundOK);
        }
      }
  }

  lemma {:induction false} DispatchAllOrNothing(config: Config, c: Client, h: History, frame: Frame, outboundOK: bool)
    requires Inv(config, Run(c, h)) && c.phase == Resuming && Correlated(c, frame)
    ensures var handled := Dispatch(config, c, c.generation, frame, outboundOK);
            handled.Act? ==> AllOrNothing(c, Boundary(c, Parsed(frame)), Done(handled.client, handled.actions))
  {
    hide Inv, Recovered, Aborted, HandleResumedWelcome, HandleReplayEvent, HandleResumeSnapshot, HandleError;
    match frame
    case Welcome(sessionID, mode) => WelcomeAllOrNothing(config, c, h, sessionID, mode);
    case EventFrame(e) => EventAllOrNothing(config, c, h, e, outboundOK);
    case StateSnapshot(_, _, states) => SnapshotAllOrNothing(config, c, h, states);
    case ErrorFrame(_, error) => ErrorAborts(c, error);
    case _ =>
  }

  // ---------------------------------------------------------------- stale connections

  function GenerationOf(op: Op): Option<u64>
  {
    match op
    case OpTransportConnected(g) => Some(g)
    case OpStartSession(g, _, _) => Some(g)
    case OpResume(g, _) => Some(g)
    case OpResumeWithState(g, _, _) => Some(g)
    case OpDisconnect(g) => Some(g)
    case OpSendPing(g, _, _, _) => Some(g)
    case OpCheckHeartbeat(g, _) => Some(g)
    case OpIncoming(g, _, _) => Some(g)
    case _ => None
  }

  /** Calls and frames tagged with another connection generation change nothing. */
  lemma {:induction false} StaleChangesNothing(config: Config, c: Client, op: Op)
    requires GenerationOf(op).Some? && GenerationOf(op).value != c.generation
    ensures Step(config, c, op) == Failed(c, StaleConnection)
  {
  }
}
