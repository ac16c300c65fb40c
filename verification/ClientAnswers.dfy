/** What the client does with each call and frame when it may: exact answers, stated of `Step` and
    `HandleIncoming` as a whole. */
module ClientAnswers {
  import opened Wire
  import opened Protocol
  import opened ClientMachine
  import opened ClientInvariant
  import Capability
  import StateBatch
  import StateMerge
  import Text

  /** The answer to a frame of the current connection. */
  function Receives(config: Config, c: Client, frame: Frame, outboundOK: bool): Outcome
  {
    HandleIncoming(config, c, c.generation, Parsed(frame), outboundOK)
  }

  // ---------------------------------------------------------------- EVENT

  /** A READY client hands the next EVENT of its Session to the application and nothing else happens:
      the last position and the identity window move on by one. */
  lemma {:induction false} NextEventIsDelivered(config: Config, c: Client, h: History, e: Event, outboundOK: bool)
    requires Inv(config, Run(c, h)) && c.phase == Ready && c.lastSeq < MAX_U64
    requires e.sessionID == c.sessionID && e.seqNo == c.lastSeq + 1
    ensures var r := Receives(config, c, EventFrame(e), outboundOK);
            && r.Done? && r.actions == [DeliverEvent(e)]
            && r.client == c.(lastSeq := e.seqNo, eventIDs := r.client.eventIDs)
            && (forall k: u64 :: k in r.client.eventIDs <==>
                  0 < k <= e.seqNo && k > e.seqNo - config.eventIdentityWindow)
            && (forall k: u64 | k in r.client.eventIDs ::
                  r.client.eventIDs[k] == if k == e.seqNo then e.id else h.delivered[k - 1].id)
  {
    hide HandleWelcome, HandlePong, HandleAck, HandleSnapshot, HandleUpdate, HandleError, HandleReplayEvent;
    hide OutboxOK, StateMerge.CacheOK, HeartbeatOK, StagingOK;
    AdvanceOne(config, c, e);
    RememberKeepsWindow(config.eventIdentityWindow, c.lastSeq, c.eventIDs, h.delivered, e);
  }

  /** RESUMING with nothing received yet; what belongs to the connection is cleared. */
  function Recovering(c: Client, namespaces: seq<string>, gap: bool): Client
  {
    c.(phase := Resuming, ping := None, suspectAt := None, queries := map[],
       staging := Staging(0, [], 0, namespaces, false, gap))
  }

  /** An EVENT beyond the next position starts a recovery on the same connection: one RESUME from the
      last delivered position, if its frame is valid; otherwise nothing changes. */
  lemma {:induction false} GapStartsRecovery(config: Config, c: Client, e: Event, outboundOK: bool)
    requires c.phase == Ready && e.sessionID == c.sessionID && e.seqNo > c.lastSeq + 1
    ensures Receives(config, c, EventFrame(e), outboundOK) ==
            if outboundOK then Done(Recovering(c, [], true), [SendFrame(Resume(c.sessionID, c.lastSeq, None))])
            else Failed(c, Violation(BadRequest))
  {
    hide HandleWelcome, HandlePong, HandleAck, HandleSnapshot, HandleUpdate, HandleError, HandleReplayEvent, Advance;
  }

  // ---------------------------------------------------------------- RESUME

  /** Resume asks for what follows the last delivered position. */
  lemma {:induction false} ResumeAsks(config: Config, c: Client, outboundOK: bool)
    requires c.phase == Connected && c.sessionID != ""
    ensures Step(config, c, OpResume(c.generation, outboundOK)) ==
            if outboundOK then Done(Recovering(c, [], false), [SendFrame(Resume(c.sessionID, c.lastSeq, None))])
            else Failed(c, Violation(BadRequest))
  {
    hide HandleIncoming;
  }

  /** ResumeWithState asks for it and for the State of the namespaces, in canonical order. */
  lemma {:induction false} StateResumeAsks(config: Config, c: Client, namespaces: seq<string>, sorted: seq<string>)
    requires c.phase == Connected && c.sessionID != "" && StateSyncEnabled(c.capabilities)
    requires sorted != [] && Text.StrictlySorted(sorted) && multiset(sorted) == multiset(namespaces)
    requires config.validNamespaces(sorted)
    ensures Step(config, c, OpResumeWithState(c.generation, namespaces, true))
         == Done(Recovering(c, sorted, false), [SendFrame(Resume(c.sessionID, c.lastSeq, Some(sorted)))])
  {
    hide HandleIncoming, Text.SortedCopy;
    SortedOnce(namespaces, sorted);
  }

  /** A strictly sorted arrangement of the values is the one sorting gives. */
  lemma {:induction false} SortedOnce(values: seq<string>, sorted: seq<string>)
    requires Text.StrictlySorted(sorted) && multiset(sorted) == multiset(values)
    ensures Text.SortedCopy(values) == sorted
  {
    Text.SortedCopySorts(values);
    StrictIsSorted(sorted);
    Text.SortedUnique(Text.SortedCopy(values), sorted);
  }

  lemma {:induction false} StrictIsSorted(sorted: seq<string>)
    requires Text.StrictlySorted(sorted)
    ensures Text.Sorted(sorted)
  {
    forall i, j | 0 <= i < j < |sorted|
      ensures !Text.Less(sorted[j], sorted[i])
    {
      Text.LessTotal(sorted[i], sorted[j]);
    }
  }

  /** One step began a recovery: its one action is a RESUME for the client's Session, from the last
      delivered position, with the namespaces whose State it expects. */
  ghost predicate BeginsRecovery(c: Client, r: Outcome)
  {
    var ns := r.client.staging.namespaces;
    && r.Done? && r.client == Recovering(c, ns, r.client.staging.gap)
    && r.actions == [SendFrame(Resume(c.sessionID, c.lastSeq, if ns == [] then None else Some(ns)))]
  }

  lemma {:induction false} EventBegins(config: Config, c: Client, e: Event, outboundOK: bool)
    requires c.phase != Resuming
    ensures var r := HandleEvent(config, c, e, outboundOK);
            r.Act? && r.client.phase == Resuming ==> BeginsRecovery(c, Done(r.client, r.actions))
  {
    hide HandleReplayEvent;
    AdvanceOne(config, c, e);
  }

  lemma {:induction false} FrameBegins(config: Config, c: Client, frame: Frame, outboundOK: bool)
    requires c.phase != Resuming
    ensures var r := Dispatch(config, c, c.generation, frame, outboundOK);
            r.Act? && r.client.phase == Resuming ==> BeginsRecovery(c, Done(r.client, r.actions))
  {
    hide HandleEvent, BeginsRecovery;
    match frame
    case EventFrame(e) => EventBegins(config, c, e, outboundOK);
    case _ =>
  }

  /** However a recovery begins, it begins with that RESUME. */
  lemma {:induction false} RecoveryBegins(config: Config, c: Client, op: Op)
    requires c.phase != Resuming && Step(config, c, op).client.phase == Resuming
    ensures BeginsRecovery(c, Step(config, c, op))
  {
    hide Dispatch, Correlated, Text.SortedCopy;
    if op.OpIncoming? && op.input.Parsed? {
      FrameBegins(config, c, op.input.frame, op.outboundOK);
    }
  }

  // ---------------------------------------------------------------- in RESUMING

  /** The recovery is over without success: nothing is delivered or changed but the connection, and the caller
      is told why, to synchronise in full, and to close. */
  ghost predicate Stops(c: Client, r: Outcome, reason: Reason)
  {
    && r.Done? && r.client == Drop(c)
    && |r.actions| == 3 && r.actions[0].ProtocolError? && r.actions[1] == FullSyncRequired(c.sessionID)
    && r.actions[2] == CloseConnection(reason)
  }

  /** A RESUMED WELCOME fixes the boundary if and only if it is of the client's Session, starts right after
      its position, does not end before it, is within the event limit and promises the State that was asked
      for; an empty range without State completes at once. Anything else stops the recovery. */
  lemma {:induction false} BoundaryExactly(config: Config, c: Client, sessionID: string, from: u64, to: u64,
                                           sync: Option<seq<string>>, ok: bool)
    requires c.phase == Resuming && c.lastSeq < MAX_U64
    ensures var r := Receives(config, c, Welcome(sessionID, Resumed(from, to, sync)), ok);
            var expected := sessionID == c.sessionID && from == c.lastSeq + 1 && c.lastSeq <= to
                            && sync == (if c.staging.namespaces == [] then None else Some(c.staging.namespaces));
            if !expected then Stops(c, r, ResumeFailed(Violation(ProtocolViolation)))
            else if to - c.lastSeq > config.maxReplayEvents then Stops(c, r, ReplayEventLimit)
            else if to == c.lastSeq && c.staging.namespaces == []
            then r == Done(c.(phase := Ready, ping := None, suspectAt := None, queries := map[], staging := NO_STAGING),
                           [SessionReady(c.sessionID)])
            else r == Done(c.(staging := Staging(to, [], 0, c.staging.namespaces, to == c.lastSeq, false)), [])
  {
    hide HandlePong, HandleAck, HandleEvent, HandleSnapshot, HandleUpdate, HandleError, HandleNewWelcome;
  }

  /** Once the boundary is fixed, an EVENT beyond the position is staged if and only if it is the next of the
      range and fits; the last one also completes the range. Any other stops the recovery. */
  lemma {:induction false} ReplayExactly(config: Config, c: Client, h: History, e: Event, ok: bool)
    requires Inv(config, Run(c, h)) && c.phase == Resuming && c.staging.replayTo != 0
    requires e.sessionID == c.sessionID && e.seqNo > c.lastSeq
    ensures var r := Receives(config, c, EventFrame(e), ok);
            var st := c.staging;
            if e.seqNo != c.lastSeq + |st.buffer| + 1 || e.seqNo > st.replayTo
            then Stops(c, r, ResumeFailed(Violation(ProtocolViolation)))
            else if |st.buffer| + 1 > config.maxReplayEvents || st.bytes + EventBytes(e) > config.maxReplayBytes
            then Stops(c, r, ReplayMemoryLimit)
            else if e.seqNo < st.replayTo || st.namespaces != []
            then r == Done(c.(staging := st.(buffer := st.buffer + [e], bytes := st.bytes + EventBytes(e),
                                             eventsComplete := e.seqNo == st.replayTo)), [])
            else && r.Done? && r.client.phase == Ready && r.client.lastSeq == e.seqNo
                 && DeliveredIn(r.actions) == st.buffer + [e]
  {
    hide HandleWelcome, HandlePong, HandleAck, HandleSnapshot, HandleUpdate, HandleError, HandleLiveEvent,
         HandleOldEvent;
    hide DeliveryOK, OutboxOK, StateMerge.CacheOK, SessionOK, HeartbeatOK, BufferBytes, FinishReplay, DeliveredIn;
    ReplayEventCases(config, c, e);
    var st := c.staging;
    if Expected(c, e) {
      ExpectedInRange(c.lastSeq, |st.buffer|, e.seqNo, st.replayTo);
      if Fits(config, st, e) && e.seqNo == st.replayTo && st.namespaces == [] {
        RangeDelivered(config, c, h, e);
      }
    }
  }

  lemma {:induction false} RangeDelivered(config: Config, c: Client, h: History, e: Event)
    requires Inv(config, Run(c, h)) && c.phase == Resuming && e.sessionID == c.sessionID
    requires e.seqNo == c.lastSeq + |c.staging.buffer| + 1
    ensures var r := FinishReplay(config, Grown(c, e, false), []);
            && r.Act? && r.client.phase == Ready && r.client.lastSeq == e.seqNo
            && DeliveredIn(r.actions) == c.staging.buffer + [e]
  {
    hide OutboxOK, StateMerge.CacheOK, SessionOK, HeartbeatOK, DeliveredIn;
    AdvanceDelivers(config, Grown(c, e, false), c.staging.buffer + [e], h.delivered);
    RecoveryActions(c.staging.buffer + [e], [], c.sessionID);
  }

  /** The snapshot of a recovery completes it if and only if it was asked for, the events are all in, it holds
      only requested namespaces, and the cache can take it; a snapshot the cache cannot take stops it as a
      conflict, any other as a violation. */
  lemma {:induction false} ResumeSnapshotExactly(config: Config, c: Client, h: History, id: string,
                                                 states: seq<StateMerge.StateObject>, ok: bool)
    requires Inv(config, Run(c, h)) && c.phase == Resuming && StateMerge.DistinctIdentities(states)
    ensures var r := Receives(config, c, StateSnapshot(id, c.sessionID, states), ok);
            var due := StateSyncEnabled(c.capabilities) && c.staging.namespaces != [] && c.staging.eventsComplete
                       && forall i | 0 <= i < |states| :: states[i].namespace in c.staging.namespaces;
            if !due then Stops(c, r, ResumeFailed(Violation(ProtocolViolation)))
            else if !StateBatch.Takes(config.cache, c.cache.objects, states) then Stops(c, r, SnapshotConflict)
            else && r.Done? && r.client.phase == Ready && DeliveredIn(r.actions) == c.staging.buffer
                 && r.client.cache.objects == StateBatch.Overlay(c.cache.objects, states)
  {
    hide HandleWelcome, HandlePong, HandleAck, HandleEvent, HandleUpdate, HandleError, HandleQuerySnapshot;
    hide DeliveryOK, OutboxOK, SessionOK, HeartbeatOK, StateBatch.Takes, StateBatch.Overlay, StateMerge.ApplyBatch;
    hide StateMerge.CacheOK, FinishReplay, BufferBytes, DeliveredIn;
    StateBatch.CommitsExactly(config.cache, c.cache, states);
    var applied := ApplyStates(config, c, states);
    if applied.Act? {
      SnapshotDelivers(config, c, h, applied.client.cache, applied.actions);
    }
  }

  lemma {:induction false} SnapshotDelivers(config: Config, c: Client, h: History, cache: StateMerge.Cache,
                                            changes: seq<Action>)
    requires Inv(config, Run(c, h)) && c.phase == Resuming && QuietActions(changes)
    ensures var r := FinishReplay(config, c.(cache := cache), changes);
            && r.Act? && r.client.phase == Ready && r.client.cache == cache
            && DeliveredIn(r.actions) == c.staging.buffer
  {
    hide OutboxOK, StateMerge.CacheOK, SessionOK, HeartbeatOK, DeliveredIn;
    AdvanceDelivers(config, c.(cache := cache), c.staging.buffer, h.delivered);
    RecoveryActions(c.staging.buffer, changes, c.sessionID);
  }

  // ---------------------------------------------------------------- frames out of place

  /** Outside the phases that expect it, a frame is refused without effect: WELCOME of the wrong mode or
      time, PONG and ACK outside READY and SUSPECT, EVENT outside READY and RESUMING, State outside READY and
      RESUMING, or a State update without the capability. */
  lemma {:induction false} OutOfPlaceIsRefused(config: Config, c: Client, frame: Frame, ok: bool)
    requires c.phase != Resuming && (frame.Welcome? || SessionOf(frame) == c.sessionID)
    requires match frame
             case Welcome(_, mode) => c.phase != Handshaking || mode.Resumed?
             case Pong(_, _) => c.phase !in {Ready, Suspect}
             case Ack(_, _) => c.phase !in {Ready, Suspect}
             case EventFrame(_) => c.phase != Ready
             case StateSnapshot(_, _, _) => c.phase != Ready || !StateSyncEnabled(c.capabilities)
             case StateUpdate(_, _, _) => c.phase != Ready || !StateSyncEnabled(c.capabilities)
             case _ => false
    ensures var r := Receives(config, c, frame, ok); r.Failed? && r.client == c
  {
    hide HandleError, HandleResumedWelcome, HandleReplayEvent, HandleLiveEvent, HandleResumeSnapshot, ApplyStates;
  }

  // ---------------------------------------------------------------- heartbeat

  /** The PONG of the outstanding ping clears it and restores READY; any other changes nothing. */
  lemma {:induction false} PongAnswers(config: Config, c: Client, h: History, pingID: string, ok: bool)
    requires Inv(config, Run(c, h)) && c.phase in {Ready, Suspect}
    ensures Receives(config, c, Pong(c.sessionID, pingID), ok) ==
            if c.ping.Some? && c.ping.value.id == pingID
            then Done(c.(ping := None, suspectAt := None, phase := Ready), []) else Done(c, [])
  {
    hide HandleWelcome, HandleAck, HandleEvent, HandleSnapshot, HandleUpdate, HandleError;
    hide DeliveryOK, OutboxOK, StateMerge.CacheOK, StagingOK;
  }

  /** An overdue ping makes a READY client SUSPECT, the grace period after that ends the connection and
      nothing but the connection; before, a check changes nothing. */
  lemma {:induction false} OverduePing(config: Config, c: Client, h: History, now: int)
    requires Inv(config, Run(c, h)) && c.ping.Some?
    ensures var r := Step(config, c, OpCheckHeartbeat(c.generation, now));
            if c.phase == Ready && now - c.ping.value.sentAt >= config.heartbeatTimeout
            then r == Done(c.(phase := Suspect, suspectAt := Some(now)), [])
            else if c.phase == Suspect && now - c.suspectAt.value >= config.disconnectGrace
            then && r.Done? && r.actions == [CloseConnection(HeartbeatTimeout)]
                 && r.client == c.(phase := Disconnected, ping := None, suspectAt := None, queries := map[])
            else r == Done(c, [])
  {
    hide HandleIncoming, DeliveryOK, OutboxOK, StateMerge.CacheOK;
  }

  /** A READY client without an outstanding ping sends one, once. */
  lemma {:induction false} PingIsSent(config: Config, c: Client, g: u64, pingID: string, now: int, ok: bool)
    ensures var r := Step(config, c, OpSendPing(g, pingID, now, ok));
            && (r.Done? <==> g == c.generation && c.phase == Ready && c.ping.None? && pingID != "" && ok)
            && (r.Done? ==> r == Done(c.(ping := Some(Ping(pingID, now, g))),
                                      [SendFrame(PingRequest(c.sessionID, pingID, now))]))
            && (r.Failed? ==> r.client == c)
  {
    hide HandleIncoming;
  }

  function StepTo(config: Config, start: Run, op: Op): Run
  {
    var r := Step(config, start.client, op);
    Run(r.client, Observe(start.history, op, r))
  }

  lemma {:induction false} TwoSteps(config: Config, start: Run, a: Op, b: Op)
    ensures RunFrom(config, start, [a, b]) == StepTo(config, StepTo(config, start, a), b)
  {
    hide Step, Observe;
    assert [a, b][1..] == [b] && [b][1..] == [];
    assert RunFrom(config, StepTo(config, StepTo(config, start, a), b), [])
        == StepTo(config, StepTo(config, start, a), b);
    assert RunFrom(config, StepTo(config, start, a), [b]) == StepTo(config, StepTo(config, start, a), b);
  }

  /** From READY without a ping: a ping that stays unanswered for the timeout makes the client SUSPECT at
      the next check. */
  lemma {:induction false} SilenceIsNoticed(config: Config, start: Run, pingID: string, sent: int, now: int)
    requires Inv(config, start) && start.client.phase == Ready && start.client.ping.None? && pingID != ""
    requires now - sent >= config.heartbeatTimeout
    ensures var g := start.client.generation;
            var s := RunFrom(config, start, [OpSendPing(g, pingID, sent, true), OpCheckHeartbeat(g, now)]).client;
            && s == start.client.(phase := Suspect, suspectAt := Some(now), ping := Some(Ping(pingID, sent, g)))
  {
    hide HandleIncoming, Inv, Observe;
    var g := start.client.generation;
    TwoSteps(config, start, OpSendPing(g, pingID, sent, true), OpCheckHeartbeat(g, now));
  }

  /** Then either the PONG arrives and the client is as it was, or the grace period passes and the
      connection ends with Session, outbox and position kept. */
  lemma {:induction false} SuspectEnds(config: Config, start: Run, now: int)
    requires Inv(config, start) && start.client.phase == Suspect
    ensures var c := start.client;
            && Receives(config, c, Pong(c.sessionID, c.ping.value.id), true)
               == Done(c.(phase := Ready, ping := None, suspectAt := None), [])
            && (now - c.suspectAt.value >= config.disconnectGrace ==>
                  var r := Step(config, c, OpCheckHeartbeat(c.generation, now));
                  && r.Done? && r.client.phase == Disconnected && r.actions == [CloseConnection(HeartbeatTimeout)]
                  && r.client.sessionID == c.sessionID && r.client.outbox == c.outbox && r.client.lastSeq == c.lastSeq)
  {
    hide HandleIncoming, Step, DeliveryOK, OutboxOK, StateMerge.CacheOK;
    PongAnswers(config, start.client, start.history, start.client.ping.value.id, true);
    OverduePing(config, start.client, start.history, now);
  }

  // ---------------------------------------------------------------- ERROR

  const CLOSING: set<Code> :=
    {UnsupportedVersion, UnsupportedFeature, Unauthorized, StateSyncRequired, StateUnavailable, ProtocolViolation}

  lemma {:induction false} ErrorIsHandled(config: Config, c: Client, sessionID: string, payload: ErrorPayload, ok: bool)
    requires sessionID == "" || sessionID == c.sessionID
    ensures var r := HandleError(c, payload);
            Receives(config, c, ErrorFrame(sessionID, payload), ok) == Done(r.client, r.actions)
  {
    hide HandleWelcome, HandlePong, HandleAck, HandleEvent, HandleSnapshot, HandleUpdate;
  }

  /** Outside RESUMING an ERROR is reported first; a closing code then closes, and only a closing code;
      INVALID_SESSION drops everything kept for the Session; any other code ends at most the query it
      names. */
  lemma {:induction false} ErrorAnswers(config: Config, c: Client, sessionID: string, payload: ErrorPayload, ok: bool)
    requires c.phase != Resuming && (sessionID == "" || sessionID == c.sessionID)
    ensures var r := Receives(config, c, ErrorFrame(sessionID, payload), ok);
            && r.Done?
            && r.actions == [ProtocolError(payload)]
                            + (if payload.code in CLOSING then [CloseConnection(ErrorCode(payload.code))] else [])
            && (if payload.code in CLOSING
                then r.client == c.(phase := Disconnected, ping := None, suspectAt := None, queries := map[],
                                    staging := NO_STAGING)
                else if payload.code == InvalidSession
                then r.client == INITIAL.(generation := c.generation)
                else r.client == if payload.refID == "" then c else c.(queries := c.queries - {payload.refID}))
  {
    hide Receives;
    ErrorIsHandled(config, c, sessionID, payload, ok);
  }

  /** In RESUMING every ERROR ends the recovery: a full synchronisation is asked for when the position or
      the Session is gone, or State was wanted and cannot be had; otherwise the connection is closed. */
  lemma {:induction false} ErrorEndsRecovery(config: Config, c: Client, sessionID: string, payload: ErrorPayload,
                                             ok: bool)
    requires c.phase == Resuming && (sessionID == "" || sessionID == c.sessionID)
    ensures var r := Receives(config, c, ErrorFrame(sessionID, payload), ok);
            var full := payload.code in {SyncRequired, InvalidSession}
                        || (payload.code == StateSyncRequired && c.staging.namespaces != []);
            && r.Done? && r.client.phase == Disconnected && r.client.staging == NO_STAGING
            && r.actions == [ProtocolError(payload)] + (if full then [FullSyncRequired(c.sessionID)] else [])
                            + (if full && payload.code !in CLOSING then []
                               else [CloseConnection(ErrorCode(payload.code))])
            && (payload.code == InvalidSession ==> r.client == INITIAL.(generation := c.generation))
            && (payload.code != InvalidSession ==> SameSession(c, r.client) && r.client.cache == c.cache)
  {
    hide Receives;
    ErrorIsHandled(config, c, sessionID, payload, ok);
  }

  // ---------------------------------------------------------------- frames that do not belong

  /** A frame that names another Session, or that only a client sends, is refused without effect. */
  lemma {:induction false} ForeignIsRefused(config: Config, c: Client, frame: Frame, ok: bool)
    requires c.phase != Resuming
    requires frame.FromClient?
             || (!frame.Welcome? && SessionOf(frame) != c.sessionID && (frame.ErrorFrame? ==> SessionOf(frame) != ""))
    ensures Receives(config, c, frame, ok) == Failed(c, Violation(ProtocolViolation))
  {
    hide HandleWelcome, HandlePong, HandleAck, HandleEvent, HandleSnapshot, HandleUpdate, HandleError;
  }

  /** A frame that does not pass validation is reported without effect, unless it claims to be an ERROR:
      that closes the connection and is never answered. */
  lemma {:induction false} MalformedIsRefused(config: Config, c: Client, isError: bool, code: Code, ok: bool)
    requires c.phase != Resuming
    ensures HandleIncoming(config, c, c.generation, Malformed(isError, code), ok) ==
            if isError
            then Done(c.(phase := Disconnected, ping := None, suspectAt := None, queries := map[],
                         staging := NO_STAGING),
                      [CloseConnection(InvalidErrorFrame)])
            else Failed(c, Violation(code))
  {
    hide Dispatch;
  }

  // ---------------------------------------------------------------- connecting

  /** BeginConnect and TransportConnected open a new connection from any state: the generation is new, and
      what is kept for the Session stays. */
  lemma {:induction false} Connects(config: Config, start: Run)
    ensures var c, g := start.client, Wrap(start.client.generation + 1);
            RunFrom(config, start, [OpBeginConnect, OpTransportConnected(g)]).client
            == c.(generation := g, phase := Connected, ping := None, suspectAt := None, queries := map[],
                  staging := NO_STAGING)
  {
    hide HandleIncoming, Observe;
    TwoSteps(config, start, OpBeginConnect, OpTransportConnected(Wrap(start.client.generation + 1)));
  }

  /** A client greets, with its configured offers, if and only if it is connected without a Session. */
  lemma {:induction false} Greets(config: Config, c: Client, g: u64, name: string, ok: bool)
    ensures var r := Step(config, c, OpStartSession(g, name, ok));
            && (r.Done? <==> g == c.generation && c.phase == Connected && c.sessionID == "" && ok)
            && (r.Done? ==> r == Done(c.(phase := Handshaking), [SendFrame(Hello(name, config.offers))]))
            && (r.Failed? ==> r.client == c)
  {
    hide HandleIncoming;
  }

  /** Disconnecting ends the connection and keeps the Session. */
  lemma {:induction false} Disconnects(config: Config, c: Client)
    ensures Step(config, c, OpDisconnect(c.generation))
         == Done(c.(phase := Disconnected, ping := None, suspectAt := None, queries := map[], staging := NO_STAGING),
                 [])
  {
    hide HandleIncoming;
  }

  /** A recovery is asked for if and only if the client is connected and has a Session, and, for State, the
      capability and namespaces that are distinct and valid. */
  lemma {:induction false} ResumesExactly(config: Config, c: Client, g: u64, namespaces: seq<string>, ok: bool)
    ensures var may := g == c.generation && c.phase == Connected && c.sessionID != "" && ok;
            && (Step(config, c, OpResume(g, ok)).Done? <==> may)
            && (Step(config, c, OpResumeWithState(g, namespaces, ok)).Done? <==>
                  && may && StateSyncEnabled(c.capabilities) && namespaces != []
                  && exists sorted: seq<string> ::
                       Text.StrictlySorted(sorted) && multiset(sorted) == multiset(namespaces)
                         && config.validNamespaces(sorted))
  {
    hide HandleIncoming, Text.SortedCopy, Text.StrictlySorted;
    Text.SortedCopySorts(namespaces);
    var sorted := Text.SortedCopy(namespaces);
    assert |sorted| == |multiset(sorted)| && |namespaces| == |multiset(namespaces)|;
    forall other: seq<string> | Text.StrictlySorted(other) && multiset(other) == multiset(namespaces)
      ensures other == sorted
    {
      SortedOnce(namespaces, other);
    }
  }

  // ---------------------------------------------------------------- WELCOME of a new Session

  /** What the accepted list must satisfy: a valid list, each choice offered by the client, each required
      offer answered. */
  ghost predicate Acceptable(config: Config, accepted: seq<Capability.Negotiated>)
  {
    && Capability.ValidOffers(config.offers, config.capabilityLimits)
    && Capability.ValidNegotiated(accepted, config.capabilityLimits)
    && (forall choice | choice in accepted :: Capability.Offered(config.offers, choice))
    && (forall offer | offer in config.offers && offer.required :: Capability.Answered(accepted, offer))
  }

  /** The capabilities of the Session are exactly the accepted names with their versions. */
  predicate Holds(capabilities: map<string, Capability.u16>, accepted: seq<Capability.Negotiated>)
  {
    && (forall i | 0 <= i < |accepted| ::
          accepted[i].name in capabilities && capabilities[accepted[i].name] == accepted[i].version)
    && (forall name | name in capabilities :: Chosen(accepted, name))
  }

  predicate Chosen(accepted: seq<Capability.Negotiated>, name: string)
  {
    exists i | 0 <= i < |accepted| :: accepted[i].name == name
  }

  predicate DistinctChoices(accepted: seq<Capability.Negotiated>)
  {
    forall i, j | 0 <= i < j < |accepted| :: accepted[i].name != accepted[j].name
  }

  lemma {:induction false} CanonicalDistinct(accepted: seq<Capability.Negotiated>)
    requires Capability.CanonicalOrder(accepted)
    ensures DistinctChoices(accepted)
  {
    hide Text.Less;
    forall i, j | 0 <= i < j < |accepted|
      ensures accepted[i].name != accepted[j].name
    {
      Text.LessTotal(accepted[i].name, accepted[i].name);
    }
  }

  lemma {:induction false} MapHolds(accepted: seq<Capability.Negotiated>)
    requires DistinctChoices(accepted)
    ensures Holds(CapabilityMap(accepted), accepted)
    decreases |accepted|
  {
    if accepted == [] {
    } else {
      MapHolds(accepted[..|accepted| - 1]);
      OneMoreHeld(CapabilityMap(accepted[..|accepted| - 1]), accepted);
    }
  }

  lemma {:induction false} OneMoreHeld(held: map<string, Capability.u16>, accepted: seq<Capability.Negotiated>)
    requires accepted != [] && DistinctChoices(accepted) && Holds(held, accepted[..|accepted| - 1])
    ensures var last := accepted[|accepted| - 1]; Holds(held[last.name := last.version], accepted)
  {
    var front, last := accepted[..|accepted| - 1], accepted[|accepted| - 1];
    var after := held[last.name := last.version];
    forall name | name in after
      ensures Chosen(accepted, name)
    {
      if name == last.name {
        assert accepted[|accepted| - 1].name == name;
      } else {
        var i :| 0 <= i < |front| && front[i].name == name;
        assert accepted[i].name == name;
      }
    }
    assert forall i | 0 <= i < |front| :: front[i] == accepted[i] && accepted[i].name != last.name;
  }

  /** A greeting client adopts a new Session if and only if it is named and the accepted list is
      acceptable; it is then READY with exactly those capabilities. Otherwise nothing changes. */
  lemma {:induction false} WelcomeAdopts(config: Config, c: Client, sessionID: string,
                                         accepted: seq<Capability.Negotiated>, ok: bool)
    requires c.phase == Handshaking
    ensures var r := Receives(config, c, Welcome(sessionID, NewSession(accepted)), ok);
            && (r.Done? <==> sessionID != "" && Acceptable(config, accepted))
            && (r.Done? ==>
                  && Holds(r.client.capabilities, accepted) && r.actions == [SessionReady(sessionID)]
                  && r.client == c.(sessionID := sessionID, phase := Ready, capabilities := r.client.capabilities))
            && (r.Failed? ==> r.client == c)
  {
    hide HandlePong, HandleAck, HandleEvent, HandleSnapshot, HandleUpdate, HandleError, HandleResumedWelcome;
    hide Holds, CapabilityMap, Capability.ValidOffers, Capability.Offered, Capability.Answered;
    if Acceptable(config, accepted) {
      CanonicalDistinct(accepted);
      MapHolds(accepted);
    }
  }

  // ---------------------------------------------------------------- SEND and ACK

  /** A READY client takes a SEND if and only if it fits the limits, its identifier is not pending and its
      frame is valid; it is then pending and sent. Otherwise nothing changes. */
  lemma {:induction false} SendIsTaken(config: Config, c: Client, id: string, content: string, json: bool, now: int,
                                       ok: bool)
    requires c.phase == Ready && c.sessionID != ""
    ensures var r := Step(config, c, OpEnqueueSend(id, content, json, now, ok));
            var frame := Send(id, c.sessionID, now, content);
            && (r.Done? <==> && 0 < |id| <= config.maxIDLength && |content| <= config.maxPayloadSize && json && ok
                             && id !in c.outbox)
            && (r.Done? ==> r == Done(c.(outbox := c.outbox[id := frame]), [SendFrame(frame)]))
            && (r.Failed? ==> r.client == c)
  {
    hide HandleIncoming;
  }

  /** An ACK of the Session removes and reports the SEND it names; one that names nothing pending changes
      nothing. */
  lemma {:induction false} AckReports(config: Config, c: Client, refID: string, ok: bool)
    requires c.phase in {Ready, Suspect}
    ensures Receives(config, c, Ack(c.sessionID, refID), ok) ==
            if refID in c.outbox then Done(c.(outbox := c.outbox - {refID}), [Acked(refID)]) else Done(c, [])
  {
    hide HandleWelcome, HandlePong, HandleEvent, HandleSnapshot, HandleUpdate, HandleError;
  }

  /** The actions are the pending SENDs, each once, in the order of their identifiers. */
  ghost predicate Resends(outbox: map<string, Request>, actions: seq<Action>)
  {
    && |actions| == |outbox|
    && (forall i | 0 <= i < |actions| :: actions[i].SendFrame? && actions[i].request.Send?)
    && (forall i | 0 <= i < |actions| ::
          actions[i].request.id in outbox && outbox[actions[i].request.id] == actions[i].request)
    && (forall i, j | 0 <= i < j < |actions| :: Text.Less(actions[i].request.id, actions[j].request.id))
    && (forall m | m in outbox :: exists i | 0 <= i < |actions| :: actions[i] == SendFrame(outbox[m]))
  }

  lemma {:induction false} ListedCount(ids: seq<string>, keys: set<string>)
    requires Text.Lists(ids, keys)
    ensures |ids| == |keys|
    decreases |ids|
  {
    if ids == [] {
      assert forall id :: id !in keys;
      assert keys == {};
    } else {
      var rest := keys - {ids[0]};
      assert ids[0] in ids;
      forall id | id in ids[1..]
        ensures id in rest
      {
        Text.LessTotal(ids[0], ids[0]);
      }
      forall id | id in rest
        ensures id in ids[1..]
      {
        assert id in ids;
      }
      ListedCount(ids[1..], rest);
    }
  }

  lemma {:induction false} OrderedResends(outbox: map<string, Request>, ids: seq<string>)
    requires forall m | m in outbox :: outbox[m].Send? && outbox[m].id == m
    requires Text.Lists(ids, outbox.Keys)
    ensures Resends(outbox, RetryActions(outbox, ids))
  {
    hide Text.Less;
    var actions := RetryActions(outbox, ids);
    ListedCount(ids, outbox.Keys);
    assert |outbox| == |outbox.Keys|;
    assert forall i | 0 <= i < |ids| :: ids[i] in ids && actions[i] == SendFrame(outbox[ids[i]]);
    forall m | m in outbox
      ensures exists i | 0 <= i < |actions| :: actions[i] == SendFrame(outbox[m])
    {
      assert m in ids;
      var i :| 0 <= i < |ids| && ids[i] == m;
      assert actions[i] == SendFrame(outbox[m]);
    }
  }

  /** RetryPending sends every pending SEND again, exactly once and unchanged, in identifier order. */
  lemma {:induction false} RetryResends(config: Config, c: Client, h: History)
    requires Inv(config, Run(c, h)) && c.phase == Ready
    ensures var r := Step(config, c, OpRetryPending);
            r.Done? && r.client == c && Resends(c.outbox, r.actions)
  {
    hide HandleIncoming, Text.Ordered, Text.Lists, Resends, RetryActions, DeliveryOK, Local, StateMerge.CacheOK;
    OrderedResends(c.outbox, Text.Ordered(c.outbox.Keys));
  }

  // ---------------------------------------------------------------- State queries

  /** A query that is sent is the one recorded: the namespace and the object identities asked for, in
      canonical order; a pending identifier is never used twice. */
  lemma {:induction false} QueryIsRecorded(config: Config, c: Client, id: string, namespace: string,
                                           objects: seq<string>, now: int, ok: bool)
    requires c.phase == Ready && c.sessionID != ""
    ensures var r := Step(config, c, OpQueryState(id, namespace, objects, now, ok));
            && (r.Done? <==> StateSyncEnabled(c.capabilities) && ok && id !in c.queries)
            && (r.Done? ==>
                  && id in r.client.queries
                  && var q := r.client.queries[id];
                     && r.client == c.(queries := c.queries[id := q])
                     && r.actions == [SendFrame(StateQuery(id, c.sessionID, now, q))]
                     && q.namespace == namespace && multiset(q.objectIDs) == multiset(objects)
                     && Text.Sorted(q.objectIDs))
            && (r.Failed? ==> r.client == c)
  {
    hide HandleIncoming, Text.SortedCopy, Text.Sorted;
    Text.SortedCopySorts(objects);
  }

  /** Every object was asked for by that query. */
  predicate AskedFor(q: Query, states: seq<StateMerge.StateObject>)
  {
    forall i | 0 <= i < |states| :: states[i].namespace == q.namespace && states[i].objectID in q.objectIDs
  }

  /** A snapshot answers a query of a READY client if and only if the query is outstanding, every object
      was asked for, and the batch can be taken; the query is then no longer outstanding. Otherwise
      nothing changes. */
  lemma {:induction false} SnapshotAnswers(config: Config, c: Client, h: History, id: string,
                                           states: seq<StateMerge.StateObject>, ok: bool)
    requires Inv(config, Run(c, h)) && c.phase == Ready && StateSyncEnabled(c.capabilities)
    requires StateMerge.DistinctIdentities(states)
    ensures var r := Receives(config, c, StateSnapshot(id, c.sessionID, states), ok);
            && (r.Done? <==> && id in c.queries && AskedFor(c.queries[id], states)
                             && StateBatch.Takes(config.cache, c.cache.objects, states))
            && (r.Done? ==>
                  && r.client == c.(queries := c.queries - {id}, cache := r.client.cache)
                  && r.client.cache.objects == StateBatch.Overlay(c.cache.objects, states))
            && (r.Failed? ==> r.client == c)
  {
    hide HandleWelcome, HandlePong, HandleAck, HandleEvent, HandleUpdate, HandleError, HandleResumeSnapshot;
    hide DeliveryOK, OutboxOK, Local, StateBatch.Takes, StateMerge.ApplyBatch, StateMerge.CacheOK;
    StateBatch.CommitsExactly(config.cache, c.cache, states);
  }

  /** So a query is answered at most once. */
  lemma {:induction false} AnsweredOnce(config: Config, c: Client, h: History, id: string,
                                        states: seq<StateMerge.StateObject>, again: seq<StateMerge.StateObject>)
    requires Inv(config, Run(c, h)) && c.phase == Ready && StateSyncEnabled(c.capabilities)
    requires StateMerge.DistinctIdentities(states)
             && Receives(config, c, StateSnapshot(id, c.sessionID, states), true).Done?
    ensures var d := Receives(config, c, StateSnapshot(id, c.sessionID, states), true).client;
            Receives(config, d, StateSnapshot(id, c.sessionID, again), true) == Failed(d, Violation(ProtocolViolation))
  {
    hide Receives, Inv;
    SnapshotAnswers(config, c, h, id, states, true);
    var d := Receives(config, c, StateSnapshot(id, c.sessionID, states), true).client;
    UnknownQuery(config, d, id, again);
  }

  lemma {:induction false} UnknownQuery(config: Config, c: Client, id: string, states: seq<StateMerge.StateObject>)
    requires c.phase == Ready && id !in c.queries
    ensures Receives(config, c, StateSnapshot(id, c.sessionID, states), true) == Failed(c, Violation(ProtocolViolation))
  {
    hide HandleWelcome, HandlePong, HandleAck, HandleEvent, HandleUpdate, HandleError, HandleResumeSnapshot;
  }
}
