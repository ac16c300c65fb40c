/** The client as it is written: an object whose methods update its fields, proved step by step
    against the machine. */
module ClientProtocolObject {
  import opened Wire
  import opened Protocol
  import opened ClientMachine
  import opened ClientInvariant
  import opened ClientTheorems
  import Capability
  import StateMerge
  import Text

  datatype Reply = Ok(actions: seq<Action>) | Error(error: ClientError)

  function ReplyOf(outcome: Outcome): Reply
  {
    match outcome
    case Done(_, actions) => Ok(actions)
    case Failed(_, error) => Error(error)
  }

  /** `after` and `r` are what the handler yields on `before`. */
  predicate Answers(handled: Handled, before: Client, after: Client, r: Reply)
  {
    match handled
    case Act(next, actions) => after == next && r == Ok(actions)
    case Err(error) => after == before && r == Error(error)
  }

  /** One public call: the new state, the reply and the history are those of the machine's step. */
  ghost predicate Performed(config: Config, before: Client, h: History, op: Op, after: Client, recorded: History,
                            r: Reply)
  {
    var o := Step(config, before, op);
    after == o.client && r == ReplyOf(o) && recorded == Observe(h, op, o)
  }

  class ClientProtocol {
    const config: Config
    var phase: Phase
    var generation: u64
    var sessionID: string
    var lastSeq: u64
    var eventIDs: map<u64, string>
    var outbox: map<string, Request>
    var pendingPing: Option<Ping>
    var suspectAt: Option<int>
    var capabilities: map<string, Capability.u16>
    var stateCache: StateMerge.Cache
    var stateQueries: map<string, Query>
    var replay: Staging
    /** What the object has handed to the application since its Session began, kept for the proof only. */
    ghost var history: History

    /** The invariant of every run: what holds after any calls, whatever frames arrived. */
    ghost predicate Valid()
      reads this
    {
      Inv(config, Run(View(), history))
    }

    function View(): Client
      reads this
    {
      Client(phase, generation, sessionID, lastSeq, eventIDs, outbox, pendingPing, suspectAt, capabilities,
             stateCache, stateQueries, replay)
    }

    constructor (config: Config)
      ensures Valid() && View() == INITIAL && history == NOTHING && this.config == config
    {
      this.config := config;
      phase, generation, sessionID, lastSeq := Disconnected, 0, "", 0;
      eventIDs, outbox := map[], map[];
      pendingPing, suspectAt := None, None;
      capabilities, stateCache, stateQueries := map[], StateMerge.EMPTY, map[];
      replay := NO_STAGING;
      history := NOTHING;
      new;
      InitialHolds(config);
    }

    /** Extends the history by one call that took the object from `before` to here. */
    ghost method Record(before: Client, op: Op)
      requires Inv(config, Run(before, history)) && View() == Step(config, before, op).client
      modifies this`history
      ensures Valid() && history == Observe(old(history), op, Step(config, before, op))
    {
      hide Inv, Observe, Step;
      StepKeeps(config, before, history, op);
      history := Observe(history, op, Step(config, before, op));
    }

    // -------------------------------------------------------------- what the object guarantees

    /** Conservation: every SEND accepted since the Session began is acknowledged or still pending,
        never both and never neither. */
    lemma {:induction false} ConservesSends()
      requires Valid()
      ensures forall m: string :: history.enqueued[m] == history.acked[m] + (if m in outbox then 1 else 0)
      ensures forall m | m in outbox :: outbox[m].Send? && outbox[m].id == m && outbox[m].sessionID == sessionID
    {
    }

    /** The application has been given the stream from its beginning, without gap or repetition, and
        the identity map is exactly the last window of it. */
    lemma {:induction false} RemembersWindow()
      requires Valid()
      ensures |history.delivered| == lastSeq && Consecutive(history.delivered, sessionID, 0)
      ensures forall k: u64 :: k in eventIDs <==> 0 < k <= lastSeq && k > lastSeq - config.eventIdentityWindow
      ensures forall k: u64 | k in eventIDs :: eventIDs[k] == history.delivered[k - 1].id
    {
    }

    // -------------------------------------------------------------- shared transitions

    method ResetConnectionTransient()
      modifies this
      ensures history == old(history)
      ensures View() == Reset(old(View()))
    {
      pendingPing := None;
      suspectAt := None;
      stateQueries := map[];
      replay := NO_STAGING;
    }

    method CloseLocally()
      modifies this
      ensures history == old(history)
      ensures View() == Drop(old(View()))
    {
      phase := Disconnected;
      ResetConnectionTransient();
    }

    method BeginRecoveryLocked(namespaces: seq<string>, gap: bool)
      modifies this
      ensures history == old(history)
      ensures View() == BeginRecovery(old(View()), namespaces, gap)
    {
      ResetConnectionTransient();
      phase := Resuming;
      replay := replay.(namespaces := namespaces, gap := gap);
    }

    method ForgetProgress()
      modifies this
      ensures history == old(history)
      ensures View() == old(View()).(lastSeq := 0, eventIDs := map[], outbox := map[])
    {
      lastSeq := 0;
      eventIDs := map[];
      outbox := map[];
    }

    method AbandonSession()
      modifies this
      ensures history == old(history)
      ensures View() == Abandon(old(View()))
    {
      hide Reset;
      phase := Disconnected;
      sessionID := "";
      ForgetProgress();
      capabilities := map[];
      stateCache := StateMerge.EMPTY;
      ResetConnectionTransient();
    }

    method RememberEvent(seqNo: u64, eventID: string)
      modifies this`eventIDs
      ensures eventIDs == Remember(old(eventIDs), config.eventIdentityWindow, seqNo, eventID)
    {
      eventIDs := eventIDs[seqNo := eventID];
      if seqNo > config.eventIdentityWindow {
        eventIDs := eventIDs - {seqNo - config.eventIdentityWindow};
      }
    }

    method Stop(code: Code, reason: Reason) returns (r: Reply)
      modifies this
      ensures history == old(history)
      ensures View() == Drop(old(View())) && r == Ok(StopActions(old(View()), code, reason))
    {
      CloseLocally();
      return Ok([ProtocolError(ErrorPayload(code, "", false)), FullSyncRequired(sessionID), CloseConnection(reason)]);
    }

    method HandleIncomingFailure(error: ClientError) returns (r: Reply)
      modifies this
      ensures history == old(history)
      ensures View() == OnFailure(old(View()), error).client && r == ReplyOf(OnFailure(old(View()), error))
    {
      if phase != Resuming {
        return Error(error);
      }
      if replay.namespaces != [] {
        r := Stop(StateSyncRequired, ResumeFailed(error));
      } else {
        r := Stop(SyncRequired, ResumeFailed(error));
      }
    }

    /** The delivery loop over the staged events. */
    method DeliverBuffer() returns (actions: seq<Action>)
      modifies this`lastSeq, this`eventIDs
      ensures View() == Advance(config, old(View()), old(replay.buffer))
      ensures actions == Deliveries(old(replay.buffer))
    {
      actions := [];
      var i := 0;
      while i < |replay.buffer|
        invariant 0 <= i <= |replay.buffer|
        invariant Advance(config, View(), replay.buffer[i..]) == Advance(config, old(View()), replay.buffer)
        invariant View() == old(View()).(lastSeq := lastSeq, eventIDs := eventIDs)
        invariant actions == Deliveries(replay.buffer[..i])
      {
        var event := replay.buffer[i];
        assert replay.buffer[i..][1..] == replay.buffer[i + 1..];
        lastSeq := event.seqNo;
        RememberEvent(event.seqNo, event.id);
        actions := actions + [DeliverEvent(event)];
        i := i + 1;
      }
      assert replay.buffer[i..] == [] && replay.buffer[..i] == replay.buffer;
    }

    /** Events first, then State changes, READY last. */
    method FinishRecovery(changes: seq<Action>) returns (r: Reply)
      modifies this
      ensures history == old(history)
      ensures Answers(FinishReplay(config, old(View()), changes), old(View()), View(), r)
    {
      var actions := DeliverBuffer();
      actions := actions + changes;
      ResetConnectionTransient();
      phase := Ready;
      actions := actions + [SessionReady(sessionID)];
      return Ok(actions);
    }

    // -------------------------------------------------------------- application calls

    method BeginConnect() returns (g: u64)
      requires Valid()
      modifies this
      ensures Valid()
      ensures var o := Step(config, old(View()), OpBeginConnect);
              View() == o.client && g == generation && history == Observe(old(history), OpBeginConnect, o)
    {
      hide Inv, Observe, ClientMachine.HandleIncoming;
      generation := Wrap(generation + 1);
      phase := Connecting;
      ResetConnectionTransient();
      Record(old(View()), OpBeginConnect);
      return generation;
    }

    method TransportConnected(generation: u64) returns (r: Reply)
      requires Valid()
      modifies this
      ensures Valid()
      ensures Performed(config, old(View()), old(history), OpTransportConnected(generation), View(), history, r)
    {
      hide Inv, Observe, ClientMachine.HandleIncoming;
      if generation != this.generation {
        r := Error(StaleConnection);
      } else if phase != Connecting {
        r := Error(InvalidState);
      } else {
        phase := Connected;
        r := Ok([]);
      }
      Record(old(View()), OpTransportConnected(generation));
    }

    method StartSession(generation: u64, clientName: string, outboundOK: bool) returns (r: Reply)
      requires Valid()
      modifies this
      ensures Valid()
      ensures Performed(config, old(View()), old(history), OpStartSession(generation, clientName, outboundOK), View(),
                        history, r)
    {
      hide Inv, Observe, ClientMachine.HandleIncoming;
      if generation != this.generation {
        r := Error(StaleConnection);
      } else if phase != Connected || sessionID != "" {
        r := Error(InvalidState);
      } else if !outboundOK {
        r := Error(Violation(BadRequest));
      } else {
        phase := Handshaking;
        r := Ok([SendFrame(Hello(clientName, config.offers))]);
      }
      Record(old(View()), OpStartSession(generation, clientName, outboundOK));
    }

    method StartResumeLocked(generation: u64, namespaces: seq<string>, outboundOK: bool) returns (r: Reply)
      modifies this
      ensures history == old(history)
      ensures var o := StartResume(old(View()), generation, namespaces, outboundOK);
              View() == o.client && r == ReplyOf(o)
    {
      if generation != this.generation {
        return Error(StaleConnection);
      }
      if phase != Connected || sessionID == "" {
        return Error(InvalidState);
      }
      var frame := Request.Resume(sessionID, lastSeq, if namespaces == [] then None else Some(namespaces));
      if !outboundOK {
        return Error(Violation(BadRequest));
      }
      BeginRecoveryLocked(namespaces, false);
      return Ok([SendFrame(frame)]);
    }

    method Resume(generation: u64, outboundOK: bool) returns (r: Reply)
      requires Valid()
      modifies this
      ensures Valid()
      ensures Performed(config, old(View()), old(history), OpResume(generation, outboundOK), View(), history, r)
    {
      hide Inv, Observe, ClientMachine.HandleIncoming;
      r := StartResumeLocked(generation, [], outboundOK);
      Record(old(View()), OpResume(generation, outboundOK));
    }

    method ResumeWithState(generation: u64, namespaces: seq<string>, outboundOK: bool) returns (r: Reply)
      requires Valid()
      modifies this
      ensures Valid()
      ensures Performed(config, old(View()), old(history), OpResumeWithState(generation, namespaces, outboundOK),
                        View(), history, r)
    {
      hide Inv, Observe, ClientMachine.HandleIncoming;
      if generation != this.generation {
        r := Error(StaleConnection);
      } else if !StateSyncEnabled(capabilities) {
        r := Error(Violation(ProtocolViolation));
      } else {
        var canonical := Text.Canonicalize(namespaces);
        if canonical == [] || !Text.StrictlySorted(canonical) || !config.validNamespaces(canonical) {
          r := Error(Violation(BadRequest));
        } else {
          r := StartResumeLocked(generation, canonical, outboundOK);
        }
      }
      Record(old(View()), OpResumeWithState(generation, namespaces, outboundOK));
    }

    method Disconnect(generation: u64) returns (r: Reply)
      requires Valid()
      modifies this
      ensures Valid()
      ensures Performed(config, old(View()), old(history), OpDisconnect(generation), View(), history, r)
    {
      hide Inv, Observe, ClientMachine.HandleIncoming;
      if generation != this.generation {
        r := Error(StaleConnection);
      } else {
        CloseLocally();
        r := Ok([]);
      }
      Record(old(View()), OpDisconnect(generation));
    }

    method QueryState(queryID: string, namespace: string, objectIDs: seq<string>, now: int, outboundOK: bool)
      returns (r: Reply)
      requires Valid()
      modifies this
      ensures Valid()
      ensures Performed(config, old(View()), old(history), OpQueryState(queryID, namespace, objectIDs, now, outboundOK),
                        View(), history, r)
    {
      hide Inv, Observe, ClientMachine.HandleIncoming;
      if phase != Ready || sessionID == "" {
        r := Error(InvalidState);
      } else if !StateSyncEnabled(capabilities) {
        r := Error(Violation(ProtocolViolation));
      } else {
        var ids := Text.Canonicalize(objectIDs);
        var query := Query.Query(namespace, ids);
        if !outboundOK {
          r := Error(Violation(BadRequest));
        } else if queryID in stateQueries {
          r := Error(Violation(ProtocolViolation));
        } else {
          stateQueries := stateQueries[queryID := query];
          r := Ok([SendFrame(StateQuery(queryID, sessionID, now, query))]);
        }
      }
      Record(old(View()), OpQueryState(queryID, namespace, objectIDs, now, outboundOK));
    }

    method EnqueueSend(messageID: string, content: string, validJson: bool, now: int, outboundOK: bool)
      returns (r: Reply)
      requires Valid()
      modifies this
      ensures Valid()
      ensures Performed(config, old(View()), old(history),
                        OpEnqueueSend(messageID, content, validJson, now, outboundOK),
                        View(), history, r)
    {
      hide Inv, Observe, ClientMachine.HandleIncoming;
      if phase != Ready || sessionID == "" {
        r := Error(InvalidState);
      } else if messageID == "" || |messageID| > config.maxIDLength || !validJson {
        r := Error(Violation(BadRequest));
      } else if |content| > config.maxPayloadSize {
        r := Error(Violation(BadRequest));
      } else if messageID in outbox {
        r := Error(Violation(ProtocolViolation));
      } else {
        var frame := Send(messageID, sessionID, now, content);
        if !outboundOK {
          r := Error(Violation(BadRequest));
        } else {
          outbox := outbox[messageID := frame];
          r := Ok([SendFrame(frame)]);
        }
      }
      Record(old(View()), OpEnqueueSend(messageID, content, validJson, now, outboundOK));
    }

    /** Every pending SEND once, unchanged, in message order. */
    method RetryPending() returns (r: Reply)
      requires Valid()
      modifies this`history
      ensures Valid()
      ensures Performed(config, old(View()), old(history), OpRetryPending, View(), history, r)
    {
      hide Inv, Observe, ClientMachine.HandleIncoming;
      if phase != Ready {
        r := Error(InvalidState);
      } else {
        var actions := CollectRetries(outbox);
        r := Ok(actions);
      }
      Record(old(View()), OpRetryPending);
    }

    method SendPing(generation: u64, pingID: string, now: int, outboundOK: bool) returns (r: Reply)
      requires Valid()
      modifies this
      ensures Valid()
      ensures Performed(config, old(View()), old(history), OpSendPing(generation, pingID, now, outboundOK), View(),
                        history, r)
    {
      hide Inv, Observe, ClientMachine.HandleIncoming;
      if generation != this.generation {
        r := Error(StaleConnection);
      } else if phase != Ready || pendingPing.Some? || pingID == "" {
        r := Error(InvalidState);
      } else if !outboundOK {
        r := Error(Violation(BadRequest));
      } else {
        pendingPing := Some(Ping(pingID, now, generation));
        r := Ok([SendFrame(PingRequest(sessionID, pingID, now))]);
      }
      Record(old(View()), OpSendPing(generation, pingID, now, outboundOK));
    }

    method CheckHeartbeat(generation: u64, now: int) returns (r: Reply)
      requires Valid()
      modifies this
      ensures Valid()
      ensures Performed(config, old(View()), old(history), OpCheckHeartbeat(generation, now), View(), history, r)
    {
      hide Inv, Observe, ClientMachine.HandleIncoming;
      if generation != this.generation {
        r := Error(StaleConnection);
      } else if pendingPing.None? {
        r := Ok([]);
      } else if phase == Ready && now - pendingPing.value.sentAt >= config.heartbeatTimeout {
        phase := Suspect;
        suspectAt := Some(now);
        r := Ok([]);
      } else if phase == Suspect && (suspectAt.None? || now - suspectAt.value >= config.disconnectGrace) {
        CloseLocally();
        r := Ok([CloseConnection(HeartbeatTimeout)]);
      } else {
        r := Ok([]);
      }
      Record(old(View()), OpCheckHeartbeat(generation, now));
    }

    // -------------------------------------------------------------- frame handlers

    method AcceptNewSession(frameSession: string, mode: WelcomeMode) returns (r: Reply)
      modifies this
      ensures history == old(history)
      ensures Answers(HandleNewWelcome(config, old(View()), frameSession, mode), old(View()), View(), r)
    {
      hide Capability.CheckAccepted;
      if !mode.NewSession? || frameSession == "" {
        return Error(Violation(ProtocolViolation));
      }
      var verdict := Capability.ValidateAgainstOffers(config.offers, mode.accepted, config.capabilityLimits);
      if verdict.Some? {
        return Error(Violation(FromCapability(verdict.value)));
      }
      var selected: map<string, Capability.u16> := map[];
      var i := 0;
      while i < |mode.accepted|
        invariant 0 <= i <= |mode.accepted|
        invariant selected == CapabilityMap(mode.accepted[..i])
      {
        assert mode.accepted[..i + 1][..i] == mode.accepted[..i];
        selected := selected[mode.accepted[i].name := mode.accepted[i].version];
        i := i + 1;
      }
      assert mode.accepted[..i] == mode.accepted;
      sessionID := frameSession;
      capabilities := selected;
      phase := Ready;
      return Ok([SessionReady(sessionID)]);
    }

    method FixBoundary(replayTo: u64)
      modifies this
      ensures history == old(history)
      ensures View() == old(View()).(staging :=
                                     Staging(replayTo, [], 0, old(replay).namespaces, replayTo == lastSeq, false))
    {
      replay := replay.(replayTo := replayTo, buffer := [], bytes := 0);
      replay := replay.(eventsComplete := replay.replayTo == lastSeq, gap := false);
    }

    method AcceptResumption(frameSession: string, mode: WelcomeMode) returns (r: Reply)
      modifies this
      ensures history == old(history)
      ensures Answers(HandleResumedWelcome(config, old(View()), frameSession, mode), old(View()), View(), r)
    {
      if !mode.Resumed? || frameSession != sessionID || mode.resumeFrom != Wrap(lastSeq + 1)
        || mode.replayTo < lastSeq {
        return Error(Violation(ProtocolViolation));
      }
      if replay.namespaces == [] {
        if mode.stateSync.Some? {
          return Error(Violation(ProtocolViolation));
        }
      } else if mode.stateSync.None? || mode.stateSync.value != replay.namespaces {
        return Error(Violation(ProtocolViolation));
      }
      FixBoundary(mode.replayTo);
      if replay.replayTo - lastSeq > config.maxReplayEvents {
        r := Stop(SyncRequired, ReplayEventLimit);
        return;
      }
      if replay.replayTo == lastSeq {
        if replay.namespaces != [] {
          return Ok([]);
        }
        ResetConnectionTransient();
        phase := Ready;
        return Ok([SessionReady(sessionID)]);
      }
      return Ok([]);
    }

    method HandleWelcomeLocked(frameSession: string, mode: WelcomeMode) returns (r: Reply)
      modifies this
      ensures history == old(history)
      ensures Answers(HandleWelcome(config, old(View()), frameSession, mode), old(View()), View(), r)
    {
      match phase {
        case Handshaking => r := AcceptNewSession(frameSession, mode);
        case Resuming => r := AcceptResumption(frameSession, mode);
        case _ => r := Error(InvalidState);
      }
    }

    method HandlePongLocked(generation: u64, pingID: string) returns (r: Reply)
      modifies this
      ensures history == old(history)
      ensures Answers(HandlePong(old(View()), generation, pingID), old(View()), View(), r)
    {
      if phase != Ready && phase != Suspect {
        return Error(InvalidState);
      }
      if pendingPing.None? || pingID != pendingPing.value.id || generation != pendingPing.value.generation {
        return Ok([]);
      }
      pendingPing := None;
      suspectAt := None;
      if phase == Suspect {
        phase := Ready;
      }
      return Ok([]);
    }

    method HandleAckLocked(refID: string) returns (r: Reply)
      modifies this
      ensures history == old(history)
      ensures Answers(HandleAck(old(View()), refID), old(View()), View(), r)
    {
      if phase != Ready && phase != Suspect {
        return Error(InvalidState);
      }
      if refID !in outbox {
        return Ok([]);
      }
      outbox := outbox - {refID};
      return Ok([Acked(refID)]);
    }

    method HandleReplayEventLocked(event: Event) returns (r: Reply)
      modifies this
      ensures history == old(history)
      ensures Answers(HandleReplayEvent(config, old(View()), event), old(View()), View(), r)
    {
      if replay.replayTo == 0 {
        if replay.gap {
          return Ok([]);
        }
        return Error(Violation(ProtocolViolation));
      }
      var expected := Wrap(lastSeq + |replay.buffer| + 1);
      if event.seqNo != expected || event.seqNo > replay.replayTo {
        return Error(Violation(ProtocolViolation));
      }
      var frameBytes := EventBytes(event);
      if |replay.buffer| + 1 > config.maxReplayEvents || frameBytes > config.maxReplayBytes - replay.bytes {
        r := Stop(SyncRequired, ReplayMemoryLimit);
        return;
      }
      replay := replay.(buffer := replay.buffer + [event], bytes := replay.bytes + frameBytes);
      if event.seqNo != replay.replayTo {
        return Ok([]);
      }
      if replay.namespaces != [] {
        replay := replay.(eventsComplete := true);
        return Ok([]);
      }
      r := FinishRecovery([]);
    }

    method HandleEventLocked(event: Event, outboundOK: bool) returns (r: Reply)
      modifies this
      ensures history == old(history)
      ensures Answers(HandleEvent(config, old(View()), event, outboundOK), old(View()), View(), r)
    {
      if phase != Ready && phase != Resuming {
        return Error(InvalidState);
      }
      if event.seqNo <= lastSeq {
        if event.seqNo in eventIDs && eventIDs[event.seqNo] == event.id {
          return Ok([]);
        }
        if event.seqNo !in eventIDs {
          return Error(IdentityExpired);
        }
        return Error(ProtocolConflict);
      }
      if phase == Resuming {
        r := HandleReplayEventLocked(event);
        return;
      }
      if event.seqNo > Wrap(lastSeq + 1) {
        var resume := Request.Resume(sessionID, lastSeq, None);
        if !outboundOK {
          return Error(Violation(BadRequest));
        }
        BeginRecoveryLocked([], true);
        return Ok([SendFrame(resume)]);
      }
      AdvanceOne(config, View(), event);
      lastSeq := event.seqNo;
      RememberEvent(event.seqNo, event.id);
      return Ok([DeliverEvent(event)]);
    }

    method ApplyStateObjectsLocked(states: seq<StateMerge.StateObject>) returns (r: Reply)
      modifies this
      ensures history == old(history)
      ensures Answers(ApplyStates(config, old(View()), states), old(View()), View(), r)
    {
      var result := StateMerge.ApplyStateObjects(config.cache, stateCache, states);
      if result.Refused? {
        return Error(Violation(FromBatch(result.error)));
      }
      stateCache := result.cache;
      return Ok(Changes(result.changes));
    }

    method HandleQuerySnapshotLocked(id: string, states: seq<StateMerge.StateObject>) returns (r: Reply)
      modifies this
      ensures history == old(history)
      ensures Answers(HandleQuerySnapshot(config, old(View()), id, states), old(View()), View(), r)
    {
      if phase != Ready {
        return Error(InvalidState);
      }
      if !StateSyncEnabled(capabilities) {
        return Error(Violation(ProtocolViolation));
      }
      if id !in stateQueries {
        return Error(Violation(ProtocolViolation));
      }
      var query := stateQueries[id];
      var i := 0;
      while i < |states|
        invariant 0 <= i <= |states|
        invariant forall k | 0 <= k < i ::
                  states[k].namespace == query.namespace && states[k].objectID in query.objectIDs
      {
        if states[i].namespace != query.namespace || states[i].objectID !in query.objectIDs {
          return Error(Violation(ProtocolViolation));
        }
        i := i + 1;
      }
      r := ApplyStateObjectsLocked(states);
      if r.Ok? {
        stateQueries := stateQueries - {id};
      }
    }

    method HandleResumeSnapshotLocked(states: seq<StateMerge.StateObject>) returns (r: Reply)
      modifies this
      ensures history == old(history)
      ensures Answers(HandleResumeSnapshot(config, old(View()), states), old(View()), View(), r)
    {
      if !StateSyncEnabled(capabilities) || replay.namespaces == [] {
        return Error(Violation(ProtocolViolation));
      }
      if !replay.eventsComplete {
        return Error(Violation(ProtocolViolation));
      }
      var i := 0;
      while i < |states|
        invariant 0 <= i <= |states|
        invariant forall k | 0 <= k < i :: states[k].namespace in replay.namespaces
      {
        if states[i].namespace !in replay.namespaces {
          return Error(Violation(ProtocolViolation));
        }
        i := i + 1;
      }
      var applied := ApplyStateObjectsLocked(states);
      if applied.Error? {
        r := Stop(StateSyncRequired, SnapshotConflict);
        return;
      }
      r := FinishRecovery(applied.actions);
    }

    method HandleUpdateLocked(state: StateMerge.StateObject) returns (r: Reply)
      modifies this
      ensures history == old(history)
      ensures Answers(HandleUpdate(config, old(View()), state), old(View()), View(), r)
    {
      if phase != Ready {
        return Error(InvalidState);
      }
      if !StateSyncEnabled(capabilities) {
        return Error(Violation(ProtocolViolation));
      }
      r := ApplyStateObjectsLocked([state]);
    }

    method HandleErrorLocked(payload: ErrorPayload) returns (r: Reply)
      modifies this
      ensures history == old(history)
      ensures Answers(HandleError(old(View()), payload), old(View()), View(), r)
    {
      if payload.refID != "" {
        stateQueries := stateQueries - {payload.refID};
      }
      var actions := [ProtocolError(payload)];
      var behavior := BehaviorFor(payload.code);
      var wasResuming := phase == Resuming;
      var stateRecovery := replay.namespaces != [];
      var session := sessionID;
      var needClose := behavior.closeConnection;
      if wasResuming {
        CloseLocally();
        if behavior.fullSyncRequired || behavior.abandonSession
          || (stateRecovery && payload.code == StateSyncRequired) {
          actions := actions + [FullSyncRequired(session)];
        } else if !needClose {
          needClose := true;
        }
      }
      if behavior.abandonSession {
        AbandonSession();
      }
      if needClose {
        CloseLocally();
        actions := actions + [CloseConnection(ErrorCode(payload.code))];
      }
      return Ok(actions);
    }

    method DispatchLocked(generation: u64, frame: Frame, outboundOK: bool) returns (r: Reply)
      modifies this
      ensures history == old(history)
      ensures Answers(Dispatch(config, old(View()), generation, frame, outboundOK), old(View()), View(), r)
    {
      match frame {
        case Welcome(frameSession, mode) => r := HandleWelcomeLocked(frameSession, mode);
        case Pong(_, pingID) => r := HandlePongLocked(generation, pingID);
        case Ack(_, refID) => r := HandleAckLocked(refID);
        case EventFrame(event) => r := HandleEventLocked(event, outboundOK);
        case StateSnapshot(id, _, states) =>
          if phase == Resuming {
            r := HandleResumeSnapshotLocked(states);
          } else {
            r := HandleQuerySnapshotLocked(id, states);
          }
        case StateUpdate(_, _, state) => r := HandleUpdateLocked(state);
        case ErrorFrame(_, error) => r := HandleErrorLocked(error);
        case FromClient(_) => r := Error(Violation(ProtocolViolation));
      }
    }

    method ReceiveLocked(generation: u64, input: Incoming, outboundOK: bool) returns (r: Reply)
      modifies this
      ensures history == old(history)
      ensures var o := ClientMachine.HandleIncoming(config, old(View()), generation, input, outboundOK);
              View() == o.client && r == ReplyOf(o)
    {
      if generation != this.generation {
        return Error(StaleConnection);
      }
      if input.Malformed? {
        if input.isError {
          CloseLocally();
          return Ok([CloseConnection(InvalidErrorFrame)]);
        }
        r := HandleIncomingFailure(Violation(input.code));
        return;
      }
      if !Correlated(View(), input.frame) {
        r := HandleIncomingFailure(Violation(ProtocolViolation));
        return;
      }
      r := DispatchLocked(generation, input.frame, outboundOK);
      if r.Error? {
        r := HandleIncomingFailure(r.error);
      }
    }

    /** In RESUMING no frame of this connection is an error, and recovery is all or nothing. */
    method HandleIncoming(generation: u64, input: Incoming, outboundOK: bool) returns (r: Reply)
      requires Valid()
      modifies this
      ensures Valid()
      ensures Performed(config, old(View()), old(history), OpIncoming(generation, input, outboundOK), View(), history,
                        r)
      ensures old(phase) == Resuming && generation == old(this.generation) ==>
                r.Ok? && AllOrNothing(old(View()), Boundary(old(View()), input), Done(View(), r.actions))
    {
      hide Inv, Observe, AllOrNothing, Boundary, ClientMachine.HandleIncoming;
      r := ReceiveLocked(generation, input, outboundOK);
      if old(phase) == Resuming && generation == old(this.generation) {
        RecoveryIsAllOrNothing(config, old(View()), history, input, outboundOK);
      }
      Record(old(View()), OpIncoming(generation, input, outboundOK));
    }
  }

  /** The retries, in the order of the sorted identifiers. */
  method CollectRetries(outbox: map<string, Request>) returns (actions: seq<Action>)
    ensures actions == RetryActions(outbox, Text.Ordered(outbox.Keys))
  {
    hide Text.SortedCopy, Text.StrictlySorted, Text.Ordered, Capability.Distinct, RetryActions;
    var listed := CollectKeys(outbox.Keys);
    var sorted := Text.Canonicalize(listed);
    SortedKeys(listed, sorted);
    assert Text.Lists(sorted, outbox.Keys);
    Text.OrderedOnly(sorted, outbox.Keys);
    actions := RetriesFor(outbox, sorted);
  }

  method RetriesFor(outbox: map<string, Request>, ids: seq<string>) returns (actions: seq<Action>)
    requires forall id | id in ids :: id in outbox
    ensures actions == RetryActions(outbox, ids)
  {
    actions := [];
    var i := 0;
    while i < |ids|
      invariant 0 <= i <= |ids|
      invariant actions == RetryActions(outbox, ids[..i])
    {
      actions := actions + [SendFrame(outbox[ids[i]])];
      i := i + 1;
    }
    assert ids[..i] == ids;
  }

  /** The keys of a map, in some order. */
  method CollectKeys(keys: set<string>) returns (ids: seq<string>)
    ensures (forall id :: id in ids <==> id in keys) && Capability.Distinct(ids)
  {
    ids := [];
    var rest := keys;
    while rest != {}
      invariant rest <= keys
      invariant forall id :: id in ids <==> id in keys && id !in rest
      invariant Capability.Distinct(ids)
      decreases |rest|
    {
      var id :| id in rest;
      ids := ids + [id];
      rest := rest - {id};
    }
  }

  lemma {:induction false} SortedKeys(listed: seq<string>, sorted: seq<string>)
    requires Capability.Distinct(listed) && sorted == Text.SortedCopy(listed)
    ensures Text.StrictlySorted(sorted)
    ensures forall id :: id in sorted <==> id in listed
  {
    Text.SortedCopySorts(listed);
    Capability.MultisetMembers(sorted, listed);
    Capability.RearrangedDistinct(sorted, listed);
    forall i, j | 0 <= i < j < |sorted|
      ensures Text.Less(sorted[i], sorted[j])
    {
      Text.LessTotal(sorted[i], sorted[j]);
    }
  }
}
