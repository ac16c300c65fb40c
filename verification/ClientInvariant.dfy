/** What every run of the client keeps: one inductive invariant tying the machine to its history. */
module ClientInvariant {
  import opened Wire
  import opened Protocol
  import opened ClientMachine
  import StateMerge
  import Text

  // ---------------------------------------------------------------- history

  /** What happened since the current Session was established: the events handed to the
      application, the SENDs accepted into the outbox, and the SENDs acknowledged. */
  datatype History = History(delivered: seq<Event>, enqueued: multiset<string>, acked: multiset<string>)

  const NOTHING: History := History([], multiset{}, multiset{})

  function ActionsOf(outcome: Outcome): seq<Action>
  {
    if outcome.Done? then outcome.actions else []
  }

  function EnqueuedBy(op: Op, outcome: Outcome): multiset<string>
  {
    if op.OpEnqueueSend? && outcome.Done? then multiset{op.messageID} else multiset{}
  }

  /** The history is read off the calls and their actions alone; it starts over with the Session. */
  function Observe(h: History, op: Op, outcome: Outcome): History
  {
    if outcome.client.sessionID == "" then NOTHING
    else
      History(h.delivered + DeliveredIn(ActionsOf(outcome)),
              h.enqueued + EnqueuedBy(op, outcome),
              h.acked + AckedIn(ActionsOf(outcome)))
  }

  datatype Run = Run(client: Client, history: History)

  function RunFrom(config: Config, start: Run, ops: seq<Op>): Run
    decreases |ops|
  {
    if ops == [] then start
    else
      var outcome := Step(config, start.client, ops[0]);
      RunFrom(config, Run(outcome.client, Observe(start.history, ops[0], outcome)), ops[1..])
  }

  // ---------------------------------------------------------------- the invariant

  /** READY, SUSPECT and RESUMING belong to a Session; without a Session nothing is retained. */
  predicate SessionOK(c: Client)
  {
    && (c.phase in {Ready, Suspect, Resuming} ==> c.sessionID != "")
    && (c.phase == Handshaking ==> c.sessionID == "")
    && (c.sessionID == "" ==>
          && c.lastSeq == 0 && c.eventIDs == map[] && c.outbox == map[]
          && c.capabilities == map[] && c.cache == StateMerge.EMPTY)
  }

  /** At most one ping, of the current connection; SUSPECT only after it was overdue. */
  predicate HeartbeatOK(config: Config, c: Client)
  {
    && (c.ping.Some? ==> c.phase in {Ready, Suspect} && c.ping.value.generation == c.generation)
    && (c.phase == Suspect ==>
          && c.ping.Some? && c.suspectAt.Some?
          && c.suspectAt.value - c.ping.value.sentAt >= config.heartbeatTimeout)
    && (c.queries != map[] ==> c.phase in {Ready, Suspect})
  }

  function BufferBytes(events: seq<Event>): nat
  {
    if events == [] then 0 else BufferBytes(events[..|events| - 1]) + EventBytes(events[|events| - 1])
  }

  /** Consecutive positions of one Session stream, starting after `after`. */
  predicate Consecutive(events: seq<Event>, sessionID: string, after: nat)
  {
    forall i | 0 <= i < |events| :: events[i].seqNo == after + i + 1 && events[i].sessionID == sessionID
  }

  /** Staging is empty outside RESUMING; inside, it is an initial part of the announced range,
      within the limits, and complete exactly when flagged. */
  predicate StagingOK(config: Config, c: Client)
  {
    var st := c.staging;
    if c.phase != Resuming then st == NO_STAGING
    else
      && Consecutive(st.buffer, c.sessionID, c.lastSeq)
      && st.bytes == BufferBytes(st.buffer) <= config.maxReplayBytes
      && |st.buffer| <= config.maxReplayEvents
      && (st.replayTo == 0 ==> st.buffer == [])
      && (st.replayTo != 0 ==> c.lastSeq <= st.replayTo && |st.buffer| <= st.replayTo - c.lastSeq)
      && (st.eventsComplete ==> st.namespaces != [] && (st.replayTo != 0 ==> |st.buffer| == st.replayTo - c.lastSeq))
      && (st.eventsComplete && st.replayTo == 0 ==> c.lastSeq == 0)
      && (st.gap ==> st.replayTo == 0 && st.namespaces == [])
      && (!st.eventsComplete && st.replayTo != 0 ==> |st.buffer| < st.replayTo - c.lastSeq)
  }

  /** The identity map is exactly the last `window` deliveries. */
  ghost predicate WindowOK(window: u64, lastSeq: u64, eventIDs: map<u64, string>, delivered: seq<Event>)
  {
    && |delivered| == lastSeq
    && (forall k: u64 :: k in eventIDs <==> 0 < k <= lastSeq && k > lastSeq - window)
    && (forall k: u64 | k in eventIDs :: eventIDs[k] == delivered[k - 1].id)
  }

  /** What was delivered is the stream from its beginning, without gap or repetition. */
  ghost predicate DeliveryOK(config: Config, c: Client, h: History)
  {
    && WindowOK(config.eventIdentityWindow, c.lastSeq, c.eventIDs, h.delivered)
    && Consecutive(h.delivered, c.sessionID, 0)
  }

  /** Conservation of SENDs: accepted = acknowledged + pending, per message. */
  ghost predicate OutboxOK(c: Client, h: History)
  {
    && (forall m: string :: h.enqueued[m] == h.acked[m] + (if m in c.outbox then 1 else 0))
    && (forall m | m in c.outbox :: c.outbox[m].Send? && c.outbox[m].id == m && c.outbox[m].sessionID == c.sessionID)
  }

  /** What concerns the current connection and Session, without history. */
  predicate Local(config: Config, c: Client)
  {
    SessionOK(c) && HeartbeatOK(config, c) && StagingOK(config, c)
  }

  ghost predicate Inv(config: Config, r: Run)
  {
    && Local(config, r.client)
    && DeliveryOK(config, r.client, r.history)
    && OutboxOK(r.client, r.history)
    && StateMerge.CacheOK(config.cache, r.client.cache)
  }

  // ---------------------------------------------------------------- delivery

  /** One delivery keeps the window; so does any number of them. */
  lemma {:induction false} RememberKeepsWindow(window: u64, lastSeq: u64, ids: map<u64, string>, delivered: seq<Event>,
                                               e: Event)
    requires WindowOK(window, lastSeq, ids, delivered) && lastSeq < MAX_U64 && e.seqNo == lastSeq + 1
    ensures WindowOK(window, e.seqNo, Remember(ids, window, e.seqNo, e.id), delivered + [e])
  {
  }

  lemma {:induction false} AdvanceDelivers(config: Config, c: Client, events: seq<Event>, delivered: seq<Event>)
    requires WindowOK(config.eventIdentityWindow, c.lastSeq, c.eventIDs, delivered)
    requires Consecutive(delivered, c.sessionID, 0) && Consecutive(events, c.sessionID, c.lastSeq)
    ensures var a := Advance(config, c, events);
            && a == c.(lastSeq := a.lastSeq, eventIDs := a.eventIDs)
            && a.lastSeq == c.lastSeq + |events|
            && WindowOK(config.eventIdentityWindow, a.lastSeq, a.eventIDs, delivered + events)
            && Consecutive(delivered + events, c.sessionID, 0)
    decreases |events|
  {
    if events == [] {
      assert delivered + events == delivered;
    } else {
      var e := events[0];
      var next := c.(lastSeq := e.seqNo, eventIDs := Remember(c.eventIDs, config.eventIdentityWindow, e.seqNo, e.id));
      RememberKeepsWindow(config.eventIdentityWindow, c.lastSeq, c.eventIDs, delivered, e);
      AdvanceDelivers(config, next, events[1..], delivered + [e]);
      assert delivered + events == delivered + [e] + events[1..];
    }
  }

  // ---------------------------------------------------------------- steps that deliver nothing

  /** The history after a step that does not enqueue a SEND. */
  function After(h: History, next: Client, actions: seq<Action>): History
  {
    if next.sessionID == "" then NOTHING
    else History(h.delivered + DeliveredIn(actions), h.enqueued, h.acked + AckedIn(actions))
  }

  ghost predicate Kept(config: Config, h: History, handled: Handled)
  {
    handled.Act? ==> Inv(config, Run(handled.client, After(h, handled.client, handled.actions)))
  }

  predicate QuietActions(actions: seq<Action>)
  {
    forall i | 0 <= i < |actions| :: !actions[i].DeliverEvent? && !actions[i].Acked?
  }

  predicate SameSession(c: Client, next: Client)
  {
    && next.sessionID == c.sessionID && next.lastSeq == c.lastSeq && next.eventIDs == c.eventIDs
    && next.outbox == c.outbox
  }

  lemma {:induction false} EmptySession(config: Config, next: Client)
    requires next.sessionID == "" && Local(config, next)
    ensures Inv(config, Run(next, NOTHING))
  {
    assert StateMerge.TotalBytes(map[]) == 0;
  }

  lemma {:induction false} QuietKeeps(config: Config, c: Client, h: History, next: Client, actions: seq<Action>)
    requires Inv(config, Run(c, h)) && SameSession(c, next) && QuietActions(actions)
    requires Local(config, next) && StateMerge.CacheOK(config.cache, next.cache)
    ensures Inv(config, Run(next, After(h, next, actions)))
  {
    NothingDelivered(actions);
    if next.sessionID == "" {
      EmptySession(config, next);
    } else {
      assert h.delivered + [] == h.delivered;
    }
  }

  /** Nothing happens. */
  lemma {:induction false} IdleKeeps(config: Config, c: Client, h: History)
    requires Inv(config, Run(c, h))
    ensures Inv(config, Run(c, After(h, c, [])))
  {
    QuietKeeps(config, c, h, c, []);
  }

  lemma {:induction false} DropKeeps(config: Config, c: Client, h: History, actions: seq<Action>)
    requires Inv(config, Run(c, h)) && QuietActions(actions)
    ensures Inv(config, Run(Drop(c), After(h, Drop(c), actions)))
  {
    QuietKeeps(config, c, h, Drop(c), actions);
  }

  lemma {:induction false} DropLocal(config: Config, c: Client)
    requires Local(config, c)
    ensures Local(config, Drop(c)) && Local(config, Abandon(c))
  {
  }

  /** A fixed boundary starts with an empty buffer. */
  lemma {:induction false} BoundaryLocal(config: Config, c: Client, replayTo: u64)
    requires Local(config, c) && c.phase == Resuming && c.lastSeq <= replayTo
    requires replayTo == c.lastSeq ==> c.staging.namespaces != []
    ensures Local(config, c.(staging := Staging(replayTo, [], 0, c.staging.namespaces, replayTo == c.lastSeq, false)))
  {
  }

  lemma {:induction false} ReadyLocal(config: Config, c: Client)
    requires Local(config, c) && c.phase == Resuming
    ensures Local(config, Reset(c).(phase := Ready))
  {
  }

  lemma {:induction false} ResumedWelcomeLocal(config: Config, c: Client, sessionID: string, mode: WelcomeMode)
    requires Local(config, c) && c.phase == Resuming
    ensures var r := HandleResumedWelcome(config, c, sessionID, mode);
            r.Act? ==>
              && Local(config, r.client) && SameSession(c, r.client) && r.client.cache == c.cache
              && QuietActions(r.actions)
  {
    hide Local;
    var r := HandleResumedWelcome(config, c, sessionID, mode);
    DropLocal(config, c);
    ReadyLocal(config, c);
    if r.Act? && r.client.phase == Resuming {
      BoundaryLocal(config, c, mode.replayTo);
    }
  }

  lemma {:induction false} NewWelcomeShape(config: Config, c: Client, sessionID: string, mode: WelcomeMode)
    ensures var r := HandleNewWelcome(config, c, sessionID, mode);
            r.Act? ==>
              && r.client == c.(sessionID := r.client.sessionID, capabilities := r.client.capabilities, phase := Ready)
              && r.client.sessionID != "" && QuietActions(r.actions)
  {
  }

  lemma {:induction false} WelcomeKeeps(config: Config, c: Client, h: History, sessionID: string, mode: WelcomeMode)
    requires Inv(config, Run(c, h))
    ensures Kept(config, h, HandleWelcome(config, c, sessionID, mode))
  {
    if c.phase == Handshaking {
      NewWelcomeShape(config, c, sessionID, mode);
      var r := HandleNewWelcome(config, c, sessionID, mode);
      if r.Act? { FreshSession(config, c, h, r.client, r.actions); }
    } else if c.phase == Resuming {
      ResumedWelcomeLocal(config, c, sessionID, mode);
      var r := HandleResumedWelcome(config, c, sessionID, mode);
      if r.Act? { QuietKeeps(config, c, h, r.client, r.actions); }
    }
  }

  /** The history of a client without a Session is empty. */
  lemma {:induction false} NoSessionNoHistory(config: Config, c: Client, h: History)
    requires Inv(config, Run(c, h)) && c.sessionID == ""
    ensures h.delivered == []
    ensures h.enqueued == h.acked
  {
    assert forall m: string :: h.enqueued[m] == h.acked[m];
  }

  lemma {:induction false} FreshSession(config: Config, c: Client, h: History, next: Client, actions: seq<Action>)
    requires Inv(config, Run(c, h)) && c.phase == Handshaking && QuietActions(actions)
    requires next == c.(sessionID := next.sessionID, capabilities := next.capabilities, phase := Ready)
    requires next.sessionID != ""
    ensures Inv(config, Run(next, After(h, next, actions)))
  {
    NothingDelivered(actions);
    NoSessionNoHistory(config, c, h);
  }

  lemma {:induction false} PongLocal(config: Config, c: Client, generation: u64, pingID: string)
    requires Local(config, c)
    ensures var r := HandlePong(c, generation, pingID);
            r.Act? ==>
              && Local(config, r.client) && SameSession(c, r.client) && r.client.cache == c.cache
              && r.actions == []
  {
  }

  lemma {:induction false} PongKeeps(config: Config, c: Client, h: History, generation: u64, pingID: string)
    requires Inv(config, Run(c, h))
    ensures Kept(config, h, HandlePong(c, generation, pingID))
  {
    PongLocal(config, c, generation, pingID);
    var r := HandlePong(c, generation, pingID);
    if r.Act? {
      QuietKeeps(config, c, h, r.client, r.actions);
    }
  }

  /** An acknowledgement moves one message from pending to acknowledged. */
  lemma {:induction false} AckedOutbox(c: Client, h: History, refID: string)
    requires OutboxOK(c, h) && refID in c.outbox
    ensures OutboxOK(c.(outbox := c.outbox - {refID}), h.(acked := h.acked + multiset{refID}))
  {
  }

  lemma {:induction false} AckKeeps(config: Config, c: Client, h: History, refID: string)
    requires Inv(config, Run(c, h))
    ensures Kept(config, h, HandleAck(c, refID))
  {
    var r := HandleAck(c, refID);
    if r.Act? {
      if refID in c.outbox {
        OneAcked(refID);
        AckedOutbox(c, h, refID);
        assert h.delivered + [] == h.delivered;
      } else {
        QuietKeeps(config, c, h, r.client, r.actions);
      }
    }
  }

  // ---------------------------------------------------------------- EVENT

  /** The actions that end a recovery deliver just the staged events. */
  lemma {:induction false} RecoveryActions(events: seq<Event>, changes: seq<Action>, sessionID: string)
    requires QuietActions(changes)
    ensures var actions := Deliveries(events) + changes + [SessionReady(sessionID)];
            DeliveredIn(actions) == events && AckedIn(actions) == multiset{}
  {
    hide DeliveredIn, AckedIn;
    var tail := [SessionReady(sessionID)];
    DeliveriesDeliver(events);
    NothingDelivered(changes);
    NothingDelivered(tail);
    DeliveredInConcat(Deliveries(events), changes);
    DeliveredInConcat(Deliveries(events) + changes, tail);
    AckedInConcat(Deliveries(events), changes);
    AckedInConcat(Deliveries(events) + changes, tail);
    assert events + [] + [] == events;
  }

  /** Whatever was staged, delivering it as the next part of the stream ends the recovery. */
  lemma {:induction false} ReplayedKeeps(config: Config, c: Client, h: History, staged: Client, changes: seq<Action>)
    requires Inv(config, Run(c, h)) && c.phase == Resuming && QuietActions(changes)
    requires staged == c.(cache := staged.cache, staging := staged.staging)
    requires StateMerge.CacheOK(config.cache, staged.cache)
    requires Consecutive(staged.staging.buffer, c.sessionID, c.lastSeq)
    ensures Kept(config, h, FinishReplay(config, staged, changes))
    ensures DeliveredIn(FinishReplay(config, staged, changes).actions) == staged.staging.buffer
  {
    hide StateMerge.CacheOK, WindowOK;
    AdvanceDelivers(config, staged, staged.staging.buffer, h.delivered);
    RecoveryActions(staged.staging.buffer, changes, c.sessionID);
  }

  lemma {:induction false} BufferGrows(buffer: seq<Event>, e: Event)
    ensures BufferBytes(buffer + [e]) == BufferBytes(buffer) + EventBytes(e)
  {
    assert (buffer + [e])[..|buffer|] == buffer;
  }

  /** A buffered replay event is the next one of the range. */
  lemma {:induction false} GrownKeeps(config: Config, c: Client, h: History, e: Event, complete: bool)
    requires Inv(config, Run(c, h)) && c.phase == Resuming && c.staging.replayTo != 0
    requires e.sessionID == c.sessionID
    requires e.seqNo == c.lastSeq + |c.staging.buffer| + 1 <= c.staging.replayTo
    requires Fits(config, c.staging, e)
    requires if complete then e.seqNo == c.staging.replayTo && c.staging.namespaces != []
             else e.seqNo != c.staging.replayTo
    ensures Kept(config, h, Act(Grown(c, e, complete), []))
  {
    var next := Grown(c, e, complete);
    BufferGrows(c.staging.buffer, e);
    assert Consecutive(next.staging.buffer, c.sessionID, c.lastSeq);
    QuietKeeps(config, c, h, next, []);
  }

  predicate Expected(c: Client, e: Event)
  {
    c.staging.replayTo != 0 && e.seqNo == Wrap(c.lastSeq + |c.staging.buffer| + 1) && e.seqNo <= c.staging.replayTo
  }

  predicate Fits(config: Config, st: Staging, e: Event)
  {
    |st.buffer| + 1 <= config.maxReplayEvents && EventBytes(e) <= config.maxReplayBytes - st.bytes
  }

  function Grown(c: Client, e: Event, complete: bool): Client
  {
    c.(staging := c.staging.(buffer := c.staging.buffer + [e], bytes := c.staging.bytes + EventBytes(e),
                             eventsComplete := complete || c.staging.eventsComplete))
  }

  /** Where a replay event can lead. */
  lemma {:induction false} ReplayEventCases(config: Config, c: Client, e: Event)
    ensures var st := c.staging;
            HandleReplayEvent(config, c, e) ==
              if st.replayTo == 0 && st.gap then Act(c, [])
              else if !Expected(c, e) then Err(Violation(ProtocolViolation))
              else if !Fits(config, st, e) then StopReplay(c, ReplayMemoryLimit)
              else if e.seqNo != st.replayTo then Act(Grown(c, e, false), [])
              else if st.namespaces != [] then Act(Grown(c, e, true), [])
              else FinishReplay(config, Grown(c, e, false), [])
  {
  }

  lemma {:induction false} ReplayEventKeeps(config: Config, c: Client, h: History, e: Event)
    requires Inv(config, Run(c, h)) && c.phase == Resuming && e.sessionID == c.sessionID && e.seqNo > c.lastSeq
    ensures Kept(config, h, HandleReplayEvent(config, c, e))
  {
    hide DeliveryOK, OutboxOK, StateMerge.CacheOK, SessionOK, HeartbeatOK, After, FinishReplay, HandleReplayEvent,
         BufferBytes;
    ReplayEventCases(config, c, e);
    var st := c.staging;
    if st.replayTo == 0 {
      IdleKeeps(config, c, h);
    } else if Expected(c, e) {
      ExpectedInRange(c.lastSeq, |st.buffer|, e.seqNo, st.replayTo);
      if !Fits(config, st, e) {
        DropKeeps(config, c, h, StopActions(c, SyncRequired, ReplayMemoryLimit));
      } else if e.seqNo != st.replayTo || st.namespaces != [] {
        GrownKeeps(config, c, h, e, e.seqNo == st.replayTo);
      } else {
        ReplayedKeeps(config, c, h, Grown(c, e, false), []);
      }
    }
  }

  /** A wrapped expectation can never be met by a positive sequence number beyond the last one. */
  lemma {:induction false} ExpectedInRange(lastSeq: u64, buffered: nat, seqNo: u64, replayTo: u64)
    requires seqNo == Wrap(lastSeq + buffered + 1) && lastSeq < seqNo <= replayTo
    requires lastSeq <= replayTo && buffered <= replayTo - lastSeq
    ensures seqNo == lastSeq + buffered + 1
  {
  }

  lemma {:induction false} LiveEventKeeps(config: Config, c: Client, h: History, e: Event, outboundOK: bool)
    requires Inv(config, Run(c, h)) && c.phase == Ready && e.sessionID == c.sessionID && e.seqNo > c.lastSeq
    ensures Kept(config, h, HandleLiveEvent(config, c, e, outboundOK))
  {
    var r := HandleLiveEvent(config, c, e, outboundOK);
    if r.Act? {
      if e.seqNo > Wrap(c.lastSeq + 1) {
        QuietKeeps(config, c, h, r.client, r.actions);
      } else {
        AdvanceDelivers(config, c, [e], h.delivered);
        OneDelivered(e);
      }
    }
  }

  lemma {:induction false} EventKeeps(config: Config, c: Client, h: History, e: Event, outboundOK: bool)
    requires Inv(config, Run(c, h)) && e.sessionID == c.sessionID
    ensures Kept(config, h, HandleEvent(config, c, e, outboundOK))
  {
    hide Inv, HandleReplayEvent, HandleLiveEvent, After;
    if c.phase == Ready || c.phase == Resuming {
      if e.seqNo <= c.lastSeq {
        IdleKeeps(config, c, h);
      } else if c.phase == Resuming {
        ReplayEventKeeps(config, c, h, e);
      } else {
        LiveEventKeeps(config, c, h, e, outboundOK);
      }
    }
  }

  // ---------------------------------------------------------------- State and ERROR

  lemma {:induction false} ApplyStatesKeeps(config: Config, c: Client, states: seq<StateMerge.StateObject>)
    requires StateMerge.CacheOK(config.cache, c.cache)
    ensures var r := ApplyStates(config, c, states);
            r.Act? ==>
              && r.client == c.(cache := r.client.cache) && StateMerge.CacheOK(config.cache, r.client.cache)
              && QuietActions(r.actions)
  {
    StateMerge.ApplyBatchKeepsCacheOK(config.cache, c.cache, states);
  }

  lemma {:induction false} ResumeSnapshotKeeps(config: Config, c: Client, h: History,
                                               states: seq<StateMerge.StateObject>)
    requires Inv(config, Run(c, h)) && c.phase == Resuming
    ensures Kept(config, h, HandleResumeSnapshot(config, c, states))
  {
    hide DeliveryOK, OutboxOK, SessionOK, HeartbeatOK, After, FinishReplay, ApplyStates;
    ApplyStatesKeeps(config, c, states);
    var applied := ApplyStates(config, c, states);
    if applied.Act? {
      ReplayedKeeps(config, c, h, applied.client, applied.actions);
    } else {
      DropKeeps(config, c, h, StopActions(c, StateSyncRequired, SnapshotConflict));
    }
  }

  lemma {:induction false} QuerySnapshotKeeps(config: Config, c: Client, h: History, id: string,
                                              states: seq<StateMerge.StateObject>)
    requires Inv(config, Run(c, h))
    ensures Kept(config, h, HandleQuerySnapshot(config, c, id, states))
  {
    hide DeliveryOK, OutboxOK, After, ApplyStates;
    ApplyStatesKeeps(config, c, states);
    var r := HandleQuerySnapshot(config, c, id, states);
    if r.Act? {
      QueryAnswered(config, c, id);
      QuietKeeps(config, c, h, r.client, r.actions);
    }
  }

  lemma {:induction false} SnapshotKeeps(config: Config, c: Client, h: History, id: string,
                                         states: seq<StateMerge.StateObject>)
    requires Inv(config, Run(c, h))
    ensures Kept(config, h, HandleSnapshot(config, c, id, states))
  {
    hide Inv, HandleResumeSnapshot, HandleQuerySnapshot;
    if c.phase == Resuming {
      ResumeSnapshotKeeps(config, c, h, states);
    } else {
      QuerySnapshotKeeps(config, c, h, id, states);
    }
  }

  lemma {:induction false} UpdateKeeps(config: Config, c: Client, h: History, state: StateMerge.StateObject)
    requires Inv(config, Run(c, h))
    ensures Kept(config, h, HandleUpdate(config, c, state))
  {
    ApplyStatesKeeps(config, c, [state]);
    var r := HandleUpdate(config, c, state);
    if r.Act? {
      QuietKeeps(config, c, h, r.client, r.actions);
    }
  }

  lemma {:induction false} QueryAnswered(config: Config, c: Client, refID: string)
    requires Local(config, c)
    ensures Local(config, c.(queries := c.queries - {refID}))
  {
    assert c.queries == map[] ==> c.queries - {refID} == map[];
  }

  /** Where an ERROR can lead: Session gone, connection gone, or only a query answered. */
  lemma {:induction false} ErrorCases(c: Client, payload: ErrorPayload)
    ensures var r := HandleError(c, payload);
            var queried := if payload.refID != "" then c.(queries := c.queries - {payload.refID}) else c;
            var behavior := BehaviorFor(payload.code);
            && QuietActions(r.actions)
            && r.client == (if behavior.abandonSession then Abandon(queried)
                            else if behavior.closeConnection || c.phase == Resuming then Drop(queried)
                            else queried)
  {
  }

  lemma {:induction false} ErrorLocal(config: Config, c: Client, payload: ErrorPayload)
    requires Local(config, c)
    ensures var r := HandleError(c, payload);
            && Local(config, r.client) && QuietActions(r.actions)
            && (if BehaviorFor(payload.code).abandonSession then r.client.sessionID == ""
                else SameSession(c, r.client) && r.client.cache == c.cache)
  {
    ErrorCases(c, payload);
    QueryAnswered(config, c, payload.refID);
    DropLocal(config, c);
    DropLocal(config, c.(queries := c.queries - {payload.refID}));
  }

  lemma {:induction false} ErrorKeeps(config: Config, c: Client, h: History, payload: ErrorPayload)
    requires Inv(config, Run(c, h))
    ensures Kept(config, h, HandleError(c, payload))
  {
    ErrorLocal(config, c, payload);
    var r := HandleError(c, payload);
    if r.client.sessionID == "" {
      EmptySession(config, r.client);
    } else {
      QuietKeeps(config, c, h, r.client, r.actions);
    }
  }

  // ---------------------------------------------------------------- every step, every run

  lemma {:induction false} DispatchKeeps(config: Config, c: Client, h: History, generation: u64, frame: Frame,
                                         outboundOK: bool)
    requires Inv(config, Run(c, h)) && Correlated(c, frame)
    ensures Kept(config, h, Dispatch(config, c, generation, frame, outboundOK))
  {
    hide Inv, After, HandleWelcome, HandlePong, HandleAck, HandleEvent, HandleSnapshot, HandleUpdate, HandleError;
    match frame
    case Welcome(sessionID, mode) => WelcomeKeeps(config, c, h, sessionID, mode);
    case Pong(_, pingID) => PongKeeps(config, c, h, generation, pingID);
    case Ack(_, refID) => AckKeeps(config, c, h, refID);
    case EventFrame(event) => EventKeeps(config, c, h, event, outboundOK);
    case StateSnapshot(id, _, states) => SnapshotKeeps(config, c, h, id, states);
    case StateUpdate(_, _, state) => UpdateKeeps(config, c, h, state);
    case ErrorFrame(_, error) => ErrorKeeps(config, c, h, error);
    case FromClient(_) =>
  }

  lemma {:induction false} FailureKeeps(config: Config, c: Client, h: History, error: ClientError)
    requires Inv(config, Run(c, h))
    ensures var r := OnFailure(c, error); Inv(config, Run(r.client, After(h, r.client, ActionsOf(r))))
  {
    hide Inv, After;
    if c.phase != Resuming {
      IdleKeeps(config, c, h);
    } else {
      DropKeeps(config, c, h, ActionsOf(OnFailure(c, error)));
    }
  }

  lemma {:induction false} IncomingKeeps(config: Config, c: Client, h: History, generation: u64, input: Incoming,
                                         outboundOK: bool)
    requires Inv(config, Run(c, h))
    ensures var r := HandleIncoming(config, c, generation, input, outboundOK);
            Inv(config, Run(r.client, After(h, r.client, ActionsOf(r))))
  {
    hide Inv, After, Dispatch, OnFailure, Correlated;
    if generation != c.generation {
      IdleKeeps(config, c, h);
    } else {
      match input
      case Malformed(isError, code) =>
        if isError { DropKeeps(config, c, h, [CloseConnection(InvalidErrorFrame)]); }
        else { FailureKeeps(config, c, h, Violation(code)); }
      case Parsed(frame) =>
        if !Correlated(c, frame) {
          FailureKeeps(config, c, h, Violation(ProtocolViolation));
        } else {
          DispatchKeeps(config, c, h, generation, frame, outboundOK);
          var handled := Dispatch(config, c, generation, frame, outboundOK);
          if handled.Err? { FailureKeeps(config, c, h, handled.error); }
        }
    }
  }

  /** An accepted SEND is one more enqueued and one more pending. */
  lemma {:induction false} EnqueuedOutbox(c: Client, h: History, frame: Request)
    requires OutboxOK(c, h) && frame.Send? && frame.id !in c.outbox && frame.sessionID == c.sessionID
    ensures OutboxOK(c.(outbox := c.outbox[frame.id := frame]), h.(enqueued := h.enqueued + multiset{frame.id}))
  {
  }

  lemma {:induction false} EnqueueShape(config: Config, c: Client, messageID: string, content: string, validJson: bool,
                                        now: int, ok: bool)
    ensures var r := EnqueueSend(config, c, messageID, content, validJson, now, ok);
            if r.Failed? then r.client == c
            else
              var frame := Send(messageID, c.sessionID, now, content);
              && c.phase == Ready && messageID !in c.outbox && c.sessionID != ""
              && r.client == c.(outbox := c.outbox[messageID := frame]) && r.actions == [SendFrame(frame)]
  {
  }

  lemma {:induction false} EnqueuedInv(config: Config, c: Client, h: History, frame: Request)
    requires Inv(config, Run(c, h)) && c.phase == Ready
    requires frame.Send? && frame.id !in c.outbox && frame.sessionID == c.sessionID
    ensures Inv(config, Run(c.(outbox := c.outbox[frame.id := frame]), h.(enqueued := h.enqueued + multiset{frame.id})))
  {
    EnqueuedOutbox(c, h, frame);
  }

  lemma {:induction false} EnqueueKeeps(config: Config, c: Client, h: History, op: Op)
    requires Inv(config, Run(c, h)) && op.OpEnqueueSend?
    ensures var r := EnqueueSend(config, c, op.messageID, op.content, op.validJson, op.now, op.outboundOK);
            Inv(config, Run(r.client, Observe(h, op, r)))
  {
    hide Inv, EnqueueSend;
    EnqueueShape(config, c, op.messageID, op.content, op.validJson, op.now, op.outboundOK);
    var r := EnqueueSend(config, c, op.messageID, op.content, op.validJson, op.now, op.outboundOK);
    if r.Failed? {
      assert h.enqueued + multiset{} == h.enqueued;
      IdleKeeps(config, c, h);
    } else {
      var frame := Send(op.messageID, c.sessionID, op.now, op.content);
      EnqueuedInv(config, c, h, frame);
      NothingDelivered([SendFrame(frame)]);
      assert h.delivered + [] == h.delivered && h.acked + multiset{} == h.acked;
    }
  }

  ghost predicate QuietStep(config: Config, c: Client, r: Outcome)
  {
    && Local(config, r.client) && QuietActions(ActionsOf(r))
    && SameSession(c, r.client) && r.client.cache == c.cache
  }

  lemma {:induction false} ConnectLocal(config: Config, c: Client, generation: u64)
    requires Local(config, c)
    ensures QuietStep(config, c, BeginConnect(c))
    ensures QuietStep(config, c, TransportConnected(c, generation))
  {
  }

  lemma {:induction false} StartLocal(config: Config, c: Client, generation: u64, clientName: string, outboundOK: bool)
    requires Local(config, c)
    ensures QuietStep(config, c, StartSession(config, c, generation, clientName, outboundOK))
  {
  }

  lemma {:induction false} FailedLocal(config: Config, c: Client, error: ClientError)
    requires Local(config, c)
    ensures QuietStep(config, c, Failed(c, error))
  {
  }

  lemma {:induction false} RecoveryLocal(config: Config, c: Client, namespaces: seq<string>)
    requires Local(config, c) && c.sessionID != ""
    ensures Local(config, BeginRecovery(c, namespaces, false))
  {
    assert BufferBytes([]) == 0;
  }

  lemma {:induction false} ResumeLocal(config: Config, c: Client, generation: u64, namespaces: seq<string>,
                                       outboundOK: bool)
    requires Local(config, c)
    ensures QuietStep(config, c, StartResume(c, generation, namespaces, outboundOK))
  {
    hide Local;
    var r := StartResume(c, generation, namespaces, outboundOK);
    if r.Done? {
      RecoveryLocal(config, c, namespaces);
    }
  }

  lemma {:induction false} StateResumeLocal(config: Config, c: Client, generation: u64, namespaces: seq<string>,
                                            outboundOK: bool)
    requires Local(config, c)
    ensures QuietStep(config, c, ResumeWithState(config, c, generation, namespaces, outboundOK))
  {
    hide QuietStep, Local, StartResume;
    FailedLocal(config, c, StaleConnection);
    FailedLocal(config, c, Violation(ProtocolViolation));
    FailedLocal(config, c, Violation(BadRequest));
    ResumeLocal(config, c, generation, Text.SortedCopy(namespaces), outboundOK);
  }

  lemma {:induction false} QueryLocal(config: Config, c: Client, queryID: string, namespace: string, ids: seq<string>,
                                      now: int, outboundOK: bool)
    requires Local(config, c)
    ensures QuietStep(config, c, QueryState(c, queryID, namespace, ids, now, outboundOK))
  {
  }

  lemma {:induction false} RetryLocal(config: Config, c: Client)
    requires Local(config, c)
    ensures QuietStep(config, c, RetryPending(c))
  {
  }

  lemma {:induction false} PingLocal(config: Config, c: Client, generation: u64, pingID: string, now: int,
                                     outboundOK: bool)
    requires Local(config, c)
    ensures QuietStep(config, c, SendPing(c, generation, pingID, now, outboundOK))
  {
  }

  lemma {:induction false} SuspectLocal(config: Config, c: Client, now: int)
    requires Local(config, c) && c.phase == Ready && c.ping.Some?
             && now - c.ping.value.sentAt >= config.heartbeatTimeout
    ensures Local(config, c.(phase := Suspect, suspectAt := Some(now)))
  {
  }

  lemma {:induction false} HeartbeatLocal(config: Config, c: Client, generation: u64, now: int)
    requires Local(config, c)
    ensures QuietStep(config, c, CheckHeartbeat(config, c, generation, now))
    ensures QuietStep(config, c, Disconnect(c, generation))
  {
    hide Local;
    DropLocal(config, c);
    if c.phase == Ready && c.ping.Some? && now - c.ping.value.sentAt >= config.heartbeatTimeout {
      SuspectLocal(config, c, now);
    }
  }

  /** The calls of the application other than EnqueueSend. */
  lemma {:induction false} CallLocal(config: Config, c: Client, op: Op)
    requires Local(config, c) && !op.OpIncoming? && !op.OpEnqueueSend?
    ensures QuietStep(config, c, Step(config, c, op))
  {
    hide QuietStep, Local, HandleIncoming, StartResume, ResumeWithState, CheckHeartbeat, SendPing, QueryState,
         RetryPending, StartSession;
    match op
    case OpBeginConnect => ConnectLocal(config, c, 0);
    case OpTransportConnected(g) => ConnectLocal(config, c, g);
    case OpStartSession(g, name, ok) => StartLocal(config, c, g, name, ok);
    case OpResume(g, ok) => ResumeLocal(config, c, g, [], ok);
    case OpResumeWithState(g, namespaces, ok) => StateResumeLocal(config, c, g, namespaces, ok);
    case OpDisconnect(g) => HeartbeatLocal(config, c, g, 0);
    case OpQueryState(id, namespace, ids, now, ok) => QueryLocal(config, c, id, namespace, ids, now, ok);
    case OpRetryPending => RetryLocal(config, c);
    case OpSendPing(g, id, now, ok) => PingLocal(config, c, g, id, now, ok);
    case OpCheckHeartbeat(g, now) => HeartbeatLocal(config, c, g, now);
  }

  lemma {:induction false} CallKeeps(config: Config, c: Client, h: History, op: Op)
    requires Inv(config, Run(c, h)) && !op.OpIncoming? && !op.OpEnqueueSend?
    ensures var r := Step(config, c, op); Inv(config, Run(r.client, After(h, r.client, ActionsOf(r))))
  {
    hide DeliveryOK, OutboxOK, Step, After;
    CallLocal(config, c, op);
    var r := Step(config, c, op);
    QuietKeeps(config, c, h, r.client, ActionsOf(r));
  }

  lemma {:induction false} StepKeeps(config: Config, c: Client, h: History, op: Op)
    requires Inv(config, Run(c, h))
    ensures var r := Step(config, c, op); Inv(config, Run(r.client, Observe(h, op, r)))
  {
    hide Inv, HandleIncoming, EnqueueSend;
    if op.OpEnqueueSend? {
      EnqueueKeeps(config, c, h, op);
    } else {
      var r := Step(config, c, op);
      assert h.enqueued + multiset{} == h.enqueued;
      if op.OpIncoming? {
        IncomingKeeps(config, c, h, op.generation, op.input, op.outboundOK);
      } else {
        CallKeeps(config, c, h, op);
      }
    }
  }

  lemma {:induction false} InitialHolds(config: Config)
    ensures Inv(config, Run(INITIAL, NOTHING))
  {
    EmptySession(config, INITIAL);
  }

  /** The invariant holds after every sequence of calls, whatever frames arrive and whatever the
      clock and validation say. */
  lemma {:induction false} EveryRunKeeps(config: Config, start: Run, ops: seq<Op>)
    requires Inv(config, start)
    ensures Inv(config, RunFrom(config, start, ops))
    decreases |ops|
  {
    hide Inv, Step, Observe;
    if ops == [] {
    } else {
      StepKeeps(config, start.client, start.history, ops[0]);
      var outcome := Step(config, start.client, ops[0]);
      EveryRunKeeps(config, Run(outcome.client, Observe(start.history, ops[0], outcome)), ops[1..]);
    }
  }
}
