/** How the application gets the whole append history: live, by a recovery on the same connection, or by
    RESUME after a reconnect. */
module CatchUp {
  import opened Wire
  import opened Protocol
  import opened ClientMachine
  import opened ClientInvariant
  import opened EndToEnd
  import ClientAnswers
  import Recovery
  import ReplayStore
  import ServerResume
  import StateMerge

  // ---------------------------------------------------------------- live

  /** The rest of the stream, received in order on the current connection. */
  function Rest(generation: u64, events: seq<Event>): seq<Move>
  {
    seq(|events|, i requires 0 <= i < |events| => Receive(generation, EventFrame(events[i]), true))
  }

  predicate AllSent(network: set<Frame>, events: seq<Event>)
  {
    forall i | 0 <= i < |events| :: EventFrame(events[i]) in network
  }

  /** One genuine EVENT at the next position. */
  lemma {:induction false} OneReceived(config: Config, limits: ReplayStore.Limits, s: System, e: Event)
    requires Inv(config, s.run) && s.run.client.phase == Ready && s.run.client.lastSeq < MAX_U64
    requires e.sessionID == s.run.client.sessionID && e.seqNo == s.run.client.lastSeq + 1 && EventFrame(e) in s.network
    ensures var t := Next(config, limits, s, Receive(s.run.client.generation, EventFrame(e), true));
            && t == s.(run := t.run) && Inv(config, t.run)
            && t.run.history.delivered == s.run.history.delivered + [e]
            && t.run.client == s.run.client.(lastSeq := e.seqNo, eventIDs := t.run.client.eventIDs)
  {
    hide HandleIncoming, DeliveryOK, OutboxOK, StateMerge.CacheOK, HeartbeatOK, StagingOK;
    var c, h := s.run.client, s.run.history;
    var op := OpIncoming(c.generation, Parsed(EventFrame(e)), true);
    ClientAnswers.NextEventIsDelivered(config, c, h, e, true);
    StepKeeps(config, c, h, op);
    OneDelivered(e);
  }

  lemma {:induction false} RestReceived(config: Config, limits: ReplayStore.Limits, s: System, events: seq<Event>)
    requires Inv(config, s.run) && s.run.client.phase == Ready
    requires Consecutive(events, s.run.client.sessionID, s.run.client.lastSeq) && AllSent(s.network, events)
    requires s.run.client.lastSeq + |events| <= MAX_U64
    ensures var t := RunOf(config, limits, s, Rest(s.run.client.generation, events));
            && t == s.(run := t.run) && t.run.history.delivered == s.run.history.delivered + events
            && t.run.client.phase == Ready && t.run.client.lastSeq == s.run.client.lastSeq + |events|
    decreases |events|
  {
    hide Inv, Next;
    var moves := Rest(s.run.client.generation, events);
    if events == [] {
      assert s.run.history.delivered + events == s.run.history.delivered;
    } else {
      var e, rest := events[0], events[1..];
      OneReceived(config, limits, s, e);
      var t := Next(config, limits, s, moves[0]);
      assert moves[1..] == Rest(s.run.client.generation, rest);
      RestReceived(config, limits, t, rest);
      assert s.run.history.delivered + [e] + rest == s.run.history.delivered + events;
    }
  }

  lemma {:induction false} RunConcat(config: Config, limits: ReplayStore.Limits, s: System, a: seq<Move>, b: seq<Move>)
    ensures RunOf(config, limits, s, a + b) == RunOf(config, limits, RunOf(config, limits, s, a), b)
    decreases |a|
  {
    hide Next;
    if a == [] {
      assert a + b == b;
    } else {
      assert (a + b)[1..] == a[1..] + b;
      RunConcat(config, limits, Next(config, limits, s, a[0]), a[1..], b);
    }
  }

  /** From every reachable state with a READY client: if the remaining events of its Session's history were
      published and arrive in order, the application has been given the whole history. */
  lemma {:induction false} LiveEventsCatchUp(config: Config, limits: ReplayStore.Limits, moves: seq<Move>)
    requires var s := RunOf(config, limits, INITIAL_SYSTEM, moves);
             var c, log := s.run.client, StreamOf(s.streams, s.run.client.sessionID).log;
             c.phase == Ready && (c.lastSeq <= |log| ==> AllSent(s.network, log[c.lastSeq..]))
    ensures var s := RunOf(config, limits, INITIAL_SYSTEM, moves);
            var c, log := s.run.client, StreamOf(s.streams, s.run.client.sessionID).log;
            && c.lastSeq <= |log|
            && var t := RunOf(config, limits, INITIAL_SYSTEM, moves + Rest(c.generation, log[c.lastSeq..]));
               && t.run.history.delivered == log && t.run.client.lastSeq == |log| && t.run.client.phase == Ready
               && t.streams == s.streams
  {
    hide Inv, Next, NetworkOK, TasksOK, EpochsOK, ClientOK;
    var s := RunOf(config, limits, INITIAL_SYSTEM, moves);
    var c, log := s.run.client, StreamOf(s.streams, s.run.client.sessionID).log;
    Reachable(config, limits, moves);
    DeliveredIsLogPrefix(config, limits, moves);
    assert ReplayStore.StreamOK(c.sessionID, StreamOf(s.streams, c.sessionID));
    RestReceived(config, limits, s, log[c.lastSeq..]);
    RunConcat(config, limits, INITIAL_SYSTEM, moves, Rest(c.generation, log[c.lastSeq..]));
    assert log[..c.lastSeq] + log[c.lastSeq..] == log;
  }

  /** Publication to delivery: appended, enqueued and received. */
  function Publication(generation: u64, e: Event): seq<Move>
  {
    [Append(e.sessionID, e.id, e.payload, e.timestamp, true), Enqueue(Publishing(e)),
     Receive(generation, EventFrame(e), true)]
  }

  lemma {:induction false} PublishedIsSent(config: Config, limits: ReplayStore.Limits, s: System, e: Event)
    requires var stream := StreamOf(s.streams, e.sessionID);
             ReplayStore.AppendTo(stream, e.sessionID, e.id, e.payload, e.timestamp, true)
             == ReplayStore.Appended(ReplayStore.Stream(stream.log + [e], stream.floor), e)
    ensures var stream := StreamOf(s.streams, e.sessionID);
            var t := RunOf(config, limits, s, Publication(s.run.client.generation, e)[..2]);
            && t.run == s.run && EventFrame(e) in t.network
            && StreamOf(t.streams, e.sessionID).log == stream.log + [e]
  {
    hide ReplayStore.AppendTo, ClientMove;
    var a, b := Append(e.sessionID, e.id, e.payload, e.timestamp, true), Enqueue(Publishing(e));
    var s1 := Next(config, limits, s, a);
    assert Publishing(e) in s1.tasks && s1.run == s.run;
    var s2 := Next(config, limits, s1, b);
    assert Publication(s.run.client.generation, e)[..2] == [a, b] && [a, b][1..] == [b] && [b][1..] == [];
    assert RunOf(config, limits, s2, []) == s2;
    assert RunOf(config, limits, s1, [b]) == s2;
  }

  /** From every reachable state with a READY client that is up to date, a publication with an unused
      identity that nothing hinders reaches the application as the next event. */
  lemma {:induction false} PublishedIsDelivered(config: Config, limits: ReplayStore.Limits, moves: seq<Move>, e: Event)
    requires var s := RunOf(config, limits, INITIAL_SYSTEM, moves);
             var c, log := s.run.client, StreamOf(s.streams, s.run.client.sessionID).log;
             && c.phase == Ready && c.lastSeq == |log| < MAX_U64
             && e.sessionID == c.sessionID && e.seqNo == |log| + 1 && e.id !in ReplayStore.IDs(log)
    ensures var s := RunOf(config, limits, INITIAL_SYSTEM, moves);
            var c, log := s.run.client, StreamOf(s.streams, s.run.client.sessionID).log;
            var t := RunOf(config, limits, INITIAL_SYSTEM, moves + Publication(c.generation, e));
            && t.run.history.delivered == log + [e] && StreamOf(t.streams, c.sessionID).log == log + [e]
  {
    hide Inv, Next, NetworkOK, TasksOK, EpochsOK, ClientOK, ReplayStore.IDs;
    var s := RunOf(config, limits, INITIAL_SYSTEM, moves);
    var c, log := s.run.client, StreamOf(s.streams, s.run.client.sessionID).log;
    var all := Publication(c.generation, e);
    DeliveredIsLogPrefix(config, limits, moves);
    PublishedIsSent(config, limits, s, e);
    var t := RunOf(config, limits, s, all[..2]);
    Reachable(config, limits, moves);
    RestReceived(config, limits, t, [e]);
    assert Rest(c.generation, [e]) == all[2..] && all == all[..2] + all[2..];
    RunConcat(config, limits, s, all[..2], all[2..]);
    RunConcat(config, limits, INITIAL_SYSTEM, moves, all);
    assert log[..c.lastSeq] == log;
  }

  // ---------------------------------------------------------------- recovery

  /** The server's answer to a RESUME frame as it was sent. */
  function Answer(server: ServerResume.Config, env: ServerResume.Environment,
                  streams: map<string, ReplayStore.Stream>, q: Request): ServerResume.Reply
    requires q.Resume?
  {
    ServerResume.ResumeReply(server, env, StreamOf(streams, q.sessionID), q.sessionID, q.lastSeq, q.stateSync)
  }

  /** The client, having begun a recovery, can take what the server has for that RESUME. */
  ghost predicate Takes(config: Config, server: ServerResume.Config, env: ServerResume.Environment,
                        streams: map<string, ReplayStore.Stream>, c: Client, q: Request)
    requires q.Resume?
  {
    var log, states := StreamOf(streams, q.sessionID).log, ServerResume.StatesFor(server, env, q.stateSync);
    q.lastSeq <= |log| && states.Some? && Recovery.ClientAdmits(config, c, log[q.lastSeq..], states.value)
  }

  predicate OnTheWay(c: Client, inFlight: seq<Event>)
  {
    inFlight != [] ==> c.staging.gap && forall i | 0 <= i < |inFlight| :: Recovery.InFlight(c, inFlight[i])
  }

  lemma {:induction false} AnswerIsLane(server: ServerResume.Config, env: ServerResume.Environment,
                                        streams: map<string, ReplayStore.Stream>, q: Request)
    requires q.Resume? && Answer(server, env, streams, q).Batch?
    ensures Answer(server, env, streams, q)
         == ServerResume.LaneReply(server, env, StreamOf(streams, q.sessionID), q.sessionID, q.lastSeq, q.stateSync)
  {
    hide ServerResume.LaneReply;
  }

  /** What a step that began a recovery leaves. */
  lemma {:induction false} BegunBy(config: Config, c: Client, h: History, op: Op)
    requires Inv(config, Run(c, h)) && c.phase != Resuming && Step(config, c, op).client.phase == Resuming
    ensures var sent := Step(config, c, op);
            && sent.Done? && sent.actions == [SendFrame(Resume(c.sessionID, c.lastSeq, Recovery.SyncOf(sent.client)))]
            && Recovery.Begun(sent.client) && sent.client.sessionID == c.sessionID && sent.client.lastSeq == c.lastSeq
            && sent.client.cache == c.cache
            && Inv(config, Run(sent.client, Observe(h, op, sent)))
            && (sent.client.sessionID != "" ==> Observe(h, op, sent).delivered == h.delivered)
  {
    hide Step, Inv;
    var sent := Step(config, c, op);
    ClientAnswers.RecoveryBegins(config, c, op);
    StepKeeps(config, c, h, op);
    NothingDelivered(sent.actions);
    assert h.delivered + [] == h.delivered;
  }

  lemma {:induction false} ResumingHasSession(config: Config, c: Client, h: History)
    requires Inv(config, Run(c, h)) && c.phase == Resuming
    ensures c.sessionID != ""
  {
  }

  /** From every reachable state, however the recovery begins (RESUME after a reconnect, with or without
      State, or an EVENT that shows a gap): the client sends one RESUME, and if the server answers that very
      frame with a batch the client can take, then after whatever events were still on the way the
      application has been given the whole history of the Session, and the client is READY with the
      State of the snapshot. */
  lemma {:induction false} RecoveryCatchesUp(config: Config, server: ServerResume.Config, env: ServerResume.Environment,
                                             moves: seq<Move>, op: Op, inFlight: seq<Event>)
    requires var c := RunOf(config, server.replay, INITIAL_SYSTEM, moves).run.client;
             && c.phase != Resuming && Step(config, c, op).client.phase == Resuming
             && OnTheWay(Step(config, c, op).client, inFlight)
    ensures var s := RunOf(config, server.replay, INITIAL_SYSTEM, moves);
            var c := s.run.client;
            var sent := Step(config, c, op);
            && sent.Done? && |sent.actions| == 1 && sent.actions[0].SendFrame? && sent.actions[0].request.Resume?
            && var q := sent.actions[0].request;
               var reply := Answer(server, env, s.streams, q);
               (reply.Batch? && Takes(config, server, env, s.streams, sent.client, q) ==>
                  && q.sessionID == c.sessionID
                  && Whole(config, s.run.history.delivered, StreamOf(s.streams, c.sessionID).log,
                           StateMerge.ApplyBatch(config.cache, c.cache,
                                                 ServerResume.StatesFor(server, env, q.stateSync).value),
                           Recovery.Feed(config, sent.client, ServerResume.EventFrames(inFlight) + reply.frames)))
  {
    hide Step, Inv, RunOf, Recovery.Feed, Whole, NetworkOK, TasksOK, EpochsOK, ClientOK;
    hide ServerResume.StatesFor, ServerResume.LaneReply, ServerResume.ResumeReply, Recovery.ClientAdmits;
    var s := RunOf(config, server.replay, INITIAL_SYSTEM, moves);
    var c, h := s.run.client, s.run.history;
    var sent := Step(config, c, op);
    Reachable(config, server.replay, moves);
    DeliveredIsLogPrefix(config, server.replay, moves);
    BegunBy(config, c, h, op);
    var q := sent.actions[0].request;
    var stream := StreamOf(s.streams, c.sessionID);
    if Answer(server, env, s.streams, q).Batch? && Takes(config, server, env, s.streams, sent.client, q) {
      AnswerIsLane(server, env, s.streams, q);
      ResumingHasSession(config, sent.client, Observe(h, op, sent));
      assert ReplayStore.StreamOK(c.sessionID, stream);
      Completes(config, server, env, sent.client, Observe(h, op, sent), stream, inFlight);
    }
  }

  /** Everything was delivered, the State changes were applied, and the client is READY. */
  ghost predicate Whole(config: Config, delivered: seq<Event>, log: seq<Event>, applied: StateMerge.BatchResult,
                        r: Outcome)
  {
    && applied.Committed? && r.Done? && r.client.phase == Ready && r.client.cache == applied.cache
    && delivered + DeliveredIn(r.actions) == log && r.client.lastSeq == |log|
  }

  lemma {:induction false} Completes(config: Config, server: ServerResume.Config, env: ServerResume.Environment,
                                     c: Client, h: History, stream: ReplayStore.Stream, inFlight: seq<Event>)
    requires Inv(config, Run(c, h)) && Recovery.Begun(c) && ReplayStore.StreamOK(c.sessionID, stream)
    requires c.lastSeq <= |stream.log| && h.delivered == stream.log[..c.lastSeq] && OnTheWay(c, inFlight)
    requires ServerResume.LaneReply(server, env, stream, c.sessionID, c.lastSeq, Recovery.SyncOf(c)).Batch?
    requires var states := ServerResume.StatesFor(server, env, Recovery.SyncOf(c));
             states.Some? && Recovery.ClientAdmits(config, c, stream.log[c.lastSeq..], states.value)
    ensures var frames := ServerResume.LaneReply(server, env, stream, c.sessionID, c.lastSeq,
                                                 Recovery.SyncOf(c)).frames;
            var states := ServerResume.StatesFor(server, env, Recovery.SyncOf(c)).value;
            Whole(config, h.delivered, stream.log, StateMerge.ApplyBatch(config.cache, c.cache, states),
                  Recovery.Feed(config, c, ServerResume.EventFrames(inFlight) + frames))
  {
    hide Inv, ServerResume.LaneReply, ServerResume.StatesFor, Recovery.Feed, ReplayStore.StreamOK;
    hide Recovery.ClientAdmits, StateMerge.ApplyBatch, DeliveredIn;
    Recovery.RecoveryCompletes(config, server, env, c, h, stream, inFlight);
    var states := ServerResume.StatesFor(server, env, Recovery.SyncOf(c)).value;
    var applied := StateMerge.ApplyBatch(config.cache, c.cache, states);
    RecoveryActions(stream.log[c.lastSeq..], Changes(applied.changes), c.sessionID);
    assert stream.log[..c.lastSeq] + stream.log[c.lastSeq..] == stream.log;
  }

  /** RESUME without State after a reconnect. */
  lemma {:induction false} ResumeCatchesUp(config: Config, server: ServerResume.Config, env: ServerResume.Environment,
                                           moves: seq<Move>)
    requires var c := RunOf(config, server.replay, INITIAL_SYSTEM, moves).run.client;
             c.phase == Connected && c.sessionID != ""
    ensures var s := RunOf(config, server.replay, INITIAL_SYSTEM, moves);
            var c := s.run.client;
            var q := Resume(c.sessionID, c.lastSeq, None);
            var resuming := ClientAnswers.Recovering(c, [], false);
            && Step(config, c, OpResume(c.generation, true)) == Done(resuming, [SendFrame(q)])
            && (Answer(server, env, s.streams, q).Batch? && Takes(config, server, env, s.streams, resuming, q) ==>
                  var r := Recovery.Feed(config, resuming, Answer(server, env, s.streams, q).frames);
                  && r.Done? && r.client.phase == Ready && r.client.cache == c.cache
                  && s.run.history.delivered + DeliveredIn(r.actions) == StreamOf(s.streams, c.sessionID).log)
  {
    hide Step, RunOf, Recovery.Feed, Answer, Takes, DeliveredIn;
    var s := RunOf(config, server.replay, INITIAL_SYSTEM, moves);
    var c := s.run.client;
    var q := Resume(c.sessionID, c.lastSeq, None);
    ClientAnswers.ResumeAsks(config, c, true);
    RecoveryCatchesUp(config, server, env, moves, OpResume(c.generation, true), []);
    if Answer(server, env, s.streams, q).Batch? {
      assert ServerResume.EventFrames([]) + Answer(server, env, s.streams, q).frames
          == Answer(server, env, s.streams, q).frames;
      assert StateMerge.ApplyBatch(config.cache, c.cache, []) == StateMerge.Committed(c.cache, []);
    }
  }

  /** Recovery on the same connection: an EVENT of the Session beyond the next position arrives. */
  lemma {:induction false} GapCatchesUp(config: Config, server: ServerResume.Config, env: ServerResume.Environment,
                                        moves: seq<Move>, e: Event, inFlight: seq<Event>)
    requires var c := RunOf(config, server.replay, INITIAL_SYSTEM, moves).run.client;
             && c.phase == Ready && e.sessionID == c.sessionID && e.seqNo > c.lastSeq + 1
             && forall i | 0 <= i < |inFlight| :: Recovery.InFlight(c, inFlight[i])
    ensures var s := RunOf(config, server.replay, INITIAL_SYSTEM, moves);
            var c := s.run.client;
            var q := Resume(c.sessionID, c.lastSeq, None);
            var resuming := ClientAnswers.Recovering(c, [], true);
            && ClientAnswers.Receives(config, c, EventFrame(e), true) == Done(resuming, [SendFrame(q)])
            && (Answer(server, env, s.streams, q).Batch? && Takes(config, server, env, s.streams, resuming, q) ==>
                  var r := Recovery.Feed(config, resuming,
                                         ServerResume.EventFrames(inFlight) + Answer(server, env, s.streams, q).frames);
                  && r.Done? && r.client.phase == Ready && r.client.cache == c.cache
                  && s.run.history.delivered + DeliveredIn(r.actions) == StreamOf(s.streams, c.sessionID).log)
  {
    hide HandleIncoming, RunOf, Recovery.Feed, Answer, Takes, DeliveredIn;
    var s := RunOf(config, server.replay, INITIAL_SYSTEM, moves);
    var c := s.run.client;
    ClientAnswers.GapStartsRecovery(config, c, e, true);
    RecoveryCatchesUp(config, server, env, moves, OpIncoming(c.generation, Parsed(EventFrame(e)), true), inFlight);
    assert StateMerge.ApplyBatch(config.cache, c.cache, []) == StateMerge.Committed(c.cache, []);
  }
}
