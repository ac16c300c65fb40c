/** Why an identifier must not be used for a second content: the run in which the client reports as
    acknowledged what no application ever saw. */
module SendReuse {
  import opened Wire
  import opened Protocol
  import opened ClientMachine
  import opened ClientInvariant
  import opened DedupStore
  import opened SendEndToEnd
  import Capability
  import Flights
  import SendHistory
  import SendPath
  import SendProgress
  import SendTraffic

  // ---------------------------------------------------------------- reaching

  ghost predicate Reaches(setting: Setting, w: World, t: World)
  {
    exists moves :: RunOf(setting, w, moves) == t
  }

  lemma {:induction false} RunConcat(setting: Setting, w: World, a: seq<Move>, b: seq<Move>)
    ensures RunOf(setting, w, a + b) == RunOf(setting, RunOf(setting, w, a), b)
    decreases |a|
  {
    hide Next;
    if a == [] {
      assert a + b == b;
    } else {
      assert (a + b)[1..] == a[1..] + b;
      RunConcat(setting, Next(setting, w, a[0]), a[1..], b);
    }
  }

  lemma {:induction false} Then(setting: Setting, w: World, t: World, u: World)
    requires Reaches(setting, w, t) && Reaches(setting, t, u)
    ensures Reaches(setting, w, u)
  {
    hide Next;
    var a :| RunOf(setting, w, a) == t;
    var b :| RunOf(setting, t, b) == u;
    RunConcat(setting, w, a, b);
  }

  lemma {:induction false} One(setting: Setting, w: World, m: Move, t: World)
    requires t == Next(setting, w, m)
    ensures Reaches(setting, w, t)
  {
    hide Next;
    assert [m][1..] == [];
    assert RunOf(setting, t, []) == t;
    assert RunOf(setting, w, [m]) == t;
  }

  // ---------------------------------------------------------------- the server's part

  /** Server steps of one call add at most the message it works on to what succeeded, and touch nothing
      of the client. */
  ghost predicate ServerSide(w: World, n: nat, t: World)
  {
    && n in w.server.calls && n in w.handling
    && t == w.(server := t.server, succeeded := t.succeeded)
    && t.succeeded <= w.succeeded + {Message(w.server.calls[n].id, w.handling[n])}
  }

  lemma {:induction false} ProceedsOnce(setting: Setting, w: World, n: nat)
    requires n in w.server.calls && n in w.handling
    ensures var t := Stepped(setting, w, SendPath.Proceed(n, true));
            && Next(setting, w, ServerStep(SendPath.Proceed(n, true))) == t
            && t.server == SendProgress.Proceeding(setting.server, n)(w.server)
            && ServerSide(w, n, t) && n in t.server.calls && t.server.calls[n].id == w.server.calls[n].id
  {
    StepSameSends(setting.server, w.server, SendPath.Proceed(n, true));
  }

  lemma {:induction false} Proceeds(setting: Setting, w: World, n: nat, k: nat) returns (t: World)
    requires n in w.server.calls && n in w.handling
    ensures Reaches(setting, w, t) && ServerSide(w, n, t)
    ensures t.server == SendProgress.Iterate(SendProgress.Proceeding(setting.server, n), w.server, k)
    decreases k
  {
    hide Next, Stepped, SendProgress.Proceeding;
    if k == 0 {
      t := w;
      assert RunOf(setting, w, []) == w;
    } else {
      ProceedsOnce(setting, w, n);
      var v := Stepped(setting, w, SendPath.Proceed(n, true));
      One(setting, w, ServerStep(SendPath.Proceed(n, true)), v);
      t := Proceeds(setting, v, n, k - 1);
      Then(setting, w, v, t);
    }
  }

  /** A server that was given one SEND of a live Session executes and acknowledges it. */
  lemma {:induction false} ServerAnswers(setting: Setting, w: World, n: nat) returns (t: World)
    requires n in w.server.calls && n in w.handling && w.server.calls[n].place.Acquiring?
    requires w.server.flights == Flights.NO_FLIGHTS && w.server.records == map[] && w.server.log == []
    requires SendPath.Found(w.server, w.server.calls[n])
    ensures Reaches(setting, w, t) && ServerSide(w, n, t)
    ensures t.server.log == SendProgress.Story(w.server.calls[n], w.server.clock)
  {
    var s := SendProgress.CompletesFromStart(setting.server, w.server, n);
    var k: nat :| SendProgress.Iterate(SendProgress.Proceeding(setting.server, n), w.server, k) == s;
    t := Proceeds(setting, w, n, k);
    assert [] + SendProgress.Story(w.server.calls[n], w.server.clock)
           == SendProgress.Story(w.server.calls[n], w.server.clock);
  }

  // ---------------------------------------------------------------- the client's part

  /** Client moves leave the server's side alone. */
  predicate ClientSide(w: World, t: World)
  {
    t == w.(run := t.run, network := t.network, accepted := t.accepted, reported := t.reported)
  }

  /** READY in a Session, on the first connection. */
  predicate ReadyIn(c: Client, sessionID: string)
  {
    c.phase == Ready && c.generation == 1 && c.sessionID == sessionID
  }

  /** What the run needs: a Session the client's own check lets it have, and two contents it accepts
      under one identifier. */
  datatype Case = Case(sessionID: string, accepted: seq<Capability.Negotiated>, messageID: string, first: string,
                       second: string)

  predicate Usable(setting: Setting, x: Case)
  {
    && x.sessionID != "" && WellFormed(SendID(x.sessionID, x.messageID)) && setting.server.sessionTTL > 0
    && Capability.CheckAccepted(setting.client.offers, x.accepted, setting.client.capabilityLimits) == None
    && 0 < |x.messageID| <= setting.client.maxIDLength
    && |x.first| <= setting.client.maxPayloadSize && |x.second| <= setting.client.maxPayloadSize
  }

  lemma {:induction false} MildMove(w: World, op: Op, r: Outcome)
    requires SendTraffic.Mild(ActionsOf(r)) && !op.OpEnqueueSend?
    ensures var t := AfterClient(w, op, r); t == w.(run := t.run) && t.run.client == r.client
  {
    SendTraffic.NothingAcked(ActionsOf(r));
    assert SendsIn(ActionsOf(r)) == {} && ReportedBy(w.run.client, r) == {};
  }

  lemma {:induction false} CallMove(setting: Setting, w: World, op: Op)
    requires !op.OpIncoming? && !op.OpEnqueueSend? && !op.OpRetryPending?
    ensures var t := Next(setting, w, ClientCall(op));
            t == w.(run := t.run) && t.run.client == Step(setting.client, w.run.client, op).client
              && Reaches(setting, w, t)
  {
    hide Step, Reaches, Observe, SendsIn, ReportedBy;
    SendTraffic.CallIsMild(setting.client, w.run.client, op);
    MildMove(w, op, Step(setting.client, w.run.client, op));
    One(setting, w, ClientCall(op), Next(setting, w, ClientCall(op)));
  }

  lemma {:induction false} FrameMove(setting: Setting, w: World, frame: Frame)
    requires !frame.Ack?
    ensures var g := w.run.client.generation;
            var t := Next(setting, w, DeliverOther(g, Parsed(frame), true));
            && t == w.(run := t.run) && Reaches(setting, w, t)
            && t.run.client == HandleIncoming(setting.client, w.run.client, g, Parsed(frame), true).client
  {
    hide HandleIncoming, Reaches, Observe, SendsIn, ReportedBy;
    var g, c := w.run.client.generation, w.run.client;
    SendTraffic.IncomingIsMild(setting.client, c, g, Parsed(frame), true);
    MildMove(w, OpIncoming(g, Parsed(frame), true), HandleIncoming(setting.client, c, g, Parsed(frame), true));
    One(setting, w, DeliverOther(g, Parsed(frame), true), Next(setting, w, DeliverOther(g, Parsed(frame), true)));
  }

  lemma {:induction false} Handshakes(config: Config, sessionID: string, accepted: seq<Capability.Negotiated>)
    requires sessionID != "" && Capability.CheckAccepted(config.offers, accepted, config.capabilityLimits) == None
    ensures var c1 := BeginConnect(ClientMachine.INITIAL).client;
            var c2 := TransportConnected(c1, 1).client;
            var c3 := StartSession(config, c2, 1, "", true).client;
            var r := HandleIncoming(config, c3, 1, Parsed(Welcome(sessionID, NewSession(accepted))), true);
            c3.generation == 1 && r.Done? && ReadyIn(r.client, sessionID) && r.client.outbox == map[]
  {
  }

  /** The client gets READY; nothing else happens. */
  lemma {:induction false} GetsReady(setting: Setting, x: Case) returns (t: World)
    requires Usable(setting, x)
    ensures Reaches(setting, InitialWorld(0), t) && t == InitialWorld(0).(run := t.run)
    ensures ReadyIn(t.run.client, x.sessionID) && t.run.client.outbox == map[]
  {
    hide Next;
    var w0 := InitialWorld(0);
    var w1 := Next(setting, w0, ClientCall(OpBeginConnect));
    CallMove(setting, w0, OpBeginConnect);
    var w2 := Next(setting, w1, ClientCall(OpTransportConnected(1)));
    CallMove(setting, w1, OpTransportConnected(1));
    var w3 := Next(setting, w2, ClientCall(OpStartSession(1, "", true)));
    CallMove(setting, w2, OpStartSession(1, "", true));
    Handshakes(setting.client, x.sessionID, x.accepted);
    var welcome := Welcome(x.sessionID, NewSession(x.accepted));
    t := Next(setting, w3, DeliverOther(1, Parsed(welcome), true));
    FrameMove(setting, w3, welcome);
    Then(setting, w0, w1, w2);
    Then(setting, w0, w2, w3);
    Then(setting, w0, w3, t);
  }

  function FrameOf(x: Case, content: string): Request
  {
    Send(x.messageID, x.sessionID, 0, content)
  }

  /** The client accepts a content under the identifier. */
  lemma {:induction false} Enqueues(setting: Setting, w: World, x: Case, content: string) returns (t: World)
    requires Usable(setting, x) && |content| <= setting.client.maxPayloadSize
    requires ReadyIn(w.run.client, x.sessionID) && x.messageID !in w.run.client.outbox
    ensures Reaches(setting, w, t) && ClientSide(w, t)
    ensures t.run.client == w.run.client.(outbox := w.run.client.outbox[x.messageID := FrameOf(x, content)])
    ensures FrameOf(x, content) in t.network && t.reported == w.reported
  {
    hide HandleIncoming, Reaches, Observe, Capability.CheckAccepted;
    var op := OpEnqueueSend(x.messageID, content, true, 0, true);
    var r := Step(setting.client, w.run.client, op);
    EnqueueShape(setting.client, w.run.client, x.messageID, content, true, 0, true);
    t := Next(setting, w, ClientCall(op));
    One(setting, w, ClientCall(op), t);
    SendTraffic.NothingAcked(r.actions);
    assert SendFrame(FrameOf(x, content)) in ActionsOf(r);
    assert FrameOf(x, content) in SendsIn(ActionsOf(r));
    assert ReportedBy(w.run.client, r) == {};
  }

  lemma {:induction false} AckHandled(config: Config, c: Client, x: Case)
    requires ReadyIn(c, x.sessionID) && x.messageID in c.outbox
    ensures HandleIncoming(config, c, 1, Parsed(Frame.Ack(x.sessionID, x.messageID)), true)
         == Done(c.(outbox := c.outbox - {x.messageID}), [Acked(x.messageID)])
  {
  }

  /** An ACK that names the identifier makes the client report whatever is pending under it. */
  lemma {:induction false} Reports(setting: Setting, w: World, x: Case, content: string, position: nat)
    returns (t: World)
    requires ReadyIn(w.run.client, x.sessionID) && x.messageID in w.run.client.outbox
    requires w.run.client.outbox[x.messageID] == FrameOf(x, content)
    requires position < |w.server.log| && w.server.log[position].AckSent?
    requires w.server.log[position].ack.sessionID == x.sessionID && w.server.log[position].ack.refID == x.messageID
    ensures Reaches(setting, w, t) && ClientSide(w, t)
    ensures t.run.client == w.run.client.(outbox := w.run.client.outbox - {x.messageID})
    ensures Message(SendID(x.sessionID, x.messageID), content) in t.reported
  {
    hide HandleIncoming, Reaches, Observe, StartSession, StartResume, ResumeWithState, QueryState, EnqueueSend,
         RetryPending, SendPing, CheckHeartbeat;
    var c, m := w.run.client, DeliverAck(1, position, true);
    t := Next(setting, w, m);
    One(setting, w, m, t);
    AckHandled(setting.client, c, x);
    var r := HandleIncoming(setting.client, c, 1, Parsed(Frame.Ack(x.sessionID, x.messageID)), true);
    OneAcked(x.messageID);
    assert x.messageID in AckedIn(ActionsOf(r));
    assert Message(Identity(c, x.messageID), content) in ReportedBy(c, r);
  }

  // ---------------------------------------------------------------- the run

  /** From READY: the first content is executed, acknowledged and reported. */
  lemma {:induction false} FirstContent(setting: Setting, w: World, x: Case) returns (t: World)
    requires Usable(setting, x) && w == InitialWorld(0).(run := w.run)
    requires ReadyIn(w.run.client, x.sessionID) && w.run.client.outbox == map[]
    ensures Reaches(setting, w, t)
    ensures ReadyIn(t.run.client, x.sessionID) && t.run.client.outbox == map[]
    ensures t.succeeded <= {Message(SendID(x.sessionID, x.messageID), x.first)}
    ensures var c := SendPath.Call(SendID(x.sessionID, x.messageID), setting.fingerprint(x.first), 0, false, 0,
                                   SendPath.Acquiring);
            t.server.log == SendProgress.Story(c, 0)
  {
    hide Next, Reaches;
    var w1 := SessionCreated(setting, w, x);
    var w2 := Enqueues(setting, w1, x, x.first);
    var w3 := FirstReceived(setting, w2, x);
    var w4 := ServerAnswers(setting, w3, 0);
    t := Reports(setting, w4, x, x.first, 4);
    Then(setting, w, w1, w2);
    Then(setting, w, w2, w3);
    Then(setting, w, w3, w4);
    Then(setting, w, w4, t);
  }

  lemma {:induction false} SessionCreated(setting: Setting, w: World, x: Case) returns (t: World)
    requires Usable(setting, x) && w == InitialWorld(0).(run := w.run)
    ensures Reaches(setting, w, t)
    ensures t == w.(server := w.server.(sessions := map[x.sessionID := setting.server.sessionTTL]))
  {
    var m := ServerStep(SendPath.CreateSession(x.sessionID, 0));
    t := Next(setting, w, m);
    One(setting, w, m, t);
  }

  lemma {:induction false} FirstReceived(setting: Setting, w: World, x: Case) returns (t: World)
    requires Usable(setting, x) && w.server
             == SendPath.InitialState(0).(sessions := map[x.sessionID := setting.server.sessionTTL])
    requires FrameOf(x, x.first) in w.network && w.handling == map[]
    ensures Reaches(setting, w, t)
    ensures var c := SendPath.Call(SendID(x.sessionID, x.messageID), setting.fingerprint(x.first), 0, false, 0,
                                   SendPath.Acquiring);
            t == w.(server := w.server.(calls := map[0 := c]), handling := map[0 := x.first])
  {
    hide Reaches, SendPath.CallStep;
    var m := ServerReceive(0, FrameOf(x, x.first));
    t := Next(setting, w, m);
    One(setting, w, m, t);
  }

  /** The limit of the guarantee: for any setting and any two contents the client accepts under one
      identifier there is a run in which it reports the second as acknowledged, although the application
      never succeeded on it, nor, if their fingerprints differ, on anything with its fingerprint. */
  lemma {:induction false} ReusedIdentifierMisreports(setting: Setting, x: Case)
    requires Usable(setting, x) && x.first != x.second
    ensures var id := SendID(x.sessionID, x.messageID);
            exists moves ::
              var w := RunOf(setting, InitialWorld(0), moves);
              && Message(id, x.second) in w.reported && Message(id, x.second) !in w.succeeded
              && (setting.fingerprint(x.first) != setting.fingerprint(x.second) ==>
                    SendHistory.Succeeded(id, setting.fingerprint(x.second)) !in w.server.log)
  {
    hide Next;
    var w0 := InitialWorld(0);
    var w1 := GetsReady(setting, x);
    var w2 := FirstContent(setting, w1, x);
    var w3 := Enqueues(setting, w2, x, x.second);
    var w4 := Reports(setting, w3, x, x.second, 4);
    Then(setting, w0, w1, w2);
    Then(setting, w0, w2, w3);
    Then(setting, w0, w3, w4);
    var moves :| RunOf(setting, w0, moves) == w4;
  }
}
