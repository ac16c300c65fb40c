/** A pending SEND gets through: retry, server, acknowledgement and report, whether or not the server had
    already executed it. */
module SendDelivers {
  import opened Wire
  import opened Protocol
  import opened ClientMachine
  import opened ClientInvariant
  import opened DedupStore
  import opened SendEndToEnd
  import ClientAnswers
  import SendAnswers
  import SendHistory
  import SendPath
  import SendProgress
  import SendReuse
  import SendTheorems

  /** The message that is pending under `m`. */
  function Pending(c: Client, m: string): Message
    requires m in c.outbox && c.outbox[m].Send?
  {
    Message(Identity(c, m), c.outbox[m].content)
  }

  /** The client is READY with `m` pending under its Session. */
  predicate HasPending(c: Client, m: string)
  {
    && c.phase == Ready && m in c.outbox && c.outbox[m].Send? && c.outbox[m].id == m
    && c.outbox[m].sessionID == c.sessionID
  }

  lemma {:induction false} ResendsAreSent(config: Config, c: Client, h: History, m: string)
    requires Inv(config, Run(c, h)) && HasPending(c, m)
    ensures var r := Step(config, c, OpRetryPending);
            && r.Done? && r.client == c && c.outbox[m] in SendsIn(r.actions) && AckedIn(r.actions) == multiset{}
  {
    hide Step, Inv;
    ClientAnswers.RetryResends(config, c, h);
    var r := Step(config, c, OpRetryPending);
    NothingDelivered(r.actions);
    var i :| 0 <= i < |r.actions| && r.actions[i] == SendFrame(c.outbox[m]);
    assert r.actions[i] in r.actions;
  }

  /** RetryPending puts the SEND on the network again and changes nothing else. */
  lemma {:induction false} Retries(setting: Setting, w: World, m: string) returns (t: World)
    requires Inv(setting.client, w.run) && HasPending(w.run.client, m)
    ensures SendReuse.Reaches(setting, w, t)
    ensures t == w.(run := t.run, network := t.network) && t.run.client == w.run.client
    ensures w.run.client.outbox[m] in t.network
  {
    hide Step, Inv, SendReuse.Reaches, Observe, SendsIn;
    var c := w.run.client;
    ResendsAreSent(setting.client, c, w.run.history, m);
    t := Next(setting, w, ClientCall(OpRetryPending));
    SendReuse.One(setting, w, ClientCall(OpRetryPending), t);
    assert ReportedBy(c, Step(setting.client, c, OpRetryPending)) == {};
  }

  /** The server takes the SEND up in a new call. */
  lemma {:induction false} Arrives(setting: Setting, w: World, n: nat, frame: Request) returns (t: World)
    requires frame in w.network && frame.Send? && n !in w.server.calls && WellFormed(MessageOf(frame).id)
    requires SendPath.StateOK(setting.server, w.server)
    ensures SendReuse.Reaches(setting, w, t) && SendPath.StateOK(setting.server, t.server)
    ensures var call := SendPath.Call(MessageOf(frame).id, setting.fingerprint(frame.content), w.server.clock, false, 0,
                                      SendPath.Acquiring);
            t == w.(server := w.server.(calls := w.server.calls[n := call]), handling := w.handling[n := frame.content])
  {
    hide SendPath.StateOK, SendReuse.Reaches, SendPath.CallStep;
    t := Next(setting, w, ServerReceive(n, frame));
    SendReuse.One(setting, w, ServerReceive(n, frame), t);
    SendPath.MoveKeeps(setting.server, w.server,
                       SendPath.Begin(n, MessageOf(frame).id, setting.fingerprint(frame.content)));
  }

  /** The ACK arrives: the pending SEND is reported and no longer pending. */
  lemma {:induction false} AckArrives(setting: Setting, w: World, m: string, position: nat) returns (t: World)
    requires HasPending(w.run.client, m)
    requires position < |w.server.log| && w.server.log[position].AckSent?
    requires SendPath.Answers(w.server.log[position].ack, Identity(w.run.client, m))
    ensures SendReuse.Reaches(setting, w, t) && t.server == w.server
    ensures t.run.client == w.run.client.(outbox := w.run.client.outbox - {m})
    ensures Pending(w.run.client, m) in t.reported
  {
    hide HandleIncoming, SendReuse.Reaches, Observe, SendsIn;
    hide StartSession, StartResume, ResumeWithState, QueryState, EnqueueSend, RetryPending, SendPing, CheckHeartbeat;
    var c := w.run.client;
    var move := DeliverAck(c.generation, position, true);
    ClientAnswers.AckReports(setting.client, c, m, true);
    t := Next(setting, w, move);
    SendReuse.One(setting, w, move, t);
    OneAcked(m);
    assert m in AckedIn([Acked(m)]);
  }

  /** What the server will do with the SEND if nothing hinders it: execute it, if it was never claimed or its
      completion is outlived; or answer from the store, if this content was completed within the
      retention. */
  predicate Open(setting: Setting, s: SendPath.State, x: Message)
  {
    var p := SendHistory.ProgressOf(s.log, x.id);
    || p.Idle?
    || (p.Kept? && (p.sample + setting.server.dedupTTL <= s.clock || p.fingerprint == setting.fingerprint(x.content)))
  }

  lemma {:induction false} OpenClaim(setting: Setting, s: SendPath.State, n: nat)
    requires SendPath.StateOK(setting.server, s) && n in s.calls
    ensures var p := SendHistory.ProgressOf(s.log, s.calls[n].id);
            SendProgress.Claimable(setting.server, s, s.calls[n]) <==>
              p.Idle? || (p.Kept? && p.sample + setting.server.dedupTTL <= s.clock)
  {
    hide SendPath.CallsFit, SendPath.AcksFit, SendPath.SessionsFit, SendPath.UniqueLeaders;
    hide SendHistory.Legal, SendHistory.ProgressOf;
    SendPath.Acting(setting.server, s, n);
  }

  predicate EndsInAck(log: seq<SendHistory.Happening>, id: SendID)
  {
    log != [] && log[|log| - 1].AckSent? && log[|log| - 1].id == id && SendPath.Answers(log[|log| - 1].ack, id)
  }

  /** The server's part: whatever the case, the last thing it logs is an ACK of that SEND. */
  lemma {:induction false} ServerAnswers(setting: Setting, w: World, n: nat) returns (t: World)
    requires SendPath.StateOK(setting.server, w.server) && n in w.server.calls && n in w.handling
    requires var c := w.server.calls[n];
             && c.place.Acquiring? && !c.leader && Key(c.id) !in w.server.flights.current
             && SendPath.Found(w.server, c) && c.fingerprint == setting.fingerprint(w.handling[n])
             && Open(setting, w.server, Message(c.id, w.handling[n]))
    ensures SendReuse.Reaches(setting, w, t) && SendReuse.ServerSide(w, n, t)
    ensures EndsInAck(t.server.log, w.server.calls[n].id)
  {
    hide SendPath.StateOK, SendReuse.Reaches, SendHistory.ProgressOf, SendProgress.Iterate;
    hide SendProgress.Proceeding, SendAnswers.FlightOver, SendPath.CallStep;
    var s, c := w.server, w.server.calls[n];
    var p := SendHistory.ProgressOf(s.log, c.id);
    var u: SendPath.State;
    OpenClaim(setting, s, n);
    if SendProgress.Claimable(setting.server, s, c) {
      u := SendProgress.CompletesFromStart(setting.server, s, n);
    } else {
      u := SendAnswers.RetryFromStart(setting.server, s, n);
      StoredAckAnswers(setting, s, c.id);
    }
    var k: nat :| SendProgress.Iterate(SendProgress.Proceeding(setting.server, n), s, k) == u;
    t := SendReuse.Proceeds(setting, w, n, k);
  }

  lemma {:induction false} StoredAckAnswers(setting: Setting, s: SendPath.State, id: SendID)
    requires SendPath.StateOK(setting.server, s)
    ensures var p := SendHistory.ProgressOf(s.log, id); p.Kept? ==> SendPath.Answers(p.ack, id)
  {
    hide SendPath.CallsFit, SendPath.AcksFit, SendPath.SessionsFit, SendPath.UniqueLeaders, SendPath.RecordsFit;
    var p := SendHistory.ProgressOf(s.log, id);
    SendHistory.KeptWasStored(s.log, id);
    if p.Kept? {
      SendTheorems.StoredAnswers(s.log, setting.server.dedupTTL, id, p.fingerprint, p.ack);
    }
  }

  /** Nothing stands in the way at the server: the Session is alive and no call works on the SEND. */
  predicate Unhindered(setting: Setting, w: World, x: Message, n: nat)
  {
    && WellFormed(x.id) && n !in w.server.calls && Key(x.id) !in w.server.flights.current
    && x.id.sessionID in w.server.sessions && w.server.clock < w.server.sessions[x.id.sessionID]
    && Open(setting, w.server, x)
  }

  /** From every reachable state with a READY client: a SEND that is pending, and that nothing stands in the way
      of, can be brought to an end by one retry, one call of the server and one ACK. It is then reported
      and no longer pending. In particular a lost ACK is no lasting harm. */
  lemma {:induction false} PendingGetsThrough(setting: Setting, clock: int, moves: seq<Move>, m: string, n: nat)
    requires var w := RunOf(setting, InitialWorld(clock), moves);
             HasPending(w.run.client, m) && Unhindered(setting, w, Pending(w.run.client, m), n)
    ensures var w := RunOf(setting, InitialWorld(clock), moves);
            var x := Pending(w.run.client, m);
            exists more :: var t := RunOf(setting, InitialWorld(clock), moves + more);
                           x in t.reported && m !in t.run.client.outbox
  {
    hide WorldOK, RunOf, Inv, SendPath.StateOK, SendReuse.Reaches, Open;
    ReachableWorld(setting, clock, moves);
    var w := RunOf(setting, InitialWorld(clock), moves);
    WorldGives(setting, w);
    var x := Pending(w.run.client, m);
    var w1 := Retries(setting, w, m);
    var w2 := Arrives(setting, w1, n, w.run.client.outbox[m]);
    OpenStays(setting, w.server, w2.server, x);
    var w3 := ServerAnswers(setting, w2, n);
    var w4 := AckArrives(setting, w3, m, |w3.server.log| - 1);
    SendReuse.Then(setting, w, w1, w2);
    SendReuse.Then(setting, w, w2, w3);
    SendReuse.Then(setting, w, w3, w4);
    ReachedByMore(setting, clock, moves, w4, x, m);
  }

  lemma {:induction false} OpenStays(setting: Setting, s: SendPath.State, t: SendPath.State, x: Message)
    requires Open(setting, s, x) && t.log == s.log && t.clock == s.clock
    ensures Open(setting, t, x)
  {
  }

  lemma {:induction false} WorldGives(setting: Setting, w: World)
    requires WorldOK(setting, w)
    ensures Inv(setting.client, w.run) && SendPath.StateOK(setting.server, w.server)
  {
    hide Inv, SendPath.StateOK, TrafficOK, ServerOK, ReportsOK;
  }

  lemma {:induction false} ReachedByMore(setting: Setting, clock: int, moves: seq<Move>, t: World, x: Message,
                                         m: string)
    requires SendReuse.Reaches(setting, RunOf(setting, InitialWorld(clock), moves), t)
    requires x in t.reported && m !in t.run.client.outbox
    ensures exists more :: var u := RunOf(setting, InitialWorld(clock), moves + more);
                           x in u.reported && m !in u.run.client.outbox
  {
    hide Next;
    var more :| RunOf(setting, RunOf(setting, InitialWorld(clock), moves), more) == t;
    SendReuse.RunConcat(setting, InitialWorld(clock), moves, more);
  }
}
