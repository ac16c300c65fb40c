/** The client's outbox and the server's SEND path together, over a network that loses, repeats and reorders. */
module SendEndToEnd {
  import opened Wire
  import opened Protocol
  import opened ClientMachine
  import opened ClientInvariant
  import opened DedupStore
  import SendHistory
  import SendPath
  import SendTheorems
  import SendTraffic

  // ---------------------------------------------------------------- the world

  /** One content under one identity. */
  datatype Message = Message(id: SendID, content: string)

  /** `network` is every SEND the client ever put out, `accepted` every message it accepted, `handling`
      the content each server call works on, `succeeded` every message the application succeeded on,
      and `reported` every message the client reported as acknowledged. */
  datatype World = World(
    run: Run,
    server: SendPath.State,
    network: set<Request>,
    accepted: set<Message>,
    handling: map<nat, string>,
    succeeded: set<Message>,
    reported: set<Message>)

  /** `fingerprint` is what the server derives from content. */
  datatype Setting = Setting(client: Config, server: SendPath.Config, fingerprint: string -> string)

  function InitialWorld(clock: int): World
  {
    World(Run(ClientMachine.INITIAL, NOTHING), SendPath.InitialState(clock), {}, {}, map[], {}, {})
  }

  datatype Move =
    | ClientCall(op: Op)
    | DeliverAck(generation: u64, position: nat, outboundOK: bool)
    | DeliverOther(generation: u64, input: Incoming, outboundOK: bool)
    | ServerReceive(call: nat, frame: Request)
    | ServerStep(move: SendPath.Move)

  /** ACKs that arrive were sent by the server, SENDs that arrive by the client; each any number of
      times, at any time, or never. Everything else is unrestricted. */
  predicate Possible(w: World, m: Move)
  {
    match m
    case ClientCall(op) => !op.OpIncoming?
    case DeliverAck(_, position, _) => position < |w.server.log| && w.server.log[position].AckSent?
    case DeliverOther(_, input, _) => !SendTraffic.IsAck(input)
    case ServerReceive(n, frame) => frame in w.network && frame.Send? && n !in w.server.calls
    case ServerStep(move) => !move.Begin?
  }

  function OpOf(w: World, m: Move): Op
    requires Possible(w, m) && !m.ServerReceive? && !m.ServerStep?
  {
    match m
    case ClientCall(op) => op
    case DeliverAck(generation, position, ok) =>
      var ack := w.server.log[position].ack;
      OpIncoming(generation, Parsed(Frame.Ack(ack.sessionID, ack.refID)), ok)
    case DeliverOther(generation, input, ok) => OpIncoming(generation, input, ok)
  }

  function Identity(c: Client, messageID: string): SendID
  {
    SendID(c.sessionID, messageID)
  }

  function MessageOf(frame: Request): Message
    requires frame.Send?
  {
    Message(SendID(frame.sessionID, frame.id), frame.content)
  }

  function SendsIn(actions: seq<Action>): set<Request>
  {
    set a | a in actions && SendTraffic.IsSend(a) :: a.request
  }

  function AcceptedBy(c: Client, op: Op, r: Outcome): set<Message>
  {
    if op.OpEnqueueSend? && r.Done? then {Message(Identity(c, op.messageID), op.content)} else {}
  }

  /** What is reported is the pending content. */
  function ReportedBy(c: Client, r: Outcome): set<Message>
  {
    set m | m in AckedIn(ActionsOf(r)) && m in c.outbox && c.outbox[m].Send? ::
      Message(Identity(c, m), c.outbox[m].content)
  }

  function AfterClient(w: World, op: Op, r: Outcome): World
  {
    var c := w.run.client;
    w.(run := Run(r.client, Observe(w.run.history, op, r)),
       network := w.network + SendsIn(ActionsOf(r)),
       accepted := w.accepted + AcceptedBy(c, op, r),
       reported := w.reported + ReportedBy(c, r))
  }

  function Received(setting: Setting, w: World, n: nat, frame: Request): World
    requires frame.Send?
  {
    var begin := SendPath.Begin(n, MessageOf(frame).id, setting.fingerprint(frame.content));
    w.(server := SendPath.Next(setting.server, w.server, begin), handling := w.handling[n := frame.content])
  }

  /** The application returns without error in this step. */
  predicate Succeeds(s: SendPath.State, move: SendPath.Move)
  {
    move.Proceed? && move.ok && move.call in s.calls && s.calls[move.call].place.AppRunning?
  }

  function Stepped(setting: Setting, w: World, move: SendPath.Move): World
  {
    var s := w.server;
    w.(server := SendPath.Next(setting.server, s, move),
       succeeded := if Succeeds(s, move) && move.call in w.handling
                    then w.succeeded + {Message(s.calls[move.call].id, w.handling[move.call])} else w.succeeded)
  }

  function Next(setting: Setting, w: World, m: Move): World
  {
    if !Possible(w, m) then w
    else
      match m
      case ServerReceive(n, frame) => Received(setting, w, n, frame)
      case ServerStep(move) => Stepped(setting, w, move)
      case _ => AfterClient(w, OpOf(w, m), Step(setting.client, w.run.client, OpOf(w, m)))
  }

  function RunOf(setting: Setting, w: World, moves: seq<Move>): World
    decreases |moves|
  {
    if moves == [] then w else RunOf(setting, Next(setting, w, moves[0]), moves[1..])
  }

  // ---------------------------------------------------------------- the invariant

  /** Everything pending or on the network was accepted with that content. */
  ghost predicate TrafficOK(w: World)
  {
    && (forall m | m in w.run.client.outbox && w.run.client.outbox[m].Send? ::
          Message(Identity(w.run.client, m), w.run.client.outbox[m].content) in w.accepted)
    && (forall f | f in w.network :: f.Send? && MessageOf(f) in w.accepted)
  }

  predicate CallHonest(setting: Setting, w: World, n: nat)
    requires n in w.server.calls
  {
    && n in w.handling && w.server.calls[n].fingerprint == setting.fingerprint(w.handling[n])
    && Message(w.server.calls[n].id, w.handling[n]) in w.accepted
  }

  /** Some message of `messages` under that identity has that fingerprint. */
  predicate Stems(setting: Setting, messages: set<Message>, id: SendID, fingerprint: string)
  {
    exists x | x in messages :: x.id == id && setting.fingerprint(x.content) == fingerprint
  }

  predicate HappeningHonest(setting: Setting, w: World, e: SendHistory.Happening)
  {
    && Stems(setting, w.accepted, e.id, e.fingerprint)
    && (e.Succeeded? ==> Stems(setting, w.succeeded, e.id, e.fingerprint))
  }

  /** The server works on accepted messages only, and what its history calls a success was one. */
  ghost predicate ServerOK(setting: Setting, w: World)
  {
    && (forall n | n in w.server.calls :: CallHonest(setting, w, n))
    && (forall i | 0 <= i < |w.server.log| :: HappeningHonest(setting, w, w.server.log[i]))
    && w.succeeded <= w.accepted
  }

  predicate Acknowledged(log: seq<SendHistory.Happening>, id: SendID)
  {
    exists i | 0 <= i < |log| :: log[i].AckSent? && log[i].id == id
  }

  ghost predicate ReportsOK(w: World)
  {
    forall x | x in w.reported :: x in w.accepted && Acknowledged(w.server.log, x.id)
  }

  ghost predicate WorldOK(setting: Setting, w: World)
  {
    && Inv(setting.client, w.run) && SendPath.StateOK(setting.server, w.server)
    && TrafficOK(w) && ServerOK(setting, w) && ReportsOK(w)
  }

  // ---------------------------------------------------------------- growing sets

  lemma {:induction false} StemsStays(setting: Setting, a: set<Message>, b: set<Message>, id: SendID,
                                      fingerprint: string)
    requires Stems(setting, a, id, fingerprint) && a <= b
    ensures Stems(setting, b, id, fingerprint)
  {
    var x :| x in a && x.id == id && setting.fingerprint(x.content) == fingerprint;
    assert x in b;
  }

  lemma {:induction false} HonestStays(setting: Setting, v: World, w: World, e: SendHistory.Happening)
    requires HappeningHonest(setting, v, e) && v.accepted <= w.accepted && v.succeeded <= w.succeeded
    ensures HappeningHonest(setting, w, e)
  {
    StemsStays(setting, v.accepted, w.accepted, e.id, e.fingerprint);
    if e.Succeeded? { StemsStays(setting, v.succeeded, w.succeeded, e.id, e.fingerprint); }
  }

  lemma {:induction false} AcknowledgedStays(a: seq<SendHistory.Happening>, b: seq<SendHistory.Happening>, id: SendID)
    requires Acknowledged(a, id) && a <= b
    ensures Acknowledged(b, id)
  {
    var i :| 0 <= i < |a| && a[i].AckSent? && a[i].id == id;
    assert b[i] == a[i];
  }

  // ---------------------------------------------------------------- server steps

  /** A step logs at most one happening, about its own call; a success only when the application returns. */
  ghost predicate LogsOwn(s: SendPath.State, move: SendPath.Move, log: seq<SendHistory.Happening>)
  {
    || log == s.log
    || (&& move.Proceed? && move.call in s.calls
        && exists e :: log == s.log + [e] && OwnHappening(s, move, e))
  }

  predicate OwnHappening(s: SendPath.State, move: SendPath.Move, e: SendHistory.Happening)
    requires move.Proceed? && move.call in s.calls
  {
    && e.id == s.calls[move.call].id && e.fingerprint == s.calls[move.call].fingerprint
    && (e.Succeeded? ==> Succeeds(s, move))
  }

  lemma {:induction false} Logged(s: SendPath.State, move: SendPath.Move, log: seq<SendHistory.Happening>,
                                  e: SendHistory.Happening)
    requires move.Proceed? && move.call in s.calls && log == s.log + [e] && OwnHappening(s, move, e)
    ensures LogsOwn(s, move, log)
  {
  }

  lemma {:induction false} CallbackLogs(config: SendPath.Config, s: SendPath.State, move: SendPath.Move,
                                        stage: SendPath.Stage, sample: int)
    requires move.Proceed? && move.call in s.calls
    ensures LogsOwn(s, move, SendPath.InsideStep(config, s, move.call, stage, move.ok).log)
    ensures LogsOwn(s, move, SendPath.ClaimStep(config, s, move.call, sample).log)
    ensures LogsOwn(s, move, SendPath.CompleteStep(config, s, move.call, sample).log)
  {
    var n, c := move.call, s.calls[move.call];
    var inside := SendPath.InsideStep(config, s, n, stage, move.ok).log;
    var claim := SendPath.ClaimStep(config, s, n, sample).log;
    var complete := SendPath.CompleteStep(config, s, n, sample).log;
    if inside != s.log { Logged(s, move, inside, SendHistory.Executed(c.id, c.fingerprint, s.clock)); }
    if claim != s.log { Logged(s, move, claim, SendHistory.Claiming(c.id, c.fingerprint, sample)); }
    if complete != s.log { Logged(s, move, complete,
                                  SendHistory.Stored(c.id, c.fingerprint, SendPath.AckFor(c), sample)); }
  }

  lemma {:induction false} StepLogs(config: SendPath.Config, s: SendPath.State, move: SendPath.Move)
    ensures LogsOwn(s, move, SendPath.Next(config, s, move).log)
  {
    if move.Proceed? && move.call in s.calls {
      var n, c := move.call, s.calls[move.call];
      var log := SendPath.CallStep(config, s, n, move.ok).log;
      match c.place
      case Inside(stage) => CallbackLogs(config, s, move, stage, 0);
      case Sampled(stage, sample) => CallbackLogs(config, s, move, stage, sample);
      case AppRunning => if move.ok { Logged(s, move, log, SendHistory.Succeeded(c.id, c.fingerprint)); }
      case Sending(ack) => if move.ok { Logged(s, move, log, SendHistory.AckSent(c.id, c.fingerprint, ack)); }
      case _ =>
    }
  }

  /** A step changes no call's SEND or content. */
  ghost predicate SameSends(s: SendPath.State, t: SendPath.State)
  {
    && t.calls.Keys == s.calls.Keys
    && forall n | n in s.calls :: t.calls[n].id == s.calls[n].id && t.calls[n].fingerprint == s.calls[n].fingerprint
  }

  lemma {:induction false} StepSameSends(config: SendPath.Config, s: SendPath.State, move: SendPath.Move)
    requires !move.Begin?
    ensures SameSends(s, SendPath.Next(config, s, move))
  {
    hide SendPath.InsideStep, SendPath.ClaimStep, SendPath.CompleteStep;
    if move.Proceed? && move.call in s.calls && !s.calls[move.call].place.Acquiring? {
      SendTheorems.StepShape(config, s, move.call, move.ok);
    }
  }

  /** The logged happening stems from the content the call works on. */
  lemma {:induction false} OwnIsHonest(setting: Setting, w: World, move: SendPath.Move, e: SendHistory.Happening)
    requires move.Proceed? && move.call in w.server.calls && CallHonest(setting, w, move.call)
    requires OwnHappening(w.server, move, e)
    ensures HappeningHonest(setting, Stepped(setting, w, move), e)
  {
    var x := Message(e.id, w.handling[move.call]);
    assert x in w.accepted;
    assert Stems(setting, w.accepted, e.id, e.fingerprint);
    if e.Succeeded? {
      assert x in Stepped(setting, w, move).succeeded;
    }
  }

  lemma {:induction false} LogStaysHonest(setting: Setting, w: World, move: SendPath.Move)
    requires ServerOK(setting, w)
    ensures var t := Stepped(setting, w, move);
            w.server.log <= t.server.log && forall i | 0 <= i < |t.server.log| ::
              HappeningHonest(setting, t, t.server.log[i])
  {
    var t := Stepped(setting, w, move);
    StepLogs(setting.server, w.server, move);
    forall i | 0 <= i < |t.server.log|
      ensures HappeningHonest(setting, t, t.server.log[i])
    {
      if i < |w.server.log| {
        HonestStays(setting, w, t, w.server.log[i]);
      } else {
        OwnIsHonest(setting, w, move, t.server.log[i]);
      }
    }
  }

  lemma {:induction false} SteppedKeeps(setting: Setting, w: World, move: SendPath.Move)
    requires WorldOK(setting, w) && !move.Begin?
    ensures WorldOK(setting, Stepped(setting, w, move))
  {
    hide Inv, SendPath.StateOK, SendPath.Next, HappeningHonest, Acknowledged;
    var t := Stepped(setting, w, move);
    SendPath.MoveKeeps(setting.server, w.server, move);
    LogStaysHonest(setting, w, move);
    StepSameSends(setting.server, w.server, move);
    forall n | n in t.server.calls ensures CallHonest(setting, t, n) { assert CallHonest(setting, w, n); }
    if Succeeds(w.server, move) { assert CallHonest(setting, w, move.call); }
    forall x | x in t.reported ensures Acknowledged(t.server.log,
                                                    x.id) { AcknowledgedStays(w.server.log, t.server.log, x.id); }
  }

  lemma {:induction false} ReceivedKeeps(setting: Setting, w: World, n: nat, frame: Request)
    requires WorldOK(setting, w) && Possible(w, ServerReceive(n, frame))
    ensures WorldOK(setting, Received(setting, w, n, frame))
  {
    hide Inv, SendPath.StateOK, HappeningHonest, Acknowledged, SendPath.CallStep;
    var t := Received(setting, w, n, frame);
    SendPath.MoveKeeps(setting.server, w.server,
                       SendPath.Begin(n, MessageOf(frame).id, setting.fingerprint(frame.content)));
    forall k | k in t.server.calls
      ensures CallHonest(setting, t, k)
    {
      if k != n { assert CallHonest(setting, w, k); }
    }
    forall i | 0 <= i < |t.server.log| ensures HappeningHonest(setting, t, t.server.log[i]) {
      HonestStays(setting, w, t, w.server.log[i]);
    }
  }

  // ---------------------------------------------------------------- client steps

  lemma {:induction false} NetworkStaysOK(setting: Setting, w: World, op: Op)
    requires Inv(setting.client, w.run) && TrafficOK(w)
    ensures var r := Step(setting.client, w.run.client, op);
            forall f | f in SendsIn(ActionsOf(r)) :: f.Send? && MessageOf(f) in AfterClient(w, op, r).accepted
  {
    SendTraffic.StepSends(setting.client, w.run.client, op);
    var r := Step(setting.client, w.run.client, op);
    forall f | f in SendsIn(ActionsOf(r))
      ensures f.Send? && MessageOf(f) in AfterClient(w, op, r).accepted
    {
      SentWasAccepted(setting, w, op, r, SendFrame(f));
    }
  }

  lemma {:induction false} SentWasAccepted(setting: Setting, w: World, op: Op, r: Outcome, a: Action)
    requires Inv(setting.client, w.run) && TrafficOK(w) && SendTraffic.SendsOnly(w.run.client, op, r)
    requires a in ActionsOf(r) && SendTraffic.IsSend(a)
    ensures MessageOf(a.request) in AfterClient(w, op, r).accepted
  {
    var c := w.run.client;
    if !(op.OpEnqueueSend? && r.Done? && a.request == Send(op.messageID, c.sessionID, op.now, op.content)) {
      var m :| m in c.outbox && a == SendFrame(c.outbox[m]);
    }
  }

  lemma {:induction false} OutboxStaysOK(setting: Setting, w: World, op: Op)
    requires Inv(setting.client, w.run) && TrafficOK(w)
    ensures var r := Step(setting.client, w.run.client, op);
            forall m | m in r.client.outbox && r.client.outbox[m].Send? ::
              Message(Identity(r.client, m), r.client.outbox[m].content) in AfterClient(w, op, r).accepted
  {
    SendTraffic.StepOutbox(setting.client, w.run.client, op);
  }

  /** What the client newly reports, the server had acknowledged, and the client had accepted. */
  lemma {:induction false} NewReport(setting: Setting, w: World, m: Move, x: Message)
    requires WorldOK(setting, w) && Possible(w, m) && !m.ServerReceive? && !m.ServerStep?
    requires x in ReportedBy(w.run.client, Step(setting.client, w.run.client, OpOf(w, m)))
    ensures x in w.accepted && Acknowledged(w.server.log, x.id)
  {
    hide Inv, Step, ServerOK, ReportsOK, SendPath.CallsFit, SendPath.RecordsFit, SendPath.AcksFit, SendPath.SessionsFit,
         SendPath.UniqueLeaders;
    var c, op := w.run.client, OpOf(w, m);
    SendTraffic.StepReports(setting.client, c, op);
    var message :| message in AckedIn(ActionsOf(Step(setting.client, c, op))) && message in c.outbox
                   && x == Message(Identity(c, message), c.outbox[message].content);
    assert op.input == Parsed(Frame.Ack(c.sessionID, message));
    SendTheorems.AckJustified(w.server.log, setting.server.dedupTTL, m.position);
    assert w.server.log[m.position].id == x.id;
  }

  lemma {:induction false} ClientKeeps(setting: Setting, w: World, m: Move)
    requires WorldOK(setting, w) && Possible(w, m) && !m.ServerReceive? && !m.ServerStep?
    ensures var op := OpOf(w, m); WorldOK(setting, AfterClient(w, op, Step(setting.client, w.run.client, op)))
  {
    hide Inv, SendPath.StateOK, Step, Observe, ServerOK, Acknowledged, SendsIn, ReportedBy, AcceptedBy;
    var op := OpOf(w, m);
    var r := Step(setting.client, w.run.client, op);
    var t := AfterClient(w, op, r);
    StepKeeps(setting.client, w.run.client, w.run.history, op);
    NetworkStaysOK(setting, w, op);
    OutboxStaysOK(setting, w, op);
    AcceptedGrows(setting, w, t);
    forall x | x in t.reported
      ensures x in t.accepted && Acknowledged(t.server.log, x.id)
    {
      if x !in w.reported { NewReport(setting, w, m, x); }
    }
  }

  lemma {:induction false} AcceptedGrows(setting: Setting, w: World, t: World)
    requires ServerOK(setting, w) && w.accepted <= t.accepted
    requires t == w.(run := t.run, network := t.network, accepted := t.accepted, reported := t.reported)
    ensures ServerOK(setting, t)
  {
    forall n | n in t.server.calls ensures CallHonest(setting, t, n) { assert CallHonest(setting, w, n); }
    forall i | 0 <= i < |t.server.log| ensures HappeningHonest(setting, t, t.server.log[i]) {
      HonestStays(setting, w, t, w.server.log[i]);
    }
  }

  // ---------------------------------------------------------------- every run

  lemma {:induction false} MoveKeepsWorld(setting: Setting, w: World, m: Move)
    requires WorldOK(setting, w)
    ensures WorldOK(setting, Next(setting, w, m))
  {
    hide WorldOK, Stepped, Received, AfterClient, Step;
    if Possible(w, m) {
      match m
      case ServerReceive(n, frame) => ReceivedKeeps(setting, w, n, frame);
      case ServerStep(move) => SteppedKeeps(setting, w, move);
      case _ => ClientKeeps(setting, w, m);
    }
  }

  lemma {:induction false} EveryRunKeepsWorld(setting: Setting, w: World, moves: seq<Move>)
    requires WorldOK(setting, w)
    ensures WorldOK(setting, RunOf(setting, w, moves))
    decreases |moves|
  {
    hide Next, WorldOK;
    if moves == [] {
    } else {
      MoveKeepsWorld(setting, w, moves[0]);
      EveryRunKeepsWorld(setting, Next(setting, w, moves[0]), moves[1..]);
    }
  }

  lemma {:induction false} ReachableWorld(setting: Setting, clock: int, moves: seq<Move>)
    ensures WorldOK(setting, RunOf(setting, InitialWorld(clock), moves))
  {
    hide Inv, Next, SendPath.StateOK, SendPath.Next;
    InitialHolds(setting.client);
    SendTheorems.Reachable(setting.server, clock, []);
    EveryRunKeepsWorld(setting, InitialWorld(clock), moves);
  }

  // ---------------------------------------------------------------- the theorems

  /** An acknowledged SEND succeeded, with the fingerprint of some accepted message of that identity. */
  lemma {:induction false} AcknowledgedSucceeded(setting: Setting, w: World, id: SendID) returns (fingerprint: string)
    requires WorldOK(setting, w) && Acknowledged(w.server.log, id)
    ensures SendHistory.Succeeded(id, fingerprint) in w.server.log
    ensures Stems(setting, w.accepted, id, fingerprint) && Stems(setting, w.succeeded, id, fingerprint)
  {
    hide Inv, TrafficOK, ReportsOK, SendPath.CallsFit, SendPath.RecordsFit, SendPath.AcksFit, SendPath.SessionsFit,
         SendPath.UniqueLeaders;
    var log := w.server.log;
    var i :| 0 <= i < |log| && log[i].AckSent? && log[i].id == id;
    fingerprint := log[i].fingerprint;
    SendTheorems.AckJustified(log, setting.server.dedupTTL, i);
    var a :| 0 <= a < i && SendHistory.Succeeded(id, fingerprint) in log[..a];
    var k :| 0 <= k < |log| && log[k] == SendHistory.Succeeded(id, fingerprint);
    assert HappeningHonest(setting, w, log[k]);
  }

  /** All messages the client accepted under that identity share one fingerprint. */
  predicate OneFingerprint(setting: Setting, accepted: set<Message>, id: SendID)
  {
    forall x, y | x in accepted && y in accepted && x.id == id && y.id == id ::
      setting.fingerprint(x.content) == setting.fingerprint(y.content)
  }

  /** All messages the client accepted under that identity are one message. */
  predicate OneContent(accepted: set<Message>, id: SendID)
  {
    forall x, y | x in accepted && y in accepted && x.id == id && y.id == id :: x == y
  }

  /** Whatever is lost, repeated, reordered, retried or fails, on either side: when the client reports a
      message as acknowledged, the application has succeeded on some message of that identity; on one
      with the same fingerprint, unless the client accepted two fingerprints under it; and on exactly
      this content, unless it accepted two contents under it. */
  lemma {:induction false} AcknowledgedMeansExecuted(setting: Setting, clock: int, moves: seq<Move>, x: Message)
    requires x in RunOf(setting, InitialWorld(clock), moves).reported
    ensures var w := RunOf(setting, InitialWorld(clock), moves);
            && (exists y | y in w.succeeded :: y.id == x.id)
            && (OneFingerprint(setting, w.accepted, x.id) ==>
                  SendHistory.Succeeded(x.id, setting.fingerprint(x.content)) in w.server.log)
            && (OneContent(w.accepted, x.id) ==> x in w.succeeded)
  {
    hide WorldOK, Next;
    ReachableWorld(setting, clock, moves);
    var w := RunOf(setting, InitialWorld(clock), moves);
    ReportedSucceeded(setting, w, x);
  }

  lemma {:induction false} ReportedSucceeded(setting: Setting, w: World, x: Message)
    requires WorldOK(setting, w) && x in w.reported
    ensures exists y | y in w.succeeded :: y.id == x.id
    ensures OneFingerprint(setting, w.accepted, x.id) ==>
              SendHistory.Succeeded(x.id, setting.fingerprint(x.content)) in w.server.log
    ensures OneContent(w.accepted, x.id) ==> x in w.succeeded
  {
    var fingerprint := AcknowledgedSucceeded(setting, w, x.id);
    var y :| y in w.succeeded && y.id == x.id && setting.fingerprint(y.content) == fingerprint;
    assert x in w.accepted && y in w.accepted;
  }
}
