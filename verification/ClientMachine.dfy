/** The client protocol state machine as a function on values: one step per public operation. */
module ClientMachine {
  import opened Wire
  import opened Protocol
  import Capability
  import StateMerge
  import Text

  datatype Phase = Disconnected | Connecting | Connected | Handshaking | Resuming | Ready | Suspect

  datatype Ping = Ping(id: string, sentAt: int, generation: u64)

  /** A recovery in progress: the fixed boundary, the events held back so far and what they cost,
      the State namespaces still owed, whether the events are all in, and how it started. */
  datatype Staging = Staging(
    replayTo: u64,
    buffer: seq<Event>,
    bytes: int,
    namespaces: seq<string>,
    eventsComplete: bool,
    gap: bool)

  const NO_STAGING: Staging := Staging(0, [], 0, [], false, false)

  datatype Client = Client(
    phase: Phase,
    generation: u64,
    sessionID: string,
    lastSeq: u64,
    eventIDs: map<u64, string>,
    outbox: map<string, Request>,
    ping: Option<Ping>,
    suspectAt: Option<int>,
    capabilities: map<string, Capability.u16>,
    cache: StateMerge.Cache,
    queries: map<string, Query>,
    staging: Staging)

  const INITIAL: Client :=
    Client(Disconnected, 0, "", 0, map[], map[], None, None, map[], StateMerge.EMPTY, map[], NO_STAGING)

  datatype Config = Config(
    offers: seq<Capability.Offer>,
    capabilityLimits: Capability.Limits,
    heartbeatTimeout: int,
    disconnectGrace: int,
    maxReplayEvents: u64,
    maxReplayBytes: nat,
    eventIdentityWindow: u64,
    cache: StateMerge.CacheConfig,
    maxIDLength: nat,
    maxPayloadSize: nat,
    validNamespaces: seq<string> -> bool)

  datatype Outcome = Done(client: Client, actions: seq<Action>) | Failed(client: Client, error: ClientError)

  /** A frame handler either acts, or reports an error having changed nothing. */
  datatype Handled = Act(client: Client, actions: seq<Action>) | Err(error: ClientError)

  // ---------------------------------------------------------------- shared transitions

  /** Everything tied to one transport connection. */
  function Reset(c: Client): Client
  {
    c.(ping := None, suspectAt := None, queries := map[], staging := NO_STAGING)
  }

  function Drop(c: Client): Client
  {
    Reset(c.(phase := Disconnected))
  }

  function BeginRecovery(c: Client, namespaces: seq<string>, gap: bool): Client
  {
    Reset(c).(phase := Resuming, staging := NO_STAGING.(namespaces := namespaces, gap := gap))
  }

  function Abandon(c: Client): Client
  {
    Reset(c.(phase := Disconnected, sessionID := "", lastSeq := 0, eventIDs := map[], outbox := map[],
             capabilities := map[], cache := StateMerge.EMPTY))
  }

  function ResumeRequest(c: Client, namespaces: seq<string>): Request
  {
    Resume(c.sessionID, c.lastSeq, if namespaces == [] then None else Some(namespaces))
  }

  function Remember(ids: map<u64, string>, window: u64, seqNo: u64, id: string): map<u64, string>
  {
    var added := ids[seqNo := id];
    if seqNo > window then added - {seqNo - window} else added
  }

  /** Advance over `events` one by one. */
  function Advance(config: Config, c: Client, events: seq<Event>): Client
    decreases |events|
  {
    if events == [] then c
    else
      var e := events[0];
      var next := c.(lastSeq := e.seqNo, eventIDs := Remember(c.eventIDs, config.eventIdentityWindow, e.seqNo, e.id));
      Advance(config, next, events[1..])
  }

  lemma {:induction false} AdvanceOne(config: Config, c: Client, e: Event)
    ensures Advance(config, c, [e])
         == c.(lastSeq := e.seqNo, eventIDs := Remember(c.eventIDs, config.eventIdentityWindow, e.seqNo, e.id))
  {
    var next := c.(lastSeq := e.seqNo, eventIDs := Remember(c.eventIDs, config.eventIdentityWindow, e.seqNo, e.id));
    assert [e][1..] == [];
    assert Advance(config, next, []) == next;
  }

  function EventBytes(e: Event): nat
  {
    |e.id| + |e.sessionID| + |e.payload| + 32
  }

  function StopActions(c: Client, code: Code, reason: Reason): seq<Action>
  {
    [ProtocolError(ErrorPayload(code, "", false)), FullSyncRequired(c.sessionID), CloseConnection(reason)]
  }

  function StopReplay(c: Client, reason: Reason): Handled
  {
    Act(Drop(c), StopActions(c, SyncRequired, reason))
  }

  function StopStateResume(c: Client, reason: Reason): Handled
  {
    Act(Drop(c), StopActions(c, StateSyncRequired, reason))
  }

  /** An error while RESUMING is not reported: it ends the recovery. */
  function OnFailure(c: Client, error: ClientError): Outcome
  {
    if c.phase != Resuming then Failed(c, error)
    else
      var stopped := if c.staging.namespaces != [] then StopStateResume(c, ResumeFailed(error))
                     else StopReplay(c, ResumeFailed(error));
      Done(stopped.client, stopped.actions)
  }

  predicate StateSyncEnabled(capabilities: map<string, Capability.u16>)
  {
    "state-sync" in capabilities && capabilities["state-sync"] == 1
  }

  // ---------------------------------------------------------------- WELCOME

  function CapabilityMap(accepted: seq<Capability.Negotiated>): map<string, Capability.u16>
  {
    if accepted == [] then map[]
    else
      var last := accepted[|accepted| - 1];
      CapabilityMap(accepted[..|accepted| - 1])[last.name := last.version]
  }

  function FromCapability(error: Capability.Error): Code
  {
    match error
    case InvalidCapability => Code.InvalidCapability
    case UnsupportedFeature => Code.UnsupportedFeature
    case ProtocolViolation => Code.ProtocolViolation
  }

  function HandleNewWelcome(config: Config, c: Client, sessionID: string, mode: WelcomeMode): Handled
  {
    if !mode.NewSession? || sessionID == "" then Err(Violation(ProtocolViolation))
    else
      match Capability.CheckAccepted(config.offers, mode.accepted, config.capabilityLimits)
      case Some(error) => Err(Violation(FromCapability(error)))
      case None =>
        Act(c.(sessionID := sessionID, capabilities := CapabilityMap(mode.accepted), phase := Ready),
            [SessionReady(sessionID)])
  }

  /** The RESUMED boundary is fixed here; a second acknowledgement starts the staging over. */
  function HandleResumedWelcome(config: Config, c: Client, sessionID: string, mode: WelcomeMode): Handled
  {
    var namespaces := c.staging.namespaces;
    if !mode.Resumed? || sessionID != c.sessionID || mode.resumeFrom != Wrap(c.lastSeq + 1) || mode.replayTo < c.lastSeq
    then Err(Violation(ProtocolViolation))
    else if mode.stateSync != (if namespaces == [] then None else Some(namespaces))
    then Err(Violation(ProtocolViolation))
    else
      var staged := c.(staging := Staging(mode.replayTo, [], 0, namespaces, mode.replayTo == c.lastSeq, false));
      if mode.replayTo - c.lastSeq > config.maxReplayEvents then StopReplay(staged, ReplayEventLimit)
      else if mode.replayTo == c.lastSeq && namespaces == [] then
        Act(Reset(staged).(phase := Ready), [SessionReady(c.sessionID)])
      else Act(staged, [])
  }

  function HandleWelcome(config: Config, c: Client, sessionID: string, mode: WelcomeMode): Handled
  {
    match c.phase
    case Handshaking => HandleNewWelcome(config, c, sessionID, mode)
    case Resuming => HandleResumedWelcome(config, c, sessionID, mode)
    case _ => Err(InvalidState)
  }

  // ---------------------------------------------------------------- PONG and ACK

  function HandlePong(c: Client, generation: u64, pingID: string): Handled
  {
    if c.phase != Ready && c.phase != Suspect then Err(InvalidState)
    else if c.ping.None? || pingID != c.ping.value.id || generation != c.ping.value.generation then Act(c, [])
    else Act(c.(ping := None, suspectAt := None, phase := Ready), [])
  }

  function HandleAck(c: Client, refID: string): Handled
  {
    if c.phase != Ready && c.phase != Suspect then Err(InvalidState)
    else if refID !in c.outbox then Act(c, [])
    else Act(c.(outbox := c.outbox - {refID}), [Acked(refID)])
  }

  // ---------------------------------------------------------------- EVENT

  /** The verdict on a sequence number that was already delivered. */
  function HandleOldEvent(c: Client, e: Event): Handled
  {
    if e.seqNo !in c.eventIDs then Err(IdentityExpired)
    else if c.eventIDs[e.seqNo] == e.id then Act(c, [])
    else Err(ProtocolConflict)
  }

  /** The whole staged range, then READY. */
  function FinishReplay(config: Config, c: Client, changes: seq<Action>): Handled
  {
    var events := c.staging.buffer;
    Act(Reset(Advance(config, c, events)).(phase := Ready),
        Deliveries(events) + changes + [SessionReady(c.sessionID)])
  }

  function HandleReplayEvent(config: Config, c: Client, e: Event): Handled
  {
    var st := c.staging;
    if st.replayTo == 0 then
      if st.gap then Act(c, []) else Err(Violation(ProtocolViolation))
    else if e.seqNo != Wrap(c.lastSeq + |st.buffer| + 1) || e.seqNo > st.replayTo then Err(Violation(ProtocolViolation))
    else if |st.buffer| + 1 > config.maxReplayEvents || EventBytes(e) > config.maxReplayBytes - st.bytes then
      StopReplay(c, ReplayMemoryLimit)
    else
      var grown := c.(staging := st.(buffer := st.buffer + [e], bytes := st.bytes + EventBytes(e)));
      if e.seqNo != st.replayTo then Act(grown, [])
      else if st.namespaces != [] then Act(grown.(staging := grown.staging.(eventsComplete := true)), [])
      else FinishReplay(config, grown, [])
  }

  function HandleLiveEvent(config: Config, c: Client, e: Event, outboundOK: bool): Handled
  {
    if e.seqNo > Wrap(c.lastSeq + 1) then
      if !outboundOK then Err(Violation(BadRequest))
      else Act(BeginRecovery(c, [], true), [SendFrame(ResumeRequest(c, []))])
    else Act(Advance(config, c, [e]), [DeliverEvent(e)])
  }

  function HandleEvent(config: Config, c: Client, e: Event, outboundOK: bool): Handled
  {
    if c.phase != Ready && c.phase != Resuming then Err(InvalidState)
    else if e.seqNo <= c.lastSeq then HandleOldEvent(c, e)
    else if c.phase == Resuming then HandleReplayEvent(config, c, e)
    else HandleLiveEvent(config, c, e, outboundOK)
  }

  // ---------------------------------------------------------------- State frames

  function FromBatch(error: StateMerge.BatchError): Code
  {
    match error
    case InvalidStateVersion => Code.InvalidStateVersion
    case SyncRequired => Code.SyncRequired
    case BadObject => BadRequest
  }

  function ApplyStates(config: Config, c: Client, states: seq<StateMerge.StateObject>): Handled
  {
    match StateMerge.ApplyBatch(config.cache, c.cache, states)
    case Refused(error) => Err(Violation(FromBatch(error)))
    case Committed(cache, changes) => Act(c.(cache := cache), Changes(changes))
  }

  function HandleQuerySnapshot(config: Config, c: Client, id: string, states: seq<StateMerge.StateObject>): Handled
  {
    if c.phase != Ready then Err(InvalidState)
    else if !StateSyncEnabled(c.capabilities) || id !in c.queries then Err(Violation(ProtocolViolation))
    else if exists i | 0 <= i < |states| ::
              states[i].namespace != c.queries[id].namespace || states[i].objectID !in c.queries[id].objectIDs
    then Err(Violation(ProtocolViolation))
    else
      match ApplyStates(config, c, states)
      case Err(error) => Err(error)
      case Act(next, actions) => Act(next.(queries := next.queries - {id}), actions)
  }

  function HandleResumeSnapshot(config: Config, c: Client, states: seq<StateMerge.StateObject>): Handled
  {
    var namespaces := c.staging.namespaces;
    if !StateSyncEnabled(c.capabilities) || namespaces == [] || !c.staging.eventsComplete then
      Err(Violation(ProtocolViolation))
    else if exists i | 0 <= i < |states| :: states[i].namespace !in namespaces then Err(Violation(ProtocolViolation))
    else
      match ApplyStates(config, c, states)
      case Err(error) => StopStateResume(c, SnapshotConflict)
      case Act(next, actions) => FinishReplay(config, next, actions)
  }

  function HandleSnapshot(config: Config, c: Client, id: string, states: seq<StateMerge.StateObject>): Handled
  {
    if c.phase == Resuming then HandleResumeSnapshot(config, c, states)
    else HandleQuerySnapshot(config, c, id, states)
  }

  function HandleUpdate(config: Config, c: Client, state: StateMerge.StateObject): Handled
  {
    if c.phase != Ready then Err(InvalidState)
    else if !StateSyncEnabled(c.capabilities) then Err(Violation(ProtocolViolation))
    else ApplyStates(config, c, [state])
  }

  // ---------------------------------------------------------------- ERROR

  function HandleError(c: Client, payload: ErrorPayload): Handled
  {
    var behavior := BehaviorFor(payload.code);
    var queried := if payload.refID != "" then c.(queries := c.queries - {payload.refID}) else c;
    var wasResuming := c.phase == Resuming;
    var fullSync := wasResuming &&
      (behavior.fullSyncRequired || behavior.abandonSession
       || (c.staging.namespaces != [] && payload.code == StateSyncRequired));
    var needClose := behavior.closeConnection || (wasResuming && !fullSync);
    var ended := if wasResuming then Drop(queried) else queried;
    var kept := if behavior.abandonSession then Abandon(ended) else ended;
    Act(if needClose then Drop(kept) else kept,
        [ProtocolError(payload)]
        + (if fullSync then [FullSyncRequired(c.sessionID)] else [])
        + (if needClose then [CloseConnection(ErrorCode(payload.code))] else []))
  }

  // ---------------------------------------------------------------- one incoming frame

  function Dispatch(config: Config, c: Client, generation: u64, frame: Frame, outboundOK: bool): Handled
  {
    match frame
    case Welcome(sessionID, mode) => HandleWelcome(config, c, sessionID, mode)
    case Pong(_, pingID) => HandlePong(c, generation, pingID)
    case Ack(_, refID) => HandleAck(c, refID)
    case EventFrame(event) => HandleEvent(config, c, event, outboundOK)
    case StateSnapshot(id, _, states) => HandleSnapshot(config, c, id, states)
    case StateUpdate(_, _, state) => HandleUpdate(config, c, state)
    case ErrorFrame(_, error) => HandleError(c, error)
    case FromClient(_) => Err(Violation(ProtocolViolation))
  }

  /** WELCOME is correlated by its handler; ERROR may leave the Session out; all else must name it. */
  predicate Correlated(c: Client, frame: Frame)
  {
    match frame
    case Welcome(_, _) => true
    case ErrorFrame(sessionID, _) => sessionID == "" || sessionID == c.sessionID
    case _ => SessionOf(frame) == c.sessionID
  }

  function HandleIncoming(config: Config, c: Client, generation: u64, input: Incoming, outboundOK: bool): Outcome
  {
    if generation != c.generation then Failed(c, StaleConnection)
    else
      match input
      case Malformed(isError, code) =>
        if isError then Done(Drop(c), [CloseConnection(InvalidErrorFrame)]) else OnFailure(c, Violation(code))
      case Parsed(frame) =>
        if !Correlated(c, frame) then OnFailure(c, Violation(ProtocolViolation))
        else
          match Dispatch(config, c, generation, frame, outboundOK)
          case Err(error) => OnFailure(c, error)
          case Act(next, actions) => Done(next, actions)
  }

  // ---------------------------------------------------------------- application calls

  function BeginConnect(c: Client): Outcome
  {
    Done(Reset(c.(generation := Wrap(c.generation + 1), phase := Connecting)), [])
  }

  function TransportConnected(c: Client, generation: u64): Outcome
  {
    if generation != c.generation then Failed(c, StaleConnection)
    else if c.phase != Connecting then Failed(c, InvalidState)
    else Done(c.(phase := Connected), [])
  }

  function StartSession(config: Config, c: Client, generation: u64, clientName: string, outboundOK: bool): Outcome
  {
    if generation != c.generation then Failed(c, StaleConnection)
    else if c.phase != Connected || c.sessionID != "" then Failed(c, InvalidState)
    else if !outboundOK then Failed(c, Violation(BadRequest))
    else Done(c.(phase := Handshaking), [SendFrame(Hello(clientName, config.offers))])
  }

  function StartResume(c: Client, generation: u64, namespaces: seq<string>, outboundOK: bool): Outcome
  {
    if generation != c.generation then Failed(c, StaleConnection)
    else if c.phase != Connected || c.sessionID == "" then Failed(c, InvalidState)
    else if !outboundOK then Failed(c, Violation(BadRequest))
    else Done(BeginRecovery(c, namespaces, false), [SendFrame(ResumeRequest(c, namespaces))])
  }

  function ResumeWithState(config: Config, c: Client, generation: u64, namespaces: seq<string>,
                           outboundOK: bool): Outcome
  {
    var canonical := Text.SortedCopy(namespaces);
    if generation != c.generation then Failed(c, StaleConnection)
    else if !StateSyncEnabled(c.capabilities) then Failed(c, Violation(ProtocolViolation))
    else if canonical == [] || !Text.StrictlySorted(canonical) || !config.validNamespaces(canonical) then
      Failed(c, Violation(BadRequest))
    else StartResume(c, generation, canonical, outboundOK)
  }

  function Disconnect(c: Client, generation: u64): Outcome
  {
    if generation != c.generation then Failed(c, StaleConnection) else Done(Drop(c), [])
  }

  function QueryState(c: Client, queryID: string, namespace: string, objectIDs: seq<string>, now: int,
                      outboundOK: bool): Outcome
  {
    if c.phase != Ready || c.sessionID == "" then Failed(c, InvalidState)
    else if !StateSyncEnabled(c.capabilities) then Failed(c, Violation(ProtocolViolation))
    else if !outboundOK then Failed(c, Violation(BadRequest))
    else if queryID in c.queries then Failed(c, Violation(ProtocolViolation))
    else
      var query := Query(namespace, Text.SortedCopy(objectIDs));
      Done(c.(queries := c.queries[queryID := query]), [SendFrame(StateQuery(queryID, c.sessionID, now, query))])
  }

  function EnqueueSend(config: Config, c: Client, messageID: string, content: string, validJson: bool, now: int,
                       outboundOK: bool): Outcome
  {
    if c.phase != Ready || c.sessionID == "" then Failed(c, InvalidState)
    else if messageID == "" || |messageID| > config.maxIDLength || !validJson || |content| > config.maxPayloadSize then
      Failed(c, Violation(BadRequest))
    else if messageID in c.outbox then Failed(c, Violation(ProtocolViolation))
    else if !outboundOK then Failed(c, Violation(BadRequest))
    else
      var frame := Send(messageID, c.sessionID, now, content);
      Done(c.(outbox := c.outbox[messageID := frame]), [SendFrame(frame)])
  }

  /** The retries of RetryPending: the outbox in the order of `ids`. */
  function RetryActions(outbox: map<string, Request>, ids: seq<string>): seq<Action>
    requires forall id | id in ids :: id in outbox
  {
    seq(|ids|, i requires 0 <= i < |ids| => SendFrame(outbox[ids[i]]))
  }

  function RetryPending(c: Client): Outcome
  {
    if c.phase != Ready then Failed(c, InvalidState)
    else Done(c, RetryActions(c.outbox, Text.Ordered(c.outbox.Keys)))
  }

  function SendPing(c: Client, generation: u64, pingID: string, now: int, outboundOK: bool): Outcome
  {
    if generation != c.generation then Failed(c, StaleConnection)
    else if c.phase != Ready || c.ping.Some? || pingID == "" then Failed(c, InvalidState)
    else if !outboundOK then Failed(c, Violation(BadRequest))
    else Done(c.(ping := Some(Ping(pingID, now, generation))), [SendFrame(PingRequest(c.sessionID, pingID, now))])
  }

  function CheckHeartbeat(config: Config, c: Client, generation: u64, now: int): Outcome
  {
    if generation != c.generation then Failed(c, StaleConnection)
    else if c.ping.None? then Done(c, [])
    else if c.phase == Ready && now - c.ping.value.sentAt >= config.heartbeatTimeout then
      Done(c.(phase := Suspect, suspectAt := Some(now)), [])
    else if c.phase == Suspect && (c.suspectAt.None? || now - c.suspectAt.value >= config.disconnectGrace) then
      Done(Drop(c), [CloseConnection(HeartbeatTimeout)])
    else Done(c, [])
  }

  // ---------------------------------------------------------------- runs

  /** One call of a public method, with what the environment contributes: the clock and the
      validation verdict on the client's own frame. */
  datatype Op =
    | OpBeginConnect
    | OpTransportConnected(generation: u64)
    | OpStartSession(generation: u64, clientName: string, outboundOK: bool)
    | OpResume(generation: u64, outboundOK: bool)
    | OpResumeWithState(generation: u64, namespaces: seq<string>, outboundOK: bool)
    | OpDisconnect(generation: u64)
    | OpQueryState(queryID: string, namespace: string, objectIDs: seq<string>, now: int, outboundOK: bool)
    | OpEnqueueSend(messageID: string, content: string, validJson: bool, now: int, outboundOK: bool)
    | OpRetryPending
    | OpSendPing(generation: u64, pingID: string, now: int, outboundOK: bool)
    | OpCheckHeartbeat(generation: u64, now: int)
    | OpIncoming(generation: u64, input: Incoming, outboundOK: bool)

  function Step(config: Config, c: Client, op: Op): Outcome
  {
    match op
    case OpBeginConnect => BeginConnect(c)
    case OpTransportConnected(g) => TransportConnected(c, g)
    case OpStartSession(g, name, ok) => StartSession(config, c, g, name, ok)
    case OpResume(g, ok) => StartResume(c, g, [], ok)
    case OpResumeWithState(g, namespaces, ok) => ResumeWithState(config, c, g, namespaces, ok)
    case OpDisconnect(g) => Disconnect(c, g)
    case OpQueryState(id, namespace, ids, now, ok) => QueryState(c, id, namespace, ids, now, ok)
    case OpEnqueueSend(id, content, json, now, ok) => EnqueueSend(config, c, id, content, json, now, ok)
    case OpRetryPending => RetryPending(c)
    case OpSendPing(g, id, now, ok) => SendPing(c, g, id, now, ok)
    case OpCheckHeartbeat(g, now) => CheckHeartbeat(config, c, g, now)
    case OpIncoming(g, input, ok) => HandleIncoming(config, c, g, input, ok)
  }
}
