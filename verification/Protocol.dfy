/** Frames, errors and actions of wire version 2, with payloads already decoded. */
module Protocol {
  import opened Wire
  import Capability
  import StateMerge

  // ---------------------------------------------------------------- errors

  datatype Code =
    | BadRequest | UnsupportedVersion | UnsupportedFeature | InvalidCapability | InvalidStateVersion
    | Unauthorized | InvalidSession | NotFound | RateLimited | SyncRequired | StateSyncRequired
    | StateUnavailable | Internal | ProtocolViolation

  datatype Behavior = Behavior(closeConnection: bool, abandonSession: bool, fullSyncRequired: bool)

  /** The disposition of each standard code. */
  function BehaviorFor(code: Code): Behavior
  {
    match code
    case UnsupportedVersion => Behavior(true, false, false)
    case UnsupportedFeature => Behavior(true, false, false)
    case Unauthorized => Behavior(true, false, false)
    case StateSyncRequired => Behavior(true, false, false)
    case StateUnavailable => Behavior(true, false, false)
    case ProtocolViolation => Behavior(true, false, false)
    case InvalidSession => Behavior(false, true, false)
    case SyncRequired => Behavior(false, false, true)
    case _ => Behavior(false, false, false)
  }

  datatype ErrorPayload = ErrorPayload(code: Code, refID: string, retryable: bool)

  // ---------------------------------------------------------------- frames

  /** An EVENT envelope; `seqNo` is its position in the Session stream. */
  datatype Event = Event(id: string, sessionID: string, seqNo: u64, timestamp: int, payload: string)

  datatype WelcomeMode =
    | NewSession(accepted: seq<Capability.Negotiated>)
    | Resumed(resumeFrom: u64, replayTo: u64, stateSync: Option<seq<string>>)

  /** Frames a server sends; `FromClient` is any frame type only a client may send. */
  datatype Frame =
    | Welcome(sessionID: string, mode: WelcomeMode)
    | Pong(sessionID: string, pingID: string)
    | Ack(sessionID: string, refID: string)
    | EventFrame(event: Event)
    | StateSnapshot(id: string, sessionID: string, states: seq<StateMerge.StateObject>)
    | StateUpdate(id: string, sessionID: string, state: StateMerge.StateObject)
    | ErrorFrame(sessionID: string, error: ErrorPayload)
    | FromClient(sessionID: string)

  function SessionOf(frame: Frame): string
  {
    if frame.EventFrame? then frame.event.sessionID else frame.sessionID
  }

  /** What a receiver sees: a frame that passed validation, or the verdict on one that did not. */
  datatype Incoming = Malformed(isError: bool, code: Code) | Parsed(frame: Frame)

  /** Frames a client sends. */
  datatype Request =
    | Hello(clientName: string, offers: seq<Capability.Offer>)
    | Resume(sessionID: string, lastSeq: u64, stateSync: Option<seq<string>>)
    | Send(id: string, sessionID: string, timestamp: int, content: string)
    | PingRequest(sessionID: string, pingID: string, timestamp: int)
    | StateQuery(id: string, sessionID: string, timestamp: int, query: Query)

  datatype Query = Query(namespace: string, objectIDs: seq<string>)

  // ---------------------------------------------------------------- actions

  datatype Reason =
    | HeartbeatTimeout
    | InvalidErrorFrame
    | ReplayEventLimit
    | ReplayMemoryLimit
    | SnapshotConflict
    | ResumeFailed(error: ClientError)
    | ErrorCode(code: Code)

  datatype ClientError = StaleConnection | InvalidState | ProtocolConflict | IdentityExpired | Violation(code: Code)

  datatype Action =
    | SendFrame(request: Request)
    | DeliverEvent(event: Event)
    | Acked(messageID: string)
    | SessionReady(sessionID: string)
    | StateChanged(state: StateMerge.StateObject)
    | ProtocolError(error: ErrorPayload)
    | FullSyncRequired(sessionID: string)
    | CloseConnection(reason: Reason)

  function Deliveries(events: seq<Event>): seq<Action>
  {
    seq(|events|, i requires 0 <= i < |events| => DeliverEvent(events[i]))
  }

  function Changes(states: seq<StateMerge.StateObject>): seq<Action>
  {
    seq(|states|, i requires 0 <= i < |states| => StateChanged(states[i]))
  }

  /** The events a list of actions hands to the application, in order. */
  function DeliveredIn(actions: seq<Action>): seq<Event>
  {
    if actions == [] then []
    else (if actions[0].DeliverEvent? then [actions[0].event] else []) + DeliveredIn(actions[1..])
  }

  function AckedIn(actions: seq<Action>): multiset<string>
  {
    if actions == [] then multiset{}
    else (if actions[0].Acked? then multiset{actions[0].messageID} else multiset{}) + AckedIn(actions[1..])
  }

  lemma {:induction false} DeliveredInConcat(a: seq<Action>, b: seq<Action>)
    ensures DeliveredIn(a + b) == DeliveredIn(a) + DeliveredIn(b)
    decreases |a|
  {
    if a == [] {
      assert a + b == b;
    } else {
      assert (a + b)[1..] == a[1..] + b;
      DeliveredInConcat(a[1..], b);
    }
  }

  lemma {:induction false} AckedInConcat(a: seq<Action>, b: seq<Action>)
    ensures AckedIn(a + b) == AckedIn(a) + AckedIn(b)
    decreases |a|
  {
    if a == [] {
      assert a + b == b;
    } else {
      assert (a + b)[1..] == a[1..] + b;
      AckedInConcat(a[1..], b);
    }
  }

  lemma {:induction false} NothingDelivered(actions: seq<Action>)
    requires forall i | 0 <= i < |actions| :: !actions[i].DeliverEvent? && !actions[i].Acked?
    ensures DeliveredIn(actions) == [] && AckedIn(actions) == multiset{}
    decreases |actions|
  {
    if actions == [] {
    } else {
      NothingDelivered(actions[1..]);
    }
  }

  lemma {:induction false} OneDelivered(e: Event)
    ensures DeliveredIn([DeliverEvent(e)]) == [e] && AckedIn([DeliverEvent(e)]) == multiset{}
  {
    assert [DeliverEvent(e)] == Deliveries([e]);
    DeliveriesDeliver([e]);
  }

  lemma {:induction false} OneAcked(messageID: string)
    ensures DeliveredIn([Acked(messageID)]) == [] && AckedIn([Acked(messageID)]) == multiset{messageID}
  {
    assert [Acked(messageID)][1..] == [];
    assert AckedIn([]) == multiset{} && DeliveredIn([]) == [];
  }

  lemma {:induction false} DeliveriesDeliver(events: seq<Event>)
    ensures DeliveredIn(Deliveries(events)) == events && AckedIn(Deliveries(events)) == multiset{}
    decreases |events|
  {
    if events == [] {
    } else {
      assert Deliveries(events)[1..] == Deliveries(events[1..]);
      DeliveriesDeliver(events[1..]);
    }
  }
}
