/** Client, replay store and server over a network that loses, duplicates and reorders frames. */
module EndToEnd {
  import opened Wire
  import opened Protocol
  import opened ClientMachine
  import opened ClientInvariant
  import ClientTheorems
  import ReplayStore
  import ServerResume
  import StateMerge

  // ---------------------------------------------------------------- the system

  /** A Session the client has left behind, with everything it delivered there. */
  datatype Epoch = Epoch(sessionID: string, delivered: seq<Event>)

  /** A server operation between two of its atomic steps. One that is never continued has failed. */
  datatype Task =
    | Publishing(event: Event)
    | Reading(sessionID: string, lastSeq: u64, replayTo: u64, stateSync: Option<seq<string>>)
    | Loaded(sessionID: string, lastSeq: u64, replayTo: u64, stateSync: Option<seq<string>>, events: seq<Event>)

  /** `network` is every frame ever sent: receiving does not remove, so a frame may be lost, repeated
      and overtaken, across connections too. */
  datatype System = System(
    run: Run,
    closed: seq<Epoch>,
    streams: map<string, ReplayStore.Stream>,
    network: set<Frame>,
    tasks: set<Task>)

  const INITIAL_SYSTEM: System := System(Run(INITIAL, NOTHING), [], map[], {}, {})

  datatype Move =
    | Call(op: Op)
    | Receive(generation: u64, frame: Frame, outboundOK: bool)
    | ReceiveMalformed(generation: u64, isError: bool, code: Code)
    | Append(sessionID: string, eventID: string, payload: string, timestamp: int, wellFormed: bool)
    | Enqueue(task: Task)
    | ReadHighWater(sessionID: string, lastSeq: u64, stateSync: Option<seq<string>>)
    | Load(task: Task)
    | SendBatch(task: Task, snapshotID: string, states: seq<StateMerge.StateObject>)
    | Prune(sessionID: string, firstAvailable: u64)
    | Emit(frame: Frame)

  /** Only EVENTs have to be genuine: any other frame may be emitted at any time. */
  predicate Possible(s: System, m: Move)
  {
    match m
    case Call(op) => !op.OpIncoming?
    case Receive(_, frame, _) => frame in s.network
    case Enqueue(task) => task in s.tasks && task.Publishing?
    case Load(task) => task in s.tasks && task.Reading?
    case SendBatch(task, _, _) => task in s.tasks && task.Loaded? && task.lastSeq < MAX_U64
    case Emit(frame) => !frame.EventFrame?
    case _ => true
  }

  function OpOf(m: Move): Op
    requires m.Call? || m.Receive? || m.ReceiveMalformed?
  {
    match m
    case Call(op) => op
    case Receive(generation, frame, ok) => OpIncoming(generation, Parsed(frame), ok)
    case ReceiveMalformed(generation, isError, code) => OpIncoming(generation, Malformed(isError, code), true)
  }

  function StreamOf(streams: map<string, ReplayStore.Stream>, sessionID: string): ReplayStore.Stream
  {
    ReplayStore.Get(streams, sessionID, ReplayStore.NO_STREAM)
  }

  function ClientMove(config: Config, s: System, op: Op): System
  {
    var c, h := s.run.client, s.run.history;
    var r := Step(config, c, op);
    s.(run := Run(r.client, Observe(h, op, r)),
       closed := if c.sessionID != "" && r.client.sessionID == "" then s.closed + [Epoch(c.sessionID, h.delivered)]
       else s.closed)
  }

  function ServerMove(limits: ReplayStore.Limits, s: System, m: Move): System
  {
    match m
    case Append(sessionID, eventID, payload, timestamp, wellFormed) =>
      (match ReplayStore.AppendTo(StreamOf(s.streams, sessionID), sessionID, eventID, payload, timestamp, wellFormed)
       case Appended(stream, event) =>
         s.(streams := s.streams[sessionID := stream], tasks := s.tasks + {Publishing(event)})
       case _ => s)
    case Enqueue(task) => if task.Publishing? then s.(network := s.network + {EventFrame(task.event)}) else s
    case ReadHighWater(sessionID, lastSeq, stateSync) =>
      var replayTo := |StreamOf(s.streams, sessionID).log|;
      if lastSeq > replayTo || replayTo > MAX_U64 then s
      else s.(tasks := s.tasks + {Reading(sessionID, lastSeq, replayTo, stateSync)})
    case Load(task) =>
      if !task.Reading? then s
      else
        (match ReplayStore.ReplayOf(StreamOf(s.streams, task.sessionID), task.lastSeq, task.replayTo, limits)
         case Events(events) =>
           s.(tasks := s.tasks + {Loaded(task.sessionID, task.lastSeq, task.replayTo, task.stateSync, events)})
         case _ => s)
    case SendBatch(task, snapshotID, states) =>
      if !task.Loaded? || task.lastSeq == MAX_U64 then s
      else
        var frames := ServerResume.BatchFrames(task.sessionID, task.lastSeq, task.replayTo, task.stateSync, task.events,
                                               snapshotID, states);
        s.(network := s.network + set f | f in frames)
    case Prune(sessionID, firstAvailable) =>
      s.(streams := s.streams[sessionID := ReplayStore.PruneTo(StreamOf(s.streams, sessionID), firstAvailable)])
    case Emit(frame) => s.(network := s.network + {frame})
    case _ => s
  }

  function Next(config: Config, limits: ReplayStore.Limits, s: System, m: Move): System
  {
    if !Possible(s, m) then s
    else if m.Call? || m.Receive? || m.ReceiveMalformed? then ClientMove(config, s, OpOf(m))
    else ServerMove(limits, s, m)
  }

  function RunOf(config: Config, limits: ReplayStore.Limits, s: System, moves: seq<Move>): System
    decreases |moves|
  {
    if moves == [] then s else RunOf(config, limits, Next(config, limits, s, moves[0]), moves[1..])
  }

  // ---------------------------------------------------------------- genuine events

  /** The event stands in the append history of its Session, at its own position. */
  predicate Genuine(streams: map<string, ReplayStore.Stream>, e: Event)
  {
    var log := StreamOf(streams, e.sessionID).log;
    0 < e.seqNo <= |log| && log[e.seqNo - 1] == e
  }

  predicate AllGenuine(streams: map<string, ReplayStore.Stream>, events: seq<Event>)
  {
    forall i | 0 <= i < |events| :: Genuine(streams, events[i])
  }

  function EventsOf(task: Task): seq<Event>
  {
    match task
    case Publishing(event) => [event]
    case Loaded(_, _, _, _, events) => events
    case _ => []
  }

  ghost predicate StreamsOK(streams: map<string, ReplayStore.Stream>)
  {
    forall sessionID: string :: ReplayStore.StreamOK(sessionID, StreamOf(streams, sessionID))
  }

  predicate NetworkOK(streams: map<string, ReplayStore.Stream>, network: set<Frame>)
  {
    forall f | f in network && f.EventFrame? :: Genuine(streams, f.event)
  }

  predicate TasksOK(streams: map<string, ReplayStore.Stream>, tasks: set<Task>)
  {
    forall t | t in tasks :: AllGenuine(streams, EventsOf(t))
  }

  predicate EpochsOK(streams: map<string, ReplayStore.Stream>, closed: seq<Epoch>)
  {
    forall i | 0 <= i < |closed| ::
      AllGenuine(streams, closed[i].delivered) && Consecutive(closed[i].delivered, closed[i].sessionID, 0)
  }

  predicate ClientOK(streams: map<string, ReplayStore.Stream>, r: Run)
  {
    AllGenuine(streams, r.client.staging.buffer) && AllGenuine(streams, r.history.delivered)
  }

  ghost predicate SystemOK(config: Config, s: System)
  {
    && Inv(config, s.run)
    && StreamsOK(s.streams)
    && NetworkOK(s.streams, s.network)
    && TasksOK(s.streams, s.tasks)
    && EpochsOK(s.streams, s.closed)
    && ClientOK(s.streams, s.run)
  }

  /** Every history is extended, none is rewritten. */
  predicate Extends(before: map<string, ReplayStore.Stream>, after: map<string, ReplayStore.Stream>)
  {
    forall sessionID | sessionID in before ::
      sessionID in after && before[sessionID].log <= after[sessionID].log
  }

  lemma {:induction false} StillGenuine(before: map<string, ReplayStore.Stream>, after: map<string, ReplayStore.Stream>)
    requires Extends(before, after)
    ensures forall e | Genuine(before, e) :: Genuine(after, e)
  {
  }

  lemma {:induction false} ExtensionKeeps(config: Config, s: System, streams: map<string, ReplayStore.Stream>)
    requires SystemOK(config, s) && Extends(s.streams, streams) && StreamsOK(streams)
    ensures SystemOK(config, s.(streams := streams))
  {
    StillGenuine(s.streams, streams);
  }

  // ---------------------------------------------------------------- what a client step hands over

  predicate From(events: seq<Event>, a: seq<Event>, b: seq<Event>)
  {
    forall i | 0 <= i < |events| :: events[i] in a || events[i] in b
  }

  function Incoming(op: Op): seq<Event>
  {
    if op.OpIncoming? && op.input.Parsed? && op.input.frame.EventFrame? then [op.input.frame.event] else []
  }

  /** A step delivers and holds back only events that were held back before or arrive with it. */
  predicate NothingInvented(c: Client, incoming: seq<Event>, next: Client, actions: seq<Action>)
  {
    From(DeliveredIn(actions), c.staging.buffer, incoming) && From(next.staging.buffer, c.staging.buffer, incoming)
  }

  lemma {:induction false} QuietInventsNothing(c: Client, incoming: seq<Event>, next: Client, actions: seq<Action>)
    requires QuietActions(actions) && (next.staging.buffer == [] || next.staging.buffer == c.staging.buffer)
    ensures NothingInvented(c, incoming, next, actions)
  {
    NothingDelivered(actions);
  }

  lemma {:induction false} FinishInventsNothing(config: Config, c: Client, h: History, staged: Client,
                                                changes: seq<Action>, incoming: seq<Event>)
    requires Inv(config, Run(c, h)) && c.phase == Resuming && QuietActions(changes)
    requires staged == c.(cache := staged.cache, staging := staged.staging)
    requires Consecutive(staged.staging.buffer, c.sessionID, c.lastSeq)
    requires c.lastSeq + |staged.staging.buffer| <= MAX_U64
    requires From(staged.staging.buffer, c.staging.buffer, incoming)
    ensures var r := FinishReplay(config, staged, changes); NothingInvented(c, incoming, r.client, r.actions)
  {
    ClientTheorems.FinishRecovers(config, c, h, staged, changes);
  }

  lemma {:induction false} GrownInventsNothing(c: Client, e: Event, complete: bool)
    ensures From(c.staging.buffer + [e], c.staging.buffer, [e])
    ensures NothingInvented(c, [e], Grown(c, e, complete), [])
  {
  }

  lemma {:induction false} ReplayEventInventsNothing(config: Config, c: Client, h: History, e: Event)
    requires Inv(config, Run(c, h)) && c.phase == Resuming && e.sessionID == c.sessionID && e.seqNo > c.lastSeq
    ensures var r := HandleReplayEvent(config, c, e); r.Act? ==> NothingInvented(c, [e], r.client, r.actions)
  {
    hide DeliveryOK, OutboxOK, StateMerge.CacheOK, SessionOK, HeartbeatOK, FinishReplay, HandleReplayEvent,
         NothingInvented, From, BufferBytes;
    ReplayEventCases(config, c, e);
    var st := c.staging;
    QuietInventsNothing(c, [e], c, []);
    QuietInventsNothing(c, [e], Drop(c), StopActions(c, SyncRequired, ReplayMemoryLimit));
    if Expected(c, e) && Fits(config, st, e) {
      ExpectedInRange(c.lastSeq, |st.buffer|, e.seqNo, st.replayTo);
      GrownInventsNothing(c, e, false);
      GrownInventsNothing(c, e, true);
      if e.seqNo == st.replayTo && st.namespaces == [] {
        FinishInventsNothing(config, c, h, Grown(c, e, false), [], [e]);
      }
    }
  }

  lemma {:induction false} EventInventsNothing(config: Config, c: Client, h: History, e: Event, ok: bool)
    requires Inv(config, Run(c, h)) && e.sessionID == c.sessionID
    ensures var r := HandleEvent(config, c, e, ok); r.Act? ==> NothingInvented(c, [e], r.client, r.actions)
  {
    var r := HandleEvent(config, c, e, ok);
    if r.Act? {
      if e.seqNo > c.lastSeq && c.phase == Resuming {
        ReplayEventInventsNothing(config, c, h, e);
      } else if e.seqNo == c.lastSeq + 1 && e.seqNo > c.lastSeq {
        AdvanceOne(config, c, e);
        OneDelivered(e);
      } else {
        QuietInventsNothing(c, [e], r.client, r.actions);
      }
    }
  }

  lemma {:induction false} SnapshotInventsNothing(config: Config, c: Client, h: History, id: string,
                                                  states: seq<StateMerge.StateObject>)
    requires Inv(config, Run(c, h))
    ensures var r := HandleSnapshot(config, c, id, states); r.Act? ==> NothingInvented(c, [], r.client, r.actions)
  {
    hide DeliveryOK, OutboxOK, StateMerge.CacheOK, SessionOK, HeartbeatOK, FinishReplay, ApplyStates, NothingInvented;
    ApplyStatesKeeps(config, c, states);
    var applied := ApplyStates(config, c, states);
    var r := HandleSnapshot(config, c, id, states);
    if r.Act? {
      if c.phase == Resuming && applied.Act? {
        FinishInventsNothing(config, c, h, applied.client, applied.actions, []);
      } else {
        QuietInventsNothing(c, [], r.client, r.actions);
      }
    }
  }

  /** Frames that neither carry an event nor complete a recovery with State. */
  lemma {:induction false} ControlInventsNothing(config: Config, c: Client, generation: u64, frame: Frame)
    requires frame.Welcome? || frame.Pong? || frame.Ack?
    ensures var r := Dispatch(config, c, generation, frame, true);
            r.Act? ==> NothingInvented(c, [], r.client, r.actions)
  {
    var r := Dispatch(config, c, generation, frame, true);
    if r.Act? {
      if frame.Ack? && frame.refID in c.outbox {
        OneAcked(frame.refID);
      } else {
        QuietInventsNothing(c, [], r.client, r.actions);
      }
    }
  }

  lemma {:induction false} StateInventsNothing(config: Config, c: Client, h: History, frame: Frame)
    requires Inv(config, Run(c, h)) && (frame.StateUpdate? || frame.ErrorFrame?)
    ensures var r := Dispatch(config, c, c.generation, frame, true);
            r.Act? ==> NothingInvented(c, [], r.client, r.actions)
  {
    hide DeliveryOK, OutboxOK, StateMerge.CacheOK, Local, HandleError, ApplyStates, NothingInvented;
    var r := Dispatch(config, c, c.generation, frame, true);
    if frame.StateUpdate? {
      ApplyStatesKeeps(config, c, [frame.state]);
    } else {
      ErrorCases(c, frame.error);
    }
    if r.Act? { QuietInventsNothing(c, [], r.client, r.actions); }
  }

  lemma {:induction false} DispatchInventsNothing(config: Config, c: Client, h: History, generation: u64, frame: Frame,
                                                  ok: bool)
    requires Inv(config, Run(c, h)) && Correlated(c, frame)
    ensures var r := Dispatch(config, c, generation, frame, ok);
            r.Act? ==> NothingInvented(c, if frame.EventFrame? then [frame.event] else [], r.client, r.actions)
  {
    hide Inv, HandleEvent, HandleSnapshot, NothingInvented;
    match frame
    case EventFrame(e) => EventInventsNothing(config, c, h, e, ok);
    case StateSnapshot(id, _, states) => SnapshotInventsNothing(config, c, h, id, states);
    case StateUpdate(_, _, _) => StateInventsNothing(config, c, h, frame);
    case ErrorFrame(_, _) => StateInventsNothing(config, c, h, frame);
    case FromClient(_) =>
    case _ => ControlInventsNothing(config, c, generation, frame);
  }

  lemma {:induction false} FailureInventsNothing(c: Client, incoming: seq<Event>, error: ClientError)
    ensures var r := OnFailure(c, error); NothingInvented(c, incoming, r.client, ActionsOf(r))
  {
    var r := OnFailure(c, error);
    QuietInventsNothing(c, incoming, r.client, ActionsOf(r));
  }

  predicate OutcomeInventsNothing(c: Client, incoming: seq<Event>, r: Outcome)
  {
    NothingInvented(c, incoming, r.client, ActionsOf(r))
  }

  lemma {:induction false} RejectedInventsNothing(c: Client, incoming: seq<Event>, code: Code)
    ensures OutcomeInventsNothing(c, incoming, Failed(c, StaleConnection))
    ensures OutcomeInventsNothing(c, incoming, OnFailure(c, Violation(code)))
    ensures OutcomeInventsNothing(c, incoming, Done(Drop(c), [CloseConnection(InvalidErrorFrame)]))
  {
    QuietInventsNothing(c, incoming, c, []);
    FailureInventsNothing(c, incoming, Violation(code));
    QuietInventsNothing(c, incoming, Drop(c), [CloseConnection(InvalidErrorFrame)]);
  }

  lemma {:induction false} IncomingInventsNothing(config: Config, c: Client, h: History, op: Op)
    requires Inv(config, Run(c, h)) && op.OpIncoming?
    ensures OutcomeInventsNothing(c, Incoming(op), HandleIncoming(config, c, op.generation, op.input, op.outboundOK))
  {
    hide Inv, Dispatch, OnFailure, Correlated, NothingInvented;
    if op.generation != c.generation {
      RejectedInventsNothing(c, Incoming(op), ProtocolViolation);
    } else {
      match op.input
      case Malformed(isError, code) => RejectedInventsNothing(c, [], code);
      case Parsed(frame) =>
        if !Correlated(c, frame) {
          RejectedInventsNothing(c, Incoming(op), ProtocolViolation);
        } else {
          DispatchInventsNothing(config, c, h, op.generation, frame, op.outboundOK);
          var handled := Dispatch(config, c, op.generation, frame, op.outboundOK);
          if handled.Err? { FailureInventsNothing(c, Incoming(op), handled.error); }
        }
    }
  }

  lemma {:induction false} CallInventsNothing(config: Config, c: Client, h: History, op: Op)
    requires Inv(config, Run(c, h)) && !op.OpIncoming?
    ensures OutcomeInventsNothing(c, [], Step(config, c, op))
  {
    hide DeliveryOK, OutboxOK, StateMerge.CacheOK, Local, HandleIncoming, NothingInvented, StartResume, ResumeWithState,
         QueryState, EnqueueSend, RetryPending, SendPing, CheckHeartbeat, StartSession;
    var r := Step(config, c, op);
    if op.OpEnqueueSend? {
      EnqueueShape(config, c, op.messageID, op.content, op.validJson, op.now, op.outboundOK);
    } else {
      CallLocal(config, c, op);
      CallBuffer(config, c, op);
    }
    QuietInventsNothing(c, [], r.client, ActionsOf(r));
  }

  lemma {:induction false} CallBuffer(config: Config, c: Client, op: Op)
    requires !op.OpIncoming?
    ensures var next := Step(config, c, op).client; next.staging.buffer == [] || next.staging.buffer == c.staging.buffer
  {
    hide HandleIncoming, ResumeRequest;
  }

  lemma {:induction false} StepInventsNothing(config: Config, c: Client, h: History, op: Op)
    requires Inv(config, Run(c, h))
    ensures OutcomeInventsNothing(c, Incoming(op), Step(config, c, op))
  {
    hide Inv, HandleIncoming, OutcomeInventsNothing, StartResume, ResumeWithState, QueryState, EnqueueSend,
         RetryPending, SendPing, CheckHeartbeat, StartSession;
    if op.OpIncoming? {
      IncomingInventsNothing(config, c, h, op);
    } else {
      CallInventsNothing(config, c, h, op);
    }
  }

  // ---------------------------------------------------------------- every move

  lemma {:induction false} FromGenuine(streams: map<string, ReplayStore.Stream>, events: seq<Event>, a: seq<Event>,
                                       b: seq<Event>)
    requires From(events, a, b) && AllGenuine(streams, a) && AllGenuine(streams, b)
    ensures AllGenuine(streams, events)
  {
  }

  /** Genuine events in, genuine events out. */
  lemma {:induction false} ClientStaysOK(config: Config, streams: map<string, ReplayStore.Stream>, c: Client,
                                         h: History, op: Op)
    requires Inv(config, Run(c, h)) && ClientOK(streams, Run(c, h)) && AllGenuine(streams, Incoming(op))
    ensures var r := Step(config, c, op); ClientOK(streams, Run(r.client, Observe(h, op, r)))
  {
    hide Inv, Step, From, Genuine;
    var r := Step(config, c, op);
    StepInventsNothing(config, c, h, op);
    FromGenuine(streams, DeliveredIn(ActionsOf(r)), c.staging.buffer, Incoming(op));
    FromGenuine(streams, r.client.staging.buffer, c.staging.buffer, Incoming(op));
  }

  lemma {:induction false} ClosedStayOK(config: Config, s: System, op: Op)
    requires Inv(config, s.run) && EpochsOK(s.streams, s.closed) && ClientOK(s.streams, s.run)
    ensures EpochsOK(s.streams, ClientMove(config, s, op).closed)
  {
    hide Step, Observe, Local, OutboxOK, StateMerge.CacheOK;
  }

  lemma {:induction false} ClientMoveKeeps(config: Config, s: System, op: Op)
    requires SystemOK(config, s) && AllGenuine(s.streams, Incoming(op))
    ensures SystemOK(config, ClientMove(config, s, op))
  {
    StepKeeps(config, s.run.client, s.run.history, op);
    ClientStaysOK(config, s.streams, s.run.client, s.run.history, op);
    ClosedStayOK(config, s, op);
  }

  lemma {:induction false} AppendKeeps(config: Config, limits: ReplayStore.Limits, s: System, m: Move)
    requires SystemOK(config, s) && m.Append?
    ensures SystemOK(config, ServerMove(limits, s, m))
  {
    hide Inv, NetworkOK, TasksOK, EpochsOK, ClientOK, Extends, ReplayStore.StreamOK, ReplayStore.IDs,
         ReplayStore.Retained;
    var stream := StreamOf(s.streams, m.sessionID);
    var r := ReplayStore.AppendTo(stream, m.sessionID, m.eventID, m.payload, m.timestamp, m.wellFormed);
    assert ReplayStore.StreamOK(m.sessionID, stream);
    if r.Appended? {
      ReplayStore.AppendKeepsStream(stream, m.sessionID, m.eventID, m.payload, m.timestamp, m.wellFormed);
      var streams := s.streams[m.sessionID := r.stream];
      OneStreamExtended(s.streams, m.sessionID, r.stream);
      ExtensionKeeps(config, s, streams);
      assert Genuine(streams, r.event);
      TasksGrow(config, s.(streams := streams), Publishing(r.event));
    }
  }

  lemma {:induction false} OneStreamExtended(streams: map<string, ReplayStore.Stream>, sessionID: string,
                                             stream: ReplayStore.Stream)
    requires StreamsOK(streams) && ReplayStore.StreamOK(sessionID, stream)
    requires StreamOf(streams, sessionID).log <= stream.log
    ensures StreamsOK(streams[sessionID := stream]) && Extends(streams, streams[sessionID := stream])
  {
    var after := streams[sessionID := stream];
    forall other: string
      ensures ReplayStore.StreamOK(other, StreamOf(after, other))
    {
      assert ReplayStore.StreamOK(other, StreamOf(streams, other));
    }
  }

  lemma {:induction false} PruneKeeps(config: Config, limits: ReplayStore.Limits, s: System, m: Move)
    requires SystemOK(config, s) && m.Prune?
    ensures SystemOK(config, ServerMove(limits, s, m))
  {
    var stream := StreamOf(s.streams, m.sessionID);
    assert ReplayStore.StreamOK(m.sessionID, stream);
    ReplayStore.PruneKeepsStream(stream, m.sessionID, m.firstAvailable);
    OneStreamExtended(s.streams, m.sessionID, ReplayStore.PruneTo(stream, m.firstAvailable));
    ExtensionKeeps(config, s, s.streams[m.sessionID := ReplayStore.PruneTo(stream, m.firstAvailable)]);
  }

  lemma {:induction false} ReplayedGenuine(streams: map<string, ReplayStore.Stream>, sessionID: string, after: u64,
                                           through: u64, limits: ReplayStore.Limits)
    requires ReplayStore.StreamOK(sessionID, StreamOf(streams, sessionID))
    ensures var r := ReplayStore.ReplayOf(StreamOf(streams, sessionID), after, through, limits);
            r.Events? ==> AllGenuine(streams, r.events)
  {
    ReplayStore.ReplayExactly(sessionID, StreamOf(streams, sessionID), after, through, limits);
  }

  lemma {:induction false} TasksGrow(config: Config, s: System, task: Task)
    requires SystemOK(config, s) && AllGenuine(s.streams, EventsOf(task))
    ensures SystemOK(config, s.(tasks := s.tasks + {task}))
  {
  }

  lemma {:induction false} LoadKeeps(config: Config, limits: ReplayStore.Limits, s: System, m: Move)
    requires SystemOK(config, s) && m.Load?
    ensures SystemOK(config, ServerMove(limits, s, m))
  {
    var t := m.task;
    if t.Reading? {
      assert ReplayStore.StreamOK(t.sessionID, StreamOf(s.streams, t.sessionID));
      ReplayedGenuine(s.streams, t.sessionID, t.lastSeq, t.replayTo, limits);
      var r := ReplayStore.ReplayOf(StreamOf(s.streams, t.sessionID), t.lastSeq, t.replayTo, limits);
      if r.Events? {
        TasksGrow(config, s, Loaded(t.sessionID, t.lastSeq, t.replayTo, t.stateSync, r.events));
      }
    }
  }

  lemma {:induction false} BatchGenuine(streams: map<string, ReplayStore.Stream>, t: Task, snapshotID: string,
                                        states: seq<StateMerge.StateObject>)
    requires t.Loaded? && t.lastSeq < MAX_U64 && AllGenuine(streams, t.events)
    ensures var frames := ServerResume.BatchFrames(t.sessionID, t.lastSeq, t.replayTo, t.stateSync, t.events,
                                                   snapshotID, states);
            NetworkOK(streams, set f | f in frames)
  {
    var frames := ServerResume.BatchFrames(t.sessionID, t.lastSeq, t.replayTo, t.stateSync, t.events, snapshotID,
                                           states);
    forall f | f in frames && f.EventFrame?
      ensures Genuine(streams, f.event)
    {
      var i :| 0 <= i < |frames| && frames[i] == f;
      assert f.event == t.events[i - 1];
    }
  }

  lemma {:induction false} NetworkGrows(config: Config, s: System, more: set<Frame>)
    requires SystemOK(config, s) && NetworkOK(s.streams, more)
    ensures SystemOK(config, s.(network := s.network + more))
  {
  }

  lemma {:induction false} SendBatchKeeps(config: Config, limits: ReplayStore.Limits, s: System, m: Move)
    requires SystemOK(config, s) && m.SendBatch? && m.task in s.tasks
    ensures SystemOK(config, ServerMove(limits, s, m))
  {
    var t := m.task;
    if t.Loaded? && t.lastSeq < MAX_U64 {
      assert AllGenuine(s.streams, EventsOf(t));
      BatchGenuine(s.streams, t, m.snapshotID, m.states);
      var frames := ServerResume.BatchFrames(t.sessionID, t.lastSeq, t.replayTo, t.stateSync, t.events, m.snapshotID,
                                             m.states);
      NetworkGrows(config, s, set f | f in frames);
    }
  }

  lemma {:induction false} ReadKeeps(config: Config, limits: ReplayStore.Limits, s: System, m: Move)
    requires SystemOK(config, s) && m.ReadHighWater?
    ensures SystemOK(config, ServerMove(limits, s, m))
  {
    var replayTo := |StreamOf(s.streams, m.sessionID).log|;
    if m.lastSeq <= replayTo <= MAX_U64 {
      TasksGrow(config, s, Reading(m.sessionID, m.lastSeq, replayTo, m.stateSync));
    }
  }

  lemma {:induction false} ReceiveKeeps(config: Config, s: System, m: Move)
    requires SystemOK(config, s) && Possible(s, m) && (m.Call? || m.Receive? || m.ReceiveMalformed?)
    ensures SystemOK(config, ClientMove(config, s, OpOf(m)))
  {
    hide Inv, ClientMove, TasksOK, EpochsOK, ClientOK, StreamsOK;
    ClientMoveKeeps(config, s, OpOf(m));
  }

  lemma {:induction false} EnqueueKeeps(config: Config, limits: ReplayStore.Limits, s: System, m: Move)
    requires SystemOK(config, s) && m.Enqueue? && m.task in s.tasks && m.task.Publishing?
    ensures SystemOK(config, ServerMove(limits, s, m))
  {
    assert AllGenuine(s.streams, EventsOf(m.task)) && Genuine(s.streams, EventsOf(m.task)[0]);
    NetworkGrows(config, s, {EventFrame(m.task.event)});
  }

  lemma {:induction false} EmitKeeps(config: Config, limits: ReplayStore.Limits, s: System, m: Move)
    requires SystemOK(config, s) && m.Emit? && !m.frame.EventFrame?
    ensures SystemOK(config, ServerMove(limits, s, m))
  {
    hide SystemOK;
    NetworkGrows(config, s, {m.frame});
  }

  lemma {:induction false} MoveKeeps(config: Config, limits: ReplayStore.Limits, s: System, m: Move)
    requires SystemOK(config, s)
    ensures SystemOK(config, Next(config, limits, s, m))
  {
    hide SystemOK, ClientMove, ServerMove;
    if Possible(s, m) {
      match m
      case Append(_, _, _, _, _) => AppendKeeps(config, limits, s, m);
      case Enqueue(_) => EnqueueKeeps(config, limits, s, m);
      case ReadHighWater(_, _, _) => ReadKeeps(config, limits, s, m);
      case Load(_) => LoadKeeps(config, limits, s, m);
      case SendBatch(_, _, _) => SendBatchKeeps(config, limits, s, m);
      case Prune(_, _) => PruneKeeps(config, limits, s, m);
      case Emit(_) => EmitKeeps(config, limits, s, m);
      case _ => ReceiveKeeps(config, s, m);
    }
  }

  lemma {:induction false} EveryRunKeepsSystem(config: Config, limits: ReplayStore.Limits, s: System, moves: seq<Move>)
    requires SystemOK(config, s)
    ensures SystemOK(config, RunOf(config, limits, s, moves))
    decreases |moves|
  {
    hide SystemOK, Next;
    if moves == [] {
    } else {
      MoveKeeps(config, limits, s, moves[0]);
      EveryRunKeepsSystem(config, limits, Next(config, limits, s, moves[0]), moves[1..]);
    }
  }

  lemma {:induction false} Reachable(config: Config, limits: ReplayStore.Limits, moves: seq<Move>)
    ensures SystemOK(config, RunOf(config, limits, INITIAL_SYSTEM, moves))
  {
    hide Inv, Next;
    InitialHolds(config);
    EveryRunKeepsSystem(config, limits, INITIAL_SYSTEM, moves);
  }

  // ---------------------------------------------------------------- the theorems

  lemma {:induction false} GenuinePrefix(streams: map<string, ReplayStore.Stream>, sessionID: string,
                                         events: seq<Event>)
    requires AllGenuine(streams, events) && Consecutive(events, sessionID, 0)
    ensures events <= StreamOf(streams, sessionID).log
  {
    var log := StreamOf(streams, sessionID).log;
    forall i | 0 <= i < |events|
      ensures i < |log| && log[i] == events[i]
    {
      assert Genuine(streams, events[i]);
    }
    if |events| > 0 {
      assert Genuine(streams, events[|events| - 1]);
    }
  }

  /** Over every run of client, store, server and network, what the application has been given in the
      current Session is exactly the first `lastSeq` entries of the server's append history, and what
      it was given in any earlier Session is a prefix of that Session's history. */
  lemma {:induction false} DeliveredIsLogPrefix(config: Config, limits: ReplayStore.Limits, moves: seq<Move>)
    ensures var s := RunOf(config, limits, INITIAL_SYSTEM, moves);
            var c := s.run.client;
            && c.lastSeq <= |StreamOf(s.streams, c.sessionID).log|
            && s.run.history.delivered == StreamOf(s.streams, c.sessionID).log[..c.lastSeq]
            && forall i | 0 <= i < |s.closed| :: s.closed[i].delivered <= StreamOf(s.streams, s.closed[i].sessionID).log
  {
    hide Local, OutboxOK, StateMerge.CacheOK, NetworkOK, TasksOK, StreamsOK, RunOf;
    Reachable(config, limits, moves);
    var s := RunOf(config, limits, INITIAL_SYSTEM, moves);
    GenuinePrefix(s.streams, s.run.client.sessionID, s.run.history.delivered);
    forall i | 0 <= i < |s.closed|
      ensures s.closed[i].delivered <= StreamOf(s.streams, s.closed[i].sessionID).log
    {
      GenuinePrefix(s.streams, s.closed[i].sessionID, s.closed[i].delivered);
    }
  }

  lemma {:induction false} GenuineIsNoConflict(config: Config, c: Client, h: History,
                                               streams: map<string, ReplayStore.Stream>, e: Event, ok: bool)
    requires Inv(config, Run(c, h)) && AllGenuine(streams, h.delivered) && Genuine(streams, e)
             && e.sessionID == c.sessionID
    ensures HandleEvent(config, c, e, ok) != Err(ProtocolConflict)
  {
    hide Local, OutboxOK, StateMerge.CacheOK, HandleReplayEvent;
    if c.phase in {Ready, Resuming} && e.seqNo <= c.lastSeq {
      assert Genuine(streams, h.delivered[e.seqNo - 1]);
      ClientTheorems.OldEventVerdict(config, c, h, e, ok);
    } else if c.phase == Resuming {
      ReplayEventCases(config, c, e);
    }
  }

  /** Genuine EVENTs are never taken for a conflict, however often and however late they arrive. */
  lemma {:induction false} NoFalseConflict(config: Config, limits: ReplayStore.Limits, moves: seq<Move>, e: Event,
                                           ok: bool)
    requires var s := RunOf(config, limits, INITIAL_SYSTEM, moves);
             EventFrame(e) in s.network && e.sessionID == s.run.client.sessionID
    ensures var c := RunOf(config, limits, INITIAL_SYSTEM, moves).run.client;
            HandleEvent(config, c, e, ok) != Err(ProtocolConflict)
  {
    Reachable(config, limits, moves);
    var s := RunOf(config, limits, INITIAL_SYSTEM, moves);
    assert Genuine(s.streams, EventFrame(e).event);
    GenuineIsNoConflict(config, s.run.client, s.run.history, s.streams, e, ok);
  }
}
