/** The stream lane of one Session: concurrent callers, one atomic step per critical section, callback
    boundary or queue operation. */
module StreamLane {
  import opened Wire
  import opened Protocol
  import opened Lanes
  import Outbound
  import ReplayStore
  import ServerResume
  import StateMerge

  // ---------------------------------------------------------------- requests and their work

  /** An operation that goes through the lane; `queue` is the outbound queue it was given. */
  datatype LaneRequest =
    | Publish(eventID: string, payload: string, timestamp: int, queue: nat)
    | ResumeStream(lastSeq: u64, stateSync: Option<seq<string>>, queue: nat)
    | Plain(frame: Frame, queue: nat)

  /** The dependency calls made inside the lane. */
  datatype Stage = Lookup | Append | HighWater | Replay(replayTo: u64) | Snapshot(replayTo: u64, events: seq<Event>)

  /** How far a request has come. Between `Within` and the end of `Returning` the lane's flag is set. */
  datatype Work =
    | Calling(stage: Stage)
    | Within(stage: Stage)
    | Returning(next: Work)
    | Delivering(frames: seq<Frame>)
    | Complete

  datatype Place = Arriving | Joined | Queued | Popping | Running(target: nat, work: Work) | Departing | Gone

  datatype Call = Call(request: LaneRequest, lane: nat, place: Place, done: bool)

  /** `current` is the lane registered for the Session, `runner` the caller that drains it;
      `accepted`, `started` and `finished` record calls in the order these things happened; `out` is what
      each outbound queue ever accepted and `sent` what was taken from it. */
  datatype State = State(
    lanes: seq<Lane>,
    current: Option<nat>,
    calls: map<nat, Call>,
    stream: ReplayStore.Stream,
    queues: map<nat, Outbound.Queue<Frame>>,
    out: map<nat, seq<Frame>>,
    sent: map<nat, seq<Frame>>,
    runner: Option<nat>,
    accepted: seq<nat>,
    started: seq<nat>,
    finished: seq<nat>)

  const INITIAL: State := State([], None, map[], ReplayStore.NO_STREAM, map[], map[], map[], None, [], [], [])

  /** `validEvent` is the outbound check of an EVENT. */
  datatype Config = Config(sessionID: string, limits: ReplayStore.Limits, validEvent: Event -> bool)

  function FirstWork(r: LaneRequest): Work
  {
    match r
    case ResumeStream(_, _, _) => Calling(HighWater)
    case _ => Calling(Lookup)
  }

  function Refusal(config: Config, code: Code): Work
  {
    Delivering([ErrorFrame(config.sessionID, ErrorPayload(code, "", false))])
  }

  /** What the environment contributes to a step: whether a dependency succeeds, and a snapshot. */
  datatype Input = Input(ok: bool, snapshotID: string, states: seq<StateMerge.StateObject>)

  function Batch(config: Config, r: LaneRequest, replayTo: u64, events: seq<Event>, input: Input): Work
    requires r.ResumeStream?
  {
    if r.lastSeq == MAX_U64 then Complete
    else Delivering(ServerResume.BatchFrames(config.sessionID, r.lastSeq, replayTo, r.stateSync, events,
                                             input.snapshotID, input.states))
  }

  /** What follows a replay that was loaded: the range check, then the snapshot or the batch. */
  function Checked(config: Config, r: LaneRequest, replayTo: u64, events: seq<Event>, input: Input): Work
    requires r.ResumeStream?
  {
    if || !ServerResume.AllValid(events, config.validEvent)
       || !ServerResume.ExactRange(events, config.sessionID, r.lastSeq, replayTo)
    then Refusal(config, Internal)
    else if r.stateSync.Some? then Calling(Snapshot(replayTo, events))
    else Batch(config, r, replayTo, events, input)
  }

  /** The body of a dependency call: the new stream and the work that follows. */
  function Body(config: Config, stream: ReplayStore.Stream, r: LaneRequest, stage: Stage,
                input: Input): (ReplayStore.Stream, Work)
  {
    match stage
    case Lookup =>
      (stream, if !input.ok then Complete
               else if r.Publish? then Calling(Append)
               else if r.Plain? then Delivering([r.frame])
               else Complete)
    case Append =>
      if !r.Publish? then (stream, Complete)
      else
        (match ReplayStore.AppendTo(stream, config.sessionID, r.eventID, r.payload, r.timestamp, true)
         case Appended(next, event) => (next, if input.ok then Delivering([EventFrame(event)]) else Complete)
         case _ => (stream, Complete))
    case HighWater =>
      if !r.ResumeStream? then (stream, Complete)
      else
        var replayTo := |stream.log|;
        if !input.ok then (stream, Refusal(config, Internal))
        else if r.lastSeq > replayTo || replayTo > MAX_U64 then (stream, Refusal(config, ProtocolViolation))
        else if r.lastSeq == MAX_U64 || replayTo - r.lastSeq > config.limits.maxEvents
        then (stream, Refusal(config, SyncRequired))
        else (stream, Calling(Replay(replayTo)))
    case Replay(replayTo) =>
      if !r.ResumeStream? then (stream, Complete)
      else if !input.ok then (stream, Refusal(config, Internal))
      else
        (match ReplayStore.ReplayOf(stream, r.lastSeq, replayTo, config.limits)
         case Events(events) => (stream, Checked(config, r, replayTo, events, input))
         case _ => (stream, Refusal(config, SyncRequired)))
    case Snapshot(replayTo, events) =>
      if !r.ResumeStream? then (stream, Complete)
      else (stream, if input.ok then Batch(config, r, replayTo, events, input) else Refusal(config, StateUnavailable))
  }

  // ---------------------------------------------------------------- steps

  function Goto(s: State, n: nat, place: Place): State
    requires n in s.calls
  {
    s.(calls := s.calls[n := s.calls[n].(place := place)])
  }

  function WithLane(s: State, i: nat, lane: Lane): State
    requires i < |s.lanes|
  {
    s.(lanes := s.lanes[i := lane])
  }

  function JoinStep(s: State, n: nat): State
    requires n in s.calls
  {
    var (table, i) := Join(Table(s.current, s.lanes));
    s.(lanes := table.all, current := table.current, calls := s.calls[n := s.calls[n].(lane := i, place := Joined)])
  }

  function SubmitStep(s: State, n: nat): State
    requires n in s.calls && s.calls[n].lane < |s.lanes|
  {
    match Submit(s.lanes[s.calls[n].lane], n)
    case Refused => Goto(s, n, Departing)
    case Accepted(lane, drains) =>
      var t := WithLane(s, s.calls[n].lane, lane).(accepted := s.accepted + [n]);
      if drains then Goto(t.(runner := Some(n)), n, Popping) else Goto(t, n, Queued)
  }

  function PopStep(s: State, n: nat): State
    requires n in s.calls && s.calls[n].lane < |s.lanes|
  {
    var (lane, request) := Take(s.lanes[s.calls[n].lane]);
    var t := WithLane(s, s.calls[n].lane, lane);
    match request
    case None => Goto(t.(runner := None), n, Departing)
    case Some(target) =>
      var work := if target in s.calls then FirstWork(s.calls[target].request) else Complete;
      Goto(t.(started := s.started + [target]), n, Running(target, work))
  }

  function FinishStep(s: State, n: nat, target: nat): State
    requires n in s.calls
  {
    var t := if target in s.calls then s.(calls := s.calls[target := s.calls[target].(done := true)]) else s;
    Goto(t.(finished := s.finished + [target]), n, Popping)
  }

  function QueueOf(s: State, queue: nat): Outbound.Queue<Frame>
  {
    if queue in s.queues then s.queues[queue] else Outbound.NewQueue()
  }

  function OutOf(s: State, queue: nat): seq<Frame>
  {
    if queue in s.out then s.out[queue] else []
  }

  function SentOf(s: State, queue: nat): seq<Frame>
  {
    if queue in s.sent then s.sent[queue] else []
  }

  /** One operation on an outbound queue, with what it accepted and returned. */
  function Operate(s: State, queue: nat, a: Outbound.Action<Frame>): State
  {
    var q := QueueOf(s, queue);
    s.(queues := s.queues[queue := Outbound.After(q, a)],
       out := s.out[queue := OutOf(s, queue) + Outbound.Accepted(q, a)],
       sent := s.sent[queue := SentOf(s, queue) + Outbound.Returned(q, a)])
  }

  function Emit(s: State, queue: nat, frames: seq<Frame>): State
  {
    Operate(s, queue, Outbound.EnqueueBatch(frames))
  }

  function WorkStep(config: Config, s: State, n: nat, target: nat, work: Work, input: Input): State
    requires n in s.calls && s.calls[n].lane < |s.lanes| && target in s.calls
  {
    var i := s.calls[n].lane;
    var r := s.calls[target].request;
    match work
    case Calling(stage) =>
      (match Enter(s.lanes[i])
       case Some(lane) => Goto(WithLane(s, i, lane), n, Running(target, Within(stage)))
       case None => Goto(s, n, Running(target, Complete)))
    case Within(stage) =>
      var (stream, next) := Body(config, s.stream, r, stage, input);
      Goto(s.(stream := stream), n, Running(target, Returning(next)))
    case Returning(next) => Goto(WithLane(s, i, Leave(s.lanes[i])), n, Running(target, next))
    case Delivering(frames) => Goto(Emit(s, r.queue, frames), n, Running(target, Complete))
    case Complete => FinishStep(s, n, target)
  }

  function DepartStep(s: State, n: nat): State
    requires n in s.calls && s.calls[n].lane < |s.lanes|
  {
    var table := Depart(Table(s.current, s.lanes), s.calls[n].lane);
    Goto(s.(lanes := table.all, current := table.current), n, Gone)
  }

  function CallStep(config: Config, s: State, n: nat, input: Input): State
    requires n in s.calls
  {
    var c := s.calls[n];
    if c.place.Arriving? then JoinStep(s, n)
    else if c.lane >= |s.lanes| then s
    else
      match c.place
      case Joined => SubmitStep(s, n)
      case Queued => if c.done then Goto(s, n, Departing) else s
      case Popping => PopStep(s, n)
      case Running(target, work) => if target in s.calls then WorkStep(config, s, n, target, work, input) else s
      case Departing => DepartStep(s, n)
      case _ => s
  }

  datatype Move =
    | Begin(call: nat, request: LaneRequest)
    | Proceed(call: nat, input: Input)
    | PruneStream(firstAvailable: u64)
    | CloseQueue(queue: nat)
    | TakeFrame(queue: nat)
    | Foreign(queue: nat, frame: Frame)

  /** A frame that belongs to this Session's event stream. */
  predicate OfStream(config: Config, f: Frame)
  {
    SessionOf(f) == config.sessionID && (f.EventFrame? || (f.Welcome? && f.mode.Resumed?))
  }

  function Next(config: Config, s: State, m: Move): State
  {
    match m
    case Begin(n, request) =>
      if n in s.calls || (request.Plain? && OfStream(config, request.frame)) then s
      else s.(calls := s.calls[n := Call(request, 0, Arriving, false)])
    case Proceed(n, input) => if n in s.calls then CallStep(config, s, n, input) else s
    case PruneStream(first) => s.(stream := ReplayStore.PruneTo(s.stream, first))
    case CloseQueue(queue) => Operate(s, queue, Outbound.Close)
    case TakeFrame(queue) => Operate(s, queue, Outbound.Next)
    case Foreign(queue, frame) => if OfStream(config, frame) then s else Emit(s, queue, [frame])
  }

  function RunOf(config: Config, s: State, moves: seq<Move>): State
    decreases |moves|
  {
    if moves == [] then s else RunOf(config, Next(config, s, moves[0]), moves[1..])
  }

  // ---------------------------------------------------------------- scheduling invariant

  predicate Using(place: Place)
  {
    place.Joined? || place.Queued? || place.Popping? || place.Running? || place.Departing?
  }

  function Users(calls: map<nat, Call>): set<nat>
  {
    set n | n in calls && Using(calls[n].place)
  }

  /** Every caller inside the lane code is on the registered lane, which counts them. */
  ghost predicate LaneOK(s: State)
  {
    && (s.current.Some? ==> s.current.value < |s.lanes| && s.lanes[s.current.value].users == |Users(s.calls)|)
    && (s.current.None? ==> Users(s.calls) == {})
    && (forall n | n in s.calls && Using(s.calls[n].place) :: s.current == Some(s.calls[n].lane))
  }

  predicate Drains(place: Place)
  {
    place.Popping? || place.Running?
  }

  predicate InCallback(work: Work)
  {
    work.Within? || work.Returning?
  }

  /** A callback returns to work outside any callback. */
  predicate Settled(work: Work)
  {
    work.Returning? ==> !InCallback(work.next)
  }

  function LaneQueue(s: State): seq<nat>
  {
    if s.current.Some? && s.current.value < |s.lanes| then s.lanes[s.current.value].queue else []
  }

  /** At most one caller drains the lane, exactly while it is marked running. */
  ghost predicate RunnerOK(s: State)
  {
    && (forall n | n in s.calls :: Drains(s.calls[n].place) <==> s.runner == Some(n))
    && (forall n | n in s.calls && s.calls[n].place.Running? :: Settled(s.calls[n].place.work))
    && (s.runner.Some? ==> s.runner.value in s.calls && s.current.Some?)
    && (s.current.Some? && s.current.value < |s.lanes| ==>
          var lane := s.lanes[s.current.value];
          && lane.running == s.runner.Some?
          && (!lane.running ==> lane.queue == [])
          && lane.callbackActive == (s.runner.Some? && s.calls[s.runner.value].place.Running?
                                     && InCallback(s.calls[s.runner.value].place.work)))
  }

  function Active(s: State): seq<nat>
  {
    if s.runner.Some? && s.runner.value in s.calls && s.calls[s.runner.value].place.Running?
    then [s.calls[s.runner.value].place.target] else []
  }

  predicate Distinct(ids: seq<nat>)
  {
    forall i, j | 0 <= i < j < |ids| :: ids[i] != ids[j]
  }

  /** Requests start in the order they were accepted, each once, and one finishes before the next starts. */
  ghost predicate OrderOK(s: State)
  {
    && s.accepted == s.started + LaneQueue(s)
    && s.started == s.finished + Active(s)
    && Distinct(s.accepted)
    && (forall n | n in s.accepted :: n in s.calls && !s.calls[n].place.Arriving? && !s.calls[n].place.Joined?)
    && (forall n | n in s.calls :: s.calls[n].done <==> n in s.finished)
    && (forall n | n in s.calls && (s.calls[n].place.Queued? || Drains(s.calls[n].place)) :: n in s.accepted)
  }

  /** Whoever leaves the lane with an accepted request leaves with its result. */
  ghost predicate ResultsOK(s: State)
  {
    forall n | n in s.calls && (s.calls[n].place.Departing? || s.calls[n].place.Gone?) ::
      n in s.accepted ==> s.calls[n].done
  }

  ghost predicate SchedOK(s: State)
  {
    LaneOK(s) && RunnerOK(s) && OrderOK(s) && ResultsOK(s)
  }

  // ---------------------------------------------------------------- users

  lemma {:induction false} UsersSame(calls: map<nat, Call>, n: nat, c: Call)
    requires n in calls && Using(c.place) == Using(calls[n].place)
    ensures Users(calls[n := c]) == Users(calls)
  {
  }

  lemma {:induction false} UsersAdded(calls: map<nat, Call>, n: nat, c: Call)
    requires n in calls && !Using(calls[n].place) && Using(c.place)
    ensures Users(calls[n := c]) == Users(calls) + {n} && |Users(calls[n := c])| == |Users(calls)| + 1
  {
    assert Users(calls[n := c]) == Users(calls) + {n};
  }

  lemma {:induction false} UsersRemoved(calls: map<nat, Call>, n: nat, c: Call)
    requires n in calls && Using(calls[n].place) && !Using(c.place)
    ensures Users(calls[n := c]) == Users(calls) - {n} && |Users(calls[n := c])| + 1 == |Users(calls)|
  {
    assert Users(calls[n := c]) == Users(calls) - {n};
    assert Users(calls[n := c]) + {n} == Users(calls);
  }

  // ---------------------------------------------------------------- joining and leaving

  lemma {:induction false} JoinLane(s: State, n: nat)
    requires SchedOK(s) && n in s.calls && s.calls[n].place.Arriving?
    ensures LaneOK(JoinStep(s, n))
  {
    hide OrderOK, ResultsOK, RunnerOK;
    var t := JoinStep(s, n);
    UsersAdded(s.calls, n, t.calls[n]);
    assert forall k | k in s.calls && Using(s.calls[k].place) :: k in Users(s.calls);
  }

  lemma {:induction false} JoinRunner(s: State, n: nat)
    requires SchedOK(s) && n in s.calls && s.calls[n].place.Arriving?
    ensures RunnerOK(JoinStep(s, n))
  {
    hide OrderOK, ResultsOK, Users;
    var t := JoinStep(s, n);
    assert t.calls == s.calls[n := t.calls[n]] && t.runner == s.runner;
  }

  lemma {:induction false} SameOrder(s: State, t: State)
    requires OrderOK(s) && ResultsOK(s)
    requires t.accepted == t.started + LaneQueue(t) && t.started == t.finished + Active(t)
    requires t.accepted == s.accepted && t.finished == s.finished && t.calls.Keys == s.calls.Keys
    requires forall k | k in s.calls :: t.calls[k].done == s.calls[k].done
    requires forall k | k in s.calls && k in s.accepted :: !t.calls[k].place.Arriving? && !t.calls[k].place.Joined?
    requires forall k | k in s.calls && (t.calls[k].place.Queued? || Drains(t.calls[k].place)) :: k in s.accepted
    requires forall k | k in s.calls && (t.calls[k].place.Departing? || t.calls[k].place.Gone?) ::
             k in s.accepted ==> s.calls[k].done
    ensures OrderOK(t) && ResultsOK(t)
  {
  }

  lemma {:induction false} JoinKeeps(s: State, n: nat)
    requires SchedOK(s) && n in s.calls && s.calls[n].place.Arriving?
    ensures SchedOK(JoinStep(s, n))
  {
    var t := JoinStep(s, n);
    JoinLane(s, n);
    JoinRunner(s, n);
    SameOrder(s, t);
  }

  lemma {:induction false} DepartLane(s: State, n: nat)
    requires SchedOK(s) && n in s.calls && s.calls[n].place.Departing?
    ensures s.calls[n].lane < |s.lanes|
    ensures s.current == Some(s.calls[n].lane) && LaneOK(DepartStep(s, n))
    ensures DepartStep(s, n).current.None? ==> s.runner.None?
  {
    hide OrderOK, ResultsOK;
    var t := DepartStep(s, n);
    UsersRemoved(s.calls, n, t.calls[n]);
    assert n in Users(s.calls);
    assert forall k | k in t.calls && Using(t.calls[k].place) :: k in Users(t.calls);
    assert s.runner.Some? ==> s.runner.value in Users(t.calls);
  }

  lemma {:induction false} DepartRunner(s: State, n: nat)
    requires RunnerOK(s) && n in s.calls && s.calls[n].place.Departing? && s.calls[n].lane < |s.lanes|
    requires s.current == Some(s.calls[n].lane) && (DepartStep(s, n).current.None? ==> s.runner.None?)
    ensures var t := DepartStep(s, n); RunnerOK(t) && LaneQueue(t) == LaneQueue(s) && Active(t) == Active(s)
  {
    var t := DepartStep(s, n);
    assert t.calls == s.calls[n := t.calls[n]] && s.runner != Some(n);
  }

  lemma {:induction false} DepartOrder(s: State, n: nat)
    requires OrderOK(s) && ResultsOK(s) && n in s.calls && s.calls[n].place.Departing? && s.calls[n].lane < |s.lanes|
    requires var t := DepartStep(s, n); LaneQueue(t) == LaneQueue(s) && Active(t) == Active(s)
    ensures OrderOK(DepartStep(s, n)) && ResultsOK(DepartStep(s, n))
  {
    hide LaneQueue, Active, Distinct;
    var t := DepartStep(s, n);
    assert t.calls == s.calls[n := t.calls[n]];
    SameOrder(s, t);
  }

  lemma {:induction false} DepartKeeps(s: State, n: nat)
    requires SchedOK(s) && n in s.calls && s.calls[n].place.Departing?
    ensures s.calls[n].lane < |s.lanes|
    ensures SchedOK(DepartStep(s, n))
  {
    hide LaneOK, RunnerOK, OrderOK, ResultsOK, DepartStep;
    DepartLane(s, n);
    DepartRunner(s, n);
    DepartOrder(s, n);
  }

  // ---------------------------------------------------------------- submitting

  lemma {:induction false} SubmitLane(s: State, n: nat)
    requires SchedOK(s) && n in s.calls && s.calls[n].place.Joined?
    ensures s.calls[n].lane < |s.lanes| && s.current == Some(s.calls[n].lane)
    ensures LaneOK(SubmitStep(s, n))
  {
    hide OrderOK, ResultsOK, RunnerOK;
    var t := SubmitStep(s, n);
    UsersSame(s.calls, n, t.calls[n]);
  }

  lemma {:induction false} SubmitRunner(s: State, n: nat)
    requires RunnerOK(s) && n in s.calls && s.calls[n].place.Joined?
    requires s.calls[n].lane < |s.lanes| && s.current == Some(s.calls[n].lane)
    ensures RunnerOK(SubmitStep(s, n))
  {
    var t := SubmitStep(s, n);
    assert t.calls == s.calls[n := t.calls[n]] && t.current == s.current;
    assert s.runner != Some(n);
  }

  lemma {:induction false} NotYetAccepted(s: State, n: nat)
    requires OrderOK(s) && n in s.calls && (s.calls[n].place.Joined? || s.calls[n].place.Arriving?)
    ensures n !in s.accepted && n !in s.started && n !in s.finished && n !in LaneQueue(s) && n !in Active(s)
  {
    assert n in s.finished || n in Active(s) ==> n in s.started;
    assert n in s.started || n in LaneQueue(s) ==> n in s.accepted;
  }

  lemma {:induction false} DistinctAppend(ids: seq<nat>, n: nat)
    requires Distinct(ids) && n !in ids
    ensures Distinct(ids + [n])
  {
  }

  lemma {:induction false} AcceptedOrder(s: State, n: nat)
    requires SchedOK(s) && n in s.calls && s.calls[n].place.Joined?
    requires s.calls[n].lane < |s.lanes| && s.current == Some(s.calls[n].lane)
             && !s.lanes[s.calls[n].lane].callbackActive
    ensures OrderOK(SubmitStep(s, n)) && ResultsOK(SubmitStep(s, n))
  {
    hide LaneOK;
    var t := SubmitStep(s, n);
    NotYetAccepted(s, n);
    DistinctAppend(s.accepted, n);
    assert Active(t) == Active(s) && LaneQueue(t) == LaneQueue(s) + [n];
    assert t.accepted == t.started + LaneQueue(t);
    assert t.calls == s.calls[n := t.calls[n]] && t.calls[n].done == s.calls[n].done;
  }

  lemma {:induction false} SubmitOrder(s: State, n: nat)
    requires SchedOK(s) && n in s.calls && s.calls[n].place.Joined?
    ensures s.calls[n].lane < |s.lanes| && s.current == Some(s.calls[n].lane)
    ensures OrderOK(SubmitStep(s, n)) && ResultsOK(SubmitStep(s, n))
  {
    assert s.current == Some(s.calls[n].lane);
    if s.lanes[s.calls[n].lane].callbackActive {
      NotYetAccepted(s, n);
      SameOrder(s, SubmitStep(s, n));
    } else {
      AcceptedOrder(s, n);
    }
  }

  // ---------------------------------------------------------------- draining

  lemma {:induction false} PopEmpty(s: State, n: nat)
    requires SchedOK(s) && n in s.calls && s.calls[n].place.Popping? && LaneQueue(s) == []
    ensures s.calls[n].lane < |s.lanes|
    ensures SchedOK(PopStep(s, n))
  {
    var t := PopStep(s, n);
    UsersSame(s.calls, n, t.calls[n]);
    assert Active(s) == [] && Active(t) == [];
    assert s.accepted == s.finished by { assert s.started == s.finished + []; assert s.accepted == s.started + []; }
    assert LaneQueue(t) == [];
  }

  lemma {:induction false} PopNextLane(s: State, n: nat)
    requires SchedOK(s) && n in s.calls && s.calls[n].place.Popping? && LaneQueue(s) != []
    ensures s.calls[n].lane < |s.lanes|
    ensures LaneOK(PopStep(s, n)) && RunnerOK(PopStep(s, n))
  {
    hide OrderOK, ResultsOK;
    UsersSame(s.calls, n, PopStep(s, n).calls[n]);
  }

  lemma {:induction false} PopperKnown(s: State, n: nat)
    requires SchedOK(s) && n in s.calls && s.calls[n].place.Popping?
    ensures s.runner == Some(n) && s.current == Some(s.calls[n].lane) && s.calls[n].lane < |s.lanes| && Active(s) == []
  {
  }

  lemma {:induction false} PopShape(s: State, n: nat)
    requires n in s.calls && s.runner == Some(n) && s.current == Some(s.calls[n].lane) && s.calls[n].lane < |s.lanes|
    requires LaneQueue(s) != []
    ensures var t, queue := PopStep(s, n), LaneQueue(s);
            && LaneQueue(t) == queue[1..] && Active(t) == [queue[0]] && t.started == s.started + [queue[0]]
            && t.accepted == s.accepted && t.finished == s.finished
            && t.calls == s.calls[n := t.calls[n]] && t.calls[n] == s.calls[n].(place := t.calls[n].place)
            && t.calls[n].place.Running?
  {
  }

  lemma {:induction false} TakeFirst(started: seq<nat>, queue: seq<nat>)
    requires queue != []
    ensures started + queue == started + [queue[0]] + queue[1..]
  {
    assert queue == [queue[0]] + queue[1..];
  }

  lemma {:induction false} PopNextOrder(s: State, n: nat)
    requires SchedOK(s) && n in s.calls && s.calls[n].place.Popping? && LaneQueue(s) != []
    ensures s.calls[n].lane < |s.lanes|
    ensures OrderOK(PopStep(s, n)) && ResultsOK(PopStep(s, n))
  {
    hide LaneOK, RunnerOK, LaneQueue, Active, PopStep, Distinct;
    PopperKnown(s, n);
    PopShape(s, n);
    TakeFirst(s.started, LaneQueue(s));
    assert s.started == s.finished + [] == s.finished;
    SameOrder(s, PopStep(s, n));
  }

  // ---------------------------------------------------------------- working

  /** A step of the work moves only the runner and the callback flag. */
  lemma {:induction false} WorkKeeps(s: State, n: nat, target: nat, next: Work, t: State)
    requires SchedOK(s) && n in s.calls && s.calls[n].place.Running? && s.calls[n].place.target == target
    requires s.calls[n].lane < |s.lanes| && Settled(next)
    requires t.calls == s.calls[n := s.calls[n].(place := Running(target, next))]
    requires t.lanes == s.lanes[s.calls[n].lane := s.lanes[s.calls[n].lane].(callbackActive := InCallback(next))]
    requires t.current == s.current && t.runner == s.runner
    requires t.accepted == s.accepted && t.started == s.started && t.finished == s.finished
    ensures SchedOK(t)
  {
    UsersSame(s.calls, n, t.calls[n]);
    assert s.current == Some(s.calls[n].lane);
    assert LaneQueue(t) == LaneQueue(s);
    assert Active(t) == Active(s);
  }

  lemma {:induction false} FinishUsers(s: State, n: nat, target: nat)
    requires n in s.calls && target in s.calls && Using(s.calls[n].place)
    ensures Users(FinishStep(s, n, target).calls) == Users(s.calls)
  {
    var marked := s.calls[target := s.calls[target].(done := true)];
    UsersSame(s.calls, target, s.calls[target].(done := true));
    UsersSame(marked, n, marked[n].(place := Popping));
  }

  lemma {:induction false} FinishLane(s: State, n: nat, target: nat)
    requires SchedOK(s) && n in s.calls && s.calls[n].place == Running(target, Complete) && target in s.calls
    ensures LaneOK(FinishStep(s, n, target)) && RunnerOK(FinishStep(s, n, target))
  {
    hide OrderOK, ResultsOK;
    FinishUsers(s, n, target);
  }

  lemma {:induction false} FinishOrder(s: State, n: nat, target: nat)
    requires SchedOK(s) && n in s.calls && s.calls[n].place == Running(target, Complete) && target in s.calls
    ensures OrderOK(FinishStep(s, n, target)) && ResultsOK(FinishStep(s, n, target))
  {
    var t := FinishStep(s, n, target);
    assert s.runner == Some(n) && Active(s) == [target] && Active(t) == [];
    assert LaneQueue(t) == LaneQueue(s);
    assert t.started == t.finished + [] by { assert s.started == s.finished + [target]; }
    forall k | k in t.calls
      ensures t.calls[k].done <==> k in t.finished
    {
      assert k in t.finished <==> k in s.finished || k == target;
    }
  }

  lemma {:induction false} TargetKnown(s: State, n: nat)
    requires SchedOK(s) && n in s.calls && s.calls[n].place.Running?
    ensures s.calls[n].place.target in s.calls && s.calls[n].lane < |s.lanes| && s.current == Some(s.calls[n].lane)
    ensures s.lanes[s.calls[n].lane].callbackActive == InCallback(s.calls[n].place.work)
            && Settled(s.calls[n].place.work)
  {
    var target := s.calls[n].place.target;
    assert s.runner == Some(n) && Active(s) == [target];
    assert target in s.started by { assert s.started[|s.finished|] == target; }
    assert target in s.accepted;
  }

  lemma {:induction false} RunningKeeps(config: Config, s: State, n: nat, input: Input)
    requires SchedOK(s) && n in s.calls && s.calls[n].place.Running?
    ensures SchedOK(CallStep(config, s, n, input))
  {
    hide LaneOK, RunnerOK, OrderOK, ResultsOK, FinishStep, Body;
    TargetKnown(s, n);
    var target, work := s.calls[n].place.target, s.calls[n].place.work;
    var i, t := s.calls[n].lane, CallStep(config, s, n, input);
    match work
    case Calling(stage) => WorkKeeps(s, n, target, Within(stage), t);
    case Within(stage) =>
      assert s.lanes[i := s.lanes[i].(callbackActive := true)] == s.lanes;
      BodySettled(config, s.stream, s.calls[target].request, stage, input);
      WorkKeeps(s, n, target, Returning(Body(config, s.stream, s.calls[target].request, stage, input).1), t);
    case Returning(next) => WorkKeeps(s, n, target, next, t);
    case Delivering(frames) =>
      assert s.lanes[i := s.lanes[i].(callbackActive := false)] == s.lanes;
      WorkKeeps(s, n, target, Complete, t);
    case Complete => FinishLane(s, n, target); FinishOrder(s, n, target);
  }

  lemma {:induction false} BodySettled(config: Config, stream: ReplayStore.Stream, r: LaneRequest, stage: Stage,
                                       input: Input)
    ensures var work := Body(config, stream, r, stage, input).1; work.Calling? || work.Delivering? || work.Complete?
  {
  }

  // ---------------------------------------------------------------- every run

  lemma {:induction false} CallKeeps(config: Config, s: State, n: nat, input: Input)
    requires SchedOK(s) && n in s.calls
    ensures SchedOK(CallStep(config, s, n, input))
  {
    hide LaneOK, RunnerOK, OrderOK, ResultsOK, WorkStep, PopStep, SubmitStep, DepartStep, JoinStep;
    match s.calls[n].place
    case Arriving => JoinKeeps(s, n);
    case Joined => SubmitLane(s, n); SubmitRunner(s, n); SubmitOrder(s, n);
    case Queued => QueuedKeeps(config, s, n, input);
    case Popping => if LaneQueue(s) == [] { PopEmpty(s, n); } else { PopNextLane(s, n); PopNextOrder(s, n); }
    case Running(_, _) => RunningKeeps(config, s, n, input);
    case Departing => DepartKeeps(s, n);
    case Gone =>
  }

  lemma {:induction false} QueuedKeeps(config: Config, s: State, n: nat, input: Input)
    requires SchedOK(s) && n in s.calls && s.calls[n].place.Queued?
    ensures SchedOK(CallStep(config, s, n, input))
  {
    hide LaneOK, RunnerOK, OrderOK, ResultsOK, WorkStep, PopStep, SubmitStep, DepartStep, JoinStep;
    if s.calls[n].done { ServedKeeps(s, n); }
  }

  lemma {:induction false} ServedKeeps(s: State, n: nat)
    requires SchedOK(s) && n in s.calls && s.calls[n].place.Queued? && s.calls[n].done
    ensures SchedOK(Goto(s, n, Departing))
  {
    var t := Goto(s, n, Departing);
    UsersSame(s.calls, n, t.calls[n]);
    SameOrder(s, t);
  }

  lemma {:induction false} BeginKeeps(s: State, n: nat, request: LaneRequest)
    requires SchedOK(s) && n !in s.calls
    ensures SchedOK(s.(calls := s.calls[n := Call(request, 0, Arriving, false)]))
  {
    hide LaneOK, RunnerOK, OrderOK, ResultsOK;
    BeginLane(s, n, request);
    BeginOrder(s, n, request);
  }

  lemma {:induction false} BeginLane(s: State, n: nat, request: LaneRequest)
    requires LaneOK(s) && RunnerOK(s) && n !in s.calls
    ensures var t := s.(calls := s.calls[n := Call(request, 0, Arriving, false)]);
            LaneOK(t) && RunnerOK(t) && LaneQueue(t) == LaneQueue(s) && Active(t) == Active(s)
  {
    var t := s.(calls := s.calls[n := Call(request, 0, Arriving, false)]);
    assert Users(t.calls) == Users(s.calls);
  }

  lemma {:induction false} BeginOrder(s: State, n: nat, request: LaneRequest)
    requires OrderOK(s) && ResultsOK(s) && n !in s.calls
    requires var t := s.(calls := s.calls[n := Call(request, 0, Arriving, false)]);
             LaneQueue(t) == LaneQueue(s) && Active(t) == Active(s)
    ensures var t := s.(calls := s.calls[n := Call(request, 0, Arriving, false)]); OrderOK(t) && ResultsOK(t)
  {
    hide LaneQueue, Active;
    FinishedAccepted(s);
  }

  lemma {:induction false} FinishedAccepted(s: State)
    requires OrderOK(s)
    ensures forall k | k in s.finished :: k in s.accepted
  {
    assert forall k | k in s.finished :: k in s.started;
    assert forall k | k in s.started :: k in s.accepted;
  }

  lemma {:induction false} SharedKeeps(s: State, t: State)
    requires SchedOK(s) && t == s.(stream := t.stream, queues := t.queues, out := t.out, sent := t.sent)
    ensures SchedOK(t)
  {
    assert LaneQueue(t) == LaneQueue(s) && Active(t) == Active(s);
  }

  lemma {:induction false} MoveKeeps(config: Config, s: State, m: Move)
    requires SchedOK(s)
    ensures SchedOK(Next(config, s, m))
  {
    var t := Next(config, s, m);
    match m
    case Begin(n, request) => if t != s { BeginKeeps(s, n, request); }
    case Proceed(n, input) => if n in s.calls { CallKeeps(config, s, n, input); }
    case _ => SharedKeeps(s, t);
  }

  lemma {:induction false} EveryRunKeeps(config: Config, s: State, moves: seq<Move>)
    requires SchedOK(s)
    ensures SchedOK(RunOf(config, s, moves))
    decreases |moves|
  {
    hide SchedOK, Next;
    if moves == [] {
    } else {
      MoveKeeps(config, s, moves[0]);
      EveryRunKeeps(config, Next(config, s, moves[0]), moves[1..]);
    }
  }
}
