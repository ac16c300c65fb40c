/** What a request of the stream lane achieves when nothing fails: the event is appended and enqueued, the
    RESUME gets the reply the server computes, and the caller leaves with its result. */
module StreamProgress {
  import opened Wire
  import opened Protocol
  import opened StreamLane
  import Lanes
  import ReplayStore
  import ServerResume
  import StreamOrder

  // ---------------------------------------------------------------- undisturbed steps

  function Steps(config: Config, n: nat, input: Input, s: State, k: nat): State
    decreases k
  {
    if k == 0 then s else Steps(config, n, input, Next(config, s, Proceed(n, input)), k - 1)
  }

  /** Some number of steps of caller `n` takes `s` to `t`. */
  ghost predicate Leads(config: Config, n: nat, input: Input, s: State, t: State)
  {
    exists k: nat :: Steps(config, n, input, s, k) == t
  }

  lemma {:induction false} StepsAdd(config: Config, n: nat, input: Input, s: State, a: nat, b: nat)
    ensures Steps(config, n, input, s, a + b) == Steps(config, n, input, Steps(config, n, input, s, a), b)
    decreases a
  {
    hide Next;
    if a == 0 {
    } else {
      StepsAdd(config, n, input, Next(config, s, Proceed(n, input)), a - 1, b);
    }
  }

  lemma {:induction false} Then(config: Config, n: nat, input: Input, s: State, t: State, u: State)
    requires Leads(config, n, input, s, t) && Leads(config, n, input, t, u)
    ensures Leads(config, n, input, s, u)
  {
    hide Next;
    var a: nat :| Steps(config, n, input, s, a) == t;
    var b: nat :| Steps(config, n, input, t, b) == u;
    StepsAdd(config, n, input, s, a, b);
  }

  lemma {:induction false} One(config: Config, n: nat, input: Input, s: State, t: State)
    requires SchedOK(s) && n in s.calls && t == CallStep(config, s, n, input)
    ensures Leads(config, n, input, s, t) && SchedOK(t)
  {
    hide CallStep, SchedOK;
    CallKeeps(config, s, n, input);
    assert Steps(config, n, input, t, 0) == t;
    assert Steps(config, n, input, s, 1) == t;
  }

  /** One more step. */
  lemma {:induction false} Further(config: Config, n: nat, input: Input, s: State, t: State, u: State)
    requires Leads(config, n, input, s, t) && SchedOK(t) && n in t.calls && u == CallStep(config, t, n, input)
    ensures Leads(config, n, input, s, u) && SchedOK(u)
  {
    hide CallStep, SchedOK, Leads;
    One(config, n, input, t, u);
    Then(config, n, input, s, t, u);
  }

  // ---------------------------------------------------------------- one request

  predicate RunsOn(s: State, n: nat, target: nat, work: Work)
  {
    n in s.calls && target in s.calls && s.calls[n].place == Running(target, work)
  }

  /** The state in which caller `n` has gone on to `work`, with the stream as given. */
  function At(s: State, n: nat, target: nat, stream: ReplayStore.Stream, work: Work): State
    requires n in s.calls
  {
    Goto(s.(stream := stream), n, Running(target, work))
  }

  /** The same with the lane's flag set. */
  function Flagged(s: State, n: nat, target: nat, stream: ReplayStore.Stream, work: Work): State
    requires n in s.calls && s.calls[n].lane < |s.lanes|
  {
    var i := s.calls[n].lane;
    At(s.(lanes := s.lanes[i := s.lanes[i].(callbackActive := true)]), n, target, stream, work)
  }

  lemma {:induction false} EntersLane(config: Config, s: State, n: nat, input: Input, target: nat, stage: Stage)
    requires RunsOn(s, n, target, Calling(stage)) && s.calls[n].lane < |s.lanes|
    requires !s.lanes[s.calls[n].lane].callbackActive
    ensures CallStep(config, s, n, input) == Flagged(s, n, target, s.stream, Within(stage))
  {
    hide Body, PopStep, SubmitStep, JoinStep, DepartStep, FinishStep, Operate;
  }

  lemma {:induction false} RunsBody(config: Config, s: State, n: nat, input: Input, target: nat, stage: Stage)
    requires RunsOn(s, n, target, Calling(stage)) && s.calls[n].lane < |s.lanes|
    ensures var (stream, next) := Body(config, s.stream, s.calls[target].request, stage, input);
            CallStep(config, Flagged(s, n, target, s.stream, Within(stage)), n, input)
            == Flagged(s, n, target, stream, Returning(next))
  {
    hide Body, PopStep, SubmitStep, JoinStep, DepartStep, FinishStep, Operate;
    var (stream, next) := Body(config, s.stream, s.calls[target].request, stage, input);
    var s1 := Flagged(s, n, target, s.stream, Within(stage));
    assert s1.calls[target].request == s.calls[target].request;
    assert CallStep(config, s1, n, input).calls == Flagged(s, n, target, stream, Returning(next)).calls;
  }

  lemma {:induction false} LeavesFlag(config: Config, s: State, n: nat, input: Input, target: nat,
                                      stream: ReplayStore.Stream, next: Work)
    requires n in s.calls && target in s.calls && s.calls[n].lane < |s.lanes|
    requires !s.lanes[s.calls[n].lane].callbackActive
    ensures CallStep(config, Flagged(s, n, target, stream, Returning(next)), n, input) == At(s, n, target, stream, next)
  {
    hide Body, PopStep, SubmitStep, JoinStep, DepartStep, FinishStep, Operate;
    var s1 := Flagged(s, n, target, stream, Returning(next));
    assert CallStep(config, s1, n, input).calls == At(s, n, target, stream, next).calls;
    assert CallStep(config, s1, n, input).lanes == s.lanes;
  }

  /** A dependency call: entered, run and left, the lane is as it was. */
  lemma {:induction false} Callback(config: Config, s: State, n: nat, input: Input, target: nat, stage: Stage)
    requires SchedOK(s) && RunsOn(s, n, target, Calling(stage))
    ensures var (stream, next) := Body(config, s.stream, s.calls[target].request, stage, input);
            var t := At(s, n, target, stream, next);
            Leads(config, n, input, s, t) && SchedOK(t) && t.calls[target].request == s.calls[target].request
  {
    hide SchedOK, Leads, Body, CallStep;
    TargetKnown(s, n);
    var (stream, next) := Body(config, s.stream, s.calls[target].request, stage, input);
    var s1, s2 := Flagged(s, n, target, s.stream, Within(stage)), Flagged(s, n, target, stream, Returning(next));
    EntersLane(config, s, n, input, target, stage);
    One(config, n, input, s, s1);
    RunsBody(config, s, n, input, target, stage);
    Further(config, n, input, s, s1, s2);
    LeavesFlag(config, s, n, input, target, stream, next);
    Further(config, n, input, s, s2, At(s, n, target, stream, next));
  }

  /** The frames are enqueued and the request is finished. */
  lemma {:induction false} Delivers(config: Config, s: State, n: nat, input: Input, target: nat, frames: seq<Frame>)
    returns (t: State)
    requires SchedOK(s) && RunsOn(s, n, target, Delivering(frames))
    ensures Leads(config, n, input, s, t) && SchedOK(t)
    ensures Served(s, n, target, t) && t.stream == s.stream && QueuesGrow(s, t, s.calls[target].request.queue, frames)
  {
    hide SchedOK, Leads, PopStep, SubmitStep, JoinStep, DepartStep, Operate;
    TargetKnown(s, n);
    var q := s.calls[target].request.queue;
    StreamOrder.EmitShape(s, q, frames);
    var s1 := CallStep(config, s, n, input);
    One(config, n, input, s, s1);
    t := CallStep(config, s1, n, input);
    Further(config, n, input, s, s1, t);
    EmitGrows(s, q, frames);
  }

  /** Nothing to enqueue. */
  lemma {:induction false} Completes(config: Config, s: State, n: nat, input: Input, target: nat) returns (t: State)
    requires SchedOK(s) && RunsOn(s, n, target, Complete)
    ensures Leads(config, n, input, s, t) && SchedOK(t)
    ensures Served(s, n, target, t) && t.stream == s.stream && QueuesGrow(s, t, s.calls[target].request.queue, [])
  {
    hide SchedOK, Leads, PopStep, SubmitStep, JoinStep, DepartStep;
    TargetKnown(s, n);
    t := CallStep(config, s, n, input);
    One(config, n, input, s, t);
  }

  /** The request is done and recorded as finished; its runner looks for the next one. */
  predicate Served(s: State, n: nat, target: nat, t: State)
  {
    && n in s.calls && n in t.calls && target in t.calls && t.calls[target].done && t.calls[n].place == Popping
    && t.finished == s.finished + [target] && t.lanes == s.lanes && t.current == s.current
    && t.calls.Keys == s.calls.Keys
    && forall k | k in s.calls :: t.calls[k].request == s.calls[k].request && t.calls[k].lane == s.calls[k].lane
  }

  /** An open queue has accepted the frames, a closed one nothing; every other queue is as it was. */
  ghost predicate QueuesGrow(s: State, t: State, queue: nat, frames: seq<Frame>)
  {
    forall k: nat ::
      OutOf(t, k) == OutOf(s, k) + (if k == queue && !QueueOf(s, queue).closed then frames else [])
  }

  lemma {:induction false} EmitGrows(s: State, queue: nat, frames: seq<Frame>)
    ensures forall t: State | t.out == Emit(s, queue, frames).out :: QueuesGrow(s, t, queue, frames)
  {
    var e := Emit(s, queue, frames);
    forall t: State, k: nat | t.out == e.out
      ensures OutOf(t, k) == OutOf(s, k) + (if k == queue && !QueueOf(s, queue).closed then frames else [])
    {
      if k != queue || QueueOf(s, queue).closed {
        assert OutOf(s, k) + [] == OutOf(s, k);
      }
    }
  }

  // ---------------------------------------------------------------- what each request is for

  /** The frames of a reply. */
  function FramesOf(sessionID: string, reply: ServerResume.Reply): seq<Frame>
  {
    match reply
    case Batch(frames) => frames
    case Refusal(code, _, _) => [ErrorFrame(sessionID, ErrorPayload(code, "", false))]
    case Broken => []
  }

  /** The lane works for the server: same limits and check, and no dependency fails. */
  ghost predicate WorksFor(config: Config, server: ServerResume.Config, env: ServerResume.Environment, input: Input,
                     stateSync: Option<seq<string>>)
  {
    && server.replay == config.limits && server.validEvent == config.validEvent
    && input.ok && env.welcomeOK && env.snapshotID == input.snapshotID
    && (stateSync.Some? ==> ServerResume.StatesFor(server, env, stateSync) == Some(input.states))
  }

  /** The effect of a request on the history, and what it enqueues. */
  function Effect(config: Config, server: ServerResume.Config, env: ServerResume.Environment,
                  stream: ReplayStore.Stream, r: LaneRequest): (ReplayStore.Stream, seq<Frame>)
  {
    match r
    case Plain(frame, _) => (stream, [frame])
    case Publish(eventID, payload, timestamp, _) =>
      (match ReplayStore.AppendTo(stream, config.sessionID, eventID, payload, timestamp, true)
       case Appended(next, event) => (next, [EventFrame(event)])
       case _ => (stream, []))
    case ResumeStream(lastSeq, stateSync, _) =>
      (stream, FramesOf(config.sessionID,
                        ServerResume.LaneReply(server, env, stream, config.sessionID, lastSeq, stateSync)))
  }

  function SyncOf(r: LaneRequest): Option<seq<string>>
  {
    if r.ResumeStream? then r.stateSync else None
  }

  lemma {:induction false} PlainServed(config: Config, s: State, n: nat, input: Input, target: nat) returns (t: State)
    requires SchedOK(s) && RunsOn(s, n, target, Calling(Lookup)) && s.calls[target].request.Plain? && input.ok
    ensures Leads(config, n, input, s, t) && SchedOK(t) && Served(s, n, target, t) && t.stream == s.stream
    ensures QueuesGrow(s, t, s.calls[target].request.queue, [s.calls[target].request.frame])
  {
    hide SchedOK, Leads;
    Callback(config, s, n, input, target, Lookup);
    t := Finale(config, s, n, input, target, s.stream, [s.calls[target].request.frame]);
  }

  lemma {:induction false} SameOut(s: State, s1: State, t: State, queue: nat, frames: seq<Frame>)
    requires s1.queues == s.queues && s1.out == s.out && QueuesGrow(s1, t, queue, frames)
    ensures QueuesGrow(s, t, queue, frames)
  {
    forall k: nat
      ensures OutOf(t, k) == OutOf(s, k) + (if k == queue && !QueueOf(s, queue).closed then frames else [])
    {
      assert OutOf(s1, k) == OutOf(s, k) && QueueOf(s1, queue) == QueueOf(s, queue);
    }
  }

  lemma {:induction false} PublishServed(config: Config, s: State, n: nat, input: Input, target: nat) returns (t: State)
    requires SchedOK(s) && RunsOn(s, n, target, Calling(Lookup)) && s.calls[target].request.Publish? && input.ok
    ensures Leads(config, n, input, s, t) && SchedOK(t) && Served(s, n, target, t)
    ensures var r := s.calls[target].request;
            var a := ReplayStore.AppendTo(s.stream, config.sessionID, r.eventID, r.payload, r.timestamp, true);
            && t.stream == (if a.Appended? then a.stream else s.stream)
            && QueuesGrow(s, t, r.queue, if a.Appended? then [EventFrame(a.event)] else [])
  {
    hide SchedOK, Leads, ReplayStore.AppendTo;
    var r := s.calls[target].request;
    var a := ReplayStore.AppendTo(s.stream, config.sessionID, r.eventID, r.payload, r.timestamp, true);
    Callback(config, s, n, input, target, Lookup);
    Again(config, s, n, input, target, s.stream, Append);
    if a.Appended? {
      t := Finale(config, s, n, input, target, a.stream, [EventFrame(a.event)]);
    } else {
      var s2 := At(s, n, target, s.stream, Complete);
      t := Completes(config, s2, n, input, target);
      Then(config, n, input, s, s2, t);
      SameOut(s, s2, t, r.queue, []);
    }
  }

  /** The reply of a RESUME that stops at the high-water mark. */
  predicate StopsEarly(config: Config, stream: ReplayStore.Stream, r: LaneRequest)
    requires r.ResumeStream?
  {
    r.lastSeq > |stream.log| || r.lastSeq == MAX_U64 || |stream.log| - r.lastSeq > config.limits.maxEvents
  }

  /** The three dependency calls compute the reply, stage by stage. */
  lemma {:induction false} StagesReply(config: Config, server: ServerResume.Config, env: ServerResume.Environment,
                                       stream: ReplayStore.Stream, r: LaneRequest, input: Input)
    requires r.ResumeStream? && ReplayStore.StreamOK(config.sessionID, stream)
    requires WorksFor(config, server, env, input, r.stateSync)
    ensures var frames := FramesOf(config.sessionID, ServerResume.LaneReply(server, env, stream, config.sessionID,
                                                                            r.lastSeq, r.stateSync));
            var high := Body(config, stream, r, HighWater, input);
            && high.0 == stream && frames != []
            && (StopsEarly(config, stream, r) ==> high.1 == Delivering(frames))
            && (!StopsEarly(config, stream, r) ==>
                  && high.1 == Calling(Replay(|stream.log|))
                  && var replay := Body(config, stream, r, Replay(|stream.log|), input);
                     && replay.0 == stream
                     && (replay.1 == Delivering(frames)
                         || (&& replay.1.Calling? && replay.1.stage.Snapshot?
                             && Body(config, stream, r, replay.1.stage, input) == (stream, Delivering(frames)))))
  {
    hide ServerResume.BatchFrames, ServerResume.AllValid, ServerResume.ExactRange, ReplayStore.ReplayOf;
    hide ReplayStore.StreamOK;
    LogFits(config.sessionID, stream);
    BatchNotEmpty(config.sessionID, r.lastSeq, stream, r.stateSync, input);
    if !StopsEarly(config, stream, r) {
      LoadedIsExact(config, server, stream, r);
      var loaded := ReplayStore.ReplayOf(stream, r.lastSeq, |stream.log|, config.limits);
      if loaded.Events? && r.stateSync.None? {
        StatelessBatch(config.sessionID, r.lastSeq, |stream.log|, loaded.events, input);
      }
    }
  }

  lemma {:induction false} StatelessBatch(sessionID: string, lastSeq: u64, replayTo: u64, events: seq<Event>,
                                          input: Input)
    requires lastSeq < MAX_U64
    ensures ServerResume.BatchFrames(sessionID, lastSeq, replayTo, None, events, input.snapshotID, input.states)
         == ServerResume.BatchFrames(sessionID, lastSeq, replayTo, None, events, input.snapshotID, [])
  {
  }

  lemma {:induction false} LogFits(sessionID: string, stream: ReplayStore.Stream)
    requires ReplayStore.StreamOK(sessionID, stream)
    ensures |stream.log| <= MAX_U64
  {
  }

  lemma {:induction false} BatchNotEmpty(sessionID: string, lastSeq: u64, stream: ReplayStore.Stream,
                                         stateSync: Option<seq<string>>, input: Input)
    ensures lastSeq < MAX_U64 && |stream.log| <= MAX_U64 ==>
            forall events, states :: ServerResume.BatchFrames(sessionID, lastSeq, |stream.log|, stateSync, events,
                                                              input.snapshotID, states) != []
  {
  }

  lemma {:induction false} LoadedIsExact(config: Config, server: ServerResume.Config, stream: ReplayStore.Stream,
                                         r: LaneRequest)
    requires r.ResumeStream? && ReplayStore.StreamOK(config.sessionID, stream) && r.lastSeq <= |stream.log|
    requires server.replay == config.limits
    ensures var loaded := ReplayStore.ReplayOf(stream, r.lastSeq, |stream.log|, config.limits);
            loaded.Events? ==> ServerResume.ExactRange(loaded.events, config.sessionID, r.lastSeq, |stream.log|)
  {
    var loaded := ReplayStore.ReplayOf(stream, r.lastSeq, |stream.log|, config.limits);
    if loaded.Events? {
      ServerResume.ReplayIsExactRange(server, stream, config.sessionID, r.lastSeq);
    }
  }

  lemma {:induction false} ResumeServed(config: Config, server: ServerResume.Config, env: ServerResume.Environment,
                                        s: State, n: nat, input: Input, target: nat) returns (t: State)
    requires SchedOK(s) && RunsOn(s, n, target, Calling(HighWater)) && s.calls[target].request.ResumeStream?
    requires ReplayStore.StreamOK(config.sessionID, s.stream)
    requires WorksFor(config, server, env, input, s.calls[target].request.stateSync)
    ensures Leads(config, n, input, s, t) && SchedOK(t) && Served(s, n, target, t) && t.stream == s.stream
    ensures var r := s.calls[target].request;
            QueuesGrow(s, t, r.queue, FramesOf(config.sessionID,
              ServerResume.LaneReply(server, env, s.stream, config.sessionID, r.lastSeq, r.stateSync)))
  {
    hide SchedOK, Leads, Body, ServerResume.LaneReply, FramesOf, WorksFor, ReplayStore.StreamOK, Served, QueuesGrow;
    var r := s.calls[target].request;
    var frames := FramesOf(config.sessionID,
                           ServerResume.LaneReply(server, env, s.stream, config.sessionID, r.lastSeq, r.stateSync));
    StagesReply(config, server, env, s.stream, r, input);
    Callback(config, s, n, input, target, HighWater);
    if !StopsEarly(config, s.stream, r) {
      Again(config, s, n, input, target, s.stream, Replay(|s.stream.log|));
      var work := Body(config, s.stream, r, Replay(|s.stream.log|), input).1;
      if work != Delivering(frames) {
        Again(config, s, n, input, target, s.stream, work.stage);
      }
    }
    t := Finale(config, s, n, input, target, s.stream, frames);
  }

  /** One more dependency call after some others. */
  lemma {:induction false} Again(config: Config, s: State, n: nat, input: Input, target: nat,
                                 stream: ReplayStore.Stream, stage: Stage)
    requires n in s.calls && target in s.calls
    requires var u := At(s, n, target, stream, Calling(stage)); Leads(config, n, input, s, u) && SchedOK(u)
    ensures var (next, work) := Body(config, stream, s.calls[target].request, stage, input);
            var t := At(s, n, target, next, work);
            Leads(config, n, input, s, t) && SchedOK(t)
  {
    hide SchedOK, Leads, Body;
    var u := At(s, n, target, stream, Calling(stage));
    var (next, work) := Body(config, stream, s.calls[target].request, stage, input);
    Callback(config, u, n, input, target, stage);
    assert At(u, n, target, next, work).calls == At(s, n, target, next, work).calls;
    Then(config, n, input, s, u, At(s, n, target, next, work));
  }

  /** After the dependency calls, the frames. */
  lemma {:induction false} Finale(config: Config, s: State, n: nat, input: Input, target: nat,
                                  stream: ReplayStore.Stream, frames: seq<Frame>) returns (t: State)
    requires n in s.calls && target in s.calls
    requires var u := At(s, n, target, stream, Delivering(frames)); Leads(config, n, input, s, u) && SchedOK(u)
    ensures Leads(config, n, input, s, t) && SchedOK(t) && Served(s, n, target, t) && t.stream == stream
    ensures QueuesGrow(s, t, s.calls[target].request.queue, frames)
  {
    hide SchedOK, Leads, QueuesGrow;
    var u := At(s, n, target, stream, Delivering(frames));
    t := Delivers(config, u, n, input, target, frames);
    Then(config, n, input, s, u, t);
    SameOut(s, u, t, s.calls[target].request.queue, frames);
  }

  /** In every state the lane can be in: a request that is taken up and whose dependencies do not fail has
      exactly its effect on the history, its frames are enqueued at once on its own queue and nowhere else,
      and it is finished. */
  lemma {:induction false} RequestIsServed(config: Config, server: ServerResume.Config, env: ServerResume.Environment,
                                           s: State, n: nat, input: Input, target: nat) returns (t: State)
    requires SchedOK(s) && ReplayStore.StreamOK(config.sessionID, s.stream)
    requires n in s.calls && target in s.calls
    requires RunsOn(s, n, target, FirstWork(s.calls[target].request))
    requires WorksFor(config, server, env, input, SyncOf(s.calls[target].request))
    ensures Leads(config, n, input, s, t) && SchedOK(t) && Served(s, n, target, t)
    ensures var r := s.calls[target].request;
            var (stream, frames) := Effect(config, server, env, s.stream, r);
            t.stream == stream && QueuesGrow(s, t, r.queue, frames)
  {
    hide SchedOK, Leads, ServerResume.LaneReply, FramesOf, ReplayStore.StreamOK, ReplayStore.AppendTo, QueuesGrow;
    hide Served;
    var r := s.calls[target].request;
    match r
    case Plain(_, _) => t := PlainServed(config, s, n, input, target);
    case Publish(_, _, _, _) => t := PublishServed(config, s, n, input, target);
    case ResumeStream(_, _, _) => t := ResumeServed(config, server, env, s, n, input, target);
  }

  // ---------------------------------------------------------------- a whole call

  /** A caller that finds no lane makes one, submits, and takes up its own request. */
  lemma {:induction false} TakesUp(config: Config, s: State, n: nat, input: Input) returns (t: State)
    requires SchedOK(s) && s.current.None? && n in s.calls && s.calls[n].place.Arriving?
    ensures Leads(config, n, input, s, t) && SchedOK(t) && RunsOn(t, n, n, FirstWork(s.calls[n].request))
    ensures t.stream == s.stream && t.queues == s.queues && t.out == s.out && t.finished == s.finished
    ensures t.calls[n].request == s.calls[n].request && t.calls.Keys == s.calls.Keys
    ensures t.calls[n].lane < |t.lanes| && t.lanes[t.calls[n].lane].queue == []
  {
    hide SchedOK, Leads, WorkStep, DepartStep;
    var s1 := CallStep(config, s, n, input);
    One(config, n, input, s, s1);
    assert s1.calls[n].lane == |s.lanes| && s1.lanes[|s.lanes|] == Lanes.Lane(1, false, false, []);
    var s2 := CallStep(config, s1, n, input);
    Further(config, n, input, s, s1, s2);
    assert s2.calls[n].place == Popping && s2.lanes[|s.lanes|].queue == [n];
    t := CallStep(config, s2, n, input);
    Further(config, n, input, s, s2, t);
  }

  /** A runner that finds nothing more to do leaves. */
  lemma {:induction false} LeavesLane(config: Config, s: State, n: nat, input: Input) returns (t: State)
    requires SchedOK(s) && n in s.calls && s.calls[n].place.Popping?
    requires s.calls[n].lane < |s.lanes| && s.lanes[s.calls[n].lane].queue == []
    ensures Leads(config, n, input, s, t) && SchedOK(t) && n in t.calls && t.calls[n] == s.calls[n].(place := Gone)
    ensures t.stream == s.stream && t.out == s.out && t.finished == s.finished
  {
    hide SchedOK, Leads, WorkStep, SubmitStep, JoinStep;
    var s1 := CallStep(config, s, n, input);
    One(config, n, input, s, s1);
    t := CallStep(config, s1, n, input);
    Further(config, n, input, s, s1, t);
  }

  lemma {:induction false} Reachable(config: Config, moves: seq<Move>)
    ensures var s := RunOf(config, StreamLane.INITIAL, moves);
            SchedOK(s) && ReplayStore.StreamOK(config.sessionID, s.stream)
  {
    hide SchedOK, RunOf, ReplayStore.StreamOK, StreamOrder.QueuesOK, StreamOrder.RequestsOK;
    StreamOrder.InitiallyInOrder(config);
    StreamOrder.EveryRunKeepsStream(config, StreamLane.INITIAL, moves);
  }

  /** From every reachable state in which the Session's lane is idle, a caller that nothing disturbs and whose
      dependencies do not fail leaves with its request done: a publication has appended its event and
      enqueued it, a RESUME has enqueued the server's reply to it, any other request its frame. */
  lemma {:induction false} CallIsServed(config: Config, server: ServerResume.Config, env: ServerResume.Environment,
                                        moves: seq<Move>, n: nat, input: Input) returns (t: State)
    requires var s := RunOf(config, StreamLane.INITIAL, moves);
             && s.current.None? && n in s.calls && s.calls[n].place.Arriving?
             && WorksFor(config, server, env, input, SyncOf(s.calls[n].request))
    ensures var s := RunOf(config, StreamLane.INITIAL, moves);
            var r := s.calls[n].request;
            var (stream, frames) := Effect(config, server, env, s.stream, r);
            && Leads(config, n, input, s, t)
            && n in t.calls && t.calls[n].place == Gone && t.calls[n].done && t.finished == s.finished + [n]
            && t.stream == stream && QueuesGrow(s, t, r.queue, frames)
  {
    hide SchedOK, Leads, RunOf, Effect, WorksFor, ReplayStore.StreamOK;
    var s := RunOf(config, StreamLane.INITIAL, moves);
    Reachable(config, moves);
    var s1 := TakesUp(config, s, n, input);
    var s2 := RequestIsServed(config, server, env, s1, n, input, n);
    Then(config, n, input, s, s1, s2);
    t := LeavesLane(config, s2, n, input);
    Then(config, n, input, s, s2, t);
    var (stream, frames) := Effect(config, server, env, s.stream, s.calls[n].request);
    SameOut(s, s1, s2, s.calls[n].request.queue, frames);
    forall k: nat
      ensures OutOf(t, k) == OutOf(s, k) + (if k == s.calls[n].request.queue
                                               && !QueueOf(s, s.calls[n].request.queue).closed then frames else [])
    {
      assert OutOf(t, k) == OutOf(s2, k);
    }
  }
}
