/** What one lane per Session means for the frames on an outbound queue. */
module StreamOrder {
  import opened Wire
  import opened Protocol
  import opened StreamLane
  import ClientInvariant
  import Outbound
  import ReplayStore
  import ServerResume

  // ---------------------------------------------------------------- scheduling

  /** In every interleaving the Session has at most one live lane; requests are executed one at a time,
      in the order they were accepted, each exactly once; whoever waits has a runner at work, and
      whoever leaves with an accepted request leaves with its result. */
  lemma {:induction false} OneLaneInOrder(config: Config, moves: seq<Move>)
    ensures var s := RunOf(config, StreamLane.INITIAL, moves);
            && (forall a, b | a in s.calls && b in s.calls && Using(s.calls[a].place) && Using(s.calls[b].place) ::
                  s.calls[a].lane == s.calls[b].lane)
            && (forall a, b | a in s.calls && b in s.calls && s.calls[a].place.Running? && s.calls[b].place.Running? ::
                a == b)
            && s.accepted == s.finished + Active(s) + LaneQueue(s) && |Active(s)| <= 1
            && Distinct(s.accepted)
            && (forall n | n in s.calls && s.calls[n].place.Queued? && !s.calls[n].done :: s.runner.Some?)
            && (forall n | n in s.calls && s.calls[n].place.Gone? && n in s.accepted :: s.calls[n].done)
  {
    assert Users(map[]) == {};
    StreamLane.EveryRunKeeps(config, StreamLane.INITIAL, moves);
    var s := RunOf(config, StreamLane.INITIAL, moves);
    forall n | n in s.calls && s.calls[n].place.Queued? && !s.calls[n].done
      ensures s.runner.Some?
    {
      assert n in s.accepted && n !in s.finished;
      assert n in LaneQueue(s) || n in Active(s);
    }
  }

  // ---------------------------------------------------------------- properties of one queue

  predicate IsEvent(config: Config, f: Frame)
  {
    f.EventFrame? && f.event.sessionID == config.sessionID
  }

  predicate IsResumed(config: Config, f: Frame)
  {
    f.Welcome? && f.sessionID == config.sessionID && f.mode.Resumed?
  }

  /** How many RESUMED WELCOMEs of the Session there are. */
  function Welcomes(config: Config, frames: seq<Frame>): nat
  {
    if frames == [] then 0
    else Welcomes(config, frames[..|frames| - 1]) + (if IsResumed(config, frames[|frames| - 1]) then 1 else 0)
  }

  /** EVENTs between two consecutive RESUMED WELCOMEs have strictly increasing positions. */
  predicate Increasing(config: Config, frames: seq<Frame>)
  {
    forall i, j | 0 <= i < j < |frames| :: OrderedPair(config, frames, i, j)
  }

  predicate OrderedPair(config: Config, frames: seq<Frame>, i: nat, j: nat)
    requires i < |frames| && j < |frames|
  {
    IsEvent(config, frames[i]) && IsEvent(config, frames[j])
      && Welcomes(config, frames[..i]) == Welcomes(config, frames[..j])
    ==> frames[i].event.seqNo < frames[j].event.seqNo
  }

  /** A RESUMED WELCOME is followed at once by the whole range it announces. */
  predicate Followed(config: Config, log: seq<Event>, frames: seq<Frame>, i: nat)
    requires i < |frames|
  {
    IsResumed(config, frames[i]) ==>
      var from: int, to: int := frames[i].mode.resumeFrom, frames[i].mode.replayTo;
      && 0 < from <= to + 1 && to <= |log|
      && i + (to - from + 1) < |frames|
      && frames[i + 1..i + 1 + (to - from + 1)] == ServerResume.EventFrames(log[from - 1..to])
  }

  predicate AllFollowed(config: Config, log: seq<Event>, frames: seq<Frame>)
  {
    forall i | 0 <= i < |frames| :: Followed(config, log, frames, i)
  }

  predicate Below(config: Config, frames: seq<Frame>, bound: nat)
  {
    forall i | 0 <= i < |frames| && IsEvent(config, frames[i]) :: frames[i].event.seqNo < bound
  }

  predicate QueueOK(config: Config, log: seq<Event>, frames: seq<Frame>, bound: nat)
  {
    Increasing(config, frames) && AllFollowed(config, log, frames) && Below(config, frames, bound)
  }

  // ---------------------------------------------------------------- appending

  /** EVENTs since the last RESUMED WELCOME lie below `bound`. */
  predicate RecentBelow(config: Config, frames: seq<Frame>, bound: nat)
  {
    forall i | 0 <= i < |frames| && IsEvent(config, frames[i])
      && Welcomes(config, frames[..i]) == Welcomes(config, frames) ::
      frames[i].event.seqNo < bound
  }

  lemma {:induction false} WelcomesGrow(config: Config, frames: seq<Frame>, f: Frame)
    ensures Welcomes(config, frames + [f]) == Welcomes(config, frames) + (if IsResumed(config, f) then 1 else 0)
  {
    assert (frames + [f])[..|frames|] == frames;
  }

  lemma {:induction false} WelcomesMonotone(config: Config, frames: seq<Frame>, i: nat)
    requires i <= |frames|
    ensures Welcomes(config, frames[..i]) <= Welcomes(config, frames)
    decreases |frames| - i
  {
    if i < |frames| {
      WelcomesGrow(config, frames[..i], frames[i]);
      assert frames[..i + 1] == frames[..i] + [frames[i]];
      WelcomesMonotone(config, frames, i + 1);
    } else {
      assert frames[..i] == frames;
    }
  }

  lemma {:induction false} IncreasingAppend(config: Config, frames: seq<Frame>, f: Frame)
    requires Increasing(config, frames)
    requires IsEvent(config, f) ==> RecentBelow(config, frames, f.event.seqNo)
    ensures Increasing(config, frames + [f])
  {
    var all := frames + [f];
    assert all[..|frames|] == frames;
    forall i, j | 0 <= i < j < |all|
      ensures OrderedPair(config, all, i, j)
    {
      assert all[..i] == frames[..i];
      if j < |frames| {
        assert all[..j] == frames[..j];
        assert OrderedPair(config, frames, i, j);
      }
    }
  }

  lemma {:induction false} RecentAppend(config: Config, frames: seq<Frame>, f: Frame, bound: nat)
    requires RecentBelow(config, frames, bound) || IsResumed(config, f)
    requires IsEvent(config, f) ==> f.event.seqNo < bound
    ensures RecentBelow(config, frames + [f], bound)
  {
    var all := frames + [f];
    WelcomesGrow(config, frames, f);
    forall i | 0 <= i < |all| && IsEvent(config, all[i]) && Welcomes(config, all[..i]) == Welcomes(config, all)
      ensures all[i].event.seqNo < bound
    {
      if i < |frames| {
        assert all[..i] == frames[..i];
        WelcomesMonotone(config, frames, i);
      }
    }
  }

  lemma {:induction false} RecentFromBelow(config: Config, frames: seq<Frame>, bound: nat)
    requires Below(config, frames, bound)
    ensures RecentBelow(config, frames, bound)
  {
  }

  /** A run of consecutive events after a boundary. */
  lemma {:induction false} EventsAppend(config: Config, frames: seq<Frame>, events: seq<Event>, after: nat)
    requires Increasing(config, frames) && RecentBelow(config, frames, after + 1)
    requires ClientInvariant.Consecutive(events, config.sessionID, after)
    ensures Increasing(config, frames + ServerResume.EventFrames(events))
    decreases |events|
  {
    if events == [] {
      assert frames + ServerResume.EventFrames(events) == frames;
    } else {
      var f, rest := EventFrame(events[0]), events[1..];
      IncreasingAppend(config, frames, f);
      assert RecentBelow(config, frames, after + 2);
      RecentAppend(config, frames, f, after + 2);
      EventsAppend(config, frames + [f], rest, after + 1);
      assert ServerResume.EventFrames(events) == [f] + ServerResume.EventFrames(rest);
      assert frames + [f] + ServerResume.EventFrames(rest) == frames + ServerResume.EventFrames(events);
    }
  }

  /** The tail of a batch after its WELCOME and events. */
  predicate QuietTail(config: Config, tail: seq<Frame>)
  {
    |tail| <= 1 && forall f | f in tail :: !OfStream(config, f)
  }

  lemma {:induction false} IncreasingBatch(config: Config, frames: seq<Frame>, welcome: Frame, events: seq<Event>,
                                           after: nat, tail: seq<Frame>)
    requires Increasing(config, frames) && IsResumed(config, welcome) && QuietTail(config, tail)
    requires ClientInvariant.Consecutive(events, config.sessionID, after)
    ensures Increasing(config, frames + ([welcome] + ServerResume.EventFrames(events) + tail))
  {
    IncreasingAppend(config, frames, welcome);
    WelcomeResets(config, frames, welcome, after + 1);
    EventsAppend(config, frames + [welcome], events, after);
    var most := frames + [welcome] + ServerResume.EventFrames(events);
    if tail == [] {
      assert frames + ([welcome] + ServerResume.EventFrames(events) + tail) == most;
    } else {
      assert tail[0] in tail;
      IncreasingAppend(config, most, tail[0]);
      assert frames + ([welcome] + ServerResume.EventFrames(events) + tail) == most + [tail[0]];
    }
  }

  lemma {:induction false} WelcomeResets(config: Config, frames: seq<Frame>, welcome: Frame, bound: nat)
    requires IsResumed(config, welcome)
    ensures RecentBelow(config, frames + [welcome], bound)
  {
    RecentAppend(config, frames, welcome, bound);
  }

  lemma {:induction false} FollowedStays(config: Config, log: seq<Event>, more: seq<Event>, frames: seq<Frame>,
                                         tail: seq<Frame>)
    requires AllFollowed(config, log, frames)
    ensures forall i | 0 <= i < |frames| :: Followed(config, log + more, frames + tail, i)
  {
    forall i | 0 <= i < |frames|
      ensures Followed(config, log + more, frames + tail, i)
    {
      assert Followed(config, log, frames, i);
      if IsResumed(config, frames[i]) {
        var from: int, to: int := frames[i].mode.resumeFrom, frames[i].mode.replayTo;
        var end: nat := i + 1 + (to - from + 1);
        assert (frames + tail)[i + 1..end] == frames[i + 1..end];
        assert (log + more)[from - 1..to] == log[from - 1..to];
      }
    }
  }

  lemma {:induction false} FollowedBatch(config: Config, log: seq<Event>, frames: seq<Frame>, lastSeq: u64,
                                         stateSync: Option<seq<string>>, tail: seq<Frame>)
    requires AllFollowed(config, log, frames) && lastSeq <= |log| <= MAX_U64 && lastSeq < MAX_U64
             && QuietTail(config, tail)
    ensures var welcome := Welcome(config.sessionID, Resumed(lastSeq + 1, |log|, stateSync));
            AllFollowed(config, log, frames + ([welcome] + ServerResume.EventFrames(log[lastSeq..]) + tail))
  {
    var welcome := Welcome(config.sessionID, Resumed(lastSeq + 1, |log|, stateSync));
    var batch := [welcome] + ServerResume.EventFrames(log[lastSeq..]) + tail;
    var all := frames + batch;
    FollowedStays(config, log, [], frames, batch);
    assert log + [] == log;
    forall i | |frames| <= i < |all|
      ensures Followed(config, log, all, i)
    {
      assert all[i] == batch[i - |frames|];
      if i == |frames| {
        assert all[i + 1..i + 1 + |log[lastSeq..]|] == ServerResume.EventFrames(log[lastSeq..]);
        assert log[lastSeq..|log|] == log[lastSeq..];
      } else if i == |frames| + 1 + |log[lastSeq..]| {
        assert all[i] == tail[0] && tail[0] in tail;
      }
    }
  }

  // ---------------------------------------------------------------- the invariant

  /** The request has appended and not yet enqueued. */
  predicate HoldsEvent(r: LaneRequest, work: Work)
  {
    r.Publish? && (work.Delivering? || (work.Returning? && work.next.Delivering?))
  }

  ghost predicate StageFits(stream: ReplayStore.Stream, r: LaneRequest, stage: Stage)
  {
    match stage
    case Lookup => !r.ResumeStream?
    case Append => r.Publish?
    case HighWater => r.ResumeStream?
    case Replay(replayTo) => r.ResumeStream? && r.lastSeq < MAX_U64 && r.lastSeq <= replayTo == |stream.log|
    case Snapshot(replayTo, events) =>
      r.ResumeStream? && r.lastSeq < MAX_U64 && r.lastSeq <= replayTo == |stream.log|
        && events == stream.log[r.lastSeq..]
  }

  /** What a request is about to enqueue: its new event, the whole missed range, or nothing of the stream. */
  ghost predicate FramesFit(config: Config, stream: ReplayStore.Stream, r: LaneRequest, frames: seq<Frame>)
  {
    if r.Publish? then |stream.log| > 0 && frames == [EventFrame(stream.log[|stream.log| - 1])]
    else
      || QuietTail(config, frames)
      || (&& r.ResumeStream? && r.lastSeq < MAX_U64 && r.lastSeq <= |stream.log| <= MAX_U64
          && exists tail | QuietTail(config, tail) :: frames == WholeBatch(config, stream, r, tail))
  }

  function WholeBatch(config: Config, stream: ReplayStore.Stream, r: LaneRequest, tail: seq<Frame>): seq<Frame>
    requires r.ResumeStream? && r.lastSeq < MAX_U64 && r.lastSeq <= |stream.log| <= MAX_U64
  {
    [Welcome(config.sessionID, Resumed(r.lastSeq + 1, |stream.log|, r.stateSync))]
      + ServerResume.EventFrames(stream.log[r.lastSeq..]) + tail
  }

  ghost predicate WorkFits(config: Config, stream: ReplayStore.Stream, r: LaneRequest, work: Work)
  {
    match work
    case Calling(stage) => StageFits(stream, r, stage)
    case Within(stage) => StageFits(stream, r, stage)
    case Returning(next) => WorkFits(config, stream, r, next)
    case Delivering(frames) => FramesFit(config, stream, r, frames)
    case Complete => true
  }

  predicate Busy(s: State)
  {
    && s.runner.Some? && s.runner.value in s.calls && s.calls[s.runner.value].place.Running?
    && s.calls[s.runner.value].place.target in s.calls
  }

  function CurrentRequest(s: State): LaneRequest
    requires Busy(s)
  {
    s.calls[s.calls[s.runner.value].place.target].request
  }

  function CurrentWork(s: State): Work
    requires Busy(s)
  {
    s.calls[s.runner.value].place.work
  }

  /** Every EVENT enqueued so far lies below this. */
  function Bound(s: State): nat
  {
    if Busy(s) && HoldsEvent(CurrentRequest(s), CurrentWork(s)) then |s.stream.log| else |s.stream.log| + 1
  }

  predicate RequestsOK(config: Config, s: State)
  {
    forall n | n in s.calls && s.calls[n].request.Plain? :: !OfStream(config, s.calls[n].request.frame)
  }

  ghost predicate QueuesOK(config: Config, s: State, bound: nat)
  {
    forall q | q in s.out :: QueueOK(config, s.stream.log, s.out[q], bound)
  }

  ghost predicate StreamStateOK(config: Config, s: State)
  {
    && SchedOK(s) && RequestsOK(config, s)
    && ReplayStore.StreamOK(config.sessionID, s.stream)
    && (Busy(s) ==> WorkFits(config, s.stream, CurrentRequest(s), CurrentWork(s)))
    && QueuesOK(config, s, Bound(s))
  }

  // ---------------------------------------------------------------- bodies

  /** An append keeps everything enqueued in order, and holds the next position. */
  lemma {:induction false} StreamGrows(config: Config, s: State, stream: ReplayStore.Stream, event: Event, bound: nat)
    requires QueuesOK(config, s, bound) && stream.log == s.stream.log + [event]
    ensures QueuesOK(config, s.(stream := stream), bound)
  {
    forall q | q in s.out
      ensures QueueOK(config, stream.log, s.out[q], bound)
    {
      assert QueueOK(config, s.stream.log, s.out[q], bound);
      FollowedStays(config, s.stream.log, [event], s.out[q], []);
      assert s.out[q] + [] == s.out[q];
    }
  }

  lemma {:induction false} HigherBound(config: Config, s: State, bound: nat, higher: nat)
    requires QueuesOK(config, s, bound) && bound <= higher
    ensures QueuesOK(config, s, higher)
  {
    forall q | q in s.out
      ensures QueueOK(config, s.stream.log, s.out[q], higher)
    {
      assert QueueOK(config, s.stream.log, s.out[q], bound);
    }
  }

  lemma {:induction false} ReplayLoads(config: Config, stream: ReplayStore.Stream, r: LaneRequest)
    requires ReplayStore.StreamOK(config.sessionID, stream) && StageFits(stream, r, Replay(|stream.log|))
    ensures var loaded := ReplayStore.ReplayOf(stream, r.lastSeq, |stream.log|, config.limits);
            loaded.Events? ==> loaded.events == stream.log[r.lastSeq..]
  {
    ReplayStore.ReplayExactly(config.sessionID, stream, r.lastSeq, |stream.log|, config.limits);
  }

  lemma {:induction false} BatchFits(config: Config, stream: ReplayStore.Stream, r: LaneRequest, input: Input)
    requires ReplayStore.StreamOK(config.sessionID, stream) && StageFits(stream, r, Replay(|stream.log|))
    ensures WorkFits(config, stream, r, Batch(config, r, |stream.log|, stream.log[r.lastSeq..], input))
  {
    var tail := if r.stateSync.Some? then [StateSnapshot(input.snapshotID, config.sessionID, input.states)] else [];
    var frames := ServerResume.BatchFrames(config.sessionID, r.lastSeq, |stream.log|, r.stateSync,
                                           stream.log[r.lastSeq..], input.snapshotID, input.states);
    assert QuietTail(config, tail);
    assert frames == WholeBatch(config, stream, r, tail);
  }

  lemma {:induction false} RefusalFits(config: Config, stream: ReplayStore.Stream, r: LaneRequest, code: Code)
    requires !r.Publish?
    ensures WorkFits(config, stream, r, Refusal(config, code))
  {
  }

  /** The body of a dependency call leaves work that fits the stream it leaves. */
  lemma {:induction false} BodyFits(config: Config, stream: ReplayStore.Stream, r: LaneRequest, stage: Stage,
                                    input: Input)
    requires ReplayStore.StreamOK(config.sessionID, stream) && StageFits(stream, r, stage)
    requires r.Plain? ==> !OfStream(config, r.frame)
    ensures var (next, work) := Body(config, stream, r, stage, input);
            && ReplayStore.StreamOK(config.sessionID, next) && WorkFits(config, next, r, work)
            && (next == stream || (r.Publish? && exists e :: next.log == stream.log + [e]))
            && (HoldsEvent(r, work) ==> next != stream)
  {
    match stage
    case Lookup =>
    case Append =>
      if r.Publish? {
        ReplayStore.AppendKeepsStream(stream, config.sessionID, r.eventID, r.payload, r.timestamp, true);
        var a := ReplayStore.AppendTo(stream, config.sessionID, r.eventID, r.payload, r.timestamp, true);
        if a.Appended? { assert a.stream.log == stream.log + [a.event]; }
      }
    case HighWater =>
      RefusalFits(config, stream, r, Internal);
      RefusalFits(config, stream, r, ProtocolViolation);
      RefusalFits(config, stream, r, SyncRequired);
    case Replay(replayTo) =>
      ReplayLoads(config, stream, r);
      BatchFits(config, stream, r, input);
      RefusalFits(config, stream, r, SyncRequired);
      RefusalFits(config, stream, r, Internal);
    case Snapshot(replayTo, events) =>
      BatchFits(config, stream, r, input);
      RefusalFits(config, stream, r, StateUnavailable);
  }

  // ---------------------------------------------------------------- enqueueing

  lemma {:induction false} EmptyQueueOK(config: Config, s: State, queue: nat, bound: nat)
    requires QueuesOK(config, s, bound)
    ensures QueueOK(config, s.stream.log, OutOf(s, queue), bound)
  {
  }

  lemma {:induction false} OperateKeeps(config: Config, s: State, queue: nat, a: Outbound.Action<Frame>, bound: nat)
    requires QueuesOK(config, s, bound)
    requires QueueOK(config, s.stream.log, OutOf(s, queue) + Outbound.Accepted(QueueOf(s, queue), a), bound)
    ensures QueuesOK(config, Operate(s, queue, a), bound)
  {
  }

  lemma {:induction false} NothingAccepted(config: Config, s: State, queue: nat, a: Outbound.Action<Frame>, bound: nat)
    requires QueuesOK(config, s, bound) && Outbound.Accepted(QueueOf(s, queue), a) == []
    ensures QueuesOK(config, Operate(s, queue, a), bound)
  {
    EmptyQueueOK(config, s, queue, bound);
    assert OutOf(s, queue) + [] == OutOf(s, queue);
    OperateKeeps(config, s, queue, a, bound);
  }

  /** Accepted whole or, on a closed queue, not at all. */
  lemma {:induction false} SendKeeps(config: Config, s: State, queue: nat, frames: seq<Frame>, bound: nat)
    requires QueuesOK(config, s, bound)
    requires QueueOK(config, s.stream.log, OutOf(s, queue) + frames, bound)
    ensures QueuesOK(config, Emit(s, queue, frames), bound)
  {
    if QueueOf(s, queue).closed {
      NothingAccepted(config, s, queue, Outbound.EnqueueBatch(frames), bound);
    } else {
      OperateKeeps(config, s, queue, Outbound.EnqueueBatch(frames), bound);
    }
  }

  lemma {:induction false} QuietFits(config: Config, log: seq<Event>, frames: seq<Frame>, tail: seq<Frame>, bound: nat)
    requires QueueOK(config, log, frames, bound) && QuietTail(config, tail)
    ensures QueueOK(config, log, frames + tail, bound)
  {
    if tail == [] {
      assert frames + tail == frames;
    } else {
      assert tail[0] in tail && tail == [tail[0]];
      IncreasingAppend(config, frames, tail[0]);
      FollowedStays(config, log, [], frames, tail);
      assert log + [] == log;
    }
  }

  lemma {:induction false} EventFits(config: Config, log: seq<Event>, frames: seq<Frame>)
    requires |log| > 0 && QueueOK(config, log, frames, |log|) && log[|log| - 1].seqNo == |log|
    ensures QueueOK(config, log, frames + [EventFrame(log[|log| - 1])], |log| + 1)
  {
    var f := EventFrame(log[|log| - 1]);
    RecentFromBelow(config, frames, |log|);
    IncreasingAppend(config, frames, f);
    FollowedStays(config, log, [], frames, [f]);
    assert log + [] == log;
  }

  lemma {:induction false} WholeBatchFits(config: Config, stream: ReplayStore.Stream, frames: seq<Frame>,
                                          r: LaneRequest, tail: seq<Frame>)
    requires ReplayStore.StreamOK(config.sessionID, stream) && QueueOK(config, stream.log, frames, |stream.log| + 1)
    requires r.ResumeStream? && r.lastSeq < MAX_U64 && r.lastSeq <= |stream.log| && QuietTail(config, tail)
    ensures QueueOK(config, stream.log, frames + WholeBatch(config, stream, r, tail), |stream.log| + 1)
  {
    hide Increasing, AllFollowed, Below, QuietTail, ServerResume.EventFrames, IsEvent;
    var log, missed := stream.log, stream.log[r.lastSeq..];
    var welcome := Welcome(config.sessionID, Resumed(r.lastSeq + 1, |log|, r.stateSync));
    IncreasingBatch(config, frames, welcome, missed, r.lastSeq, tail);
    FollowedBatch(config, log, frames, r.lastSeq, r.stateSync, tail);
    BatchBelow(config, frames, welcome, missed, tail, |log| + 1);
  }

  lemma {:induction false} BelowConcat(config: Config, a: seq<Frame>, b: seq<Frame>, bound: nat)
    requires Below(config, a, bound) && Below(config, b, bound)
    ensures Below(config, a + b, bound)
  {
  }

  lemma {:induction false} BatchBelow(config: Config, frames: seq<Frame>, welcome: Frame, events: seq<Event>,
                                      tail: seq<Frame>, bound: nat)
    requires Below(config, frames, bound) && welcome.Welcome? && QuietTail(config, tail)
    requires forall i | 0 <= i < |events| :: events[i].seqNo < bound
    ensures Below(config, frames + ([welcome] + ServerResume.EventFrames(events) + tail), bound)
  {
    assert forall i | 0 <= i < |tail| :: tail[i] in tail;
    BelowConcat(config, [welcome], ServerResume.EventFrames(events), bound);
    BelowConcat(config, [welcome] + ServerResume.EventFrames(events), tail, bound);
    BelowConcat(config, frames, [welcome] + ServerResume.EventFrames(events) + tail, bound);
  }

  /** Whatever a request enqueues keeps the queue in order. */
  lemma {:induction false} DeliveryFits(config: Config, s: State, r: LaneRequest, frames: seq<Frame>)
    requires ReplayStore.StreamOK(config.sessionID, s.stream) && FramesFit(config, s.stream, r, frames)
    requires QueuesOK(config, s, if r.Publish? then |s.stream.log| else |s.stream.log| + 1)
    ensures QueuesOK(config, Emit(s, r.queue, frames), |s.stream.log| + 1)
  {
    var before, log := OutOf(s, r.queue), s.stream.log;
    EmptyQueueOK(config, s, r.queue, if r.Publish? then |log| else |log| + 1);
    if r.Publish? {
      EventFits(config, log, before);
      HigherBound(config, s, |log|, |log| + 1);
    } else if QuietTail(config, frames) {
      QuietFits(config, log, before, frames, |log| + 1);
    } else {
      var tail :| QuietTail(config, tail) && frames == WholeBatch(config, s.stream, r, tail);
      WholeBatchFits(config, s.stream, before, r, tail);
    }
    SendKeeps(config, s, r.queue, frames, |log| + 1);
  }

  // ---------------------------------------------------------------- every step

  /** A step that leaves the stream, the queues and the current work alone. */
  lemma {:induction false} Unrelated(config: Config, s: State, t: State)
    requires StreamStateOK(config, s) && SchedOK(t) && RequestsOK(config, t)
    requires t.stream == s.stream && t.out == s.out
    requires !Busy(t) || (Busy(s) && CurrentRequest(t) == CurrentRequest(s) && CurrentWork(t) == CurrentWork(s))
    requires Busy(s) && HoldsEvent(CurrentRequest(s), CurrentWork(s)) ==> Busy(t)
    ensures StreamStateOK(config, t)
  {
    HigherBound(config, s, Bound(s), Bound(t));
  }

  lemma {:induction false} StartFits(config: Config, s: State, t: State, r: LaneRequest)
    requires StreamStateOK(config, s) && SchedOK(t) && RequestsOK(config, t) && !Busy(s) && Busy(t)
    requires t.stream == s.stream && t.out == s.out
    requires CurrentRequest(t) == r && CurrentWork(t) == FirstWork(r)
    ensures StreamStateOK(config, t)
  {
  }

  lemma {:induction false} NotBusy(s: State, n: nat)
    requires SchedOK(s) && n in s.calls && s.calls[n].place.Popping?
    ensures !Busy(s)
  {
    assert s.runner == Some(n);
  }

  lemma {:induction false} BusyIs(s: State, n: nat)
    requires SchedOK(s) && n in s.calls && s.calls[n].place.Running?
    ensures Busy(s) && s.runner == Some(n)
  {
    TargetKnown(s, n);
  }

  /** Steps of callers other than the runner. */
  lemma {:induction false} CallerKeeps(config: Config, s: State, n: nat, input: Input)
    requires StreamStateOK(config, s) && n in s.calls && !Drains(s.calls[n].place)
    ensures StreamStateOK(config, CallStep(config, s, n, input))
  {
    hide LaneOK, RunnerOK, OrderOK, ResultsOK, QueueOK, CallStep;
    var t := CallStep(config, s, n, input);
    StreamLane.CallKeeps(config, s, n, input);
    CallerShape(config, s, n, input);
    CallerIsNotAtWork(config, s, n, t);
    Unrelated(config, s, t);
  }

  /** Nothing moved but caller `n`, which is not at work. */
  predicate OnlyCaller(s: State, n: nat, t: State)
  {
    && n in s.calls && n in t.calls && t.stream == s.stream && t.out == s.out
    && t.calls == s.calls[n := t.calls[n]] && t.calls[n].request == s.calls[n].request
    && !t.calls[n].place.Running? && (t.runner == s.runner || (s.runner.None? && t.runner == Some(n)))
  }

  lemma {:induction false} SubmitEdge(s: State, n: nat)
    requires LaneOK(s) && RunnerOK(s) && n in s.calls && s.calls[n].place.Joined? && s.calls[n].lane < |s.lanes|
    ensures OnlyCaller(s, n, SubmitStep(s, n))
  {
    hide Users;
    assert s.current == Some(s.calls[n].lane);
  }

  lemma {:induction false} EdgeSteps(s: State, n: nat)
    requires n in s.calls && !Drains(s.calls[n].place)
    ensures s.calls[n].place.Arriving? ==> OnlyCaller(s, n, JoinStep(s, n))
    ensures s.calls[n].place.Departing? && s.calls[n].lane < |s.lanes| ==> OnlyCaller(s, n, DepartStep(s, n))
    ensures OnlyCaller(s, n, Goto(s, n, Departing)) && OnlyCaller(s, n, s)
  {
    assert s.calls == s.calls[n := s.calls[n]];
  }

  lemma {:induction false} CallerShape(config: Config, s: State, n: nat, input: Input)
    requires SchedOK(s) && n in s.calls && !Drains(s.calls[n].place)
    ensures OnlyCaller(s, n, CallStep(config, s, n, input))
  {
    hide LaneOK, RunnerOK, OrderOK, ResultsOK, WorkStep, PopStep, SubmitStep, JoinStep, DepartStep;
    EdgeSteps(s, n);
    if s.calls[n].place.Joined? && s.calls[n].lane < |s.lanes| {
      SubmitEdge(s, n);
    }
  }

  lemma {:induction false} CallerIsNotAtWork(config: Config, s: State, n: nat, t: State)
    requires SchedOK(s) && RequestsOK(config, s) && n in s.calls && !Drains(s.calls[n].place) && OnlyCaller(s, n, t)
    ensures RequestsOK(config, t) && (Busy(t) <==> Busy(s))
    ensures Busy(s) ==> CurrentRequest(t) == CurrentRequest(s) && CurrentWork(t) == CurrentWork(s)
  {
    assert s.runner != Some(n);
  }

  lemma {:induction false} PopKeeps(config: Config, s: State, n: nat, input: Input)
    requires StreamStateOK(config, s) && n in s.calls && s.calls[n].place.Popping?
    ensures StreamStateOK(config, CallStep(config, s, n, input))
  {
    hide LaneOK, RunnerOK, OrderOK, ResultsOK, QueueOK, Body, FramesFit, Operate, WorkStep, PopStep, SubmitStep,
         JoinStep, DepartStep;
    var t := CallStep(config, s, n, input);
    StreamLane.CallKeeps(config, s, n, input);
    NotBusy(s, n);
    PopperKnown(s, n);
    PopShapes(config, s, n);
    if LaneQueue(s) == [] {
      Unrelated(config, s, t);
    } else {
      StartFits(config, s, t, s.calls[LaneQueue(s)[0]].request);
    }
  }

  /** Taking nothing ends the drain; taking a request starts its work. */
  lemma {:induction false} PopShapes(config: Config, s: State, n: nat)
    requires SchedOK(s) && RequestsOK(config, s) && n in s.calls && s.calls[n].place.Popping?
             && s.calls[n].lane < |s.lanes|
    ensures var t := PopStep(s, n);
            && t.stream == s.stream && t.out == s.out && RequestsOK(config, t)
            && (LaneQueue(s) == [] ==> !Busy(t))
            && (LaneQueue(s) != [] ==>
                  && LaneQueue(s)[0] in s.calls && Busy(t)
                  && var r := s.calls[LaneQueue(s)[0]].request;
                     CurrentRequest(t) == r && CurrentWork(t) == FirstWork(r))
  {
    hide LaneOK, ResultsOK, RunnerOK;
    PopperKnown(s, n);
    var t := PopStep(s, n);
    assert t.calls == s.calls[n := t.calls[n]] && t.calls[n].request == s.calls[n].request;
    if LaneQueue(s) != [] {
      FirstKnown(s);
    }
  }

  lemma {:induction false} FirstKnown(s: State)
    requires OrderOK(s) && LaneQueue(s) != []
    ensures LaneQueue(s)[0] in s.calls
  {
    assert s.accepted[|s.started|] == LaneQueue(s)[0];
  }

  /** One step of the work itself: the target's request stays, the work moves on. */
  lemma {:induction false} WorkShape(config: Config, s: State, n: nat, input: Input, next: Work)
    requires SchedOK(s) && RequestsOK(config, s) && n in s.calls && s.calls[n].place.Running?
    requires CallStep(config, s, n, input).calls
             == s.calls[n := s.calls[n].(place := Running(s.calls[n].place.target, next))]
    requires CallStep(config, s, n, input).runner == s.runner
    ensures var t := CallStep(config, s, n, input);
            && Busy(s) && Busy(t) && RequestsOK(config, t)
            && CurrentRequest(t) == CurrentRequest(s) && CurrentWork(t) == next
               && CurrentWork(s) == s.calls[n].place.work
  {
    hide CallStep;
    BusyIs(s, n);
  }

  lemma {:induction false} FlagKeeps(config: Config, s: State, n: nat, input: Input, next: Work)
    requires StreamStateOK(config, s) && n in s.calls && s.calls[n].place.Running?
    requires var work := s.calls[n].place.work;
             (work.Calling? && next == Within(work.stage)) || (work.Returning? && next == work.next)
    ensures StreamStateOK(config, CallStep(config, s, n, input))
  {
    hide LaneOK, RunnerOK, OrderOK, ResultsOK, QueueOK, Body, FramesFit, Operate, PopStep, SubmitStep, JoinStep,
         DepartStep, FinishStep;
    var t := CallStep(config, s, n, input);
    StreamLane.CallKeeps(config, s, n, input);
    TargetKnown(s, n);
    WorkShape(config, s, n, input, next);
    assert Bound(t) == Bound(s);
  }

  lemma {:induction false} WithinKeeps(config: Config, s: State, n: nat, input: Input)
    requires StreamStateOK(config, s) && n in s.calls && s.calls[n].place.Running? && s.calls[n].place.work.Within?
    ensures StreamStateOK(config, CallStep(config, s, n, input))
  {
    hide LaneOK, RunnerOK, OrderOK, ResultsOK, QueueOK, Body, FramesFit, Operate, PopStep, SubmitStep, JoinStep,
         DepartStep, FinishStep;
    var t := CallStep(config, s, n, input);
    var stage := s.calls[n].place.work.stage;
    StreamLane.CallKeeps(config, s, n, input);
    TargetKnown(s, n);
    BusyIs(s, n);
    var r := CurrentRequest(s);
    var (stream, next) := Body(config, s.stream, r, stage, input);
    WorkShape(config, s, n, input, Returning(next));
    BodyKeeps(config, s, r, stage, input);
    assert Bound(s) == |s.stream.log| + 1;
    assert Bound(t) == if HoldsEvent(r, Returning(next)) then |stream.log| else |stream.log| + 1;
    SameQueues(config, s.(stream := stream), t, Bound(t));
  }

  lemma {:induction false} BodyKeeps(config: Config, s: State, r: LaneRequest, stage: Stage, input: Input)
    requires ReplayStore.StreamOK(config.sessionID, s.stream) && StageFits(s.stream, r, stage)
    requires r.Plain? ==> !OfStream(config, r.frame)
    requires QueuesOK(config, s, |s.stream.log| + 1)
    ensures var (stream, next) := Body(config, s.stream, r, stage, input);
            && ReplayStore.StreamOK(config.sessionID, stream) && WorkFits(config, stream, r, next)
            && QueuesOK(config, s.(stream := stream), if HoldsEvent(r, Returning(next)) then |stream.log|
                        else |stream.log| + 1)
  {
    BodyFits(config, s.stream, r, stage, input);
    BodySettled(config, s.stream, r, stage, input);
    var (stream, next) := Body(config, s.stream, r, stage, input);
    if stream != s.stream {
      var e :| stream.log == s.stream.log + [e];
      StreamGrows(config, s, stream, e, |s.stream.log| + 1);
      HigherBound(config, s.(stream := stream), |s.stream.log| + 1, |stream.log| + 1);
    }
  }

  lemma {:induction false} DeliverQueues(config: Config, s: State, n: nat)
    requires StreamStateOK(config, s) && n in s.calls && s.calls[n].place.Running? && s.calls[n].place.work.Delivering?
    ensures Busy(s) && s.runner == Some(n)
    ensures QueuesOK(config, Emit(s, CurrentRequest(s).queue, s.calls[n].place.work.frames), |s.stream.log| + 1)
  {
    BusyIs(s, n);
    DeliveryFits(config, s, CurrentRequest(s), s.calls[n].place.work.frames);
  }

  lemma {:induction false} SameQueues(config: Config, s: State, t: State, bound: nat)
    requires QueuesOK(config, s, bound) && t.out == s.out && t.stream == s.stream
    ensures QueuesOK(config, t, bound)
  {
  }

  lemma {:induction false} EmitShape(s: State, queue: nat, frames: seq<Frame>)
    ensures var e := Emit(s, queue, frames); e == s.(queues := e.queues, out := e.out, sent := e.sent)
  {
  }

  lemma {:induction false} DeliverKeeps(config: Config, s: State, n: nat, input: Input)
    requires StreamStateOK(config, s) && n in s.calls && s.calls[n].place.Running? && s.calls[n].place.work.Delivering?
    ensures StreamStateOK(config, CallStep(config, s, n, input))
  {
    hide LaneOK, RunnerOK, OrderOK, ResultsOK, QueueOK, Body, FramesFit, Operate, PopStep, SubmitStep, JoinStep,
         DepartStep, FinishStep;
    var t := CallStep(config, s, n, input);
    StreamLane.CallKeeps(config, s, n, input);
    TargetKnown(s, n);
    DeliverQueues(config, s, n);
    EmitShape(s, CurrentRequest(s).queue, s.calls[n].place.work.frames);
    WorkShape(config, s, n, input, Complete);
    SameQueues(config, Emit(s, CurrentRequest(s).queue, s.calls[n].place.work.frames), t, |s.stream.log| + 1);
  }

  lemma {:induction false} CompleteKeeps(config: Config, s: State, n: nat, input: Input)
    requires StreamStateOK(config, s) && n in s.calls && s.calls[n].place.Running? && s.calls[n].place.work.Complete?
    ensures StreamStateOK(config, CallStep(config, s, n, input))
  {
    hide LaneOK, OrderOK, ResultsOK, QueueOK, Body, FramesFit, Operate, PopStep, SubmitStep, JoinStep, DepartStep;
    var t := CallStep(config, s, n, input);
    StreamLane.CallKeeps(config, s, n, input);
    TargetKnown(s, n);
    BusyIs(s, n);
    assert t == FinishStep(s, n, s.calls[n].place.target);
    assert !Busy(t) && RequestsOK(config, t);
    Unrelated(config, s, t);
  }

  lemma {:induction false} CallKeepsStream(config: Config, s: State, n: nat, input: Input)
    requires StreamStateOK(config, s) && n in s.calls
    ensures StreamStateOK(config, CallStep(config, s, n, input))
  {
    hide StreamStateOK, CallStep;
    var place := s.calls[n].place;
    if place.Popping? {
      PopKeeps(config, s, n, input);
    } else if !place.Running? {
      CallerKeeps(config, s, n, input);
    } else {
      match place.work
      case Calling(stage) => FlagKeeps(config, s, n, input, Within(stage));
      case Within(_) => WithinKeeps(config, s, n, input);
      case Returning(next) => FlagKeeps(config, s, n, input, next);
      case Delivering(_) => DeliverKeeps(config, s, n, input);
      case Complete => CompleteKeeps(config, s, n, input);
    }
  }

  lemma {:induction false} BeginKeepsStream(config: Config, s: State, m: Move)
    requires StreamStateOK(config, s) && m.Begin? && Next(config, s, m) != s
    ensures StreamStateOK(config, Next(config, s, m))
  {
    hide LaneOK, OrderOK, ResultsOK;
    var t := Next(config, s, m);
    StreamLane.MoveKeeps(config, s, m);
    assert s.runner.Some? ==> s.runner.value in s.calls;
    assert RequestsOK(config, t);
    BusyBefore(s, t, m.call);
    Unrelated(config, s, t);
  }

  lemma {:induction false} BusyBefore(s: State, t: State, n: nat)
    requires SchedOK(s) && n !in s.calls && n in t.calls && t == s.(calls := s.calls[n := t.calls[n]])
    ensures Busy(t) <==> Busy(s)
    ensures Busy(s) ==> CurrentRequest(t) == CurrentRequest(s) && CurrentWork(t) == CurrentWork(s)
  {
    if s.runner.Some? && s.calls[s.runner.value].place.Running? {
      TargetKnown(s, s.runner.value);
    }
  }

  lemma {:induction false} PruneKeepsStreamState(config: Config, s: State, m: Move)
    requires StreamStateOK(config, s) && m.PruneStream?
    ensures StreamStateOK(config, Next(config, s, m))
  {
    var t := Next(config, s, m);
    StreamLane.MoveKeeps(config, s, m);
    ReplayStore.PruneKeepsStream(s.stream, config.sessionID, m.firstAvailable);
    if Busy(s) { SameLogFits(config, s.stream, t.stream, CurrentRequest(s), CurrentWork(s)); }
    assert Bound(t) == Bound(s);
  }

  lemma {:induction false} SameLogFits(config: Config, a: ReplayStore.Stream, b: ReplayStore.Stream, r: LaneRequest,
                                       work: Work)
    requires a.log == b.log
    ensures WorkFits(config, a, r, work) ==> WorkFits(config, b, r, work)
    decreases work
  {
    if work.Returning? { SameLogFits(config, a, b, r, work.next); }
  }

  lemma {:induction false} ForeignKeeps(config: Config, s: State, m: Move)
    requires StreamStateOK(config, s) && m.Foreign? && !OfStream(config, m.frame)
    ensures StreamStateOK(config, Next(config, s, m))
  {
    var t := Next(config, s, m);
    StreamLane.MoveKeeps(config, s, m);
    EmptyQueueOK(config, s, m.queue, Bound(s));
    QuietFits(config, s.stream.log, OutOf(s, m.queue), [m.frame], Bound(s));
    SendKeeps(config, s, m.queue, [m.frame], Bound(s));
    assert Bound(t) == Bound(s);
  }

  /** Closing and taking accept nothing. */
  lemma {:induction false} QueueMoveKeeps(config: Config, s: State, m: Move)
    requires StreamStateOK(config, s) && (m.CloseQueue? || m.TakeFrame?)
    ensures StreamStateOK(config, Next(config, s, m))
  {
    hide LaneOK, RunnerOK, OrderOK, ResultsOK, QueueOK;
    var t := Next(config, s, m);
    StreamLane.MoveKeeps(config, s, m);
    NothingAccepted(config, s, m.queue, if m.CloseQueue? then Outbound.Close else Outbound.Next, Bound(s));
    assert Bound(t) == Bound(s);
  }

  lemma {:induction false} MoveKeepsStream(config: Config, s: State, m: Move)
    requires StreamStateOK(config, s)
    ensures StreamStateOK(config, Next(config, s, m))
  {
    hide StreamStateOK, CallStep, Operate;
    match m
    case Begin(_, _) => if Next(config, s, m) != s { BeginKeepsStream(config, s, m); }
    case Proceed(n, input) => if n in s.calls { CallKeepsStream(config, s, n, input); }
    case PruneStream(_) => PruneKeepsStreamState(config, s, m);
    case CloseQueue(_) => QueueMoveKeeps(config, s, m);
    case TakeFrame(_) => QueueMoveKeeps(config, s, m);
    case Foreign(_, frame) => if !OfStream(config, frame) { ForeignKeeps(config, s, m); }
  }

  lemma {:induction false} EveryRunKeepsStream(config: Config, s: State, moves: seq<Move>)
    requires StreamStateOK(config, s)
    ensures StreamStateOK(config, RunOf(config, s, moves))
    decreases |moves|
  {
    hide StreamStateOK, Next;
    if moves == [] {
    } else {
      MoveKeepsStream(config, s, moves[0]);
      EveryRunKeepsStream(config, Next(config, s, moves[0]), moves[1..]);
    }
  }

  lemma {:induction false} InitiallyInOrder(config: Config)
    ensures StreamStateOK(config, StreamLane.INITIAL)
  {
    assert Users(map[]) == {};
  }

  // ---------------------------------------------------------------- what is taken from a queue

  /** Every queue holds what it accepted and did not hand out yet. */
  ghost predicate LinesOK(s: State)
  {
    forall q: nat :: OutOf(s, q) == SentOf(s, q) + QueueOf(s, q).frames
  }

  lemma {:induction false} LineMoves(out: seq<Frame>, sent: seq<Frame>, q: Outbound.Queue<Frame>,
                                     a: Outbound.Action<Frame>)
    requires out == sent + q.frames
    ensures out + Outbound.Accepted(q, a) == sent + Outbound.Returned(q, a) + Outbound.After(q, a).frames
  {
    Outbound.OneConserves(q, a);
    assert sent + q.frames + Outbound.Accepted(q, a) == sent + (q.frames + Outbound.Accepted(q, a));
    assert sent + (Outbound.Returned(q, a) + Outbound.After(q, a).frames)
        == sent + Outbound.Returned(q, a) + Outbound.After(q, a).frames;
  }

  lemma {:induction false} OperateKeepsLines(s: State, queue: nat, a: Outbound.Action<Frame>)
    requires LinesOK(s)
    ensures LinesOK(Operate(s, queue, a))
  {
    hide Outbound.Accepted, Outbound.Returned, Outbound.After;
    var t := Operate(s, queue, a);
    assert OutOf(s, queue) == SentOf(s, queue) + QueueOf(s, queue).frames;
    LineMoves(OutOf(s, queue), SentOf(s, queue), QueueOf(s, queue), a);
    forall k: nat
      ensures OutOf(t, k) == SentOf(t, k) + QueueOf(t, k).frames
    {
      assert OutOf(s, k) == SentOf(s, k) + QueueOf(s, k).frames;
    }
  }

  predicate QueuesAlike(s: State, t: State)
  {
    t.queues == s.queues && t.out == s.out && t.sent == s.sent
  }

  /** The queues are as they were, or one batch further. */
  ghost predicate QueuesFrom(s: State, t: State)
  {
    QueuesAlike(s, t) || exists q: nat, frames :: QueuesAlike(Emit(s, q, frames), t)
  }

  /** Joining, submitting, taking and departing leave every queue alone. */
  lemma {:induction false} LaneLeavesQueues(s: State, n: nat)
    requires n in s.calls
    ensures QueuesAlike(s, JoinStep(s, n))
    ensures s.calls[n].lane < |s.lanes| ==>
              QueuesAlike(s, SubmitStep(s, n)) && QueuesAlike(s, PopStep(s, n)) && QueuesAlike(s, DepartStep(s, n))
  {
    hide FirstWork;
  }

  lemma {:induction false} WorkQueues(config: Config, s: State, n: nat, target: nat, work: Work, input: Input)
    requires n in s.calls && s.calls[n].lane < |s.lanes| && target in s.calls
    ensures QueuesFrom(s, WorkStep(config, s, n, target, work, input))
  {
    hide Body, Operate;
    var t := WorkStep(config, s, n, target, work, input);
    if work.Delivering? {
      var e := Emit(s, s.calls[target].request.queue, work.frames);
      assert QueuesAlike(e, t);
    }
  }

  lemma {:induction false} CallQueues(config: Config, s: State, n: nat, input: Input)
    requires n in s.calls
    ensures QueuesFrom(s, CallStep(config, s, n, input))
  {
    hide SubmitStep, PopStep, JoinStep, DepartStep, WorkStep;
    var c := s.calls[n];
    LaneLeavesQueues(s, n);
    if c.place.Running? && c.place.target in s.calls && c.lane < |s.lanes| {
      WorkQueues(config, s, n, c.place.target, c.place.work, input);
    }
  }

  lemma {:induction false} SameLines(s: State, t: State)
    requires LinesOK(s) && QueuesAlike(s, t)
    ensures LinesOK(t)
  {
    forall k: nat
      ensures OutOf(t, k) == SentOf(t, k) + QueueOf(t, k).frames
    {
      assert OutOf(s, k) == SentOf(s, k) + QueueOf(s, k).frames;
    }
  }

  lemma {:induction false} MoveKeepsLines(config: Config, s: State, m: Move)
    requires LinesOK(s)
    ensures LinesOK(Next(config, s, m))
  {
    hide CallStep, Operate, LinesOK;
    var t := Next(config, s, m);
    match m
    case Proceed(n, input) =>
      if n in s.calls {
        CallQueues(config, s, n, input);
        if QueuesAlike(s, t) {
          SameLines(s, t);
        } else {
          var q: nat, frames :| QueuesAlike(Emit(s, q, frames), t);
          OperateKeepsLines(s, q, Outbound.EnqueueBatch(frames));
          SameLines(Emit(s, q, frames), t);
        }
      }
    case CloseQueue(q) => OperateKeepsLines(s, q, Outbound.Close);
    case TakeFrame(q) => OperateKeepsLines(s, q, Outbound.Next);
    case Foreign(q, frame) => OperateKeepsLines(s, q, Outbound.EnqueueBatch([frame]));
    case _ => SameLines(s, t);
  }

  lemma {:induction false} EveryRunKeepsLines(config: Config, s: State, moves: seq<Move>)
    requires LinesOK(s)
    ensures LinesOK(RunOf(config, s, moves))
    decreases |moves|
  {
    hide Next, LinesOK;
    if moves == [] {
    } else {
      MoveKeepsLines(config, s, moves[0]);
      EveryRunKeepsLines(config, Next(config, s, moves[0]), moves[1..]);
    }
  }

  /** On every queue, in every interleaving of publications, resumptions, other operations, pruning,
      closing and taking: a RESUMED WELCOME is followed at once by its whole replay, between two RESUMED
      WELCOMEs the EVENTs of the Session have strictly increasing positions, and what the writer has
      taken is a first part of just that. */
  lemma {:induction false} QueuesInOrder(config: Config, moves: seq<Move>, queue: nat)
    ensures var s := RunOf(config, StreamLane.INITIAL, moves);
            && AllFollowed(config, s.stream.log, OutOf(s, queue)) && Increasing(config, OutOf(s, queue))
            && SentOf(s, queue) <= OutOf(s, queue)
  {
    InitiallyInOrder(config);
    EveryRunKeepsStream(config, StreamLane.INITIAL, moves);
    EveryRunKeepsLines(config, StreamLane.INITIAL, moves);
    var s := RunOf(config, StreamLane.INITIAL, moves);
    EmptyQueueOK(config, s, queue, Bound(s));
    assert OutOf(s, queue) == SentOf(s, queue) + QueueOf(s, queue).frames;
  }
}
