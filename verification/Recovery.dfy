/** Client and server together: a recovery that the limits admit always completes. */
module Recovery {
  import opened Wire
  import opened Protocol
  import opened ClientMachine
  import opened ClientInvariant
  import ReplayStore
  import ServerResume
  import Snapshot
  import StateBatch
  import StateMerge

  /** One step after the other over a list of frames; stops at the first reported error. */
  function Chain(step: (Client, Frame) -> Outcome, c: Client, frames: seq<Frame>): Outcome
    decreases |frames|
  {
    if frames == [] then Done(c, [])
    else
      match step(c, frames[0])
      case Failed(next, error) => Failed(next, error)
      case Done(next, actions) => Continue(actions, Chain(step, next, frames[1..]))
  }

  function Continue(actions: seq<Action>, rest: Outcome): Outcome
  {
    match rest
    case Failed(last, error) => Failed(last, error)
    case Done(last, more) => Done(last, actions + more)
  }

  lemma {:induction false} ChainConcat(step: (Client, Frame) -> Outcome, c: Client, a: seq<Frame>, b: seq<Frame>,
                                       mid: Client, actions: seq<Action>)
    requires Chain(step, c, a) == Done(mid, actions)
    ensures Chain(step, c, a + b) == Continue(actions, Chain(step, mid, b))
    decreases |a|
  {
    var last := Chain(step, mid, b);
    if a == [] {
      assert a + b == b;
      ContinueNothing(last);
    } else {
      var first := step(c, a[0]);
      var rest := Chain(step, first.client, a[1..]);
      assert (a + b)[0] == a[0] && (a + b)[1..] == a[1..] + b;
      ChainConcat(step, first.client, a[1..], b, mid, rest.actions);
      ContinueTwice(first.actions, rest.actions, last);
    }
  }

  lemma {:induction false} ContinueNothing(rest: Outcome)
    ensures Continue([], rest) == rest
  {
    assert rest.Done? ==> [] + rest.actions == rest.actions;
  }

  lemma {:induction false} ContinueTwice(a: seq<Action>, b: seq<Action>, rest: Outcome)
    ensures Continue(a, Continue(b, rest)) == Continue(a + b, rest)
  {
    assert rest.Done? ==> a + (b + rest.actions) == a + b + rest.actions;
  }

  /** Frames of the current connection, each handled by the client. */
  function Feed(config: Config, c: Client, frames: seq<Frame>): Outcome
  {
    Chain(Receiver(config), c, frames)
  }

  function Receiver(config: Config): (Client, Frame) -> Outcome
  {
    (c: Client, frame: Frame) => HandleIncoming(config, c, c.generation, Parsed(frame), true)
  }

  lemma {:induction false} FeedConcat(config: Config, c: Client, a: seq<Frame>, b: seq<Frame>, mid: Client,
                                      actions: seq<Action>)
    requires Feed(config, c, a) == Done(mid, actions)
    ensures Feed(config, c, a + b) == Continue(actions, Feed(config, mid, b))
  {
    ChainConcat(Receiver(config), c, a, b, mid, actions);
  }

  lemma {:induction false} FeedOne(config: Config, c: Client, frame: Frame)
    requires HandleIncoming(config, c, c.generation, Parsed(frame), true).Done?
    ensures Feed(config, c, [frame]) == HandleIncoming(config, c, c.generation, Parsed(frame), true)
  {
    var r := HandleIncoming(config, c, c.generation, Parsed(frame), true);
    assert [frame][1..] == [];
    assert Feed(config, r.client, []) == Done(r.client, []);
    assert r.actions + [] == r.actions;
  }

  // ---------------------------------------------------------------- before the boundary is fixed

  /** An EVENT that was in flight when the gap was noticed: newer, or a known duplicate. */
  predicate InFlight(c: Client, e: Event)
  {
    && e.sessionID == c.sessionID
    && (e.seqNo > c.lastSeq || (e.seqNo in c.eventIDs && c.eventIDs[e.seqNo] == e.id))
  }

  lemma {:induction false} InFlightIgnored(config: Config, c: Client, events: seq<Event>)
    requires c.phase == Resuming && c.staging.replayTo == 0 && c.staging.gap
    requires forall i | 0 <= i < |events| :: InFlight(c, events[i])
    ensures Feed(config, c, ServerResume.EventFrames(events)) == Done(c, [])
    decreases |events|
  {
    if events == [] {
    } else {
      var frames := ServerResume.EventFrames(events);
      assert frames[0] == EventFrame(events[0]);
      assert HandleIncoming(config, c, c.generation, Parsed(frames[0]), true) == Done(c, []);
      assert frames[1..] == ServerResume.EventFrames(events[1..]);
      InFlightIgnored(config, c, events[1..]);
    }
  }

  // ---------------------------------------------------------------- the range

  /** The client with the first part of the announced range staged. */
  function Staged(c: Client, replayTo: u64, buffer: seq<Event>, complete: bool): Client
  {
    c.(staging := Staging(replayTo, buffer, BufferBytes(buffer), c.staging.namespaces, complete, false))
  }

  lemma {:induction false} BufferPrefix(a: seq<Event>, b: seq<Event>)
    requires a <= b
    ensures BufferBytes(a) <= BufferBytes(b)
    decreases |b|
  {
    if |a| < |b| {
      BufferPrefix(a, b[..|b| - 1]);
    } else {
      assert a == b;
    }
  }

  predicate Admits(config: Config, missed: seq<Event>)
  {
    |missed| <= config.maxReplayEvents && BufferBytes(missed) <= config.maxReplayBytes
  }

  lemma {:induction false} ReplayFrame(config: Config, c: Client, e: Event)
    requires c.phase == Resuming && e.sessionID == c.sessionID && e.seqNo > c.lastSeq
    ensures var r := HandleReplayEvent(config, c, e);
            r.Act? ==> HandleIncoming(config, c, c.generation, Parsed(EventFrame(e)), true) == Done(r.client, r.actions)
  {
  }

  lemma {:induction false} StagedNext(config: Config, c: Client, replayTo: u64, missed: seq<Event>, n: nat)
    requires n < |missed| == replayTo - c.lastSeq
    requires Consecutive(missed, c.sessionID, c.lastSeq) && Admits(config, missed)
    ensures var before := Staged(c, replayTo, missed[..n], false);
            && Expected(before, missed[n]) && Fits(config, before.staging, missed[n])
            && (missed[n].seqNo == replayTo <==> n + 1 == |missed|)
    ensures forall complete: bool ::
              Grown(Staged(c, replayTo, missed[..n], false), missed[n], complete)
                == Staged(c, replayTo, missed[..n + 1], complete)
  {
    assert missed[..n + 1] == missed[..n] + [missed[n]];
    BufferGrows(missed[..n], missed[n]);
    BufferPrefix(missed[..n + 1], missed);
  }

  /** One more event of the range. */
  lemma {:induction false} StageOne(config: Config, c: Client, replayTo: u64, missed: seq<Event>, n: nat)
    requires c.phase == Resuming && n < |missed| == replayTo - c.lastSeq
    requires Consecutive(missed, c.sessionID, c.lastSeq) && Admits(config, missed)
    ensures var before, after := Staged(c, replayTo, missed[..n], false), Staged(c, replayTo, missed[..n + 1], false);
            HandleIncoming(config, before, before.generation, Parsed(EventFrame(missed[n])), true) ==
              if n + 1 < |missed| then Done(after, [])
              else if c.staging.namespaces != [] then Done(Staged(c, replayTo, missed, true), [])
              else var f := FinishReplay(config, after, []); Done(f.client, f.actions)
  {
    var before := Staged(c, replayTo, missed[..n], false);
    StagedNext(config, c, replayTo, missed, n);
    ReplayEventCases(config, before, missed[n]);
    ReplayFrame(config, before, missed[n]);
    if n + 1 == |missed| {
      assert missed[..n + 1] == missed;
    }
  }

  lemma {:induction false} RangeStaged(config: Config, c: Client, replayTo: u64, missed: seq<Event>, n: nat)
    requires c.phase == Resuming && n < |missed| == replayTo - c.lastSeq
    requires Consecutive(missed, c.sessionID, c.lastSeq) && Admits(config, missed)
    ensures Feed(config, Staged(c, replayTo, missed[..n], false), ServerResume.EventFrames(missed[n..])) ==
              if c.staging.namespaces != [] then Done(Staged(c, replayTo, missed, true), [])
              else var f := FinishReplay(config, Staged(c, replayTo, missed, false), []); Done(f.client, f.actions)
    decreases |missed| - n
  {
    hide Consecutive, Admits, FinishReplay, ClientMachine.HandleIncoming;
    var before := Staged(c, replayTo, missed[..n], false);
    var frames := ServerResume.EventFrames(missed[n..]);
    assert frames[0] == EventFrame(missed[n]);
    assert missed[n..][1..] == missed[n + 1..];
    assert frames[1..] == ServerResume.EventFrames(missed[n + 1..]);
    StageOne(config, c, replayTo, missed, n);
    if n + 1 < |missed| {
      RangeStaged(config, c, replayTo, missed, n + 1);
    } else {
      assert missed[..n + 1] == missed;
      assert frames[1..] == [];
      FeedOne(config, before, frames[0]);
      assert frames == [frames[0]];
    }
  }

  // ---------------------------------------------------------------- the whole exchange

  /** A recovery that has just begun: RESUME is out, nothing came back yet. */
  predicate Begun(c: Client)
  {
    c.phase == Resuming && c.staging == NO_STAGING.(namespaces := c.staging.namespaces, gap := c.staging.gap)
  }

  function SyncOf(c: Client): Option<seq<string>>
  {
    if c.staging.namespaces == [] then None else Some(c.staging.namespaces)
  }

  lemma {:induction false} BoundaryFixed(config: Config, c: Client, replayTo: u64)
    requires c.phase == Resuming && c.lastSeq <= replayTo && c.lastSeq < MAX_U64
    requires replayTo - c.lastSeq <= config.maxReplayEvents
    requires replayTo != c.lastSeq || c.staging.namespaces != []
    ensures HandleIncoming(config, c, c.generation,
                           Parsed(Welcome(c.sessionID, Resumed(c.lastSeq + 1, replayTo, SyncOf(c)))), true)
         == Done(Staged(c, replayTo, [], replayTo == c.lastSeq), [])
  {
  }

  lemma {:induction false} SnapshotFinishes(config: Config, c: Client, replayTo: u64, missed: seq<Event>, id: string,
                                            states: seq<StateMerge.StateObject>)
    requires c.phase == Resuming && c.staging.namespaces != [] && StateSyncEnabled(c.capabilities)
    requires forall i | 0 <= i < |states| :: states[i].namespace in c.staging.namespaces
    requires StateMerge.ApplyBatch(config.cache, c.cache, states).Committed?
    ensures var applied := StateMerge.ApplyBatch(config.cache, c.cache, states);
            var staged := Staged(c, replayTo, missed, true);
            var f := FinishReplay(config, staged.(cache := applied.cache), Changes(applied.changes));
            HandleIncoming(config, staged, staged.generation, Parsed(StateSnapshot(id, c.sessionID, states)), true)
            == Done(f.client, f.actions)
  {
  }

  /** What the client ends with: the stream up to the boundary, the State of the snapshot, READY. */
  predicate Completed(c: Client, missed: seq<Event>, cache: StateMerge.Cache, changes: seq<StateMerge.StateObject>,
                      r: Outcome)
  {
    && r.Done?
    && r.client.phase == Ready && r.client.staging == NO_STAGING
    && r.client.sessionID == c.sessionID && r.client.lastSeq == c.lastSeq + |missed|
    && r.client.cache == cache && r.client.outbox == c.outbox
    && r.actions == Deliveries(missed) + Changes(changes) + [SessionReady(c.sessionID)]
  }

  lemma {:induction false} FinishCompletes(config: Config, c: Client, h: History, replayTo: u64, missed: seq<Event>,
                                           complete: bool,
                        cache: StateMerge.Cache, changes: seq<StateMerge.StateObject>)
    requires Inv(config, Run(c, h)) && Consecutive(missed, c.sessionID, c.lastSeq)
    ensures var f := FinishReplay(config, Staged(c, replayTo, missed, complete).(cache := cache), Changes(changes));
            Completed(c, missed, cache, changes, Done(f.client, f.actions))
  {
    AdvanceDelivers(config, Staged(c, replayTo, missed, complete).(cache := cache), missed, h.delivered);
  }

  /** Nothing was missed: the boundary alone completes the recovery. */
  lemma {:induction false} NothingMissed(config: Config, c: Client)
    requires Begun(c) && c.staging.namespaces == [] && c.lastSeq < MAX_U64
    ensures Completed(c, [], c.cache, [],
                      Feed(config, c, [Welcome(c.sessionID, Resumed(c.lastSeq + 1, c.lastSeq, None))]))
  {
    FeedOne(config, c, Welcome(c.sessionID, Resumed(c.lastSeq + 1, c.lastSeq, None)));
    assert Deliveries([]) + Changes([]) + [SessionReady(c.sessionID)] == [SessionReady(c.sessionID)];
  }

  lemma {:induction false} RangeCompletes(config: Config, c: Client, h: History, replayTo: u64, missed: seq<Event>)
    requires Inv(config, Run(c, h)) && c.phase == Resuming && c.staging.namespaces == [] && missed != []
    requires Consecutive(missed, c.sessionID, c.lastSeq) && |missed| == replayTo - c.lastSeq && Admits(config, missed)
    ensures Completed(c, missed, c.cache, [],
                      Feed(config, Staged(c, replayTo, [], false), ServerResume.EventFrames(missed)))
  {
    assert missed[..0] == [] && missed[0..] == missed;
    RangeStaged(config, c, replayTo, missed, 0);
    FinishCompletes(config, c, h, replayTo, missed, false, c.cache, []);
    assert Changes([]) == [];
    assert Staged(c, replayTo, missed, false).(cache := c.cache) == Staged(c, replayTo, missed, false);
  }

  /** EVENT replay alone. */
  lemma {:induction false} EventsComplete(config: Config, c: Client, h: History, replayTo: u64, missed: seq<Event>)
    requires Inv(config, Run(c, h)) && Begun(c) && c.staging.namespaces == []
    requires Consecutive(missed, c.sessionID, c.lastSeq) && |missed| == replayTo - c.lastSeq
    requires Admits(config, missed) && c.lastSeq < MAX_U64
    ensures Completed(c, missed, c.cache, [],
              Feed(config, c, [Welcome(c.sessionID, Resumed(c.lastSeq + 1, replayTo, None))]
                   + ServerResume.EventFrames(missed)))
  {
    var welcome := Welcome(c.sessionID, Resumed(c.lastSeq + 1, replayTo, None));
    if missed == [] {
      NothingMissed(config, c);
      assert [welcome] + ServerResume.EventFrames(missed) == [welcome];
    } else {
      BoundaryFixed(config, c, replayTo);
      FeedOne(config, c, welcome);
      RangeCompletes(config, c, h, replayTo, missed);
      FeedConcat(config, c, [welcome], ServerResume.EventFrames(missed), Staged(c, replayTo, [], false), []);
      ContinueNothing(Feed(config, Staged(c, replayTo, [], false), ServerResume.EventFrames(missed)));
    }
  }

  /** The staged range when a snapshot is still to come. */
  lemma {:induction false} EventsStaged(config: Config, c: Client, replayTo: u64, missed: seq<Event>)
    requires Begun(c) && c.staging.namespaces != []
    requires Consecutive(missed, c.sessionID, c.lastSeq) && |missed| == replayTo - c.lastSeq
    requires Admits(config, missed) && c.lastSeq < MAX_U64
    ensures Feed(config, c, [Welcome(c.sessionID, Resumed(c.lastSeq + 1, replayTo, SyncOf(c)))]
                 + ServerResume.EventFrames(missed))
         == Done(Staged(c, replayTo, missed, true), [])
  {
    var welcome := Welcome(c.sessionID, Resumed(c.lastSeq + 1, replayTo, SyncOf(c)));
    BoundaryFixed(config, c, replayTo);
    FeedOne(config, c, welcome);
    if missed == [] {
      assert [welcome] + ServerResume.EventFrames(missed) == [welcome];
    } else {
      assert missed[..0] == [] && missed[0..] == missed;
      RangeStaged(config, c, replayTo, missed, 0);
      FeedConcat(config, c, [welcome], ServerResume.EventFrames(missed), Staged(c, replayTo, [], false), []);
    }
  }

  /** EVENT replay followed by one State snapshot. */
  lemma {:induction false} EventsAndStateComplete(config: Config, c: Client, h: History, replayTo: u64,
                                                  missed: seq<Event>,
                               id: string, states: seq<StateMerge.StateObject>)
    requires Inv(config, Run(c, h)) && Begun(c) && c.staging.namespaces != [] && StateSyncEnabled(c.capabilities)
    requires Consecutive(missed, c.sessionID, c.lastSeq) && |missed| == replayTo - c.lastSeq
    requires Admits(config, missed) && c.lastSeq < MAX_U64
    requires forall i | 0 <= i < |states| :: states[i].namespace in c.staging.namespaces
    requires StateMerge.ApplyBatch(config.cache, c.cache, states).Committed?
    ensures var applied := StateMerge.ApplyBatch(config.cache, c.cache, states);
            Completed(c, missed, applied.cache, applied.changes,
              Feed(config, c, [Welcome(c.sessionID, Resumed(c.lastSeq + 1, replayTo, SyncOf(c)))]
                              + ServerResume.EventFrames(missed) + [StateSnapshot(id, c.sessionID, states)]))
  {
    var applied := StateMerge.ApplyBatch(config.cache, c.cache, states);
    var head := [Welcome(c.sessionID, Resumed(c.lastSeq + 1, replayTo, SyncOf(c)))] + ServerResume.EventFrames(missed);
    var snapshot := StateSnapshot(id, c.sessionID, states);
    var staged := Staged(c, replayTo, missed, true);
    EventsStaged(config, c, replayTo, missed);
    SnapshotFinishes(config, c, replayTo, missed, id, states);
    FeedOne(config, staged, snapshot);
    FeedConcat(config, c, head, [snapshot], staged, []);
    FinishCompletes(config, c, h, replayTo, missed, true, applied.cache, applied.changes);
    ContinueNothing(Feed(config, staged, [snapshot]));
  }

  lemma {:induction false} SnapshotShape(config: Snapshot.Config, provided: seq<StateMerge.StateObject>,
                                         namespaces: seq<string>)
    requires Snapshot.SnapshotOf(config, provided, namespaces).Some?
    ensures var states := Snapshot.SnapshotOf(config, provided, namespaces).value;
            && (forall i | 0 <= i < |states| :: states[i].namespace in namespaces)
            && StateMerge.DistinctIdentities(states)
  {
    var states := Snapshot.Sort(provided);
    Snapshot.SortCanonical(provided);
    forall i | 0 <= i < |states|
      ensures states[i].namespace in namespaces
    {
      Snapshot.SortedStayValid(config, provided, namespaces, i);
    }
  }

  /** The client can take the reply: its limits admit the missed range, and the snapshot is neither
      stale nor conflicting nor too large for its cache. */
  ghost predicate ClientAdmits(config: Config, c: Client, missed: seq<Event>, states: seq<StateMerge.StateObject>)
  {
    && Admits(config, missed)
    && (c.staging.namespaces != [] ==>
          StateSyncEnabled(c.capabilities) && StateBatch.Takes(config.cache, c.cache.objects, states))
  }

  /** Recovery is complete. Whenever the server answers the RESUME of a client with a batch, and the
      client's own limits admit it, feeding the batch (after any EVENTs that were in flight when a gap
      was noticed) ends READY at the server's high-water mark, having delivered exactly the missed
      events, then the State changes, then READY. */
  lemma {:induction false} RecoveryCompletes(config: Config, server: ServerResume.Config, env: ServerResume.Environment,
                          c: Client, h: History, s: ReplayStore.Stream, inFlight: seq<Event>)
    requires Inv(config, Run(c, h)) && Begun(c)
    requires ReplayStore.StreamOK(c.sessionID, s)
    requires ServerResume.LaneReply(server, env, s, c.sessionID, c.lastSeq, SyncOf(c)).Batch?
    requires ClientAdmits(config, c, s.log[c.lastSeq..], ServerResume.StatesFor(server, env, SyncOf(c)).value)
    requires inFlight != [] ==> c.staging.gap && forall i | 0 <= i < |inFlight| :: InFlight(c, inFlight[i])
    ensures var states := ServerResume.StatesFor(server, env, SyncOf(c)).value;
            var applied := StateMerge.ApplyBatch(config.cache, c.cache, states);
            var frames := ServerResume.LaneReply(server, env, s, c.sessionID, c.lastSeq, SyncOf(c)).frames;
            && applied.Committed?
            && Completed(c, s.log[c.lastSeq..], applied.cache, applied.changes,
                         Feed(config, c, ServerResume.EventFrames(inFlight) + frames))
  {
    hide Inv, Completed, Feed, ServerResume.LaneReply, ServerResume.StatesFor, ClientAdmits, StateMerge.ApplyBatch;
    ServerResume.BatchExactly(server, env, s, c.sessionID, c.lastSeq, SyncOf(c));
    var states := ServerResume.StatesFor(server, env, SyncOf(c)).value;
    var missed, replayTo := s.log[c.lastSeq..], |s.log|;
    var frames := ServerResume.BatchFrames(c.sessionID, c.lastSeq, replayTo, SyncOf(c), missed, env.snapshotID, states);
    assert Consecutive(missed, c.sessionID, c.lastSeq);
    BatchCompletes(config, server, env, c, h, replayTo, missed, states);
    if inFlight == [] {
      assert ServerResume.EventFrames(inFlight) + frames == frames;
    } else {
      InFlightIgnored(config, c, inFlight);
      FeedConcat(config, c, ServerResume.EventFrames(inFlight), frames, c, []);
      ContinueNothing(Feed(config, c, frames));
    }
  }

  lemma {:induction false} BatchShape(c: Client, replayTo: u64, missed: seq<Event>, snapshotID: string,
                                      states: seq<StateMerge.StateObject>)
    requires c.lastSeq < MAX_U64
    ensures var head := [Welcome(c.sessionID, Resumed(c.lastSeq + 1, replayTo, SyncOf(c)))]
            + ServerResume.EventFrames(missed);
            ServerResume.BatchFrames(c.sessionID, c.lastSeq, replayTo, SyncOf(c), missed, snapshotID, states)
            == if c.staging.namespaces == [] then head else head + [StateSnapshot(snapshotID, c.sessionID, states)]
  {
    var head := [Welcome(c.sessionID, Resumed(c.lastSeq + 1, replayTo, SyncOf(c)))] + ServerResume.EventFrames(missed);
    assert head + [] == head;
  }

  lemma {:induction false} BatchCompletes(config: Config, server: ServerResume.Config, env: ServerResume.Environment,
                       c: Client, h: History, replayTo: u64, missed: seq<Event>, states: seq<StateMerge.StateObject>)
    requires Inv(config, Run(c, h)) && Begun(c)
    requires Consecutive(missed, c.sessionID, c.lastSeq) && |missed| == replayTo - c.lastSeq && c.lastSeq < MAX_U64
    requires ServerResume.StatesFor(server, env, SyncOf(c)) == Some(states)
    requires ClientAdmits(config, c, missed, states)
    ensures var applied := StateMerge.ApplyBatch(config.cache, c.cache, states);
            && applied.Committed?
            && Completed(c, missed, applied.cache, applied.changes,
                 Feed(config, c, ServerResume.BatchFrames(c.sessionID, c.lastSeq, replayTo, SyncOf(c), missed,
                                                          env.snapshotID, states)))
  {
    BatchShape(c, replayTo, missed, env.snapshotID, states);
    if c.staging.namespaces == [] {
      EventsComplete(config, c, h, replayTo, missed);
      assert StateMerge.ApplyBatch(config.cache, c.cache, []) == StateMerge.Committed(c.cache, []);
    } else {
      SnapshotShape(server.snapshot, env.provided.value, c.staging.namespaces);
      StateBatch.CommitsExactly(config.cache, c.cache, states);
      EventsAndStateComplete(config, c, h, replayTo, missed, env.snapshotID, states);
    }
  }
}
