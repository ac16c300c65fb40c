/** The server's RESUME: a fixed boundary, a checked range, one batch. */
module ServerResume {
  import opened Wire
  import opened Protocol
  import Capability
  import ClientInvariant
  import ClientMachine
  import ReplayStore
  import Sessions
  import Snapshot
  import StateMerge

  /** `validEvent` is the outbound check of an EVENT, which among others demands a positive position. */
  datatype Config = Config(
    replay: ReplayStore.Limits,
    validEvent: Event -> bool,
    hasSnapshots: bool,
    snapshot: Snapshot.Config)

  /** What the environment contributes: the Session found under that name, a fresh frame identity,
      the snapshot provider's answer, and the outbound check of WELCOME. */
  datatype Environment = Environment(
    session: Option<map<string, Capability.u16>>,
    snapshotID: string,
    provided: Option<seq<StateMerge.StateObject>>,
    welcomeOK: bool)

  datatype Reply =
    | Batch(frames: seq<Frame>)
    | Refusal(code: Code, close: bool, abandon: bool)
    | Broken

  // ---------------------------------------------------------------- the range check

  /** The positions after `lastSeq` up to `replayTo`, each once and in order. */
  predicate ExactRange(events: seq<Event>, sessionID: string, lastSeq: u64, replayTo: u64)
  {
    |events| == replayTo - lastSeq && ClientInvariant.Consecutive(events, sessionID, lastSeq)
  }

  /** The loop with its wrapping counter accepts exactly that range, up to the last 64-bit position. */
  method CheckRange(events: seq<Event>, sessionID: string, lastSeq: u64, replayTo: u64, validEvent: Event -> bool)
    returns (ok: bool)
    requires lastSeq <= replayTo && lastSeq < MAX_U64
    requires forall e | e in events && validEvent(e) :: e.seqNo > 0
    ensures ok <==> (forall e | e in events :: validEvent(e)) && ExactRange(events, sessionID, lastSeq, replayTo)
  {
    var expected := Wrap(lastSeq + 1);
    var i := 0;
    while i < |events|
      invariant 0 <= i <= |events|
      invariant i <= MAX_U64 - lastSeq && expected == Wrap(lastSeq + i + 1)
      invariant forall e | e in events[..i] :: validEvent(e)
      invariant forall k | 0 <= k < i :: events[k].seqNo == lastSeq + k + 1 && events[k].sessionID == sessionID
    {
      assert events[i] in events && events[..i + 1] == events[..i] + [events[i]];
      if !validEvent(events[i]) {
        return false;
      }
      if events[i].sessionID != sessionID || events[i].seqNo != expected {
        return false;
      }
      var following: int := expected;
      expected := Wrap(following + 1);
      i := i + 1;
    }
    assert events[..i] == events;
    return expected == Wrap(replayTo + 1);
  }

  // ---------------------------------------------------------------- the reply

  predicate AllValid(events: seq<Event>, validEvent: Event -> bool)
  {
    forall i | 0 <= i < |events| :: validEvent(events[i])
  }

  function EventFrames(events: seq<Event>): seq<Frame>
  {
    seq(|events|, i requires 0 <= i < |events| => EventFrame(events[i]))
  }

  function BatchFrames(sessionID: string, lastSeq: u64, replayTo: u64, stateSync: Option<seq<string>>,
                       events: seq<Event>, snapshotID: string, states: seq<StateMerge.StateObject>): seq<Frame>
    requires lastSeq < MAX_U64
  {
    [Welcome(sessionID, Resumed(lastSeq + 1, replayTo, stateSync))] + EventFrames(events)
    + (if stateSync.Some? then [StateSnapshot(snapshotID, sessionID, states)] else [])
  }

  /** The State part of the reply: nothing asked, the snapshot, or failure. */
  function StatesFor(config: Config, env: Environment,
                     stateSync: Option<seq<string>>): Option<seq<StateMerge.StateObject>>
  {
    if stateSync.None? then Some([])
    else if env.provided.None? then None
    else Snapshot.SnapshotOf(config.snapshot, env.provided.value, stateSync.value)
  }

  /** Inside the Session's lane. */
  function LaneReply(config: Config, env: Environment, s: ReplayStore.Stream, sessionID: string, lastSeq: u64,
                     stateSync: Option<seq<string>>): Reply
  {
    var replayTo := |s.log|;
    if lastSeq > replayTo then Refusal(ProtocolViolation, true, false)
    else if lastSeq == MAX_U64 || replayTo > MAX_U64 || replayTo - lastSeq > config.replay.maxEvents then
      Refusal(SyncRequired, false, false)
    else
      match ReplayStore.ReplayOf(s, lastSeq, replayTo, config.replay)
      case LimitExceeded => Refusal(SyncRequired, false, false)
      case Unavailable => Refusal(SyncRequired, false, false)
      case Events(events) =>
        if !AllValid(events, config.validEvent) then Refusal(Internal, true, false)
        else
          match StatesFor(config, env, stateSync)
          case None => Refusal(StateUnavailable, true, false)
          case Some(states) =>
            if !env.welcomeOK then Broken
            else Batch(BatchFrames(sessionID, lastSeq, replayTo, stateSync, events, env.snapshotID, states))
  }

  function ResumeReply(config: Config, env: Environment, s: ReplayStore.Stream, sessionID: string, lastSeq: u64,
                       stateSync: Option<seq<string>>): Reply
  {
    if env.session.None? then Refusal(InvalidSession, false, true)
    else if stateSync.Some? && !ClientMachine.StateSyncEnabled(env.session.value)
    then Refusal(UnsupportedFeature, true, false)
    else if stateSync.Some? && (!config.hasSnapshots || env.snapshotID == "")
    then Refusal(StateUnavailable, true, false)
    else LaneReply(config, env, s, sessionID, lastSeq, stateSync)
  }

  lemma {:induction false} ReplayIsExactRange(config: Config, s: ReplayStore.Stream, sessionID: string, lastSeq: u64)
    requires ReplayStore.StreamOK(sessionID, s) && lastSeq <= |s.log|
    requires ReplayStore.ReplayOf(s, lastSeq, |s.log|, config.replay).Events?
    ensures var events := ReplayStore.ReplayOf(s, lastSeq, |s.log|, config.replay).events;
            events == s.log[lastSeq..] && ExactRange(events, sessionID, lastSeq, |s.log|)
  {
    ReplayStore.ReplayExactly(sessionID, s, lastSeq, |s.log|, config.replay);
  }

  /** The lane sends a batch exactly when the client is not ahead of the stream, the missed range is
      retained and within the limits, its events pass the outbound check, and the snapshot can be
      produced; the batch is then the boundary, the whole missed range, and the snapshot. */
  lemma {:induction false} BatchExactly(config: Config, env: Environment, s: ReplayStore.Stream, sessionID: string,
                                        lastSeq: u64,
                     stateSync: Option<seq<string>>)
    requires ReplayStore.StreamOK(sessionID, s)
    ensures var missed := if lastSeq <= |s.log| then s.log[lastSeq..] else [];
            LaneReply(config, env, s, sessionID, lastSeq, stateSync).Batch? <==>
              && lastSeq <= |s.log| && lastSeq < MAX_U64
              && config.replay.maxEvents > 0 && |missed| <= config.replay.maxEvents
              && config.replay.maxBytes > 0 && ReplayStore.TotalSize(missed,
                                                                     config.replay.size) <= config.replay.maxBytes
              && lastSeq >= ReplayStore.Pruned(s)
              && AllValid(missed, config.validEvent)
              && StatesFor(config, env, stateSync).Some? && env.welcomeOK
    ensures LaneReply(config, env, s, sessionID, lastSeq, stateSync).Batch? ==>
              LaneReply(config, env, s, sessionID, lastSeq, stateSync).frames
              == BatchFrames(sessionID, lastSeq, |s.log|, stateSync, s.log[lastSeq..], env.snapshotID,
                             StatesFor(config, env, stateSync).value)
  {
    if lastSeq <= |s.log| {
      ReplayStore.ReplayExactly(sessionID, s, lastSeq, |s.log|, config.replay);
      assert ReplayStore.Slice(s.log, lastSeq, |s.log|) == s.log[lastSeq..];
    }
  }

  // ---------------------------------------------------------------- the whole handler

  /** Why a RESUME is not answered with a batch, in the order the handler looks. */
  datatype Cause =
    | UnknownSession
    | NoStateCapability
    | NoSnapshotSource
    | Ahead
    | OutOfReach
    | InvalidEvent
    | NoSnapshot
    | InvalidWelcome

  /** The events after `lastSeq` up to the end of the history. */
  function Missed(s: ReplayStore.Stream, lastSeq: u64): seq<Event>
  {
    if lastSeq <= |s.log| then s.log[lastSeq..] else []
  }

  /** What was missed is retained and within both limits, and the position after it exists. */
  predicate Reachable(config: Config, s: ReplayStore.Stream, lastSeq: u64)
  {
    && lastSeq < MAX_U64 && ReplayStore.Pruned(s) <= lastSeq
    && 0 < config.replay.maxEvents && |Missed(s, lastSeq)| <= config.replay.maxEvents
    && 0 < config.replay.maxBytes
    && ReplayStore.TotalSize(Missed(s, lastSeq), config.replay.size) <= config.replay.maxBytes
  }

  function CauseOf(config: Config, env: Environment, s: ReplayStore.Stream, lastSeq: u64,
                   stateSync: Option<seq<string>>): Option<Cause>
  {
    if env.session.None? then Some(UnknownSession)
    else if stateSync.Some? && !ClientMachine.StateSyncEnabled(env.session.value) then Some(NoStateCapability)
    else if stateSync.Some? && (!config.hasSnapshots || env.snapshotID == "") then Some(NoSnapshotSource)
    else if lastSeq > |s.log| then Some(Ahead)
    else if !Reachable(config, s, lastSeq) then Some(OutOfReach)
    else if !AllValid(Missed(s, lastSeq), config.validEvent) then Some(InvalidEvent)
    else if StatesFor(config, env, stateSync).None? then Some(NoSnapshot)
    else if !env.welcomeOK then Some(InvalidWelcome)
    else None
  }

  /** The code that goes with each cause, whether the connection closes, and whether the Session is
      abandoned. */
  function RefusalFor(cause: Cause): Reply
  {
    match cause
    case UnknownSession => Refusal(InvalidSession, false, true)
    case NoStateCapability => Refusal(UnsupportedFeature, true, false)
    case NoSnapshotSource => Refusal(StateUnavailable, true, false)
    case Ahead => Refusal(ProtocolViolation, true, false)
    case OutOfReach => Refusal(SyncRequired, false, false)
    case InvalidEvent => Refusal(Internal, true, false)
    case NoSnapshot => Refusal(StateUnavailable, true, false)
    case InvalidWelcome => Broken
  }

  /** The Session is found; a State request has its capability, a provider and a frame identity; the client
      is not ahead; what it missed is reachable and valid; the snapshot and the WELCOME can be produced. */
  predicate Answerable(config: Config, env: Environment, s: ReplayStore.Stream, lastSeq: u64,
                       stateSync: Option<seq<string>>)
  {
    && env.session.Some?
    && (stateSync.Some? ==>
          && ClientMachine.StateSyncEnabled(env.session.value) && config.hasSnapshots && env.snapshotID != ""
          && env.provided.Some? && Snapshot.SnapshotOf(config.snapshot, env.provided.value, stateSync.value).Some?)
    && lastSeq <= |s.log| && Reachable(config, s, lastSeq)
    && AllValid(Missed(s, lastSeq), config.validEvent) && env.welcomeOK
  }

  /** The whole handler: a batch exactly when nothing stands against it, and then the boundary, everything
      missed and the snapshot; otherwise the refusal of the first cause. */
  lemma {:induction false} AnswersByCause(config: Config, env: Environment, s: ReplayStore.Stream, sessionID: string,
                                          lastSeq: u64, stateSync: Option<seq<string>>)
    requires ReplayStore.StreamOK(sessionID, s)
    ensures var r := ResumeReply(config, env, s, sessionID, lastSeq, stateSync);
            var cause := CauseOf(config, env, s, lastSeq, stateSync);
            && (r.Batch? <==> Answerable(config, env, s, lastSeq, stateSync))
            && (r.Batch? <==> cause.None?)
            && (r.Batch? ==>
                  r.frames == BatchFrames(sessionID, lastSeq, |s.log|, stateSync, s.log[lastSeq..], env.snapshotID,
                                          StatesFor(config, env, stateSync).value))
            && (cause.Some? ==> r == RefusalFor(cause.value))
  {
    hide ReplayStore.TotalSize, Snapshot.SnapshotOf, ReplayStore.StreamOK, AllValid;
    LaneByCause(config, env, s, sessionID, lastSeq, stateSync);
  }

  lemma {:induction false} LaneByCause(config: Config, env: Environment, s: ReplayStore.Stream, sessionID: string,
                                       lastSeq: u64, stateSync: Option<seq<string>>)
    requires ReplayStore.StreamOK(sessionID, s)
    ensures var r := LaneReply(config, env, s, sessionID, lastSeq, stateSync);
            r == if lastSeq > |s.log| then RefusalFor(Ahead)
                 else if !Reachable(config, s, lastSeq) then RefusalFor(OutOfReach)
                 else if !AllValid(Missed(s, lastSeq), config.validEvent) then RefusalFor(InvalidEvent)
                 else if StatesFor(config, env, stateSync).None? then RefusalFor(NoSnapshot)
                 else if !env.welcomeOK then RefusalFor(InvalidWelcome)
                 else Batch(BatchFrames(sessionID, lastSeq, |s.log|, stateSync, s.log[lastSeq..], env.snapshotID,
                                        StatesFor(config, env, stateSync).value))
  {
    hide ReplayStore.TotalSize, AllValid, StatesFor, BatchFrames;
    if lastSeq <= |s.log| {
      ReplayStore.ReplayExactly(sessionID, s, lastSeq, |s.log|, config.replay);
      assert ReplayStore.Slice(s.log, lastSeq, |s.log|) == s.log[lastSeq..];
    }
  }

  /** What the repository finds of a Session at that time. */
  function Found(sessions: map<string, Sessions.Session>, sessionID: string,
                 now: int): Option<map<string, Capability.u16>>
  {
    match Sessions.LookupIn(sessions, sessionID, now)
    case None => None
    case Some(session) => Some(session.capabilities)
  }

  /** A Session that was never created or has expired gets INVALID_SESSION and is abandoned, whatever is
      still held of its history; no event leaves. A Session that is alive is never answered so. */
  lemma {:induction false} GoneGetsNothing(config: Config, env: Environment, sessions: map<string, Sessions.Session>,
                                           now: int, s: ReplayStore.Stream, sessionID: string, lastSeq: u64,
                                           stateSync: Option<seq<string>>)
    requires env.session == Found(sessions, sessionID, now)
    ensures ResumeReply(config, env, s, sessionID, lastSeq, stateSync) == Refusal(InvalidSession, false, true) <==>
            sessionID !in sessions || sessions[sessionID].expiresAt <= now
  {
    hide ReplayStore.ReplayOf, StatesFor, BatchFrames, AllValid;
  }

  /** What runs in the Session's lane. */
  method AnswerInLane(config: Config, env: Environment, store: ReplayStore.MemoryReplayStore, sessionID: string,
                      lastSeq: u64, stateSync: Option<seq<string>>) returns (r: Reply)
    requires store.Valid()
    requires forall e: Event | config.validEvent(e) :: e.seqNo > 0
    ensures r == LaneReply(config, env, store.StreamOf(sessionID), sessionID, lastSeq, stateSync)
  {
    hide ReplayStore.ReplayOf, Snapshot.SnapshotOf, BatchFrames, ReplayStore.StreamOK, ExactRange, AllValid;
    StoreHolds(store, sessionID);
    var replayTo := store.CurrentSeq(sessionID);
    if lastSeq > replayTo {
      return Refusal(ProtocolViolation, true, false);
    }
    if lastSeq == MAX_U64 {
      return Refusal(SyncRequired, false, false);
    }
    if replayTo - lastSeq > config.replay.maxEvents {
      return Refusal(SyncRequired, false, false);
    }
    var loaded := store.Replay(sessionID, lastSeq, replayTo, config.replay);
    if !loaded.Events? {
      return Refusal(SyncRequired, false, false);
    }
    ReplayIsExactRange(config, store.StreamOf(sessionID), sessionID, lastSeq);
    var checked := CheckLoaded(config, loaded.events, sessionID, lastSeq, replayTo);
    if !checked {
      return Refusal(Internal, true, false);
    }
    var states := [];
    if stateSync.Some? {
      if env.provided.None? {
        return Refusal(StateUnavailable, true, false);
      }
      var snapshot := Snapshot.Build(config.snapshot, env.provided.value, stateSync.value);
      if snapshot.None? {
        return Refusal(StateUnavailable, true, false);
      }
      states := snapshot.value;
    }
    if !env.welcomeOK {
      return Broken;
    }
    return Batch(BatchFrames(sessionID, lastSeq, replayTo, stateSync, loaded.events, env.snapshotID, states));
  }

  /** On an exact range the loop decides by the outbound check alone. */
  method CheckLoaded(config: Config, events: seq<Event>, sessionID: string, lastSeq: u64, replayTo: u64)
    returns (ok: bool)
    requires lastSeq <= replayTo && lastSeq < MAX_U64 && ExactRange(events, sessionID, lastSeq, replayTo)
    requires forall e: Event | config.validEvent(e) :: e.seqNo > 0
    ensures ok <==> AllValid(events, config.validEvent)
  {
    ok := CheckRange(events, sessionID, lastSeq, replayTo, config.validEvent);
    assert forall i | 0 <= i < |events| :: events[i] in events;
  }

  lemma {:induction false} StoreHolds(store: ReplayStore.MemoryReplayStore, sessionID: string)
    requires store.Valid()
    ensures ReplayStore.StreamOK(sessionID, store.StreamOf(sessionID))
    ensures |store.StreamOf(sessionID).log| <= MAX_U64
  {
    assert ReplayStore.Represents(sessionID, store.View().HeldFor(sessionID), store.StreamOf(sessionID));
  }

  method HandleResume(config: Config, env: Environment, store: ReplayStore.MemoryReplayStore, sessionID: string,
                      lastSeq: u64, stateSync: Option<seq<string>>) returns (r: Reply)
    requires store.Valid()
    requires forall e: Event | config.validEvent(e) :: e.seqNo > 0
    ensures r == ResumeReply(config, env, store.StreamOf(sessionID), sessionID, lastSeq, stateSync)
    ensures r.Batch? <==> Answerable(config, env, store.StreamOf(sessionID), lastSeq, stateSync)
    ensures var cause := CauseOf(config, env, store.StreamOf(sessionID), lastSeq, stateSync);
            cause.Some? ==> r == RefusalFor(cause.value)
  {
    hide LaneReply, Answerable, CauseOf, RefusalFor, StatesFor, ReplayStore.StreamOK;
    StoreHolds(store, sessionID);
    AnswersByCause(config, env, store.StreamOf(sessionID), sessionID, lastSeq, stateSync);
    if env.session.None? {
      return Refusal(InvalidSession, false, true);
    }
    if stateSync.Some? {
      if !ClientMachine.StateSyncEnabled(env.session.value) {
        return Refusal(UnsupportedFeature, true, false);
      }
      if !config.hasSnapshots || env.snapshotID == "" {
        return Refusal(StateUnavailable, true, false);
      }
    }
    r := AnswerInLane(config, env, store, sessionID, lastSeq, stateSync);
  }
}
