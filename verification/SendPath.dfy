/** Concurrent handling of SENDs, one atomic step per critical section or callback boundary. */
module SendPath {
  import opened Wire
  import opened DedupStore
  import opened SendHistory
  import Flights

  /** The dependency calls of one leader, in order. */
  datatype Stage = Lookup | Claim | AfterClaim | Application | AfterApplication | Complete | AfterComplete

  /** Where one call stands. Between `Enter` and `Leave` the flight's callback flag is set. */
  datatype Place =
    | Acquiring
    | Peeking
    | Waiting
    | Entering(stage: Stage)
    | Inside(stage: Stage)
    | Sampled(stage: Stage, sample: int)
    | AppRunning
    | Leaving(next: Place)
    | Setting(ack: Ack, original: bool)
    | Sending(ack: Ack)
    | Finishing
    | Ended

  /** One call: the SEND it handles, its own clock reading, and its flight once it has one. */
  datatype Call = Call(id: SendID, fingerprint: string, now: int, leader: bool, flight: nat, place: Place)

  datatype Config = Config(dedupTTL: nat, sessionTTL: nat)

  datatype State = State(
    clock: int,
    sessions: map<string, int>,
    records: map<string, Entry>,
    flights: Flights.Table,
    calls: map<nat, Call>,
    log: seq<Happening>)

  function InitialState(clock: int): State
  {
    State(clock, map[], map[], Flights.NO_FLIGHTS, map[], [])
  }

  // ---------------------------------------------------------------- one step of one call

  function Goto(s: State, n: nat, place: Place): State
    requires n in s.calls
  {
    s.(calls := s.calls[n := s.calls[n].(place := place)])
  }

  function AckFor(c: Call): Ack
  {
    Ack(c.id.sessionID, c.id.messageID, c.now)
  }

  /** The check on an ACK taken from the store or from a flight. */
  predicate Answers(ack: Ack, id: SendID)
  {
    ack.sessionID == id.sessionID && ack.refID == id.messageID
  }

  function AfterRead(c: Call, ack: Option<Ack>): Place
  {
    if ack.Some? && Answers(ack.value, c.id) then Sending(ack.value) else Ended
  }

  function AcquireStep(s: State, n: nat): State
    requires n in s.calls
  {
    var c := s.calls[n];
    match Flights.Acquire(s.flights, c.id, c.fingerprint)
    case Leader(flights, f) =>
      s.(flights := flights, calls := s.calls[n := c.(leader := true, flight := f, place := Entering(Lookup))])
    case Conflict => Goto(s, n, Ended)
    case Busy(f) => s.(calls := s.calls[n := c.(flight := f, place := Peeking)])
    case Follow(f) => s.(calls := s.calls[n := c.(flight := f, place := Waiting)])
  }

  predicate Found(s: State, c: Call)
  {
    c.id.sessionID in s.sessions && c.now < s.sessions[c.id.sessionID]
  }

  function ClaimStep(config: Config, s: State, n: nat, sample: int): State
    requires n in s.calls
  {
    var c := s.calls[n];
    match ClaimIn(s.records, config.dedupTTL, sample, Key(c.id), c.fingerprint)
    case Claimed(records) =>
      Goto(s.(records := records, log := s.log + [Claiming(c.id, c.fingerprint, sample)]), n,
           Leaving(Entering(AfterClaim)))
    case Existing(record) =>
      if record.Completed? && record.fingerprint == c.fingerprint && Answers(record.ack, c.id)
      then Goto(s, n, Leaving(Setting(record.ack, false)))
      else Goto(s, n, Leaving(Finishing))
  }

  function CompleteStep(config: Config, s: State, n: nat, sample: int): State
    requires n in s.calls
  {
    var c := s.calls[n];
    match CompleteIn(s.records, config.dedupTTL, sample, Key(c.id), AckFor(c))
    case Some(records) =>
      Goto(s.(records := records, log := s.log + [Stored(c.id, c.fingerprint, AckFor(c), sample)]), n,
           Leaving(Setting(AckFor(c), true)))
    case None => Goto(s, n, Leaving(Finishing))
  }

  /** The body of a callback; `ok` is false when it returns an error or panics. */
  function InsideStep(config: Config, s: State, n: nat, stage: Stage, ok: bool): State
    requires n in s.calls
  {
    var c := s.calls[n];
    match stage
    case Lookup => Goto(s, n, Leaving(if ok && Found(s, c) then Entering(Claim) else Finishing))
    case Claim => Goto(s, n, if ok then Sampled(Claim, s.clock) else Leaving(Finishing))
    case AfterClaim => Goto(s, n, Leaving(if ok then Entering(Application) else Finishing))
    case Application => Goto(s.(log := s.log + [Executed(c.id, c.fingerprint, s.clock)]), n, AppRunning)
    case AfterApplication => Goto(s, n, Leaving(if ok then Entering(Complete) else Finishing))
    case Complete => Goto(s, n, if ok then Sampled(Complete, s.clock) else Leaving(Finishing))
    case AfterComplete => Goto(s, n, Leaving(if ok then Sending(AckFor(c)) else Finishing))
  }

  function SendStep(s: State, n: nat, ack: Ack, ok: bool): State
    requires n in s.calls
  {
    var c := s.calls[n];
    var after := if c.leader then Finishing else Ended;
    if ok then Goto(s.(log := s.log + [AckSent(c.id, c.fingerprint, ack)]), n, after) else Goto(s, n, after)
  }

  function CallStep(config: Config, s: State, n: nat, ok: bool): State
    requires n in s.calls
  {
    var c := s.calls[n];
    match c.place
    case Acquiring => AcquireStep(s, n)
    case Peeking => Goto(s, n, AfterRead(c, Flights.AckOf(s.flights, c.flight)))
    case Waiting =>
      if !ok then Goto(s, n, Ended)
      else if c.flight < |s.flights.all| && s.flights.all[c.flight].closes > 0 then
        Goto(s, n, AfterRead(c, Flights.AckOf(s.flights, c.flight)))
      else s
    case Entering(stage) =>
      (match Flights.Enter(s.flights, Key(c.id), c.flight)
       case Some(flights) => Goto(s.(flights := flights), n, Inside(stage))
       case None => Goto(s, n, Finishing))
    case Inside(stage) => InsideStep(config, s, n, stage, ok)
    case Sampled(stage, sample) => if stage == Claim then ClaimStep(config, s, n, sample)
      else CompleteStep(config, s, n, sample)
    case AppRunning =>
      if ok then Goto(s.(log := s.log + [Succeeded(c.id, c.fingerprint)]), n, Leaving(Entering(AfterApplication)))
      else Goto(s, n, Leaving(Finishing))
    case Leaving(next) => Goto(s.(flights := Flights.Leave(s.flights, c.flight)), n, next)
    case Setting(ack, original) =>
      Goto(s.(flights := Flights.SetAck(s.flights, c.flight, ack)), n, if original then Entering(AfterComplete)
           else Sending(ack))
    case Sending(ack) => SendStep(s, n, ack, ok)
    case Finishing => Goto(s.(flights := Flights.Finish(s.flights, Key(c.id), c.flight)), n, Ended)
    case Ended => s
  }

  // ---------------------------------------------------------------- runs

  datatype Move =
    | Tick(elapsed: nat)
    | CreateSession(sessionID: string, sample: int)
    | Begin(call: nat, id: SendID, fingerprint: string)
    | Proceed(call: nat, ok: bool)

  function Next(config: Config, s: State, m: Move): State
  {
    match m
    case Tick(elapsed) => s.(clock := s.clock + elapsed)
    case CreateSession(sessionID, sample) =>
      if sessionID == "" || sessionID in s.sessions || sample > s.clock then s
      else s.(sessions := s.sessions[sessionID := sample + config.sessionTTL])
    case Begin(n, id, fingerprint) =>
      if n in s.calls || !WellFormed(id) then s
      else s.(calls := s.calls[n := Call(id, fingerprint, s.clock, false, 0, Acquiring)])
    case Proceed(n, ok) => if n in s.calls then CallStep(config, s, n, ok) else s
  }

  function RunOf(config: Config, s: State, moves: seq<Move>): State
    decreases |moves|
  {
    if moves == [] then s else RunOf(config, Next(config, s, moves[0]), moves[1..])
  }

  // ---------------------------------------------------------------- the invariant

  predicate InCallback(place: Place)
  {
    place.Inside? || place.Sampled? || place.AppRunning? || place.Leaving?
  }

  /** What the place promises about the flight. */
  ghost predicate FlightFits(t: Flights.Table, c: Call)
  {
    && WellFormed(c.id)
    && (c.leader || c.place.Peeking? || c.place.Waiting? ==>
          c.flight < |t.all| && t.all[c.flight].id == c.id && t.all[c.flight].fingerprint == c.fingerprint)
    && (c.leader ==>
          && !c.place.Acquiring? && !c.place.Peeking? && !c.place.Waiting?
          && t.all[c.flight].closes == (if c.place.Ended? then 1 else 0)
          && t.all[c.flight].callbackActive == InCallback(c.place))
    && (!c.leader ==> c.place.Acquiring? || c.place.Peeking? || c.place.Waiting? || c.place.Sending? || c.place.Ended?)
  }

  /** What the place promises about the SEND's progress. */
  ghost predicate PlaceFits(s: State, c: Call, place: Place)
  {
    var p := ProgressOf(s.log, c.id);
    match place
    case Entering(stage) => StageFits(s, c, stage)
    case Inside(stage) => StageFits(s, c, stage)
    case Sampled(stage, sample) =>
      && sample <= s.clock && (stage == Claim || stage == Complete) && StageFits(s, c, stage)
      && (stage == Complete ==> p.Finished? && p.at <= sample)
    case AppRunning => p.Running? && p.fingerprint == c.fingerprint && p.at <= s.clock
    case Leaving(next) =>
      && (next.Entering? || next.Setting? || next.Sending? || next.Finishing?)
      && PlaceFits(s, c, next)
    case Setting(ack, original) => StoredIn(s.log, c.id, c.fingerprint, ack) && (original ==> ack == AckFor(c))
    case Sending(ack) => StoredIn(s.log, c.id, c.fingerprint, ack)
    case _ => true
  }

  ghost predicate StageFits(s: State, c: Call, stage: Stage)
  {
    var p := ProgressOf(s.log, c.id);
    match stage
    case Lookup => true
    case Claim => c.id.sessionID in s.sessions
    case AfterClaim => c.id.sessionID in s.sessions && p.Held? && p.fingerprint == c.fingerprint && p.sample <= s.clock
    case Application => c.id.sessionID in s.sessions && p.Held? && p.fingerprint == c.fingerprint && p.sample <= s.clock
    case AfterApplication => p.Finished? && p.fingerprint == c.fingerprint && p.at <= s.clock
    case Complete => p.Finished? && p.fingerprint == c.fingerprint && p.at <= s.clock
    case AfterComplete => StoredIn(s.log, c.id, c.fingerprint, AckFor(c))
  }

  ghost predicate CallFits(s: State, c: Call)
  {
    FlightFits(s.flights, c) && PlaceFits(s, c, c.place)
  }

  predicate UniqueLeaders(calls: map<nat, Call>)
  {
    forall a, b | a in calls && b in calls && a != b && calls[a].leader && calls[b].leader ::
      calls[a].flight != calls[b].flight
  }

  /** The store's record is the SEND's progress. */
  ghost predicate RecordFits(config: Config, records: map<string, Entry>, id: SendID, p: Progress)
  {
    var key := Key(id);
    match p
    case Idle => key !in records
    case Kept(fingerprint, ack, sample) =>
      key in records && records[key] == Entry(Completed(fingerprint, ack), sample + config.dedupTTL)
    case _ => key in records && records[key].record == Processing(p.fingerprint)
  }

  ghost predicate RecordsFit(config: Config, s: State)
  {
    forall id | WellFormed(id) :: RecordFits(config, s.records, id, ProgressOf(s.log, id))
  }

  ghost predicate AcksFit(s: State)
  {
    forall f | 0 <= f < |s.flights.all| && s.flights.all[f].ack.Some? ::
      StoredIn(s.log, s.flights.all[f].id, s.flights.all[f].fingerprint, s.flights.all[f].ack.value)
  }

  ghost predicate SessionsFit(config: Config, s: State)
  {
    && (forall x | x in s.sessions :: s.sessions[x] - config.sessionTTL <= s.clock)
    && BornBefore(s.log, s.sessions, config.sessionTTL)
  }

  ghost predicate CallsFit(s: State)
  {
    forall n | n in s.calls :: CallFits(s, s.calls[n])
  }

  ghost predicate StateOK(config: Config, s: State)
  {
    && Flights.TableOK(s.flights) && UniqueLeaders(s.calls)
    && CallsFit(s) && RecordsFit(config, s) && AcksFit(s)
    && Legal(s.log, config.dedupTTL) && SessionsFit(config, s)
  }

  // ---------------------------------------------------------------- one call moves, nothing else

  /** Of two leaders of the same SEND at most one is still at work. */
  lemma {:induction false} OneLeader(s: State, a: nat, b: nat)
    requires Flights.TableOK(s.flights) && UniqueLeaders(s.calls) && CallsFit(s)
    requires a in s.calls && b in s.calls && s.calls[a].id == s.calls[b].id
    requires s.calls[a].leader && s.calls[b].leader && !s.calls[a].place.Ended? && !s.calls[b].place.Ended?
    ensures a == b
  {
    assert CallFits(s, s.calls[a]) && CallFits(s, s.calls[b]);
    assert Flights.FlightOK(s.flights, s.calls[a].flight) && Flights.FlightOK(s.flights, s.calls[b].flight);
  }

  /** Records and Sessions depend only on the log, the store and the clock. */
  lemma {:induction false} StoresKept(config: Config, s: State, t: State)
    requires RecordsFit(config, s) && SessionsFit(config, s)
    requires t.log == s.log && t.records == s.records && t.sessions == s.sessions && t.clock == s.clock
    ensures RecordsFit(config, t) && SessionsFit(config, t)
    ensures t.flights == s.flights && AcksFit(s) ==> AcksFit(t)
  {
    forall id | WellFormed(id) ensures RecordFits(config, t.records, id, ProgressOf(t.log, id)) {
      assert RecordFits(config, s.records, id, ProgressOf(s.log, id));
    }
  }

  lemma {:induction false} LeadersKept(calls: map<nat, Call>, n: nat, c: Call)
    requires UniqueLeaders(calls) && n in calls && c.leader == calls[n].leader
             && (c.leader ==> c.flight == calls[n].flight)
    ensures UniqueLeaders(calls[n := c])
  {
  }

  lemma {:induction false} GotoKeeps(config: Config, s: State, n: nat, place: Place)
    requires StateOK(config, s) && n in s.calls
    requires CallFits(s, s.calls[n].(place := place))
    ensures StateOK(config, Goto(s, n, place))
  {
    hide RecordsFit, SessionsFit, AcksFit, Legal, UniqueLeaders, Flights.TableOK;
    var next := Goto(s, n, place);
    StoresKept(config, s, next);
    LeadersKept(s.calls, n, next.calls[n]);
    forall k | k in next.calls
      ensures CallFits(next, next.calls[k])
    {
      if k != n { assert CallFits(s, s.calls[k]); }
      SameShared(s, next, next.calls[k], next.calls[k].place);
    }
  }

  /** A promise depends only on the log, the Sessions and the clock. */
  lemma {:induction false} SameShared(s: State, t: State, c: Call, place: Place)
    requires t.log == s.log && t.sessions == s.sessions && t.clock == s.clock
    ensures PlaceFits(t, c, place) == PlaceFits(s, c, place)
    decreases place
  {
    if place.Leaving? { SameShared(s, t, c, place.next); }
  }

  // ---------------------------------------------------------------- the log grows

  /** A call that is not the acting leader keeps its promise when the acting leader logs. */
  lemma {:induction false} PromiseKept(s: State, e: Happening, c: Call, place: Place)
    requires PlaceFits(s, c, place)
    requires c.id != e.id || (!place.Entering? && !place.Inside? && !place.Sampled? && !place.AppRunning?
                              && !place.Leaving?)
    ensures PlaceFits(s.(log := s.log + [e]), c, place)
    decreases place
  {
    ProgressAppended(s.log, e);
    StoredStays(s.log, e);
    if place.Leaving? { PromiseKept(s, e, c, place.next); }
  }

  ghost predicate Grows(config: Config, s: State, n: nat, e: Happening, records: map<string, Entry>)
  {
    && n in s.calls && e.id == s.calls[n].id
    && Allowed(s.log, config.dedupTTL, e)
    && (e.Executed? ==> e.id.sessionID in s.sessions && e.at == s.clock)
    && (forall key | key != Key(e.id) ::
        (key in records <==> key in s.records) && (key in records ==> records[key] == s.records[key]))
    && RecordFits(config, records, e.id, After(ProgressOf(s.log, e.id), e))
    && (if e.AckSent? then records == s.records else s.calls[n].leader && !s.calls[n].place.Ended?)
  }

  lemma {:induction false} GrownRecords(config: Config, s: State, n: nat, e: Happening, records: map<string, Entry>)
    requires RecordsFit(config, s) && Grows(config, s, n, e, records) && WellFormed(e.id)
    ensures RecordsFit(config, s.(log := s.log + [e], records := records))
  {
    var t := s.(log := s.log + [e], records := records);
    ProgressAppended(s.log, e);
    forall id | WellFormed(id)
      ensures RecordFits(config, t.records, id, ProgressOf(t.log, id))
    {
      assert RecordFits(config, s.records, id, ProgressOf(s.log, id));
      if id != e.id && Key(id) == Key(e.id) { KeyInjective(id, e.id); }
    }
  }

  lemma {:induction false} GrownSessions(config: Config, s: State, n: nat, e: Happening, records: map<string, Entry>)
    requires SessionsFit(config, s) && Grows(config, s, n, e, records)
    ensures SessionsFit(config, s.(log := s.log + [e], records := records))
  {
  }

  lemma {:induction false} GrownAcks(config: Config, s: State, e: Happening, records: map<string, Entry>)
    requires AcksFit(s)
    ensures AcksFit(s.(log := s.log + [e], records := records))
  {
    StoredStays(s.log, e);
  }

  lemma {:induction false} OtherCallFits(config: Config, s: State, n: nat, e: Happening, k: nat)
    requires StateOK(config, s) && n in s.calls && k in s.calls && k != n && e.id == s.calls[n].id
    requires !e.AckSent? ==> s.calls[n].leader && !s.calls[n].place.Ended?
    ensures PlaceFits(s.(log := s.log + [e]), s.calls[k], s.calls[k].place)
  {
    var c := s.calls[k];
    assert CallFits(s, c);
    if e.AckSent? {
      AckSentKeeps(s, e, c, c.place);
    } else {
      if c.id == e.id && c.leader && !c.place.Ended? { OneLeader(s, n, k); }
      PromiseKept(s, e, c, c.place);
    }
  }

  lemma {:induction false} AckSentKeeps(s: State, e: Happening, c: Call, place: Place)
    requires PlaceFits(s, c, place) && e.AckSent?
    ensures PlaceFits(s.(log := s.log + [e]), c, place)
    decreases place
  {
    ProgressAppended(s.log, e);
    StoredStays(s.log, e);
    if place.Leaving? { AckSentKeeps(s, e, c, place.next); }
  }

  /** The acting call logs one happening and moves on. */
  lemma {:induction false} GrowKeeps(config: Config, s: State, n: nat, e: Happening, records: map<string, Entry>,
                                     place: Place)
    requires StateOK(config, s) && Grows(config, s, n, e, records)
    requires FlightFits(s.flights, s.calls[n].(place := place))
    requires PlaceFits(s.(log := s.log + [e]), s.calls[n], place)
    ensures StateOK(config, Goto(s.(log := s.log + [e], records := records), n, place))
  {
    assert CallFits(s, s.calls[n]);
    var mid := s.(log := s.log + [e], records := records);
    var next := Goto(mid, n, place);
    Appended(s.log, config.dedupTTL, e);
    GrownRecords(config, s, n, e, records);
    GrownSessions(config, s, n, e, records);
    GrownAcks(config, s, e, records);
    forall k | k in next.calls
      ensures CallFits(next, next.calls[k])
    {
      var c := next.calls[k];
      if k != n {
        assert CallFits(s, c);
        OtherCallFits(config, s, n, e, k);
      } else {
        PlaceIgnored(s.(log := s.log + [e]), s.calls[n], c, place);
      }
      SameShared(s.(log := s.log + [e]), next, c, c.place);
    }
  }

  /** A promise does not depend on where the call stood before. */
  lemma {:induction false} PlaceIgnored(s: State, c: Call, d: Call, place: Place)
    requires d == c.(place := d.place)
    ensures PlaceFits(s, c, place) == PlaceFits(s, d, place)
    decreases place
  {
    if place.Leaving? { PlaceIgnored(s, c, d, place.next); }
  }

  // ---------------------------------------------------------------- a flight changes

  /** Only the acting leader's own flight changes, and it stays the same flight. */
  lemma {:induction false} FlightKeeps(config: Config, s: State, n: nat, flight: Flights.Flight, place: Place)
    requires StateOK(config, s) && n in s.calls && s.calls[n].leader
    requires var f := s.calls[n].flight;
             && f < |s.flights.all| && flight.id == s.flights.all[f].id
                && flight.fingerprint == s.flights.all[f].fingerprint
             && flight.closes == s.flights.all[f].closes
             && (flight.ack.Some? ==> StoredIn(s.log, flight.id, flight.fingerprint, flight.ack.value))
             && flight.callbackActive == InCallback(place)
    requires !place.Acquiring? && !place.Peeking? && !place.Waiting? && !place.Ended? && !s.calls[n].place.Ended?
    requires PlaceFits(s, s.calls[n], place)
    ensures StateOK(config, Goto(s.(flights := Flights.Update(s.flights, s.calls[n].flight, flight)), n, place))
  {
    hide RecordsFit, SessionsFit, Legal;
    var f := s.calls[n].flight;
    var flights := Flights.Update(s.flights, f, flight);
    var next := Goto(s.(flights := flights), n, place);
    StoresKept(config, s, next);
    LeadersKept(s.calls, n, next.calls[n]);
    Flights.UpdateKeeps(s.flights, f, flight);
    assert CallFits(s, s.calls[n]);
    forall k | k in next.calls
      ensures CallFits(next, next.calls[k])
    {
      var c := next.calls[k];
      if k != n {
        assert CallFits(s, c);
      } else {
        PlaceIgnored(s, s.calls[n], c, place);
      }
      SameShared(s, next, c, c.place);
    }
  }

  lemma {:induction false} FinishingKeeps(config: Config, s: State, n: nat)
    requires StateOK(config, s) && n in s.calls && s.calls[n].leader && s.calls[n].place.Finishing?
    ensures StateOK(config, Goto(s.(flights := Flights.Finish(s.flights, Key(s.calls[n].id), s.calls[n].flight)), n,
                                 Ended))
  {
    hide RecordsFit, SessionsFit, Legal;
    var c, f := s.calls[n], s.calls[n].flight;
    assert CallFits(s, c);
    Flights.FinishKeeps(s.flights, f);
    var next := Goto(s.(flights := Flights.Finish(s.flights, Key(c.id), f)), n, Ended);
    StoresKept(config, s, next);
    LeadersKept(s.calls, n, next.calls[n]);
    forall k | k in next.calls
      ensures CallFits(next, next.calls[k])
    {
      if k != n { assert CallFits(s, s.calls[k]); }
      SameShared(s, next, next.calls[k], next.calls[k].place);
    }
  }

  lemma {:induction false} NewLeader(s: State, n: nat)
    requires UniqueLeaders(s.calls) && CallsFit(s) && n in s.calls
    requires Flights.Acquire(s.flights, s.calls[n].id, s.calls[n].fingerprint).Leader?
    ensures UniqueLeaders(AcquireStep(s, n).calls)
  {
    hide PlaceFits;
    var next := AcquireStep(s, n);
    forall a, b | a in next.calls && b in next.calls && a != b && next.calls[a].leader && next.calls[b].leader
      ensures next.calls[a].flight != next.calls[b].flight
    {
      if a != n { assert CallFits(s, s.calls[a]); }
      if b != n { assert CallFits(s, s.calls[b]); }
    }
  }

  lemma {:induction false} LeaderElsewhere(s: State, n: nat, k: nat)
    requires Flights.TableOK(s.flights) && CallsFit(s) && n in s.calls && k in s.calls && k != n
    requires Flights.Acquire(s.flights, s.calls[n].id, s.calls[n].fingerprint).Leader?
    ensures CallFits(AcquireStep(s, n), s.calls[k])
  {
    hide PlaceFits;
    assert CallFits(s, s.calls[k]);
    SameShared(s, AcquireStep(s, n), s.calls[k], s.calls[k].place);
  }

  lemma {:induction false} LeaderKeeps(config: Config, s: State, n: nat)
    requires StateOK(config, s) && n in s.calls && s.calls[n].place.Acquiring?
    requires Flights.Acquire(s.flights, s.calls[n].id, s.calls[n].fingerprint).Leader?
    ensures StateOK(config, AcquireStep(s, n))
  {
    hide RecordsFit, SessionsFit, Legal, UniqueLeaders;
    var c := s.calls[n];
    assert CallFits(s, c);
    Flights.AcquireKeeps(s.flights, c.id, c.fingerprint);
    var next := AcquireStep(s, n);
    StoresKept(config, s, next);
    forall k | k in next.calls
      ensures CallFits(next, next.calls[k])
    {
      if k != n { LeaderElsewhere(s, n, k); }
    }
    NewLeader(s, n);
  }

  lemma {:induction false} FollowerKeeps(config: Config, s: State, n: nat, f: nat, place: Place)
    requires StateOK(config, s) && n in s.calls && !s.calls[n].leader
    requires f < |s.flights.all| && s.flights.all[f].id == s.calls[n].id
             && s.flights.all[f].fingerprint == s.calls[n].fingerprint
    requires place.Peeking? || place.Waiting?
    ensures StateOK(config, s.(calls := s.calls[n := s.calls[n].(flight := f, place := place)]))
  {
    hide RecordsFit, SessionsFit, AcksFit, Legal, UniqueLeaders, Flights.TableOK;
    assert CallFits(s, s.calls[n]);
    var next := s.(calls := s.calls[n := s.calls[n].(flight := f, place := place)]);
    StoresKept(config, s, next);
    LeadersKept(s.calls, n, next.calls[n]);
    forall k | k in next.calls
      ensures CallFits(next, next.calls[k])
    {
      if k != n { assert CallFits(s, s.calls[k]); }
      SameShared(s, next, next.calls[k], next.calls[k].place);
    }
  }

  lemma {:induction false} AcquiringKeeps(config: Config, s: State, n: nat)
    requires StateOK(config, s) && n in s.calls && s.calls[n].place.Acquiring?
    ensures StateOK(config, AcquireStep(s, n))
  {
    var c := s.calls[n];
    assert CallFits(s, c);
    Flights.AcquireKeeps(s.flights, c.id, c.fingerprint);
    match Flights.Acquire(s.flights, c.id, c.fingerprint)
    case Leader(_, _) => LeaderKeeps(config, s, n);
    case Conflict => GotoKeeps(config, s, n, Ended);
    case Busy(f) => FollowerKeeps(config, s, n, f, Peeking);
    case Follow(f) => FollowerKeeps(config, s, n, f, Waiting);
  }

  // ---------------------------------------------------------------- step by step

  /** What holds of the call that moves. */
  lemma {:induction false} Acting(config: Config, s: State, n: nat)
    requires CallsFit(s) && RecordsFit(config, s) && n in s.calls
    ensures CallFits(s, s.calls[n]) && RecordFits(config, s.records, s.calls[n].id, ProgressOf(s.log, s.calls[n].id))
  {
    assert CallFits(s, s.calls[n]);
  }

  lemma {:induction false} ReadingKeeps(config: Config, s: State, n: nat)
    requires StateOK(config, s) && n in s.calls && (s.calls[n].place.Peeking? || s.calls[n].place.Waiting?)
    ensures StateOK(config, Goto(s, n, AfterRead(s.calls[n], Flights.AckOf(s.flights, s.calls[n].flight))))
  {
    var c := s.calls[n];
    assert CallFits(s, c);
    GotoKeeps(config, s, n, AfterRead(c, Flights.AckOf(s.flights, c.flight)));
  }

  /** A leader ends its callback and is to go on at `next`. */
  lemma {:induction false} CallbackEnds(config: Config, s: State, n: nat, next: Place)
    requires StateOK(config, s) && n in s.calls && s.calls[n].leader && InCallback(s.calls[n].place)
    requires (next.Entering? || next.Setting? || next.Sending? || next.Finishing?) && PlaceFits(s, s.calls[n], next)
    ensures StateOK(config, Goto(s, n, Leaving(next)))
  {
    hide Flights.TableOK, UniqueLeaders, CallsFit, RecordsFit, AcksFit, Legal, SessionsFit;
    var c := s.calls[n].(place := Leaving(next));
    Acting(config, s, n);
    PlaceIgnored(s, s.calls[n], c, next);
    assert PlaceFits(s, c, Leaving(next));
    GotoKeeps(config, s, n, Leaving(next));
  }

  lemma {:induction false} ClaimedKeeps(config: Config, s: State, n: nat, records: map<string, Entry>)
    requires StateOK(config, s) && n in s.calls && s.calls[n].place.Sampled? && s.calls[n].place.stage == Claim
    requires ClaimIn(s.records, config.dedupTTL, s.calls[n].place.sample, Key(s.calls[n].id), s.calls[n].fingerprint)
             == Claimed(records)
    ensures StateOK(config, ClaimStep(config, s, n, s.calls[n].place.sample))
  {
    hide Flights.TableOK, UniqueLeaders, CallsFit, RecordsFit, AcksFit, Legal, SessionsFit;
    var c, sample := s.calls[n], s.calls[n].place.sample;
    Acting(config, s, n);
    var e := Claiming(c.id, c.fingerprint, sample);
    ProgressAppended(s.log, e);
    GrowKeeps(config, s, n, e, records, Leaving(Entering(AfterClaim)));
  }

  lemma {:induction false} ClaimKeeps(config: Config, s: State, n: nat)
    requires StateOK(config, s) && n in s.calls && s.calls[n].place.Sampled? && s.calls[n].place.stage == Claim
    ensures StateOK(config, ClaimStep(config, s, n, s.calls[n].place.sample))
  {
    hide Flights.TableOK, UniqueLeaders, CallsFit, RecordsFit, AcksFit, Legal, SessionsFit;
    var c, sample := s.calls[n], s.calls[n].place.sample;
    Acting(config, s, n);
    match ClaimIn(s.records, config.dedupTTL, sample, Key(c.id), c.fingerprint)
    case Claimed(records) => ClaimedKeeps(config, s, n, records);
    case Existing(record) =>
      KeptWasStored(s.log, c.id);
      if record.Completed? && record.fingerprint == c.fingerprint && Answers(record.ack, c.id) {
        CallbackEnds(config, s, n, Setting(record.ack, false));
      } else {
        CallbackEnds(config, s, n, Finishing);
      }
  }

  lemma {:induction false} CompleteKeeps(config: Config, s: State, n: nat)
    requires StateOK(config, s) && n in s.calls && s.calls[n].place.Sampled? && s.calls[n].place.stage == Complete
    ensures StateOK(config, CompleteStep(config, s, n, s.calls[n].place.sample))
  {
    hide Flights.TableOK, UniqueLeaders, CallsFit, RecordsFit, AcksFit, Legal, SessionsFit;
    var c, sample := s.calls[n], s.calls[n].place.sample;
    Acting(config, s, n);
    var e := Stored(c.id, c.fingerprint, AckFor(c), sample);
    ProgressAppended(s.log, e);
    StoredStays(s.log, e);
    GrowKeeps(config, s, n, e, CompleteIn(s.records, config.dedupTTL, sample, Key(c.id), AckFor(c)).value,
              Leaving(Setting(AckFor(c), true)));
  }

  lemma {:induction false} ExecuteKeeps(config: Config, s: State, n: nat)
    requires StateOK(config, s) && n in s.calls && s.calls[n].place == Inside(Application)
    ensures StateOK(config, InsideStep(config, s, n, Application, true))
  {
    hide Flights.TableOK, UniqueLeaders, CallsFit, RecordsFit, AcksFit, Legal, SessionsFit;
    var c := s.calls[n];
    Acting(config, s, n);
    var e := Executed(c.id, c.fingerprint, s.clock);
    ProgressAppended(s.log, e);
    GrowKeeps(config, s, n, e, s.records, AppRunning);
  }

  lemma {:induction false} RunningKeeps(config: Config, s: State, n: nat, ok: bool)
    requires StateOK(config, s) && n in s.calls && s.calls[n].place == AppRunning
    ensures StateOK(config, CallStep(config, s, n, ok))
  {
    hide Flights.TableOK, UniqueLeaders, CallsFit, RecordsFit, AcksFit, Legal, SessionsFit;
    var c := s.calls[n];
    Acting(config, s, n);
    if ok {
      var e := Succeeded(c.id, c.fingerprint);
      ProgressAppended(s.log, e);
      GrowKeeps(config, s, n, e, s.records, Leaving(Entering(AfterApplication)));
    } else {
      CallbackEnds(config, s, n, Finishing);
    }
  }

  lemma {:induction false} SendingKeeps(config: Config, s: State, n: nat, ok: bool)
    requires StateOK(config, s) && n in s.calls && s.calls[n].place.Sending?
    ensures StateOK(config, SendStep(s, n, s.calls[n].place.ack, ok))
  {
    hide Flights.TableOK, UniqueLeaders, CallsFit, RecordsFit, AcksFit, Legal, SessionsFit;
    var c := s.calls[n];
    Acting(config, s, n);
    var after := if c.leader then Finishing else Ended;
    if ok {
      GrowKeeps(config, s, n, AckSent(c.id, c.fingerprint, c.place.ack), s.records, after);
    } else {
      GotoKeeps(config, s, n, after);
    }
  }

  lemma {:induction false} InsideKeeps(config: Config, s: State, n: nat, ok: bool)
    requires StateOK(config, s) && n in s.calls && s.calls[n].place.Inside?
    ensures StateOK(config, InsideStep(config, s, n, s.calls[n].place.stage, ok))
  {
    var c := s.calls[n];
    assert CallFits(s, c);
    if c.place.stage == Application {
      ExecuteKeeps(config, s, n);
    } else {
      InsideFits(config, s, n, ok);
      GotoKeeps(config, s, n, InsideStep(config, s, n, c.place.stage, ok).calls[n].place);
    }
  }

  /** Leaving a callback that logs nothing keeps what the next place needs. */
  lemma {:induction false} InsideFits(config: Config, s: State, n: nat, ok: bool)
    requires n in s.calls && s.calls[n].place.Inside? && s.calls[n].place.stage != Application
             && CallFits(s, s.calls[n])
    requires s.calls[n].leader
    ensures var place := InsideStep(config, s, n, s.calls[n].place.stage, ok).calls[n].place;
            && InsideStep(config, s, n, s.calls[n].place.stage, ok) == Goto(s, n, place)
            && CallFits(s, s.calls[n].(place := place))
  {
  }

  lemma {:induction false} EnteringKeeps(config: Config, s: State, n: nat, ok: bool)
    requires StateOK(config, s) && n in s.calls && s.calls[n].place.Entering?
    ensures Flights.Enter(s.flights, Key(s.calls[n].id), s.calls[n].flight).Some?
    ensures StateOK(config, CallStep(config, s, n, ok))
  {
    var c := s.calls[n];
    assert CallFits(s, c) && Flights.FlightOK(s.flights, c.flight);
    var flight := s.flights.all[c.flight].(callbackActive := true);
    FlightKeeps(config, s, n, flight, Inside(c.place.stage));
  }

  lemma {:induction false} LeavingKeeps(config: Config, s: State, n: nat, ok: bool)
    requires StateOK(config, s) && n in s.calls && s.calls[n].place.Leaving?
    ensures StateOK(config, CallStep(config, s, n, ok))
  {
    var c := s.calls[n];
    assert CallFits(s, c);
    FlightKeeps(config, s, n, s.flights.all[c.flight].(callbackActive := false), c.place.next);
  }

  lemma {:induction false} SettingKeeps(config: Config, s: State, n: nat, ok: bool)
    requires StateOK(config, s) && n in s.calls && s.calls[n].place.Setting?
    ensures StateOK(config, CallStep(config, s, n, ok))
  {
    var c := s.calls[n];
    assert CallFits(s, c);
    FlightKeeps(config, s, n, s.flights.all[c.flight].(ack := Some(c.place.ack)),
                if c.place.original then Entering(AfterComplete) else Sending(c.place.ack));
  }

  lemma {:induction false} CallKeeps(config: Config, s: State, n: nat, ok: bool)
    requires StateOK(config, s) && n in s.calls
    ensures StateOK(config, CallStep(config, s, n, ok))
  {
    var c := s.calls[n];
    assert CallFits(s, c);
    match c.place
    case Acquiring => AcquiringKeeps(config, s, n);
    case Peeking => ReadingKeeps(config, s, n);
    case Waiting => ReadingKeeps(config, s, n); GotoKeeps(config, s, n, Ended);
    case Entering(_) => EnteringKeeps(config, s, n, ok);
    case Inside(_) => InsideKeeps(config, s, n, ok);
    case Sampled(stage, _) => if stage == Claim { ClaimKeeps(config, s, n); } else { CompleteKeeps(config, s, n); }
    case AppRunning => RunningKeeps(config, s, n, ok);
    case Leaving(_) => LeavingKeeps(config, s, n, ok);
    case Setting(_, _) => SettingKeeps(config, s, n, ok);
    case Sending(_) => SendingKeeps(config, s, n, ok);
    case Finishing => FinishingKeeps(config, s, n);
    case Ended =>
  }

  // ---------------------------------------------------------------- every run

  lemma {:induction false} TimePasses(s: State, t: State, c: Call, place: Place)
    requires PlaceFits(s, c, place) && t == s.(clock := t.clock, sessions := t.sessions)
    requires s.clock <= t.clock && forall x | x in s.sessions :: x in t.sessions
    ensures PlaceFits(t, c, place)
    decreases place
  {
    if place.Leaving? { TimePasses(s, t, c, place.next); }
  }

  lemma {:induction false} EnvironmentKeeps(config: Config, s: State, t: State)
    requires StateOK(config, s) && t == s.(clock := t.clock, sessions := t.sessions) && s.clock <= t.clock
    requires forall x | x in s.sessions :: x in t.sessions && t.sessions[x] == s.sessions[x]
    requires forall x | x in t.sessions :: t.sessions[x] - config.sessionTTL <= t.clock
    ensures StateOK(config, t)
  {
    forall k | k in t.calls
      ensures CallFits(t, t.calls[k])
    {
      assert CallFits(s, s.calls[k]);
      TimePasses(s, t, s.calls[k], s.calls[k].place);
    }
  }

  lemma {:induction false} BeginKeeps(config: Config, s: State, n: nat, id: SendID, fingerprint: string)
    requires StateOK(config, s) && n !in s.calls && WellFormed(id)
    ensures StateOK(config, s.(calls := s.calls[n := Call(id, fingerprint, s.clock, false, 0, Acquiring)]))
  {
    var t := s.(calls := s.calls[n := Call(id, fingerprint, s.clock, false, 0, Acquiring)]);
    forall k | k in t.calls
      ensures CallFits(t, t.calls[k])
    {
      if k != n { assert CallFits(s, s.calls[k]); }
      SameShared(s, t, t.calls[k], t.calls[k].place);
    }
  }

  lemma {:induction false} MoveKeeps(config: Config, s: State, m: Move)
    requires StateOK(config, s)
    ensures StateOK(config, Next(config, s, m))
  {
    match m
    case Tick(_) => EnvironmentKeeps(config, s, Next(config, s, m));
    case CreateSession(_, _) => EnvironmentKeeps(config, s, Next(config, s, m));
    case Begin(n, id, fingerprint) => if n !in s.calls && WellFormed(id) { BeginKeeps(config, s, n, id, fingerprint); }
    case Proceed(n, ok) => if n in s.calls { CallKeeps(config, s, n, ok); }
  }

  lemma {:induction false} EveryRunKeeps(config: Config, s: State, moves: seq<Move>)
    requires StateOK(config, s)
    ensures StateOK(config, RunOf(config, s, moves))
    decreases |moves|
  {
    if moves == [] {
    } else {
      MoveKeeps(config, s, moves[0]);
      EveryRunKeeps(config, Next(config, s, moves[0]), moves[1..]);
    }
  }
}
