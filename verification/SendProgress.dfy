/** What a SEND achieves when nothing fails, and the run that shows why claims must precede expiry. */
module SendProgress {
  import opened Wire
  import opened DedupStore
  import opened SendHistory
  import opened SendPath
  import Flights

  function Iterate(f: State -> State, s: State, k: nat): State
    decreases k
  {
    if k == 0 then s else Iterate(f, f(s), k - 1)
  }

  lemma {:induction false} IterateAdd(f: State -> State, s: State, a: nat, b: nat)
    ensures Iterate(f, s, a + b) == Iterate(f, Iterate(f, s, a), b)
    decreases a
  {
    if a == 0 {
    } else {
      IterateAdd(f, f(s), a - 1, b);
    }
  }

  function Proceeding(config: Config, n: nat): State -> State
  {
    (s: State) => Next(config, s, Proceed(n, true))
  }

  /** Some number of steps of call `n`, none failing, takes `s` to `t`. */
  ghost predicate Leads(config: Config, n: nat, s: State, t: State)
  {
    exists k: nat :: Iterate(Proceeding(config, n), s, k) == t
  }

  lemma {:induction false} Then(config: Config, n: nat, s: State, t: State, u: State)
    requires Leads(config, n, s, t) && Leads(config, n, t, u)
    ensures Leads(config, n, s, u)
  {
    var f := Proceeding(config, n);
    var a: nat :| Iterate(f, s, a) == t;
    var b: nat :| Iterate(f, t, b) == u;
    IterateAdd(f, s, a, b);
  }

  lemma {:induction false} One(config: Config, n: nat, s: State, t: State)
    requires n in s.calls && t == CallStep(config, s, n, true)
    ensures Leads(config, n, s, t)
  {
    var f := Proceeding(config, n);
    assert f(s) == t;
    assert Iterate(f, t, 0) == t;
    assert Iterate(f, s, 1) == t;
  }

  /** About to enter a callback of a flight that is its own and idle. */
  predicate AtStage(s: State, n: nat, stage: Stage)
  {
    && n in s.calls && s.calls[n].leader && s.calls[n].place == Entering(stage)
    && Flights.IsCurrent(s.flights, Key(s.calls[n].id), s.calls[n].flight)
    && !s.flights.all[s.calls[n].flight].callbackActive
  }

  function Entered(s: State, n: nat, stage: Stage): State
    requires AtStage(s, n, stage)
  {
    Goto(s.(flights := Flights.Enter(s.flights, Key(s.calls[n].id), s.calls[n].flight).value), n, Inside(stage))
  }

  lemma {:induction false} EnterThenLeave(t: Flights.Table, key: string, f: nat)
    requires Flights.Enter(t, key, f).Some?
    ensures Flights.Leave(Flights.Enter(t, key, f).value, f) == t
  {
    assert t.all[f := t.all[f].(callbackActive := true)][f := t.all[f]] == t.all;
  }

  /** Leaving a callback restores the flight: only its effects on the log and the store remain. */
  lemma {:induction false} LeavesAsFound(config: Config, s: State, n: nat, stage: Stage, log: seq<Happening>,
                                         records: map<string, Entry>, next: Place)
    requires AtStage(s, n, stage)
    ensures var inner := Entered(s, n, stage).(log := log, records := records);
            CallStep(config, Goto(inner, n, Leaving(next)), n, true)
              == Goto(s.(log := log, records := records), n, next)
  {
    var c := s.calls[n];
    EnterThenLeave(s.flights, Key(c.id), c.flight);
    var calls := Goto(Entered(s, n, stage), n, Leaving(next)).calls;
    assert calls[n := c.(place := next)] == s.calls[n := c.(place := next)];
  }

  function AfterStage(c: Call, stage: Stage): Place
  {
    match stage
    case Lookup => Entering(Claim)
    case AfterClaim => Entering(Application)
    case AfterApplication => Entering(Complete)
    case AfterComplete => Sending(AckFor(c))
    case _ => Finishing
  }

  lemma {:induction false} PlainStage(config: Config, s: State, n: nat, stage: Stage)
    requires AtStage(s, n, stage) && stage in {Lookup, AfterClaim, AfterApplication, AfterComplete}
    requires stage == Lookup ==> Found(s, s.calls[n])
    ensures Leads(config, n, s, Goto(s, n, AfterStage(s.calls[n], stage)))
  {
    var s1 := CallStep(config, s, n, true);
    assert s1 == Entered(s, n, stage);
    var s2 := CallStep(config, s1, n, true);
    assert s2 == Goto(s1, n, Leaving(AfterStage(s.calls[n], stage)));
    LeavesAsFound(config, s, n, stage, s.log, s.records, AfterStage(s.calls[n], stage));
    var s3 := CallStep(config, s2, n, true);
    One(config, n, s, s1);
    One(config, n, s1, s2);
    One(config, n, s2, s3);
    Then(config, n, s, s1, s2);
    Then(config, n, s, s2, s3);
  }

  /** Two steps inside, with their effect on log and store. */
  lemma {:induction false} FourSteps(config: Config, s: State, n: nat, stage: Stage, s2: State, log: seq<Happening>,
                                     records: map<string, Entry>, next: Place)
    requires AtStage(s, n, stage)
    requires s2 == CallStep(config, Entered(s, n, stage), n, true) && n in s2.calls
    requires CallStep(config, s2, n, true)
             == Goto(Entered(s, n, stage).(log := log, records := records), n, Leaving(next))
    ensures Leads(config, n, s, Goto(s.(log := log, records := records), n, next))
  {
    var s1 := CallStep(config, s, n, true);
    assert s1 == Entered(s, n, stage);
    var s3 := CallStep(config, s2, n, true);
    LeavesAsFound(config, s, n, stage, log, records, next);
    var s4 := CallStep(config, s3, n, true);
    One(config, n, s, s1);
    One(config, n, s1, s2);
    One(config, n, s2, s3);
    One(config, n, s3, s4);
    Then(config, n, s, s1, s2);
    Then(config, n, s, s2, s3);
    Then(config, n, s, s3, s4);
  }

  lemma {:induction false} SameCall(s: State, u: State, n: nat, a: Place, b: Place)
    requires n in s.calls && u == Goto(s, n, a)
    ensures Goto(u, n, b) == Goto(s, n, b)
  {
    assert u.calls[n := u.calls[n].(place := b)] == s.calls[n := s.calls[n].(place := b)];
  }

  lemma {:induction false} ClaimStage(config: Config, s: State, n: nat)
    requires AtStage(s, n, Claim)
    requires ClaimIn(s.records, config.dedupTTL, s.clock, Key(s.calls[n].id), s.calls[n].fingerprint).Claimed?
    ensures var c := s.calls[n];
            Leads(config, n, s,
                  Goto(s.(log := s.log + [Claiming(c.id, c.fingerprint, s.clock)],
                          records := ClaimIn(s.records, config.dedupTTL, s.clock, Key(c.id), c.fingerprint).records),
                       n, Entering(AfterClaim)))
  {
    var c, s1 := s.calls[n], Entered(s, n, Claim);
    var records := ClaimIn(s.records, config.dedupTTL, s.clock, Key(c.id), c.fingerprint).records;
    var log := s.log + [Claiming(c.id, c.fingerprint, s.clock)];
    var s2 := CallStep(config, s1, n, true);
    SameCall(s1.(log := log, records := records), s2.(log := log, records := records), n, s2.calls[n].place,
             Leaving(Entering(AfterClaim)));
    FourSteps(config, s, n, Claim, s2, log, records, Entering(AfterClaim));
  }

  lemma {:induction false} ApplicationStage(config: Config, s: State, n: nat)
    requires AtStage(s, n, Application)
    ensures var c := s.calls[n];
            Leads(config, n, s,
                  Goto(s.(log := s.log + [Executed(c.id, c.fingerprint, s.clock), Succeeded(c.id, c.fingerprint)]), n,
                       Entering(AfterApplication)))
  {
    var c, s1 := s.calls[n], Entered(s, n, Application);
    var log := s.log + [Executed(c.id, c.fingerprint, s.clock), Succeeded(c.id, c.fingerprint)];
    var s2 := CallStep(config, s1, n, true);
    assert s2.log + [Succeeded(c.id, c.fingerprint)] == log;
    SameCall(s1.(log := log), s2.(log := log), n, AppRunning, Leaving(Entering(AfterApplication)));
    FourSteps(config, s, n, Application, s2, log, s.records, Entering(AfterApplication));
  }

  lemma {:induction false} CompleteStage(config: Config, s: State, n: nat)
    requires AtStage(s, n, Complete)
    requires CompleteIn(s.records, config.dedupTTL, s.clock, Key(s.calls[n].id), AckFor(s.calls[n])).Some?
    ensures var c := s.calls[n];
            Leads(config, n, s,
                  Goto(s.(log := s.log + [Stored(c.id, c.fingerprint, AckFor(c), s.clock)],
                          records := CompleteIn(s.records, config.dedupTTL, s.clock, Key(c.id), AckFor(c)).value),
                       n, Setting(AckFor(c), true)))
  {
    var c, s1 := s.calls[n], Entered(s, n, Complete);
    var records := CompleteIn(s.records, config.dedupTTL, s.clock, Key(c.id), AckFor(c)).value;
    var log := s.log + [Stored(c.id, c.fingerprint, AckFor(c), s.clock)];
    var s2 := CallStep(config, s1, n, true);
    SameCall(s1.(log := log, records := records), s2.(log := log, records := records), n, s2.calls[n].place,
             Leaving(Setting(AckFor(c), true)));
    FourSteps(config, s, n, Complete, s2, log, records, Setting(AckFor(c), true));
  }

  // ---------------------------------------------------------------- a whole SEND

  /** What one unhindered SEND leaves in the log. */
  function Story(c: Call, clock: int): seq<Happening>
  {
    [Claiming(c.id, c.fingerprint, clock), Executed(c.id, c.fingerprint, clock), Succeeded(c.id, c.fingerprint),
     Stored(c.id, c.fingerprint, AckFor(c), clock), AckSent(c.id, c.fingerprint, AckFor(c))]
  }

  predicate Claimable(config: Config, s: State, c: Call)
  {
    ClaimIn(s.records, config.dedupTTL, s.clock, Key(c.id), c.fingerprint).Claimed?
  }

  function AfterClaiming(config: Config, s: State, n: nat): State
    requires n in s.calls
  {
    var c := s.calls[n];
    Goto(s.(log := s.log + [Claiming(c.id, c.fingerprint, s.clock)],
            records := s.records[Key(c.id) := Entry(Processing(c.fingerprint), s.clock + config.dedupTTL)]),
         n, Entering(AfterClaim))
  }

  lemma {:induction false} Claims(config: Config, s: State, n: nat)
    requires AtStage(s, n, Lookup) && Found(s, s.calls[n]) && Claimable(config, s, s.calls[n])
    ensures Leads(config, n, s, AfterClaiming(config, s, n))
  {
    var s1 := Goto(s, n, Entering(Claim));
    PlainStage(config, s, n, Lookup);
    ClaimStage(config, s1, n);
    var s2 := AfterClaiming(config, s1, n);
    assert s2.calls == AfterClaiming(config, s, n).calls;
    Then(config, n, s, s1, s2);
  }

  function AfterRunning(s: State, n: nat): State
    requires n in s.calls
  {
    var c := s.calls[n];
    Goto(s.(log := s.log + [Executed(c.id, c.fingerprint, s.clock), Succeeded(c.id, c.fingerprint)]), n,
         Entering(AfterApplication))
  }

  lemma {:induction false} Runs(config: Config, s: State, n: nat)
    requires AtStage(s, n, AfterClaim)
    ensures Leads(config, n, s, AfterRunning(s, n))
  {
    var s1 := Goto(s, n, Entering(Application));
    PlainStage(config, s, n, AfterClaim);
    ApplicationStage(config, s1, n);
    assert AfterRunning(s1, n).calls == AfterRunning(s, n).calls;
    Then(config, n, s, s1, AfterRunning(s, n));
  }

  function AfterStoring(config: Config, s: State, n: nat): State
    requires n in s.calls
  {
    var c := s.calls[n];
    Goto(s.(log := s.log + [Stored(c.id, c.fingerprint, AckFor(c), s.clock)],
            records := s.records[Key(c.id) := Entry(Completed(c.fingerprint, AckFor(c)), s.clock + config.dedupTTL)]),
         n, Setting(AckFor(c), true))
  }

  lemma {:induction false} Stores(config: Config, s: State, n: nat)
    requires AtStage(s, n, AfterApplication)
    requires var c := s.calls[n]; Key(c.id) in s.records && s.records[Key(c.id)].record == Processing(c.fingerprint)
    ensures Leads(config, n, s, AfterStoring(config, s, n))
  {
    var s1 := Goto(s, n, Entering(Complete));
    PlainStage(config, s, n, AfterApplication);
    CompleteStage(config, s1, n);
    assert AfterStoring(config, s1, n).calls == AfterStoring(config, s, n).calls;
    Then(config, n, s, s1, AfterStoring(config, s, n));
  }

  function AfterAnswering(s: State, n: nat): State
    requires n in s.calls
  {
    var c := s.calls[n];
    Goto(s.(log := s.log + [AckSent(c.id, c.fingerprint, AckFor(c))],
            flights := Flights.Finish(Flights.SetAck(s.flights, c.flight, AckFor(c)), Key(c.id), c.flight)),
         n, Ended)
  }

  lemma {:induction false} Answering(config: Config, s: State, n: nat)
    requires n in s.calls && s.calls[n].leader && s.calls[n].place == Setting(AckFor(s.calls[n]), true)
    requires Flights.IsCurrent(s.flights, Key(s.calls[n].id), s.calls[n].flight)
    requires !s.flights.all[s.calls[n].flight].callbackActive
    ensures Leads(config, n, s, AfterAnswering(s, n))
  {
    hide Leads, InsideStep, ClaimStep, CompleteStep, AcquireStep;
    var c := s.calls[n];
    var s1 := CallStep(config, s, n, true);
    One(config, n, s, s1);
    var s2 := Goto(s1, n, Sending(AckFor(c)));
    PlainStage(config, s1, n, AfterComplete);
    Then(config, n, s, s1, s2);
    var s3 := CallStep(config, s2, n, true);
    One(config, n, s2, s3);
    Then(config, n, s, s2, s3);
    var s4 := CallStep(config, s3, n, true);
    One(config, n, s3, s4);
    Then(config, n, s, s3, s4);
    assert s4.calls == AfterAnswering(s, n).calls;
  }

  function AfterSend(config: Config, s: State, n: nat): State
    requires n in s.calls
  {
    var c := s.calls[n];
    Goto(s.(log := s.log + Story(c, s.clock),
            records := s.records[Key(c.id) := Entry(Completed(c.fingerprint, AckFor(c)), s.clock + config.dedupTTL)],
            flights := Flights.Finish(Flights.SetAck(s.flights, c.flight, AckFor(c)), Key(c.id), c.flight)),
         n, Ended)
  }

  /** A leader whose Session is found and whose claim is granted, and whom nothing fails, executes the
      application once, stores the ACK and sends it: the log grows by exactly that story. */
  lemma {:induction false} UnhinderedSendCompletes(config: Config, s: State, n: nat)
    requires AtStage(s, n, Lookup) && Found(s, s.calls[n]) && Claimable(config, s, s.calls[n])
    ensures Leads(config, n, s, AfterSend(config, s, n))
  {
    var s1 := AfterClaiming(config, s, n);
    Claims(config, s, n);
    var s2 := AfterRunning(s1, n);
    Runs(config, s1, n);
    var s3 := AfterStoring(config, s2, n);
    Stores(config, s2, n);
    var s4 := AfterAnswering(s3, n);
    Answering(config, s3, n);
    Then(config, n, s, s1, s2);
    Then(config, n, s, s2, s3);
    Then(config, n, s, s3, s4);
    Whole(config, s, n, s1, s2, s3, s4);
  }

  lemma {:induction false} Whole(config: Config, s: State, n: nat, s1: State, s2: State, s3: State, s4: State)
    requires n in s.calls && s1 == AfterClaiming(config, s, n) && s2 == AfterRunning(s1, n)
    requires s3 == AfterStoring(config, s2, n) && s4 == AfterAnswering(s3, n)
    ensures s4 == AfterSend(config, s, n)
  {
    hide Flights.Finish, Flights.SetAck;
    var c, key := s.calls[n], Key(s.calls[n].id);
    assert s2.log == s.log + Story(c, s.clock)[..3];
    assert s4.log == s2.log + Story(c, s.clock)[3..];
    OverwriteTwice(s.calls, n, s1.calls[n], s2.calls[n]);
    OverwriteTwice(s.calls, n, s2.calls[n], s3.calls[n]);
    OverwriteTwice(s.calls, n, s3.calls[n], s4.calls[n]);
    OverwriteTwice(s.records, key, s1.records[key], s3.records[key]);
  }

  lemma {:induction false} OverwriteTwice<K, V>(m: map<K, V>, k: K, a: V, b: V)
    ensures m[k := a][k := b] == m[k := b]
  {
  }

  // ---------------------------------------------------------------- a claim after expiry

  ghost predicate Reaches(config: Config, s: State, t: State)
  {
    exists moves :: RunOf(config, s, moves) == t
  }

  lemma {:induction false} RunConcat(config: Config, s: State, a: seq<Move>, b: seq<Move>)
    ensures RunOf(config, s, a + b) == RunOf(config, RunOf(config, s, a), b)
    decreases |a|
  {
    if a == [] {
      assert a + b == b;
    } else {
      assert (a + b)[1..] == a[1..] + b;
      RunConcat(config, Next(config, s, a[0]), a[1..], b);
    }
  }

  lemma {:induction false} ReachesThen(config: Config, s: State, t: State, u: State)
    requires Reaches(config, s, t) && Reaches(config, t, u)
    ensures Reaches(config, s, u)
  {
    var a :| RunOf(config, s, a) == t;
    var b :| RunOf(config, t, b) == u;
    RunConcat(config, s, a, b);
  }

  lemma {:induction false} ReachesOne(config: Config, s: State, m: Move)
    ensures Reaches(config, s, Next(config, s, m))
  {
    assert [m][1..] == [];
    assert RunOf(config, Next(config, s, m), []) == Next(config, s, m);
    assert RunOf(config, s, [m]) == Next(config, s, m);
  }

  lemma {:induction false} IterateReaches(config: Config, n: nat, s: State, k: nat)
    ensures Reaches(config, s, Iterate(Proceeding(config, n), s, k))
    decreases k
  {
    if k == 0 {
      assert RunOf(config, s, []) == s;
    } else {
      var t := Next(config, s, Proceed(n, true));
      ReachesOne(config, s, Proceed(n, true));
      IterateReaches(config, n, t, k - 1);
      ReachesThen(config, s, t, Iterate(Proceeding(config, n), t, k - 1));
    }
  }

  lemma {:induction false} LeadsReaches(config: Config, n: nat, s: State, t: State)
    requires Leads(config, n, s, t)
    ensures Reaches(config, s, t)
  {
    var k: nat :| Iterate(Proceeding(config, n), s, k) == t;
    IterateReaches(config, n, s, k);
  }

  ghost predicate RanTwice(s: State, id: SendID)
  {
    exists i, j | 0 <= i < j < |s.log| ::
      s.log[i].Executed? && s.log[j].Executed? && s.log[i].id == id && s.log[j].id == id
  }

  /** Two calls for one SEND, both begun while the Session lives. */
  function TwoBegun(config: Config, id: SendID, fingerprint: string): State
  {
    State(0, map[id.sessionID := config.sessionTTL], map[], Flights.NO_FLIGHTS,
          map[0 := Call(id, fingerprint, 0, false, 0, Acquiring), 1 := Call(id, fingerprint, 0, false, 0, Acquiring)],
            [])
  }

  lemma {:induction false} TwoBegunReached(config: Config, id: SendID, fingerprint: string)
    requires WellFormed(id) && id.sessionID != ""
    ensures Reaches(config, InitialState(0), TwoBegun(config, id, fingerprint))
  {
    var s0 := InitialState(0);
    var s1 := Next(config, s0, CreateSession(id.sessionID, 0));
    var s2 := Next(config, s1, Begin(0, id, fingerprint));
    var s3 := Next(config, s2, Begin(1, id, fingerprint));
    ReachesOne(config, s0, CreateSession(id.sessionID, 0));
    ReachesOne(config, s1, Begin(0, id, fingerprint));
    ReachesOne(config, s2, Begin(1, id, fingerprint));
    ReachesThen(config, s0, s1, s2);
    ReachesThen(config, s0, s2, s3);
    assert s3.calls == TwoBegun(config, id, fingerprint).calls;
    assert s3 == TwoBegun(config, id, fingerprint);
  }

  /** From acquiring to the end, when no other flight has the SEND. */
  lemma {:induction false} CompletesFromStart(config: Config, s: State, n: nat) returns (t: State)
    requires n in s.calls && s.calls[n].place.Acquiring? && Key(s.calls[n].id) !in s.flights.current
    requires Found(s, s.calls[n]) && Claimable(config, s, s.calls[n])
    ensures Leads(config, n, s, t)
    ensures var c := s.calls[n];
            && t.clock == s.clock && t.sessions == s.sessions
            && t.log == s.log + Story(c, s.clock)
            && t.records == s.records[Key(c.id) :=
                                      Entry(Completed(c.fingerprint, AckFor(c)), s.clock + config.dedupTTL)]
            && Key(c.id) !in t.flights.current
            && (forall k | k in s.calls && k != n :: k in t.calls && t.calls[k] == s.calls[k])
  {
    var c := s.calls[n];
    var s1 := CallStep(config, s, n, true);
    One(config, n, s, s1);
    assert s1.calls[n] == c.(leader := true, flight := |s.flights.all|, place := Entering(Lookup));
    UnhinderedSendCompletes(config, s1, n);
    t := AfterSend(config, s1, n);
    Then(config, n, s, s1, t);
  }

  /** The limit of the guarantee, for every configuration: a call that found its Session alive but
      whose claim is decided after the retention of an earlier completion runs the application again. */
  lemma {:induction false} LateClaimRunsAgain(config: Config, id: SendID, fingerprint: string)
    requires WellFormed(id) && id.sessionID != "" && config.sessionTTL > 0
    ensures exists moves :: RanTwice(RunOf(config, InitialState(0), moves), id)
  {
    hide Leads, CallStep;
    var s0, s1 := InitialState(0), TwoBegun(config, id, fingerprint);
    TwoBegunReached(config, id, fingerprint);
    var s2 := CompletesFromStart(config, s1, 0);
    LeadsReaches(config, 0, s1, s2);
    var s3 := Next(config, s2, Tick(config.dedupTTL));
    ReachesOne(config, s2, Tick(config.dedupTTL));
    var s4 := CompletesFromStart(config, s3, 1);
    LeadsReaches(config, 1, s3, s4);
    ReachesThen(config, s0, s1, s2);
    ReachesThen(config, s0, s2, s3);
    ReachesThen(config, s0, s3, s4);
    assert s4.log[1].Executed? && s4.log[6].Executed? && s4.log[1].id == id && s4.log[6].id == id;
    var moves :| RunOf(config, s0, moves) == s4;
    assert RanTwice(RunOf(config, InitialState(0), moves), id);
  }
}
