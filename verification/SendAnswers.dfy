/** What a retried or concurrent SEND gets when nothing fails: who leads, who follows, and which ACK each
    of them sends. */
module SendAnswers {
  import opened Wire
  import opened DedupStore
  import opened SendHistory
  import opened SendPath
  import opened SendProgress
  import opened SendTheorems
  import Flights

  // ---------------------------------------------------------------- undisturbed steps

  lemma {:induction false} StepKeepsState(config: Config, s: State, n: nat)
    requires StateOK(config, s) && n in s.calls
    ensures StateOK(config, CallStep(config, s, n, true))
  {
    hide StateOK, CallStep;
    MoveKeeps(config, s, Proceed(n, true));
  }

  /** One more step of the same call. */
  lemma {:induction false} Further(config: Config, n: nat, s: State, t: State)
    requires Leads(config, n, s, t) && StateOK(config, t) && n in t.calls
    ensures var u := CallStep(config, t, n, true); Leads(config, n, s, u) && StateOK(config, u)
  {
    hide Leads, CallStep, StateOK;
    One(config, n, t, CallStep(config, t, n, true));
    Then(config, n, s, t, CallStep(config, t, n, true));
    StepKeepsState(config, t, n);
  }

  lemma {:induction false} Still(config: Config, n: nat, s: State)
    ensures Leads(config, n, s, s)
  {
    assert Iterate(Proceeding(config, n), s, 0) == s;
  }

  /** The call has ended; apart from it only its flight and, by `more`, the log have changed. */
  predicate EndsWith(s: State, n: nat, t: State, more: seq<Happening>)
  {
    && n in s.calls && n in t.calls
    && t == s.(log := s.log + more, flights := t.flights, calls := s.calls[n := s.calls[n].(place := Ended)])
  }

  /** A leader that has ended has closed its flight, which is no longer current. */
  ghost predicate FlightOver(s: State, n: nat)
  {
    && n in s.calls && s.calls[n].flight < |s.flights.all| && s.flights.all[s.calls[n].flight].closes == 1
    && Key(s.calls[n].id) !in s.flights.current
  }

  // ---------------------------------------------------------------- the refused claim

  /** The claim is refused: another call has the SEND in hand, or its completion is still retained. */
  predicate Refused(config: Config, p: Progress, sample: int)
  {
    !p.Idle? && (p.Kept? ==> sample < p.sample + config.dedupTTL)
  }

  /** The stored ACK for that very content. */
  function Answer(p: Progress, c: Call): seq<Happening>
  {
    if p.Kept? && p.fingerprint == c.fingerprint then [AckSent(c.id, c.fingerprint, p.ack)] else []
  }

  lemma {:induction false} RefusedStep(config: Config, s: State, n: nat)
    requires StateOK(config, s) && n in s.calls && s.calls[n].place.Sampled? && s.calls[n].place.stage == Claim
    requires Refused(config, ProgressOf(s.log, s.calls[n].id), s.calls[n].place.sample)
    ensures var p, c := ProgressOf(s.log, s.calls[n].id), s.calls[n];
            CallStep(config, s, n, true) == Goto(s, n, Leaving(
              if p.Kept? && p.fingerprint == c.fingerprint then Setting(p.ack, false) else Finishing))
  {
    hide Flights.TableOK, UniqueLeaders, CallsFit, AcksFit, SessionsFit;
    var p, c := ProgressOf(s.log, s.calls[n].id), s.calls[n];
    Acting(config, s, n);
    if p.Kept? {
      KeptWasStored(s.log, c.id);
      StoredAnswers(s.log, config.dedupTTL, c.id, p.fingerprint, p.ack);
    }
  }

  /** From leaving the callback to the end. */
  lemma {:induction false} LeaveAndEnd(config: Config, s: State, n: nat, next: Place) returns (t: State)
    requires StateOK(config, s) && n in s.calls && s.calls[n].leader && s.calls[n].place == Leaving(next)
    requires next.Finishing? || (next.Setting? && !next.original)
    ensures Leads(config, n, s, t) && StateOK(config, t) && FlightOver(t, n)
    ensures EndsWith(s, n, t,
                     if next.Setting? then [AckSent(s.calls[n].id, s.calls[n].fingerprint, next.ack)] else [])
  {
    hide StateOK, Leads, InsideStep, ClaimStep, CompleteStep, AcquireStep;
    hide Flights.Finish, Flights.SetAck, Flights.Leave;
    var c := s.calls[n];
    Still(config, n, s);
    Further(config, n, s, s);
    var s1 := CallStep(config, s, n, true);
    if next.Finishing? {
      Further(config, n, s, s1);
      t := CallStep(config, s1, n, true);
      LastStep(config, s1, n);
      assert s.log + [] == s.log;
    } else {
      Further(config, n, s, s1);
      var s2 := CallStep(config, s1, n, true);
      Further(config, n, s, s2);
      var s3 := CallStep(config, s2, n, true);
      Further(config, n, s, s3);
      t := CallStep(config, s3, n, true);
      LastStep(config, s3, n);
    }
    assert t.calls == s.calls[n := c.(place := Ended)];
  }

  /** Finishing takes the flight out of the table and ends the call. */
  lemma {:induction false} LastStep(config: Config, s: State, n: nat)
    requires StateOK(config, s) && n in s.calls && s.calls[n].leader && s.calls[n].place.Finishing?
    ensures FlightOver(CallStep(config, s, n, true), n)
  {
    hide RecordsFit, AcksFit, Legal, SessionsFit, UniqueLeaders, PlaceFits;
    assert CallFits(s, s.calls[n]);
    Flights.FinishKeeps(s.flights, s.calls[n].flight);
  }

  /** A leader whose claim is refused and whom nothing fails sends the stored ACK if its own content was
      completed, and nothing otherwise; the application does not run, the store is untouched, and its
      flight is closed. */
  lemma {:induction false} RefusedClaimAnswers(config: Config, s: State, n: nat) returns (t: State)
    requires StateOK(config, s) && n in s.calls && s.calls[n].place.Sampled? && s.calls[n].place.stage == Claim
    requires Refused(config, ProgressOf(s.log, s.calls[n].id), s.calls[n].place.sample)
    ensures Leads(config, n, s, t) && StateOK(config, t) && FlightOver(t, n)
    ensures EndsWith(s, n, t, Answer(ProgressOf(s.log, s.calls[n].id), s.calls[n]))
  {
    hide StateOK, Leads, CallStep, ProgressOf, FlightOver;
    var p, c := ProgressOf(s.log, s.calls[n].id), s.calls[n];
    RefusedStep(config, s, n);
    OnlyLeadersClaim(config, s, n);
    Still(config, n, s);
    Further(config, n, s, s);
    var s1 := CallStep(config, s, n, true);
    var next := if p.Kept? && p.fingerprint == c.fingerprint then Setting(p.ack, false) else Finishing;
    t := LeaveAndEnd(config, s1, n, next);
    Then(config, n, s, s1, t);
    assert t.calls == s.calls[n := c.(place := Ended)];
  }

  lemma {:induction false} OnlyLeadersClaim(config: Config, s: State, n: nat)
    requires StateOK(config, s) && n in s.calls && s.calls[n].place.Sampled?
    ensures s.calls[n].leader
  {
    hide RecordsFit, AcksFit, Legal, SessionsFit, UniqueLeaders, PlaceFits, Flights.TableOK;
    assert CallFits(s, s.calls[n]);
  }

  /** In every reachable state. */
  lemma {:induction false} RetryGetsStoredAck(config: Config, clock: int, moves: seq<Move>, n: nat) returns (t: State)
    requires var s := RunOf(config, InitialState(clock), moves);
             && n in s.calls && s.calls[n].place.Sampled? && s.calls[n].place.stage == Claim
             && Refused(config, ProgressOf(s.log, s.calls[n].id), s.calls[n].place.sample)
    ensures var s := RunOf(config, InitialState(clock), moves);
            && Leads(config, n, s, t) && FlightOver(t, n)
            && EndsWith(s, n, t, Answer(ProgressOf(s.log, s.calls[n].id), s.calls[n]))
  {
    hide StateOK, Leads, Next, ProgressOf, FlightOver;
    Reachable(config, clock, moves);
    t := RefusedClaimAnswers(config, RunOf(config, InitialState(clock), moves), n);
  }

  // ---------------------------------------------------------------- followers

  /** A follower of a finished flight, or one that meets a flight inside a callback, sends exactly the ACK
      that flight holds, or nothing if it holds none. */
  lemma {:induction false} FollowerAnswers(config: Config, s: State, n: nat) returns (t: State)
    requires StateOK(config, s) && n in s.calls
    requires s.calls[n].place.Peeking?
             || (s.calls[n].place.Waiting? && s.calls[n].flight < |s.flights.all|
                 && s.flights.all[s.calls[n].flight].closes > 0)
    ensures var c, ack := s.calls[n], Flights.AckOf(s.flights, s.calls[n].flight);
            && Leads(config, n, s, t) && t.flights == s.flights
            && EndsWith(s, n, t, if ack.Some? then [AckSent(c.id, c.fingerprint, ack.value)] else [])
  {
    hide StateOK, Leads, InsideStep, ClaimStep, CompleteStep, AcquireStep;
    var c, ack := s.calls[n], Flights.AckOf(s.flights, s.calls[n].flight);
    HeldAnswers(config, s, n);
    Still(config, n, s);
    Further(config, n, s, s);
    var s1 := CallStep(config, s, n, true);
    if ack.Some? {
      Further(config, n, s, s1);
      t := CallStep(config, s1, n, true);
    } else {
      t := s1;
      assert s.log + [] == s.log;
    }
    assert t.calls == s.calls[n := c.(place := Ended)];
  }

  /** While the call it follows is at work, a follower waits; if it gives up, it ends and sends nothing. */
  lemma {:induction false} FollowerWaits(config: Config, s: State, n: nat, k: nat)
    requires StateOK(config, s) && n in s.calls && s.calls[n].place.Waiting?
    requires WorksOn(s, k, s.calls[n].id) && s.calls[k].flight == s.calls[n].flight
    ensures CallStep(config, s, n, true) == s
    ensures EndsWith(s, n, CallStep(config, s, n, false), []) && CallStep(config, s, n, false).flights == s.flights
  {
    hide RecordsFit, AcksFit, Legal, SessionsFit, UniqueLeaders, PlaceFits, Flights.TableOK;
    assert CallFits(s, s.calls[k]);
    assert s.log + [] == s.log;
  }

  lemma {:induction false} HeldAnswers(config: Config, s: State, n: nat)
    requires StateOK(config, s) && n in s.calls && (s.calls[n].place.Peeking? || s.calls[n].place.Waiting?)
    ensures var ack := Flights.AckOf(s.flights, s.calls[n].flight);
            !s.calls[n].leader && (ack.Some? ==> Answers(ack.value, s.calls[n].id))
  {
    hide RecordsFit, SessionsFit, UniqueLeaders, Flights.TableOK;
    var c, ack := s.calls[n], Flights.AckOf(s.flights, s.calls[n].flight);
    assert CallFits(s, c);
    if ack.Some? {
      StoredAnswers(s.log, config.dedupTTL, c.id, c.fingerprint, ack.value);
    }
  }

  lemma {:induction false} FollowerGetsAck(config: Config, clock: int, moves: seq<Move>, n: nat) returns (t: State)
    requires var s := RunOf(config, InitialState(clock), moves);
             && n in s.calls
             && (s.calls[n].place.Peeking?
                 || (s.calls[n].place.Waiting? && s.calls[n].flight < |s.flights.all|
                     && s.flights.all[s.calls[n].flight].closes > 0))
    ensures var s := RunOf(config, InitialState(clock), moves);
            var c, ack := s.calls[n], Flights.AckOf(s.flights, s.calls[n].flight);
            && Leads(config, n, s, t)
            && EndsWith(s, n, t, if ack.Some? then [AckSent(c.id, c.fingerprint, ack.value)] else [])
  {
    hide StateOK, Leads, Next;
    Reachable(config, clock, moves);
    t := FollowerAnswers(config, RunOf(config, InitialState(clock), moves), n);
  }

  // ---------------------------------------------------------------- who leads

  /** Call `k` is at work on the SEND. */
  predicate WorksOn(s: State, k: nat, id: SendID)
  {
    k in s.calls && s.calls[k].leader && s.calls[k].id == id && !s.calls[k].place.Ended?
  }

  lemma {:induction false} WorkerIsCurrent(config: Config, s: State, k: nat, id: SendID)
    requires StateOK(config, s) && WorksOn(s, k, id)
    ensures Flights.IsCurrent(s.flights, Key(id), s.calls[k].flight)
    ensures var flight := s.flights.all[s.calls[k].flight];
            flight.fingerprint == s.calls[k].fingerprint && flight.callbackActive == InCallback(s.calls[k].place)
  {
    hide RecordsFit, AcksFit, Legal, SessionsFit, UniqueLeaders, PlaceFits;
    assert CallFits(s, s.calls[k]);
    assert Flights.FlightOK(s.flights, s.calls[k].flight);
  }

  lemma {:induction false} CurrentHasWorker(config: Config, s: State, id: SendID)
    requires StateOK(config, s) && AllLed(s) && WellFormed(id) && Key(id) in s.flights.current
    ensures exists k :: WorksOn(s, k, id)
  {
    hide RecordsFit, AcksFit, Legal, SessionsFit, UniqueLeaders, PlaceFits;
    var f := s.flights.current[Key(id)];
    assert Flights.FlightOK(s.flights, f);
    assert HasLeader(s, f);
    var k :| k in s.calls && s.calls[k].leader && s.calls[k].flight == f;
    assert CallFits(s, s.calls[k]);
    KeyInjective(s.flights.all[f].id, id);
    assert WorksOn(s, k, id);
  }

  /** In every reachable state the first call for a SEND that nobody works on leads; while another call
      works on it, the same content waits for that call, or reads its ACK at once when that call is inside
      a dependency, and other content is refused. */
  lemma {:induction false} LeadsExactly(config: Config, clock: int, moves: seq<Move>, n: nat)
    requires var s := RunOf(config, InitialState(clock), moves); n in s.calls && s.calls[n].place.Acquiring?
    ensures var s := RunOf(config, InitialState(clock), moves);
            var c, d := s.calls[n], CallStep(config, s, n, true).calls[n];
            && ((forall k :: !WorksOn(s, k, c.id)) ==> d.leader && d.place == Entering(Lookup))
            && (forall k | WorksOn(s, k, c.id) ::
                  && !d.leader
                  && d.place == (if s.calls[k].fingerprint != c.fingerprint then Ended
                                 else if InCallback(s.calls[k].place) then Peeking else Waiting)
                  && (d.place != Ended ==> d.flight == s.calls[k].flight))
  {
    hide StateOK, Next;
    Reachable(config, clock, moves);
    AllLedAlways(config, InitialState(clock), moves);
    var s := RunOf(config, InitialState(clock), moves);
    var c := s.calls[n];
    NotYetLeading(config, s, n);
    if Key(c.id) in s.flights.current {
      CurrentHasWorker(config, s, c.id);
    }
    forall k | WorksOn(s, k, c.id)
      ensures Flights.IsCurrent(s.flights, Key(c.id), s.calls[k].flight)
      ensures var flight := s.flights.all[s.calls[k].flight];
              flight.fingerprint == s.calls[k].fingerprint && flight.callbackActive == InCallback(s.calls[k].place)
    {
      WorkerIsCurrent(config, s, k, c.id);
    }
  }

  lemma {:induction false} NotYetLeading(config: Config, s: State, n: nat)
    requires StateOK(config, s) && n in s.calls && s.calls[n].place.Acquiring?
    ensures !s.calls[n].leader && WellFormed(s.calls[n].id)
  {
    hide RecordsFit, AcksFit, Legal, SessionsFit, UniqueLeaders, PlaceFits, Flights.TableOK;
    assert CallFits(s, s.calls[n]);
  }

  // ---------------------------------------------------------------- a whole retry

  /** A retry from its first step: nobody works on the SEND, its Session is alive, and its content was
      completed within the retention. Undisturbed, it sends the stored ACK and nothing else happens. */
  lemma {:induction false} RetryFromStart(config: Config, s: State, n: nat) returns (t: State)
    requires StateOK(config, s) && n in s.calls && s.calls[n].place.Acquiring? && !s.calls[n].leader
    requires Key(s.calls[n].id) !in s.flights.current && Found(s, s.calls[n])
    requires Refused(config, ProgressOf(s.log, s.calls[n].id), s.clock)
    ensures Leads(config, n, s, t) && StateOK(config, t) && FlightOver(t, n)
    ensures t.log == s.log + Answer(ProgressOf(s.log, s.calls[n].id), s.calls[n])
    ensures t.records == s.records && t.sessions == s.sessions && t.clock == s.clock
    ensures forall k | k in s.calls && k != n :: k in t.calls && t.calls[k] == s.calls[k]
  {
    hide StateOK, Leads, ProgressOf, FlightOver, ClaimStep, CompleteStep;
    var c := s.calls[n];
    var s1 := CallStep(config, s, n, true);
    Still(config, n, s);
    Further(config, n, s, s);
    assert s1.calls[n] == c.(leader := true, flight := |s.flights.all|, place := Entering(Lookup));
    assert AtStage(s1, n, Lookup);
    PlainStage(config, s1, n, Lookup);
    var s2 := Goto(s1, n, Entering(Claim));
    Then(config, n, s, s1, s2);
    LeadsKeeps(config, n, s1, s2);
    Further(config, n, s, s2);
    var s3 := CallStep(config, s2, n, true);
    Further(config, n, s, s3);
    var s4 := CallStep(config, s3, n, true);
    assert s4.calls[n].place == Sampled(Claim, s.clock);
    t := RefusedClaimAnswers(config, s4, n);
    Then(config, n, s, s4, t);
  }

  lemma {:induction false} LeadsKeeps(config: Config, n: nat, s: State, t: State)
    requires Leads(config, n, s, t) && StateOK(config, s)
    ensures StateOK(config, t)
  {
    hide StateOK;
    var k: nat :| Iterate(Proceeding(config, n), s, k) == t;
    IterateKeeps(config, n, s, k);
  }

  lemma {:induction false} IterateKeeps(config: Config, n: nat, s: State, k: nat)
    requires StateOK(config, s)
    ensures StateOK(config, Iterate(Proceeding(config, n), s, k))
    decreases k
  {
    hide StateOK, Next;
    if k == 0 {
    } else {
      MoveKeeps(config, s, Proceed(n, true));
      IterateKeeps(config, n, Next(config, s, Proceed(n, true)), k - 1);
    }
  }
}
