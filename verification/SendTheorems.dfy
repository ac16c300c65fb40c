/** What every run of the SEND path guarantees. */
module SendTheorems {
  import opened Wire
  import opened DedupStore
  import opened SendHistory
  import opened SendPath
  import Flights

  lemma {:induction false} Reachable(config: Config, clock: int, moves: seq<Move>)
    ensures StateOK(config, RunOf(config, InitialState(clock), moves))
  {
    SendPath.EveryRunKeeps(config, InitialState(clock), moves);
  }

  // ---------------------------------------------------------------- acknowledgements

  lemma {:induction false} FinishedSucceeded(log: seq<Happening>, ttl: nat, id: SendID)
    requires Legal(log, ttl)
    ensures var p := ProgressOf(log, id); p.Finished? ==> Succeeded(id, p.fingerprint) in log
    decreases |log|
  {
    if log == [] {
    } else {
      var before, last := log[..|log| - 1], log[|log| - 1];
      assert AllowedAt(log, ttl, |log| - 1);
      assert forall n | 0 <= n < |before| :: before[..n] == log[..n];
      assert forall n | 0 <= n < |before| :: AllowedAt(log, ttl, n) ==> AllowedAt(before, ttl, n);
      FinishedSucceeded(before, ttl, id);
      assert log == before + [last];
    }
  }

  lemma {:induction false} LegalPrefix(log: seq<Happening>, ttl: nat, m: nat)
    requires Legal(log, ttl) && m <= |log|
    ensures Legal(log[..m], ttl)
  {
    forall n | 0 <= n < m
      ensures AllowedAt(log[..m], ttl, n)
    {
      assert AllowedAt(log, ttl, n) && log[..m][..n] == log[..n];
    }
  }

  /** The ACK at `i` was stored earlier for the same SEND and content, and the application had already
      succeeded on that content. */
  ghost predicate Justified(log: seq<Happening>, i: nat)
    requires i < |log| && log[i].AckSent?
  {
    && Answers(log[i].ack, log[i].id)
    && exists a | 0 <= a < i :: IsStored(log[a], log[i].id, log[i].fingerprint, log[i].ack)
                                && Succeeded(log[i].id, log[i].fingerprint) in log[..a]
  }

  lemma {:induction false} AckJustified(log: seq<Happening>, ttl: nat, i: nat)
    requires Legal(log, ttl) && i < |log| && log[i].AckSent?
    ensures Justified(log, i)
  {
    assert AllowedAt(log, ttl, i);
    var a :| 0 <= a < i && IsStored(log[..i][a], log[i].id, log[i].fingerprint, log[i].ack);
    assert AllowedAt(log, ttl, a);
    LegalPrefix(log, ttl, a);
    FinishedSucceeded(log[..a], ttl, log[i].id);
  }

  /** In every interleaving of calls, retries, failures and time, every ACK sent on any path is one the
      store had already kept for that SEND and content after the application succeeded on it. */
  lemma {:induction false} EveryAckIsStored(config: Config, clock: int, moves: seq<Move>)
    ensures var log := RunOf(config, InitialState(clock), moves).log;
            forall i | 0 <= i < |log| && log[i].AckSent? :: Justified(log, i)
  {
    Reachable(config, clock, moves);
    var log := RunOf(config, InitialState(clock), moves).log;
    forall i | 0 <= i < |log| && log[i].AckSent?
      ensures Justified(log, i)
    {
      AckJustified(log, config.dedupTTL, i);
    }
  }

  lemma {:induction false} StoredAnswers(log: seq<Happening>, ttl: nat, id: SendID, fingerprint: string, ack: Ack)
    requires Legal(log, ttl) && StoredIn(log, id, fingerprint, ack)
    ensures Answers(ack, id)
  {
    var a :| 0 <= a < |log| && IsStored(log[a], id, fingerprint, ack);
    assert AllowedAt(log, ttl, a);
  }

  /** The check of stored ACKs never refuses: neither one read from a flight nor one read from the store. */
  lemma {:induction false} StoredAckPassesCheck(config: Config, clock: int, moves: seq<Move>, n: nat, sample: int)
    requires n in RunOf(config, InitialState(clock), moves).calls
    ensures var s := RunOf(config, InitialState(clock), moves);
            var c := s.calls[n];
            var ack := Flights.AckOf(s.flights, c.flight);
            (c.place.Peeking? || c.place.Waiting?) && ack.Some? ==> Answers(ack.value, c.id)
    ensures var s := RunOf(config, InitialState(clock), moves);
            var c := s.calls[n];
            var r := ClaimIn(s.records, config.dedupTTL, sample, Key(c.id), c.fingerprint);
            r.Existing? && r.record.Completed? ==> Answers(r.record.ack, c.id)
  {
    Reachable(config, clock, moves);
    var s := RunOf(config, InitialState(clock), moves);
    var c := s.calls[n];
    assert CallFits(s, c);
    var ack := Flights.AckOf(s.flights, c.flight);
    if (c.place.Peeking? || c.place.Waiting?) && ack.Some? {
      StoredAnswers(s.log, config.dedupTTL, c.id, c.fingerprint, ack.value);
    }
    var p := ProgressOf(s.log, c.id);
    assert RecordFits(config, s.records, c.id, p);
    if p.Kept? {
      KeptWasStored(s.log, c.id);
      StoredAnswers(s.log, config.dedupTTL, c.id, p.fingerprint, p.ack);
    }
  }

  // ---------------------------------------------------------------- executions

  /** In every interleaving, two executions of one SEND are separated by a stored completion and by at
      least the store's retention. */
  lemma {:induction false} NeverTwiceWithinRetention(config: Config, clock: int, moves: seq<Move>, i: nat, j: nat)
    requires var log := RunOf(config, InitialState(clock), moves).log;
             i < j < |log| && log[i].Executed? && log[j].Executed? && log[i].id == log[j].id
    ensures var log := RunOf(config, InitialState(clock), moves).log;
            Gap(log, config.dedupTTL, i, j, log[j].at) && log[i].at + config.dedupTTL <= log[j].at
  {
    Reachable(config, clock, moves);
    ExecutionsSeparated(RunOf(config, InitialState(clock), moves).log, config.dedupTTL, i, j);
  }

  /** With the retention the server's constructor demands, and claims decided before the Session
      expires, the application runs at most once for a SEND in the Session's whole life. */
  lemma {:induction false} AtMostOncePerSession(config: Config, clock: int, moves: seq<Move>, id: SendID, i: nat,
                                                j: nat)
    requires config.sessionTTL <= config.dedupTTL
    requires var s := RunOf(config, InitialState(clock), moves);
             && id.sessionID in s.sessions && ClaimedBefore(s.log, id, s.sessions[id.sessionID])
             && i < |s.log| && j < |s.log| && s.log[i].Executed? && s.log[j].Executed?
             && s.log[i].id == id && s.log[j].id == id
    ensures i == j
  {
    Reachable(config, clock, moves);
    var s := RunOf(config, InitialState(clock), moves);
    AtMostOnce(s.log, config.dedupTTL, s.sessions, config.sessionTTL, id, i, j);
  }

  /** A claim is granted exactly to a SEND never claimed before, or one whose completion is at least
      the retention older than the claim's clock reading; in every other case nothing is logged. */
  lemma {:induction false} ClaimGrantedExactly(config: Config, clock: int, moves: seq<Move>, n: nat)
    requires var s := RunOf(config, InitialState(clock), moves);
             n in s.calls && s.calls[n].place.Sampled? && s.calls[n].place.stage == Claim
    ensures var s := RunOf(config, InitialState(clock), moves);
            var c := s.calls[n];
            var p := ProgressOf(s.log, c.id);
            CallStep(config, s, n, true).log
            == if p.Idle? || (p.Kept? && p.sample + config.dedupTTL <= c.place.sample)
               then s.log + [Claiming(c.id, c.fingerprint, c.place.sample)] else s.log
  {
    Reachable(config, clock, moves);
    var s := RunOf(config, InitialState(clock), moves);
    assert CallFits(s, s.calls[n]);
    assert RecordFits(config, s.records, s.calls[n].id, ProgressOf(s.log, s.calls[n].id));
  }

  // ---------------------------------------------------------------- flights

  ghost predicate HasLeader(s: State, f: nat)
  {
    exists n | n in s.calls :: s.calls[n].leader && s.calls[n].flight == f
  }

  ghost predicate AllLed(s: State)
  {
    forall f | 0 <= f < |s.flights.all| :: HasLeader(s, f)
  }

  /** Its own call has moved, leading or following the same flight; no flight was added. */
  predicate Moved(s: State, n: nat, t: State)
  {
    && n in s.calls && n in t.calls
    && t.calls == s.calls[n := s.calls[n].(place := t.calls[n].place)]
    && |t.flights.all| == |s.flights.all|
  }

  lemma {:induction false} GotoMoves(s: State, u: State, n: nat, place: Place)
    requires n in s.calls && u.calls == s.calls && |u.flights.all| == |s.flights.all|
    ensures Moved(s, n, Goto(u, n, place))
  {
  }

  lemma {:induction false} StoreMoves(config: Config, s: State, n: nat, sample: int)
    requires n in s.calls
    ensures Moved(s, n, ClaimStep(config, s, n, sample)) && Moved(s, n, CompleteStep(config, s, n, sample))
  {
    hide ClaimIn, CompleteIn;
  }

  lemma {:induction false} CallbackMoves(config: Config, s: State, n: nat, stage: Stage, ok: bool)
    requires n in s.calls
    ensures Moved(s, n, InsideStep(config, s, n, stage, ok))
  {
    hide Found;
  }

  lemma {:induction false} StepShape(config: Config, s: State, n: nat, ok: bool)
    requires n in s.calls && !s.calls[n].place.Acquiring?
    ensures Moved(s, n, CallStep(config, s, n, ok))
  {
    hide InsideStep, ClaimStep, CompleteStep, AcquireStep;
    var c := s.calls[n];
    match c.place
    case Peeking => GotoMoves(s, s, n, AfterRead(c, Flights.AckOf(s.flights, c.flight)));
    case Waiting => GotoMoves(s, s, n, AfterRead(c, Flights.AckOf(s.flights, c.flight))); GotoMoves(s, s, n, c.place);
    case Inside(stage) => CallbackMoves(config, s, n, stage, ok);
    case Sampled(stage, sample) => StoreMoves(config, s, n, sample);
    case Ended => GotoMoves(s, s, n, Ended);
    case Acquiring =>
    case _ =>
      var t := CallStep(config, s, n, ok);
      GotoMoves(s, t.(calls := s.calls), n, t.calls[n].place);
  }

  /** A call that leads keeps leading the same flight. */
  lemma {:induction false} LeaderStays(config: Config, s: State, m: Move, n: nat)
    requires n in s.calls && s.calls[n].leader && !s.calls[n].place.Acquiring?
    ensures var t := Next(config, s, m); n in t.calls && t.calls[n].leader && t.calls[n].flight == s.calls[n].flight
  {
    if m.Proceed? && m.call in s.calls && !s.calls[m.call].place.Acquiring? {
      StepShape(config, s, m.call, m.ok);
    }
  }

  lemma {:induction false} OnlyLeadersAdd(config: Config, s: State, m: Move)
    ensures var t := Next(config, s, m);
            |t.flights.all| == |s.flights.all|
              || (|t.flights.all| == |s.flights.all| + 1 && HasLeader(t, |s.flights.all|))
  {
    var t := Next(config, s, m);
    if m.Proceed? && m.call in s.calls {
      if s.calls[m.call].place.Acquiring? {
        var c := s.calls[m.call];
        assert Flights.Acquire(s.flights, c.id, c.fingerprint).Leader? ==>
                 t.calls[m.call].leader && t.calls[m.call].flight == |s.flights.all|;
      } else {
        StepShape(config, s, m.call, m.ok);
      }
    }
  }

  lemma {:induction false} AllLedKept(config: Config, s: State, m: Move)
    requires StateOK(config, s) && AllLed(s)
    ensures AllLed(Next(config, s, m))
  {
    var t := Next(config, s, m);
    OnlyLeadersAdd(config, s, m);
    forall f | 0 <= f < |t.flights.all|
      ensures HasLeader(t, f)
    {
      if f < |s.flights.all| {
        assert HasLeader(s, f);
        var n :| n in s.calls && s.calls[n].leader && s.calls[n].flight == f;
        assert CallFits(s, s.calls[n]);
        LeaderStays(config, s, m, n);
      }
    }
  }

  lemma {:induction false} AllLedAlways(config: Config, s: State, moves: seq<Move>)
    requires StateOK(config, s) && AllLed(s)
    ensures AllLed(RunOf(config, s, moves))
    decreases |moves|
  {
    if moves == [] {
    } else {
      MoveKeeps(config, s, moves[0]);
      AllLedKept(config, s, moves[0]);
      AllLedAlways(config, Next(config, s, moves[0]), moves[1..]);
    }
  }

  /** Every flight has exactly one leader; its done signal is closed exactly once, when that leader
      ends; so a follower waits only while its leader is still at work. */
  lemma {:induction false} OneLeaderPerFlight(config: Config, clock: int, moves: seq<Move>, f: nat)
    requires f < |RunOf(config, InitialState(clock), moves).flights.all|
    ensures var s := RunOf(config, InitialState(clock), moves);
            exists n | n in s.calls ::
              && s.calls[n].leader && s.calls[n].flight == f
              && (forall k | k in s.calls && s.calls[k].leader && s.calls[k].flight == f :: k == n)
              && s.flights.all[f].closes == (if s.calls[n].place.Ended? then 1 else 0)
  {
    Reachable(config, clock, moves);
    AllLedAlways(config, InitialState(clock), moves);
    var s := RunOf(config, InitialState(clock), moves);
    assert HasLeader(s, f);
    var n :| n in s.calls && s.calls[n].leader && s.calls[n].flight == f;
    assert CallFits(s, s.calls[n]);
  }
}
