/** What happens to SENDs, as one list, and what any legal list implies. */
module SendHistory {
  import opened DedupStore

  /** `sample` is the clock reading the store decided with, `at` the clock when the application ran. */
  datatype Happening =
    | Claiming(id: SendID, fingerprint: string, sample: int)
    | Executed(id: SendID, fingerprint: string, at: int)
    | Succeeded(id: SendID, fingerprint: string)
    | Stored(id: SendID, fingerprint: string, ack: Ack, sample: int)
    | AckSent(id: SendID, fingerprint: string, ack: Ack)

  /** How far one SEND has come. */
  datatype Progress =
    | Idle
    | Held(fingerprint: string, sample: int)
    | Running(fingerprint: string, at: int)
    | Finished(fingerprint: string, at: int)
    | Kept(fingerprint: string, ack: Ack, sample: int)

  function After(p: Progress, e: Happening): Progress
  {
    match e
    case Claiming(_, fingerprint, sample) => Held(fingerprint, sample)
    case Executed(_, fingerprint, at) => Running(fingerprint, at)
    case Succeeded(_, fingerprint) => if p.Running? then Finished(fingerprint, p.at) else p
    case Stored(_, fingerprint, ack, sample) => Kept(fingerprint, ack, sample)
    case AckSent(_, _, _) => p
  }

  function ProgressOf(log: seq<Happening>, id: SendID): Progress
    decreases |log|
  {
    if log == [] then Idle
    else
      var before, last := ProgressOf(log[..|log| - 1], id), log[|log| - 1];
      if last.id == id then After(before, last) else before
  }

  predicate IsStored(e: Happening, id: SendID, fingerprint: string, ack: Ack)
  {
    e.Stored? && e.id == id && e.fingerprint == fingerprint && e.ack == ack
  }

  predicate StoredIn(log: seq<Happening>, id: SendID, fingerprint: string, ack: Ack)
  {
    exists i | 0 <= i < |log| :: IsStored(log[i], id, fingerprint, ack)
  }

  /** A claim needs a fresh SEND or an outlived completion; the application runs once per claim, on the
      claimed content; an ACK is stored only after it succeeded, and sent only once stored. */
  predicate Allowed(log: seq<Happening>, ttl: nat, e: Happening)
  {
    var p := ProgressOf(log, e.id);
    match e
    case Claiming(_, _, sample) => p.Idle? || (p.Kept? && p.sample + ttl <= sample)
    case Executed(_, fingerprint, at) => p.Held? && p.fingerprint == fingerprint && p.sample <= at
    case Succeeded(_, fingerprint) => p.Running? && p.fingerprint == fingerprint
    case Stored(id, fingerprint, ack, sample) =>
      && p.Finished? && p.fingerprint == fingerprint && p.at <= sample
      && ack.sessionID == id.sessionID && ack.refID == id.messageID
    case AckSent(id, fingerprint, ack) => StoredIn(log, id, fingerprint, ack)
  }

  predicate AllowedAt(log: seq<Happening>, ttl: nat, n: nat)
    requires n < |log|
  {
    Allowed(log[..n], ttl, log[n])
  }

  predicate Legal(log: seq<Happening>, ttl: nat)
  {
    forall n | 0 <= n < |log| :: AllowedAt(log, ttl, n)
  }

  // ---------------------------------------------------------------- appending

  lemma {:induction false} Appended(log: seq<Happening>, ttl: nat, e: Happening)
    requires Legal(log, ttl) && Allowed(log, ttl, e)
    ensures Legal(log + [e], ttl)
  {
    forall n | 0 <= n < |log + [e]|
      ensures AllowedAt(log + [e], ttl, n)
    {
      if n < |log| {
        assert AllowedAt(log, ttl, n);
        assert (log + [e])[..n] == log[..n];
      } else {
        assert (log + [e])[..n] == log;
      }
    }
  }

  lemma {:induction false} ProgressAppended(log: seq<Happening>, e: Happening)
    ensures ProgressOf(log + [e], e.id) == After(ProgressOf(log, e.id), e)
    ensures forall id | id != e.id :: ProgressOf(log + [e], id) == ProgressOf(log, id)
  {
    assert (log + [e])[..|log|] == log;
  }

  lemma {:induction false} StoredStays(log: seq<Happening>, e: Happening)
    ensures forall id, fingerprint, ack | StoredIn(log, id, fingerprint, ack) ::
            StoredIn(log + [e], id, fingerprint, ack)
    ensures e.Stored? ==> StoredIn(log + [e], e.id, e.fingerprint, e.ack)
  {
    forall id, fingerprint, ack | StoredIn(log, id, fingerprint, ack)
      ensures StoredIn(log + [e], id, fingerprint, ack)
    {
      var i :| 0 <= i < |log| && IsStored(log[i], id, fingerprint, ack);
      assert IsStored((log + [e])[i], id, fingerprint, ack);
    }
    if e.Stored? {
      assert IsStored((log + [e])[|log|], e.id, e.fingerprint, e.ack);
    }
  }

  /** What the progress says was stored, was. */
  lemma {:induction false} KeptWasStored(log: seq<Happening>, id: SendID)
    ensures var p := ProgressOf(log, id); p.Kept? ==> StoredIn(log, id, p.fingerprint, p.ack)
    decreases |log|
  {
    if log == [] {
    } else {
      var before, last := log[..|log| - 1], log[|log| - 1];
      KeptWasStored(before, id);
      StoredStays(before, last);
      assert log == before + [last];
    }
  }

  // ---------------------------------------------------------------- two executions

  /** Between `i` and `n`: a completion no earlier than the execution at `i`, then a claim at least
      `ttl` later and no later than `t`. */
  ghost predicate Gap(log: seq<Happening>, ttl: nat, i: nat, n: nat, t: int)
    requires i < n <= |log| && log[i].Executed?
  {
    exists a, b | i < a < b < n :: Separates(log, ttl, i, a, b) && log[b].sample <= t
  }

  predicate Separates(log: seq<Happening>, ttl: nat, i: nat, a: nat, b: nat)
    requires i < a < b < |log| && log[i].Executed?
  {
    && log[a].Stored? && log[a].id == log[i].id
    && log[b].Claiming? && log[b].id == log[i].id
    && log[i].at <= log[a].sample && log[a].sample + ttl <= log[b].sample
  }

  predicate StoredAt(log: seq<Happening>, a: nat, id: SendID, sample: int)
    requires a < |log|
  {
    log[a].Stored? && log[a].id == id && log[a].sample == sample
  }

  /** Where a SEND can stand after its execution at `i`. */
  ghost predicate Since(log: seq<Happening>, ttl: nat, i: nat, n: nat)
    requires i < n <= |log| && log[i].Executed?
  {
    match ProgressOf(log[..n], log[i].id)
    case Idle => false
    case Held(_, sample) => Gap(log, ttl, i, n, sample)
    case Running(_, at) => at == log[i].at || Gap(log, ttl, i, n, at)
    case Finished(_, at) => at == log[i].at || Gap(log, ttl, i, n, at)
    case Kept(_, _, sample) => log[i].at <= sample && exists a | i < a < n :: StoredAt(log, a, log[i].id, sample)
  }

  lemma {:induction false} GapWidens(log: seq<Happening>, ttl: nat, i: nat, n: nat, t: int, m: nat, u: int)
    requires i < n <= m <= |log| && log[i].Executed? && t <= u && Gap(log, ttl, i, n, t)
    ensures Gap(log, ttl, i, m, u)
    ensures log[i].at + ttl <= u
  {
    var a, b :| i < a < b < n && Separates(log, ttl, i, a, b) && log[b].sample <= t;
    assert Separates(log, ttl, i, a, b) && log[b].sample <= u;
  }

  lemma {:induction false} SinceClaim(log: seq<Happening>, ttl: nat, i: nat, n: nat)
    requires Legal(log, ttl) && i < n < |log| && log[i].Executed? && Since(log, ttl, i, n)
    requires log[n].Claiming? && log[n].id == log[i].id
    ensures Gap(log, ttl, i, n + 1, log[n].sample)
  {
    assert AllowedAt(log, ttl, n);
    var p := ProgressOf(log[..n], log[i].id);
    var a :| i < a < n && StoredAt(log, a, log[i].id, p.sample);
    assert Separates(log, ttl, i, a, n);
  }

  lemma {:induction false} SinceNext(log: seq<Happening>, ttl: nat, i: nat, n: nat)
    requires Legal(log, ttl) && i < n < |log| && log[i].Executed? && Since(log, ttl, i, n)
    ensures Since(log, ttl, i, n + 1)
  {
    var id, e := log[i].id, log[n];
    var p := ProgressOf(log[..n], id);
    assert AllowedAt(log, ttl, n);
    assert log[..n + 1] == log[..n] + [e];
    ProgressAppended(log[..n], e);
    if e.id == id && e.Claiming? {
      SinceClaim(log, ttl, i, n);
    } else if e.id == id && e.Stored? {
      if p.at != log[i].at { GapWidens(log, ttl, i, n, p.at, n + 1, p.at); }
      assert StoredAt(log, n, id, e.sample);
    } else if e.id == id && e.Executed? {
      GapWidens(log, ttl, i, n, p.sample, n + 1, e.at);
    } else if p.Held? {
      GapWidens(log, ttl, i, n, p.sample, n + 1, p.sample);
    } else if p.Kept? {
      var a :| i < a < n && StoredAt(log, a, id, p.sample);
      assert i < a < n + 1 && StoredAt(log, a, id, p.sample);
    } else if p.at != log[i].at {
      GapWidens(log, ttl, i, n, p.at, n + 1, p.at);
    }
  }

  lemma {:induction false} SinceStart(log: seq<Happening>, ttl: nat, i: nat)
    requires i < |log| && log[i].Executed?
    ensures Since(log, ttl, i, i + 1)
  {
    assert log[..i + 1] == log[..i] + [log[i]];
    ProgressAppended(log[..i], log[i]);
  }

  lemma {:induction false} SinceAlways(log: seq<Happening>, ttl: nat, i: nat, n: nat)
    requires Legal(log, ttl) && i < n <= |log| && log[i].Executed?
    ensures Since(log, ttl, i, n)
    decreases n
  {
    if n == i + 1 {
      SinceStart(log, ttl, i);
    } else {
      SinceAlways(log, ttl, i, n - 1);
      SinceNext(log, ttl, i, n - 1);
    }
  }

  /** Two executions of one SEND are separated by a stored completion and a later claim, and the
      application runs again no sooner than `ttl` after it ran. */
  lemma {:induction false} ExecutionsSeparated(log: seq<Happening>, ttl: nat, i: nat, j: nat)
    requires Legal(log, ttl) && i < j < |log|
    requires log[i].Executed? && log[j].Executed? && log[i].id == log[j].id
    ensures Gap(log, ttl, i, j, log[j].at)
    ensures log[i].at + ttl <= log[j].at
  {
    SinceAlways(log, ttl, i, j);
    assert AllowedAt(log, ttl, j);
    var p := ProgressOf(log[..j], log[i].id);
    GapWidens(log, ttl, i, j, p.sample, j, log[j].at);
  }

  // ---------------------------------------------------------------- one Session's life

  /** The Session's life as the repository has it: created at `expiry - resumeTTL`. */
  predicate BornBefore(log: seq<Happening>, sessions: map<string, int>, resumeTTL: nat)
  {
    forall i | 0 <= i < |log| && log[i].Executed? ::
      log[i].id.sessionID in sessions && sessions[log[i].id.sessionID] - resumeTTL <= log[i].at
  }

  predicate ClaimedBefore(log: seq<Happening>, id: SendID, expiry: int)
  {
    forall i | 0 <= i < |log| && log[i].Claiming? && log[i].id == id :: log[i].sample < expiry
  }

  /** When completions outlive the Session and every claim was decided before the Session expired, the
      application runs at most once for one SEND. */
  lemma {:induction false} AtMostOnce(log: seq<Happening>, ttl: nat, sessions: map<string, int>, resumeTTL: nat,
                                      id: SendID, i: nat, j: nat)
    requires Legal(log, ttl) && BornBefore(log, sessions, resumeTTL) && resumeTTL <= ttl
    requires id.sessionID in sessions && ClaimedBefore(log, id, sessions[id.sessionID])
    requires i < |log| && j < |log| && log[i].Executed? && log[j].Executed? && log[i].id == id && log[j].id == id
    ensures i == j
  {
    if i < j {
      NotTwice(log, ttl, sessions, resumeTTL, i, j);
    } else if j < i {
      NotTwice(log, ttl, sessions, resumeTTL, j, i);
    }
  }

  lemma {:induction false} NotTwice(log: seq<Happening>, ttl: nat, sessions: map<string, int>, resumeTTL: nat, i: nat,
                                    j: nat)
    requires Legal(log, ttl) && BornBefore(log, sessions, resumeTTL) && resumeTTL <= ttl
    requires i < j < |log| && log[i].Executed? && log[j].Executed? && log[i].id == log[j].id
    ensures log[i].id.sessionID in sessions
    ensures !ClaimedBefore(log, log[i].id, sessions[log[i].id.sessionID])
  {
    ExecutionsSeparated(log, ttl, i, j);
    var a, b :| i < a < b < j && Separates(log, ttl, i, a, b) && log[b].sample <= log[j].at;
    assert log[b].sample >= sessions[log[i].id.sessionID];
  }
}
