/** The in-memory deduplication store: claims that never expire, completions kept for `ttl`. */
module DedupStore {
  import opened Wire

  /** One SEND of one Session. */
  datatype SendID = SendID(sessionID: string, messageID: string)

  datatype Ack = Ack(sessionID: string, refID: string, timestamp: int)

  /** `fingerprint` stands for the SHA-256 of the content. */
  datatype Record = Processing(fingerprint: string) | Completed(fingerprint: string, ack: Ack)

  datatype Entry = Entry(record: Record, expiresAt: int)

  // ---------------------------------------------------------------- keys

  const SEPARATOR: char := 0 as char

  /** Frame validation refuses control characters in both identifiers. */
  predicate WellFormed(id: SendID)
  {
    SEPARATOR !in id.sessionID && SEPARATOR !in id.messageID
  }

  function Key(id: SendID): string
  {
    id.sessionID + [SEPARATOR] + id.messageID
  }

  lemma {:induction false} FirstSeparator(id: SendID)
    requires WellFormed(id)
    ensures Key(id)[|id.sessionID|] == SEPARATOR
    ensures forall i | 0 <= i < |id.sessionID| :: Key(id)[i] != SEPARATOR
  {
  }

  /** Distinct SENDs never share a key. */
  lemma {:induction false} KeyInjective(a: SendID, b: SendID)
    requires WellFormed(a) && WellFormed(b) && Key(a) == Key(b)
    ensures a == b
  {
    var n, m := |a.sessionID|, |b.sessionID|;
    FirstSeparator(a);
    FirstSeparator(b);
    assert n == m;
    assert a.sessionID == Key(a)[..n] && a.messageID == Key(a)[n + 1..];
    assert b.sessionID == Key(b)[..m] && b.messageID == Key(b)[m + 1..];
  }

  // ---------------------------------------------------------------- operations on the records

  datatype ClaimResult = Claimed(records: map<string, Entry>) | Existing(record: Record)

  /** A record blocks a claim while it is being processed, and until its retention ends. */
  function ClaimIn(records: map<string, Entry>, ttl: nat, now: int, key: string, fingerprint: string): ClaimResult
  {
    if key in records && (records[key].record.Processing? || now < records[key].expiresAt)
    then Existing(records[key].record)
    else Claimed(records[key := Entry(Processing(fingerprint), now + ttl)])
  }

  function CompleteIn(records: map<string, Entry>, ttl: nat, now: int, key: string,
                      ack: Ack): Option<map<string, Entry>>
  {
    if key in records && records[key].record.Processing?
    then Some(records[key := Entry(Completed(records[key].record.fingerprint, ack), now + ttl)])
    else None
  }

  function AbortIn(records: map<string, Entry>, key: string): map<string, Entry>
  {
    if key in records && records[key].record.Processing? then records - {key} else records
  }

  /** Once claimed, a SEND is not claimed again, whatever the clock reads, until it is completed or
      aborted; once completed, not until `ttl` after the reading it was completed with, and every retry
      until then is given the stored ACK. */
  lemma {:induction false} ClaimBlocks(records: map<string, Entry>, ttl: nat, now: int, completed: int, later: int,
                                       key: string,
                                       fingerprint: string, other: string, ack: Ack)
    requires ClaimIn(records, ttl, now, key, fingerprint).Claimed?
    ensures var claimed := ClaimIn(records, ttl, now, key, fingerprint).records;
            && ClaimIn(claimed, ttl, later, key, other) == Existing(Processing(fingerprint))
            && ClaimIn(AbortIn(claimed, key), ttl, later, key, other).Claimed?
            && CompleteIn(claimed, ttl, completed, key, ack).Some?
            && var done := CompleteIn(claimed, ttl, completed, key, ack).value;
               && CompleteIn(done, ttl, later, key, ack).None?
               && AbortIn(done, key) == done
               && (ClaimIn(done, ttl, later, key, other)
                   == if later < completed + ttl then Existing(Completed(fingerprint, ack))
                      else Claimed(done[key := Entry(Processing(other), later + ttl)]))
  {
  }

  // ---------------------------------------------------------------- the store

  /** Each method takes the clock sample it makes before locking. */
  class MemoryDedupStore {
    const ttl: nat
    var records: map<string, Entry>

    constructor (ttl: nat)
      ensures this.ttl == ttl && records == map[]
    {
      this.ttl := ttl;
      records := map[];
    }

    method Claim(now: int, id: SendID, fingerprint: string) returns (claimed: bool, existing: Option<Record>)
      modifies this`records
      ensures claimed <==> ClaimIn(old(records), ttl, now, Key(id), fingerprint).Claimed?
      ensures match ClaimIn(old(records), ttl, now, Key(id), fingerprint)
              case Claimed(next) => records == next && existing == None
              case Existing(record) => records == old(records) && existing == Some(record)
    {
      var key := Key(id);
      if key in records {
        var entry := records[key];
        if entry.record.Processing? || now < entry.expiresAt {
          return false, Some(entry.record);
        }
        records := records - {key};
      }
      records := records[key := Entry(Processing(fingerprint), now + ttl)];
      assert records == old(records)[key := Entry(Processing(fingerprint), now + ttl)];
      return true, None;
    }

    method Complete(now: int, id: SendID, ack: Ack) returns (ok: bool)
      modifies this`records
      ensures match CompleteIn(old(records), ttl, now, Key(id), ack)
              case Some(next) => ok && records == next
              case None => !ok && records == old(records)
    {
      var key := Key(id);
      if key !in records || !records[key].record.Processing? {
        return false;
      }
      var entry := records[key];
      entry := entry.(record := Completed(entry.record.fingerprint, ack));
      entry := entry.(expiresAt := now + ttl);
      records := records[key := entry];
      return true;
    }

    method Abort(id: SendID)
      modifies this`records
      ensures records == AbortIn(old(records), Key(id))
    {
      var key := Key(id);
      if key in records && records[key].record.Processing? {
        records := records - {key};
      }
    }
  }
}
