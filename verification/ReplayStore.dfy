/** The in-memory replay store, against a full append log with a retention floor. */
module ReplayStore {
  import opened Wire
  import opened Protocol

  /** One Session's stream: everything ever appended, and the first position still promised
      (zero: nothing was pruned). */
  datatype Stream = Stream(log: seq<Event>, floor: u64)

  const NO_STREAM: Stream := Stream([], 0)

  /** `size` is the encoded length of an EVENT envelope. */
  datatype Limits = Limits(maxEvents: u64, maxBytes: int, size: Event -> nat)

  /** Positions count from one without gaps, identities never repeat, and the floor is at most one
      past the end. */
  ghost predicate StreamOK(sessionID: string, s: Stream)
  {
    && |s.log| <= MAX_U64
    && (forall i | 0 <= i < |s.log| :: s.log[i].seqNo == i + 1 && s.log[i].sessionID == sessionID)
    && (forall i, j | 0 <= i < j < |s.log| :: s.log[i].id != s.log[j].id)
    && s.floor <= |s.log| + 1
  }

  function Pruned(s: Stream): nat
  {
    if s.floor == 0 then 0 else s.floor - 1
  }

  /** What the store still holds. */
  function Retained(s: Stream): seq<Event>
  {
    if Pruned(s) <= |s.log| then s.log[Pruned(s)..] else []
  }

  function TotalSize(events: seq<Event>, size: Event -> nat): nat
  {
    if events == [] then 0 else TotalSize(events[..|events| - 1], size) + size(events[|events| - 1])
  }

  // ---------------------------------------------------------------- operations on the log

  datatype ReplayResult = Events(events: seq<Event>) | LimitExceeded | Unavailable

  function Slice(log: seq<Event>, after: u64, through: u64): seq<Event>
    requires after <= through
  {
    var end := if through <= |log| then through else |log|;
    if after <= end then log[after..end] else []
  }

  function ReplayOf(s: Stream, after: u64, through: u64, limits: Limits): ReplayResult
  {
    if limits.maxEvents == 0 || limits.maxBytes <= 0 || through < after
      || through - after > limits.maxEvents then LimitExceeded
    else if s.floor > 0 && after < s.floor - 1 then Unavailable
    else
      var slice := Slice(s.log, after, through);
      if TotalSize(slice, limits.size) > limits.maxBytes then LimitExceeded
      else if |slice| != through - after then Unavailable
      else Events(slice)
  }

  /** A replay succeeds exactly when the range is well-formed, retained, already appended and within
      both limits; then it is precisely that part of the append history. */
  lemma {:induction false} ReplayExactly(sessionID: string, s: Stream, after: u64, through: u64, limits: Limits)
    requires StreamOK(sessionID, s)
    ensures ReplayOf(s, after, through, limits).Events? <==>
              && limits.maxEvents > 0 && limits.maxBytes > 0
              && after <= through && through - after <= limits.maxEvents
              && after >= Pruned(s)
              && (through == after || through <= |s.log|)
              && TotalSize(Slice(s.log, after, through), limits.size) <= limits.maxBytes
    ensures ReplayOf(s, after, through, limits).Events? ==>
              var events := ReplayOf(s, after, through, limits).events;
              && |events| == through - after
              && forall i | 0 <= i < |events| :: after + i < |s.log| && events[i] == s.log[after + i]
  {
  }

  datatype AppendResult = Appended(stream: Stream, event: Event) | InvalidAppend | DuplicateID | Exhausted

  function IDs(log: seq<Event>): set<string>
  {
    set e | e in log :: e.id
  }

  /** `wellFormed` is the verdict on identifiers and content, `payload` the encoded EVENT payload. */
  function AppendTo(s: Stream, sessionID: string, eventID: string, payload: string, timestamp: int,
                    wellFormed: bool): AppendResult
  {
    if !wellFormed then InvalidAppend
    else if eventID in IDs(s.log) then DuplicateID
    else if |s.log| >= MAX_U64 then Exhausted
    else
      var event := Event(eventID, sessionID, |s.log| + 1, timestamp, payload);
      Appended(Stream(s.log + [event], s.floor), event)
  }

  function PruneTo(s: Stream, firstAvailable: u64): Stream
  {
    var first := if firstAvailable > |s.log| + 1 then |s.log| + 1 else firstAvailable;
    if |s.log| <= MAX_U64 && first > s.floor then Stream(s.log, first) else s
  }

  lemma {:induction false} NewIdentity(log: seq<Event>, e: Event)
    ensures IDs(log + [e]) == IDs(log) + {e.id}
    ensures e.id !in IDs(log) ==> forall i | 0 <= i < |log| :: log[i].id != e.id
  {
    assert forall x :: x in log + [e] <==> x in log || x == e;
    forall i | 0 <= i < |log|
      ensures log[i].id in IDs(log)
    {
      assert log[i] in log;
    }
  }

  /** Appending extends the history by one new position and one new identity. */
  lemma {:induction false} AppendKeepsStream(s: Stream, sessionID: string, eventID: string, payload: string,
                                             timestamp: int, wellFormed: bool)
    requires StreamOK(sessionID, s)
    ensures var r := AppendTo(s, sessionID, eventID, payload, timestamp, wellFormed);
            r.Appended? ==>
              && StreamOK(sessionID, r.stream)
              && r.event.seqNo == |s.log| + 1 && r.event.id == eventID && eventID !in IDs(s.log)
                 && r.event.payload == payload
              && r.stream.log == s.log + [r.event]
              && Retained(r.stream) == Retained(s) + [r.event]
              && IDs(r.stream.log) == IDs(s.log) + {eventID}
  {
    var r := AppendTo(s, sessionID, eventID, payload, timestamp, wellFormed);
    if r.Appended? {
      NewIdentity(s.log, r.event);
    }
  }

  /** Pruning keeps the history, hence the high-water mark, and never lowers the floor. */
  lemma {:induction false} PruneKeepsStream(s: Stream, sessionID: string, firstAvailable: u64)
    requires StreamOK(sessionID, s)
    ensures StreamOK(sessionID, PruneTo(s, firstAvailable))
    ensures PruneTo(s, firstAvailable).log == s.log && PruneTo(s, firstAvailable).floor >= s.floor
  {
  }

  // ---------------------------------------------------------------- the store

  function Get<V>(m: map<string, V>, key: string, default: V): V
  {
    if key in m then m[key] else default
  }

  /** What the four maps hold for one Session. */
  datatype Held = Held(events: seq<Event>, floor: u64, current: u64, ids: set<string>)

  ghost predicate Represents(sessionID: string, held: Held, s: Stream)
  {
    && StreamOK(sessionID, s)
    && held == Held(Retained(s), s.floor, held.current, IDs(s.log))
    && held.current == |s.log|
  }

  /** The store's four maps. */
  datatype Maps = Maps(
    events: map<string, seq<Event>>,
    floor: map<string, u64>,
    current: map<string, u64>,
    ids: map<string, set<string>>)
  {
    function HeldFor(sessionID: string): Held
    {
      Held(Get(events, sessionID, []), Get(floor, sessionID, 0), Get(current, sessionID, 0), Get(ids, sessionID, {}))
    }
  }

  ghost predicate Consistent(m: Maps, streams: map<string, Stream>)
  {
    forall sessionID: string :: Represents(sessionID, m.HeldFor(sessionID), Get(streams, sessionID, NO_STREAM))
  }

  /** One Session changed consistently, the others not at all. */
  lemma {:induction false} OneSession(m: Maps, streams: map<string, Stream>, next: Maps, sessionID: string,
                                      stream: Stream)
    requires Consistent(m, streams)
    requires Represents(sessionID, next.HeldFor(sessionID), stream)
    requires forall other: string | other != sessionID :: next.HeldFor(other) == m.HeldFor(other)
    ensures Consistent(next, streams[sessionID := stream])
  {
    forall other: string
      ensures Represents(other, next.HeldFor(other), Get(streams[sessionID := stream], other, NO_STREAM))
    {
      assert Represents(other, m.HeldFor(other), Get(streams, other, NO_STREAM));
    }
  }

  lemma {:induction false} AppendRepresents(sessionID: string, held: Held, s: Stream, event: Event)
    requires Represents(sessionID, held, s)
    requires AppendTo(s, sessionID, event.id, event.payload, event.timestamp, true)
             == Appended(Stream(s.log + [event], s.floor), event)
    ensures Represents(sessionID, Held(held.events + [event], held.floor, event.seqNo, held.ids + {event.id}),
                       Stream(s.log + [event], s.floor))
  {
    AppendKeepsStream(s, sessionID, event.id, event.payload, event.timestamp, true);
  }

  function WithAppended(m: Maps, sessionID: string, event: Event): Maps
  {
    var held := m.HeldFor(sessionID);
    Maps(m.events[sessionID := held.events + [event]], m.floor, m.current[sessionID := event.seqNo],
         m.ids[sessionID := held.ids + {event.id}])
  }

  lemma {:induction false} AppendedHeld(m: Maps, sessionID: string, event: Event)
    ensures var held, next := m.HeldFor(sessionID), WithAppended(m, sessionID, event);
            && next.HeldFor(sessionID) == Held(held.events + [event], held.floor, event.seqNo, held.ids + {event.id})
            && forall other: string | other != sessionID :: next.HeldFor(other) == m.HeldFor(other)
  {
  }

  lemma {:induction false} AppendedMaps(m: Maps, streams: map<string, Stream>, sessionID: string, event: Event)
    requires Consistent(m, streams)
    requires var s := Get(streams, sessionID, NO_STREAM);
             AppendTo(s, sessionID, event.id, event.payload, event.timestamp, true)
               == Appended(Stream(s.log + [event], s.floor), event)
    ensures var s := Get(streams, sessionID, NO_STREAM);
            Consistent(WithAppended(m, sessionID, event), streams[sessionID := Stream(s.log + [event], s.floor)])
  {
    AppendRepresents(sessionID, m.HeldFor(sessionID), Get(streams, sessionID, NO_STREAM), event);
    var s := Get(streams, sessionID, NO_STREAM);
    AppendedHeld(m, sessionID, event);
    OneSession(m, streams, WithAppended(m, sessionID, event), sessionID, Stream(s.log + [event], s.floor));
  }

  lemma {:induction false} HeldIs(m: Maps, streams: map<string, Stream>, sessionID: string)
    requires Consistent(m, streams)
    ensures var s := Get(streams, sessionID, NO_STREAM);
            && Get(m.current, sessionID, 0) == |s.log| && Get(m.ids, sessionID, {}) == IDs(s.log)
            && Get(m.events, sessionID, []) == Retained(s) && Get(m.floor, sessionID, 0) == s.floor
            && StreamOK(sessionID, s)
  {
    assert Represents(sessionID, m.HeldFor(sessionID), Get(streams, sessionID, NO_STREAM));
  }

  lemma {:induction false} EmptySetAdded(m: Maps, streams: map<string, Stream>, sessionID: string)
    requires Consistent(m, streams) && sessionID !in m.ids
    ensures Consistent(m.(ids := m.ids[sessionID := {}]), streams)
  {
    var next := m.(ids := m.ids[sessionID := {}]);
    forall other: string
      ensures Represents(other, next.HeldFor(other), Get(streams, other, NO_STREAM))
    {
      assert next.HeldFor(other) == m.HeldFor(other);
    }
  }

  /** The pruning loop drops exactly what lies below the new floor. */
  lemma {:induction false} PruneRepresents(sessionID: string, held: Held, s: Stream, firstAvailable: u64, first: u64,
                                           i: nat)
    requires Represents(sessionID, held, s)
    requires first == if firstAvailable > held.current + 1 then held.current + 1 else firstAvailable
    requires i <= |held.events| && (i > 0 ==> held.events[i - 1].seqNo < first)
    requires i < |held.events| ==> held.events[i].seqNo >= first
    ensures Represents(sessionID, held.(events := held.events[i..], floor := if first > held.floor then first
                                        else held.floor),
                       PruneTo(s, firstAvailable))
  {
    PruneKeepsStream(s, sessionID, firstAvailable);
    assert held.events[i..] == Retained(PruneTo(s, firstAvailable));
  }

  function WithPruned(m: Maps, sessionID: string, first: u64, i: nat): Maps
    requires i <= |m.HeldFor(sessionID).events|
  {
    var held := m.HeldFor(sessionID);
    m.(events := m.events[sessionID := held.events[i..]],
       floor := if first > held.floor then m.floor[sessionID := first] else m.floor)
  }

  lemma {:induction false} PrunedHeld(m: Maps, sessionID: string, first: u64, i: nat)
    requires i <= |m.HeldFor(sessionID).events|
    ensures var held, next := m.HeldFor(sessionID), WithPruned(m, sessionID, first, i);
            && next.HeldFor(sessionID) == held.(events := held.events[i..], floor := if first > held.floor then first
                                                else held.floor)
            && forall other: string | other != sessionID :: next.HeldFor(other) == m.HeldFor(other)
  {
  }

  lemma {:induction false} PrunedMaps(m: Maps, streams: map<string, Stream>, sessionID: string, firstAvailable: u64,
                                      first: u64, i: nat)
    requires Consistent(m, streams)
    requires var held := m.HeldFor(sessionID);
             && first == (if firstAvailable > held.current + 1 then held.current + 1 else firstAvailable)
             && i <= |held.events| && (i > 0 ==> held.events[i - 1].seqNo < first)
             && (i < |held.events| ==> held.events[i].seqNo >= first)
    ensures Consistent(WithPruned(m, sessionID, first, i),
                       streams[sessionID := PruneTo(Get(streams, sessionID, NO_STREAM), firstAvailable)])
  {
    var s := Get(streams, sessionID, NO_STREAM);
    PruneRepresents(sessionID, m.HeldFor(sessionID), s, firstAvailable, first, i);
    PrunedHeld(m, sessionID, first, i);
    OneSession(m, streams, WithPruned(m, sessionID, first, i), sessionID, PruneTo(s, firstAvailable));
  }

  class MemoryReplayStore {
    var events: map<string, seq<Event>>
    var floor: map<string, u64>
    var current: map<string, u64>
    var ids: map<string, set<string>>
    /** The full history, kept for the proof only. */
    ghost var streams: map<string, Stream>

    ghost function View(): Maps
      reads this
    {
      Maps(events, floor, current, ids)
    }

    ghost function StreamOf(sessionID: string): Stream
      reads this
    {
      Get(streams, sessionID, NO_STREAM)
    }

    ghost predicate Valid()
      reads this
    {
      Consistent(View(), streams)
    }

    constructor ()
      ensures Valid() && forall sessionID: string :: StreamOf(sessionID) == NO_STREAM
    {
      events, floor, current, ids := map[], map[], map[], map[];
      streams := map[];
    }

    method CurrentSeq(sessionID: string) returns (seqNo: u64)
      requires Valid()
      ensures seqNo == |StreamOf(sessionID).log|
    {
      assert Represents(sessionID, View().HeldFor(sessionID), StreamOf(sessionID));
      return Get(current, sessionID, 0);
    }

    method Replay(sessionID: string, after: u64, through: u64, limits: Limits) returns (r: ReplayResult)
      requires Valid()
      ensures r == ReplayOf(StreamOf(sessionID), after, through, limits)
    {
      hide Consistent, IDs, StreamOK, Retained, TotalSize, InRange, Slice;
      HeldIs(View(), streams, sessionID);
      if limits.maxEvents == 0 || limits.maxBytes <= 0 || through < after {
        return LimitExceeded;
      }
      if through - after > limits.maxEvents {
        return LimitExceeded;
      }
      var first := Get(floor, sessionID, 0);
      if first > 0 && after < first - 1 {
        return Unavailable;
      }
      RangeOfRetained(sessionID, StreamOf(sessionID), after, through);
      SliceBound(StreamOf(sessionID).log, after, through);
      var fits, out := Select(Get(events, sessionID, []), after, through, limits);
      if !fits {
        return LimitExceeded;
      }
      if through > after && |out| != through - after {
        return Unavailable;
      }
      return Events(out);
    }

    method Append(sessionID: string, eventID: string, payload: string, timestamp: int, wellFormed: bool)
      returns (r: Option<Event>)
      requires Valid()
      modifies this
      ensures Valid()
      ensures match AppendTo(old(StreamOf(sessionID)), sessionID, eventID, payload, timestamp, wellFormed)
              case Appended(stream, event) => r == Some(event) && streams == old(streams)[sessionID := stream]
              case _ => r == None && streams == old(streams)
    {
      hide Consistent, IDs, StreamOK, Retained;
      HeldIs(View(), streams, sessionID);
      if !wellFormed {
        return None;
      }
      if sessionID !in ids {
        EmptySetAdded(View(), streams, sessionID);
        ids := ids[sessionID := {}];
      }
      if eventID in ids[sessionID] {
        return None;
      }
      if Get(current, sessionID, 0) == MAX_U64 {
        return None;
      }
      var seqNo := Get(current, sessionID, 0) + 1;
      var event := Event(eventID, sessionID, seqNo, timestamp, payload);
      Hold(sessionID, event);
      return Some(event);
    }

    /** The next event goes to the end of its history and of each map. */
    method Hold(sessionID: string, event: Event)
      requires Valid() && sessionID in ids
      requires AppendTo(StreamOf(sessionID), sessionID, event.id, event.payload, event.timestamp, true)
            == Appended(Stream(StreamOf(sessionID).log + [event], StreamOf(sessionID).floor), event)
      modifies this
      ensures Valid()
      ensures streams == old(streams)[sessionID :=
                                      Stream(old(StreamOf(sessionID)).log + [event], old(StreamOf(sessionID)).floor)]
    {
      hide Consistent, IDs, AppendTo;
      AppendedMaps(View(), streams, sessionID, event);
      streams := streams[sessionID := Stream(StreamOf(sessionID).log + [event], StreamOf(sessionID).floor)];
      events := events[sessionID := Get(events, sessionID, []) + [event]];
      current := current[sessionID := event.seqNo];
      ids := ids[sessionID := ids[sessionID] + {event.id}];
    }

    method PruneBefore(sessionID: string, firstAvailable: u64)
      requires Valid()
      modifies this
      ensures Valid()
      ensures streams == old(streams)[sessionID := PruneTo(old(StreamOf(sessionID)), firstAvailable)]
    {
      hide Consistent, PruneTo;
      var first := firstAvailable;
      var high := Get(current, sessionID, 0);
      if high != MAX_U64 && first > high + 1 {
        first := high + 1;
      }
      var held := Get(events, sessionID, []);
      var i := CountBefore(held, first);
      PrunedMaps(View(), streams, sessionID, firstAvailable, first, i);
      streams := streams[sessionID := PruneTo(StreamOf(sessionID), firstAvailable)];
      events := events[sessionID := held[i..]];
      if first > Get(floor, sessionID, 0) {
        floor := floor[sessionID := first];
      }
    }
  }

  /** How many of the first events lie below `first`. */
  method CountBefore(held: seq<Event>, first: u64) returns (i: nat)
    ensures i <= |held| && (forall k | 0 <= k < i :: held[k].seqNo < first)
    ensures i < |held| ==> held[i].seqNo >= first
  {
    i := 0;
    while i < |held| && held[i].seqNo < first
      invariant i <= |held|
      invariant forall k | 0 <= k < i :: held[k].seqNo < first
    {
      i := i + 1;
    }
  }

  // ---------------------------------------------------------------- the replay loop

  function InRange(events: seq<Event>, after: u64, through: u64): seq<Event>
  {
    if events == [] then []
    else
      var last := events[|events| - 1];
      InRange(events[..|events| - 1], after, through) + (if after < last.seqNo <= through then [last] else [])
  }

  lemma {:induction false} InRangeStep(held: seq<Event>, i: nat, after: u64, through: u64)
    requires i < |held|
    ensures InRange(held[..i + 1], after, through)
         == InRange(held[..i], after, through) + (if after < held[i].seqNo <= through then [held[i]] else [])
  {
    assert held[..i + 1][..i] == held[..i];
  }

  lemma {:induction false} TotalSizeAppend(events: seq<Event>, e: Event, size: Event -> nat)
    ensures TotalSize(events + [e], size) == TotalSize(events, size) + size(e)
  {
    assert (events + [e])[..|events|] == events;
  }

  /** One that does not fit makes the whole range not fit. */
  lemma {:induction false} Overflows(held: seq<Event>, i: nat, after: u64, through: u64, limits: Limits)
    requires i <= |held| && TotalSize(InRange(held[..i], after, through), limits.size) > limits.maxBytes
    ensures TotalSize(InRange(held, after, through), limits.size) > limits.maxBytes
  {
    hide InRange, TotalSize;
    InRangePrefix(held, i, after, through);
    TotalSizePrefix(InRange(held[..i], after, through), InRange(held, after, through), limits.size);
  }

  lemma {:induction false} NothingSelected(held: seq<Event>, after: u64, through: u64, limits: Limits)
    ensures InRange(held[..0], after, through) == [] && TotalSize([], limits.size) == 0
  {
  }

  /** One pass over the held events with a running byte count; stops at the first that does not fit. */
  method Select(held: seq<Event>, after: u64, through: u64, limits: Limits) returns (fits: bool, out: seq<Event>)
    requires limits.maxBytes >= 0
    ensures fits <==> TotalSize(InRange(held, after, through), limits.size) <= limits.maxBytes
    ensures fits ==> out == InRange(held, after, through)
  {
    hide InRange, TotalSize;
    NothingSelected(held, after, through, limits);
    out := [];
    var totalBytes := 0;
    var i := 0;
    while i < |held|
      invariant 0 <= i <= |held|
      invariant out == InRange(held[..i], after, through)
      invariant totalBytes == TotalSize(out, limits.size) <= limits.maxBytes
    {
      var event := held[i];
      InRangeStep(held, i, after, through);
      if event.seqNo > after && event.seqNo <= through {
        var encoded := limits.size(event);
        TotalSizeAppend(out, event, limits.size);
        if encoded > limits.maxBytes - totalBytes {
          Overflows(held, i + 1, after, through, limits);
          return false, [];
        }
        totalBytes := totalBytes + encoded;
        out := out + [event];
      }
      i := i + 1;
    }
    assert held[..i] == held;
    return true, out;
  }

  lemma {:induction false} InRangePrefix(held: seq<Event>, n: nat, after: u64, through: u64)
    requires n <= |held|
    ensures InRange(held[..n], after, through) <= InRange(held, after, through)
    decreases |held|
  {
    if n == |held| {
      assert held[..n] == held;
    } else {
      var front := held[..|held| - 1];
      InRangePrefix(front, n, after, through);
      assert front[..n] == held[..n];
    }
  }

  lemma {:induction false} TotalSizePrefix(a: seq<Event>, b: seq<Event>, size: Event -> nat)
    requires a <= b
    ensures TotalSize(a, size) <= TotalSize(b, size)
    decreases |b|
  {
    if |a| < |b| {
      TotalSizePrefix(a, b[..|b| - 1], size);
    } else {
      assert a == b;
    }
  }

  /** Among what is retained, the range by sequence number is the slice by position. */
  lemma {:induction false} RangeOfRetained(sessionID: string, s: Stream, after: u64, through: u64)
    requires StreamOK(sessionID, s) && Pruned(s) <= after <= through
    ensures InRange(Retained(s), after, through) == Slice(s.log, after, through)
  {
    RangeUpTo(sessionID, s, after, through, |s.log|);
    assert s.log[Pruned(s)..|s.log|] == Retained(s);
    assert s.log[..|s.log|] == s.log;
  }

  lemma {:induction false} SliceBound(log: seq<Event>, after: u64, through: u64)
    requires after <= through
    ensures |Slice(log, after, through)| <= through - after
  {
  }

  lemma {:induction false} SliceGrows(log: seq<Event>, after: u64, through: u64, n: nat)
    requires after <= through && 0 < n <= |log|
    ensures Slice(log[..n], after, through)
         == Slice(log[..n - 1], after, through) + (if after < n <= through then [log[n - 1]] else [])
  {
  }

  lemma {:induction false} RangeUpTo(sessionID: string, s: Stream, after: u64, through: u64, n: nat)
    requires StreamOK(sessionID, s) && Pruned(s) <= after <= through && Pruned(s) <= n <= |s.log|
    ensures InRange(s.log[Pruned(s)..n], after, through) == Slice(s.log[..n], after, through)
    decreases n
  {
    if n > Pruned(s) {
      RangeUpTo(sessionID, s, after, through, n - 1);
      SliceGrows(s.log, after, through, n);
      RangeGrows(s.log, Pruned(s), n, after, through);
    }
  }

  lemma {:induction false} RangeGrows(log: seq<Event>, first: nat, n: nat, after: u64, through: u64)
    requires first < n <= |log|
    ensures InRange(log[first..n], after, through)
         == InRange(log[first..n - 1], after, through)
           + (if after < log[n - 1].seqNo <= through then [log[n - 1]] else [])
  {
    var part := log[first..n];
    assert part[..|part| - 1] == log[first..n - 1];
    assert part[|part| - 1] == log[n - 1];
  }
}
