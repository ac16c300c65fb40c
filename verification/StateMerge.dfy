/** Versioned State objects: the monotonic merge, the bounded client cache, and convergence. */
module StateMerge {
  import opened Wire
  import JsonValue

  datatype StateIdentity = StateIdentity(namespace: string, objectID: string)

  /** `size` is the length of the encoded data, `data` what it decodes to. */
  datatype StateObject = StateObject(namespace: string, objectID: string, version: u64, data: JsonValue.Json, size: nat)
  {
    function Identity(): StateIdentity { StateIdentity(namespace, objectID) }

    /** What the cache charges for one object. */
    function Bytes(): nat { |namespace| + |objectID| + size + 8 }
  }

  /** `accepts` stands for the identity, data and size checks, which depend on encodings. */
  datatype Limits = Limits(accepts: StateObject -> bool)

  predicate Valid(item: StateObject, limits: Limits)
  {
    0 < item.version < MAX_U64 && limits.accepts(item)
  }

  // ---------------------------------------------------------------- one merge

  datatype ApplyOutcome =
    | Applied(committed: StateObject)
    | Duplicate(retained: StateObject)
    | Stale(retained: StateObject)
    | Conflict(retained: StateObject)
    | IdentityMismatch(retained: StateObject)
    | Invalid

  function ApplyStateObject(current: Option<StateObject>, incoming: StateObject, limits: Limits): ApplyOutcome
  {
    if !Valid(incoming, limits) then Invalid
    else if current.None? then Applied(incoming)
    else if !Valid(current.value, limits) then Invalid
    else if current.value.Identity() != incoming.Identity() then IdentityMismatch(current.value)
    else if incoming.version > current.value.version then Applied(incoming)
    else if incoming.version < current.value.version then Stale(current.value)
    else if JsonValue.Equal(current.value.data, incoming.data) then Duplicate(current.value)
    else Conflict(current.value)
  }

  // ---------------------------------------------------------------- the cache

  datatype CacheConfig = CacheConfig(limits: Limits, maxObjects: nat, maxBytes: nat)

  datatype Cache = Cache(objects: map<StateIdentity, StateObject>, bytes: int)

  const EMPTY: Cache := Cache(map[], 0)

  datatype BatchError = InvalidStateVersion | SyncRequired | BadObject

  datatype BatchResult =
    | Committed(cache: Cache, changes: seq<StateObject>)
    | Refused(error: BatchError)

  function Lookup(cache: Cache, identity: StateIdentity): Option<StateObject>
  {
    if identity in cache.objects then Some(cache.objects[identity]) else None
  }

  /** One round of the batch loop: the next cache and, if the object changed, what to announce. */
  function ApplyOne(config: CacheConfig, cache: Cache, incoming: StateObject): BatchResult
  {
    var identity := incoming.Identity();
    match ApplyStateObject(Lookup(cache, identity), incoming, config.limits)
    case Stale(_) => Refused(InvalidStateVersion)
    case Conflict(_) => Refused(InvalidStateVersion)
    case IdentityMismatch(_) => Refused(BadObject)
    case Invalid => Refused(BadObject)
    case Duplicate(_) => Committed(cache, [])
    case Applied(committed) =>
      var exists_ := identity in cache.objects;
      if !exists_ && |cache.objects| + 1 > config.maxObjects then Refused(SyncRequired)
      else
        var bytes := cache.bytes - (if exists_ then cache.objects[identity].Bytes() else 0) + committed.Bytes();
        if bytes > config.maxBytes then Refused(SyncRequired)
        else Committed(Cache(cache.objects[identity := committed], bytes), [committed])
  }

  /** A batch, object by object from the left; the first refusal refuses the whole batch. */
  function ApplyBatch(config: CacheConfig, cache: Cache, objects: seq<StateObject>): BatchResult
    decreases |objects|
  {
    if objects == [] then Committed(cache, [])
    else
      match ApplyOne(config, cache, objects[0])
      case Refused(error) => Refused(error)
      case Committed(next, change) =>
        match ApplyBatch(config, next, objects[1..])
        case Refused(error) => Refused(error)
        case Committed(last, changes) => Committed(last, change + changes)
  }

  lemma {:induction false} ApplyBatchAppend(config: CacheConfig, cache: Cache, objects: seq<StateObject>,
                                            last: StateObject)
    ensures ApplyBatch(config, cache, objects + [last]) ==
            match ApplyBatch(config, cache, objects)
            case Refused(error) => Refused(error)
            case Committed(next, changes) =>
              match ApplyOne(config, next, last)
              case Refused(error) => Refused(error)
              case Committed(final, change) => Committed(final, changes + change)
    decreases |objects|
  {
    if objects == [] {
      assert (objects + [last])[1..] == [];
      assert objects + [last] == [last];
      match ApplyOne(config, cache, last)
      case Refused(_) =>
      case Committed(next, change) => assert change + [] == [] + change;
    } else {
      assert (objects + [last])[0] == objects[0];
      assert (objects + [last])[1..] == objects[1..] + [last];
      match ApplyOne(config, cache, objects[0])
      case Refused(_) =>
      case Committed(next, change) =>
        ApplyBatchAppend(config, next, objects[1..], last);
        match ApplyBatch(config, next, objects[1..])
        case Refused(_) =>
        case Committed(mid, changes) =>
          match ApplyOne(config, mid, last)
          case Refused(_) =>
          case Committed(final, tail) => assert change + (changes + tail) == change + changes + tail;
    }
  }

  lemma {:induction false} ApplyBatchPrefix(config: CacheConfig, cache: Cache, objects: seq<StateObject>, n: nat)
    requires n <= |objects| && ApplyBatch(config, cache, objects[..n]).Refused?
    ensures ApplyBatch(config, cache, objects) == ApplyBatch(config, cache, objects[..n])
    decreases |objects| - n
  {
    if n == |objects| {
      assert objects[..n] == objects;
    } else {
      assert objects[..n + 1] == objects[..n] + [objects[n]];
      ApplyBatchAppend(config, cache, objects[..n], objects[n]);
      ApplyBatchPrefix(config, cache, objects, n + 1);
    }
  }

  /** One round of the client's loop. */
  method ApplyObject(config: CacheConfig, next: map<StateIdentity, StateObject>, nextBytes: int, incoming: StateObject)
    returns (r: BatchResult)
    ensures r == ApplyOne(config, Cache(next, nextBytes), incoming)
  {
    var identity := incoming.Identity();
    var current: Option<StateObject> := None;
    if identity in next {
      current := Some(next[identity]);
    }
    var outcome := ApplyStateObject(current, incoming, config.limits);
    if outcome.Stale? || outcome.Conflict? {
      return Refused(InvalidStateVersion);
    }
    if outcome.IdentityMismatch? || outcome.Invalid? {
      return Refused(BadObject);
    }
    if outcome.Duplicate? {
      return Committed(Cache(next, nextBytes), []);
    }
    if current.None? && |next| + 1 > config.maxObjects {
      return Refused(SyncRequired);
    }
    var bytes := nextBytes;
    if current.Some? {
      bytes := bytes - current.value.Bytes();
    }
    bytes := bytes + outcome.committed.Bytes();
    if bytes > config.maxBytes {
      return Refused(SyncRequired);
    }
    return Committed(Cache(next[identity := outcome.committed], bytes), [outcome.committed]);
  }

  /** The client's loop: work on a copy of the cache, stop at the first object that cannot be merged
      or does not fit, and hand back the copy only when the whole batch went through. */
  method ApplyStateObjects(config: CacheConfig, cache: Cache, objects: seq<StateObject>) returns (r: BatchResult)
    ensures r == ApplyBatch(config, cache, objects)
  {
    var next := cache.objects;
    var nextBytes := cache.bytes;
    var changes := [];
    var i := 0;
    while i < |objects|
      invariant 0 <= i <= |objects|
      invariant ApplyBatch(config, cache, objects[..i]) == Committed(Cache(next, nextBytes), changes)
    {
      assert objects[..i + 1] == objects[..i] + [objects[i]];
      ApplyBatchAppend(config, cache, objects[..i], objects[i]);
      var outcome := ApplyObject(config, next, nextBytes, objects[i]);
      if outcome.Refused? {
        ApplyBatchPrefix(config, cache, objects, i + 1);
        return outcome;
      }
      next, nextBytes := outcome.cache.objects, outcome.cache.bytes;
      changes := changes + outcome.changes;
      i := i + 1;
    }
    assert objects[..|objects|] == objects;
    return Committed(Cache(next, nextBytes), changes);
  }

  // ---------------------------------------------------------------- the byte counter and the bounds

  ghost function TotalBytes(objects: map<StateIdentity, StateObject>): nat
    decreases |objects|
  {
    if |objects| == 0 then 0
    else
      var identity :| identity in objects;
      objects[identity].Bytes() + TotalBytes(objects - {identity})
  }

  lemma {:induction false} RemovedIsSmaller(objects: map<StateIdentity, StateObject>, identity: StateIdentity)
    requires identity in objects
    ensures |objects - {identity}| < |objects|
  {
    assert (objects - {identity}).Keys == objects.Keys - {identity};
    assert |objects.Keys| == |objects| && |(objects - {identity}).Keys| == |objects - {identity}|;
  }

  lemma {:induction false} RemovalsCommute(objects: map<StateIdentity, StateObject>, a: StateIdentity, b: StateIdentity)
    ensures objects - {a} - {b} == objects - {b} - {a}
  {
  }

  lemma {:induction false} TotalBytesPick(objects: map<StateIdentity, StateObject>, identity: StateIdentity)
    requires identity in objects
    ensures TotalBytes(objects) == objects[identity].Bytes() + TotalBytes(objects - {identity})
    decreases |objects|
  {
    RemovedIsSmaller(objects, identity);
    var picked :| picked in objects &&
      TotalBytes(objects) == objects[picked].Bytes() + TotalBytes(objects - {picked});
    if picked != identity {
      RemovedIsSmaller(objects, picked);
      TotalBytesPick(objects - {picked}, identity);
      TotalBytesPick(objects - {identity}, picked);
      RemovalsCommute(objects, picked, identity);
    }
  }

  lemma {:induction false} UpdateThenRemove(objects: map<StateIdentity, StateObject>, identity: StateIdentity,
                                            item: StateObject)
    ensures objects[identity := item] - {identity} == objects - {identity}
    ensures identity !in objects ==> objects - {identity} == objects
  {
  }

  lemma {:induction false} TotalBytesUpdate(objects: map<StateIdentity, StateObject>, identity: StateIdentity,
                                            item: StateObject)
    ensures TotalBytes(objects[identity := item])
         == TotalBytes(objects) - (if identity in objects then objects[identity].Bytes() else 0) + item.Bytes()
  {
    TotalBytesPick(objects[identity := item], identity);
    UpdateThenRemove(objects, identity, item);
    if identity in objects {
      TotalBytesPick(objects, identity);
    }
  }

  /** The cache invariant: the counter is the true total, both bounds hold, every object is filed
      under its own identity and is valid. */
  ghost predicate CacheOK(config: CacheConfig, cache: Cache)
  {
    && cache.bytes == TotalBytes(cache.objects)
    && |cache.objects| <= config.maxObjects
    && cache.bytes <= config.maxBytes
    && forall identity | identity in cache.objects ::
         cache.objects[identity].Identity() == identity && Valid(cache.objects[identity], config.limits)
  }

  /** Versions never go back, and a changed object has a strictly higher version. */
  ghost predicate Advances(before: Cache, after: Cache)
  {
    forall identity | identity in before.objects ::
      && identity in after.objects
      && (after.objects[identity] == before.objects[identity]
          || after.objects[identity].version > before.objects[identity].version)
  }

  /** What one merged object does to the cache: nothing if it was a duplicate, else it takes its place. */
  ghost predicate Merged(config: CacheConfig, before: Cache, after: Cache, item: StateObject)
  {
    var identity := item.Identity();
    || (&& after == before && identity in before.objects
        && before.objects[identity].version == item.version
        && JsonValue.Equal(before.objects[identity].data, item.data))
    || (&& Valid(item, config.limits)
        && (identity in before.objects ==> item.version > before.objects[identity].version)
        && (identity !in before.objects ==> |before.objects| + 1 <= config.maxObjects)
        && after.objects == before.objects[identity := item]
        && after.bytes == before.bytes - (if identity in before.objects then before.objects[identity].Bytes() else 0)
           + item.Bytes()
        && after.bytes <= config.maxBytes)
  }

  lemma {:induction false} ApplyOneMerges(config: CacheConfig, cache: Cache, incoming: StateObject)
    ensures ApplyOne(config, cache, incoming).Committed? ==>
              Merged(config, cache, ApplyOne(config, cache, incoming).cache, incoming)
  {
  }

  lemma {:induction false} SizeAfter(objects: map<StateIdentity, StateObject>, identity: StateIdentity,
                                     item: StateObject)
    ensures |objects[identity := item]| == |objects| + (if identity in objects then 0 else 1)
  {
    var after := objects[identity := item];
    assert after.Keys == objects.Keys + {identity};
    assert |after| == |after.Keys| && |objects| == |objects.Keys|;
  }

  lemma {:induction false} MergedKeepsCacheOK(config: CacheConfig, before: Cache, after: Cache, item: StateObject)
    requires CacheOK(config, before) && Merged(config, before, after, item)
    ensures CacheOK(config, after) && Advances(before, after)
  {
    if after != before {
      TotalBytesUpdate(before.objects, item.Identity(), item);
      SizeAfter(before.objects, item.Identity(), item);
    }
  }

  lemma {:induction false} ApplyOneKeepsCacheOK(config: CacheConfig, cache: Cache, incoming: StateObject)
    requires CacheOK(config, cache)
    ensures ApplyOne(config, cache, incoming).Committed? ==>
              && CacheOK(config, ApplyOne(config, cache, incoming).cache)
              && Advances(cache, ApplyOne(config, cache, incoming).cache)
  {
    ApplyOneMerges(config, cache, incoming);
    var r := ApplyOne(config, cache, incoming);
    if r.Committed? {
      MergedKeepsCacheOK(config, cache, r.cache, incoming);
    }
  }

  lemma {:induction false} ApplyBatchKeepsCacheOK(config: CacheConfig, cache: Cache, objects: seq<StateObject>)
    requires CacheOK(config, cache)
    ensures ApplyBatch(config, cache, objects).Committed? ==>
              && CacheOK(config, ApplyBatch(config, cache, objects).cache)
              && Advances(cache, ApplyBatch(config, cache, objects).cache)
    decreases |objects|
  {
    if objects == [] {
    } else {
      ApplyOneKeepsCacheOK(config, cache, objects[0]);
      var first := ApplyOne(config, cache, objects[0]);
      if first.Committed? {
        ApplyBatchKeepsCacheOK(config, first.cache, objects[1..]);
      }
    }
  }

  // ---------------------------------------------------------------- a batch is whole

  predicate DistinctIdentities(objects: seq<StateObject>)
  {
    forall i, j | 0 <= i < j < |objects| :: objects[i].Identity() != objects[j].Identity()
  }

  /** The cache holds `item` itself, or the equivalent of it that was there before. */
  predicate Holds(before: Cache, after: Cache, item: StateObject)
  {
    var identity := item.Identity();
    && identity in after.objects
    && (|| after.objects[identity] == item
        || (&& identity in before.objects && after.objects[identity] == before.objects[identity]
            && before.objects[identity].version == item.version
            && JsonValue.Equal(before.objects[identity].data, item.data)))
  }

  ghost function Identities(objects: seq<StateObject>): set<StateIdentity>
  {
    set item | item in objects :: item.Identity()
  }

  /** The cache holds every object of the batch, and nothing outside the batch moved. */
  ghost predicate Whole(before: Cache, after: Cache, objects: seq<StateObject>)
  {
    && (forall item | item in objects :: Holds(before, after, item))
    && (forall identity | identity !in Identities(objects) :: Lookup(after, identity) == Lookup(before, identity))
  }

  lemma {:induction false} WholeStep(config: CacheConfig, before: Cache, mid: Cache, after: Cache, head: StateObject,
                                     tail: seq<StateObject>)
    requires Merged(config, before, mid, head) && Whole(mid, after, tail)
    requires head.Identity() !in Identities(tail)
    ensures Whole(before, after, [head] + tail)
  {
    assert Lookup(after, head.Identity()) == Lookup(mid, head.Identity());
    forall item | item in [head] + tail
      ensures Holds(before, after, item)
    {
      if item in tail {
        assert Holds(mid, after, item);
        assert item.Identity() in Identities(tail);
        assert Lookup(mid, item.Identity()) == Lookup(before, item.Identity());
      }
    }
    assert Identities([head] + tail) == {head.Identity()} + Identities(tail) by {
      assert forall item :: item in [head] + tail <==> item == head || item in tail;
    }
  }

  /** A committed batch is in the cache as a whole, and nothing else moved. */
  lemma {:induction false} CommittedBatchIsWhole(config: CacheConfig, cache: Cache, objects: seq<StateObject>)
    requires DistinctIdentities(objects)
    requires ApplyBatch(config, cache, objects).Committed?
    ensures Whole(cache, ApplyBatch(config, cache, objects).cache, objects)
    decreases |objects|
  {
    if objects == [] {
    } else {
      var head, tail := objects[0], objects[1..];
      var mid := ApplyOne(config, cache, head).cache;
      ApplyOneMerges(config, cache, head);
      CommittedBatchIsWhole(config, mid, tail);
      assert objects == [head] + tail;
      forall item | item in tail
        ensures item.Identity() != head.Identity()
      {
        var i :| 0 <= i < |tail| && tail[i] == item;
        assert objects[i + 1] == item;
      }
      WholeStep(config, cache, mid, ApplyBatch(config, mid, tail).cache, head, tail);
    }
  }

  // ---------------------------------------------------------------- convergence

  /** Live updates one at a time; a refused update leaves the cache alone. */
  function Receive(config: CacheConfig, cache: Cache, updates: seq<StateObject>): Cache
  {
    if updates == [] then cache
    else
      var before := Receive(config, cache, updates[..|updates| - 1]);
      match ApplyOne(config, before, updates[|updates| - 1])
      case Committed(after, _) => after
      case Refused(_) => before
  }

  /** No update is turned away for lack of room. */
  predicate NeverFull(config: CacheConfig, cache: Cache, updates: seq<StateObject>)
  {
    updates == [] ||
    (&& NeverFull(config, cache, updates[..|updates| - 1])
     && ApplyOne(config, Receive(config, cache, updates[..|updates| - 1]),
                 updates[|updates| - 1]) != Refused(SyncRequired))
  }

  /** The cache holds, for each identity in `seen`, a member of `seen` with the highest version. */
  ghost predicate Latest(cache: Cache, seen: set<StateObject>)
  {
    && (forall item | item in seen ::
          && item.Identity() in cache.objects
          && item.version <= cache.objects[item.Identity()].version)
    && (forall identity | identity in cache.objects ::
          cache.objects[identity] in seen && cache.objects[identity].Identity() == identity)
  }

  ghost function Elements(updates: seq<StateObject>): set<StateObject>
  {
    set item | item in updates
  }

  lemma {:induction false} ApplyOneKeepsLatest(config: CacheConfig, cache: Cache, seen: set<StateObject>,
                                               incoming: StateObject)
    requires CacheOK(config, cache) && Latest(cache, seen)
    requires Valid(incoming, config.limits) && ApplyOne(config, cache, incoming) != Refused(SyncRequired)
    ensures match ApplyOne(config, cache, incoming)
            case Committed(after, _) => Latest(after, seen + {incoming})
            case Refused(_) => Latest(cache, seen + {incoming})
  {
  }

  /** Every history without refusals for room leaves each identity at its highest version. */
  lemma {:induction false} ReceiveKeepsLatest(config: CacheConfig, cache: Cache, base: set<StateObject>,
                                              updates: seq<StateObject>)
    requires CacheOK(config, cache) && Latest(cache, base)
    requires forall item | item in updates :: Valid(item, config.limits)
    requires NeverFull(config, cache, updates)
    ensures CacheOK(config, Receive(config, cache, updates))
    ensures Latest(Receive(config, cache, updates), base + Elements(updates))
    decreases |updates|
  {
    if updates == [] {
      assert base + Elements(updates) == base;
    } else {
      var front, last := updates[..|updates| - 1], updates[|updates| - 1];
      ElementsAppend(base, updates);
      ReceiveKeepsLatest(config, cache, base, front);
      ReceiveOne(config, Receive(config, cache, front), base + Elements(front), last);
    }
  }

  lemma {:induction false} ElementsAppend(base: set<StateObject>, updates: seq<StateObject>)
    requires updates != []
    ensures var front, last := updates[..|updates| - 1], updates[|updates| - 1];
            && base + Elements(updates) == base + Elements(front) + {last}
            && last in updates && forall item | item in front :: item in updates
  {
    var front, last := updates[..|updates| - 1], updates[|updates| - 1];
    assert updates == front + [last];
  }

  lemma {:induction false} ReceiveOne(config: CacheConfig, cache: Cache, seen: set<StateObject>, last: StateObject)
    requires CacheOK(config, cache) && Latest(cache, seen)
    requires Valid(last, config.limits) && ApplyOne(config, cache, last) != Refused(SyncRequired)
    ensures match ApplyOne(config, cache, last)
            case Committed(after, _) => CacheOK(config, after) && Latest(after, seen + {last})
            case Refused(_) => CacheOK(config, cache) && Latest(cache, seen + {last})
  {
    ApplyOneKeepsLatest(config, cache, seen, last);
    ApplyOneKeepsCacheOK(config, cache, last);
  }

  // ---------------------------------------------------------------- room

  /** Everything held and received belongs to few enough identities, and each object is small enough,
      that both bounds hold whatever arrives: a condition on the inputs alone. */
  ghost predicate WithinRoom(config: CacheConfig, cache: Cache, updates: seq<StateObject>,
                             identities: set<StateIdentity>, most: nat)
  {
    && |identities| <= config.maxObjects && |identities| * most <= config.maxBytes
    && SmallFor(cache, identities, most)
    && forall item | item in updates :: item.Identity() in identities && item.Bytes() <= most
  }

  ghost predicate SmallFor(cache: Cache, identities: set<StateIdentity>, most: nat)
  {
    forall identity | identity in cache.objects :: identity in identities && cache.objects[identity].Bytes() <= most
  }

  lemma {:induction false} Times(n: nat, m: nat, most: nat)
    requires n <= m
    ensures n * most <= m * most && (n > 0 ==> (n - 1) * most + most == n * most)
  {
  }

  lemma {:induction false} TotalBytesBounded(objects: map<StateIdentity, StateObject>, most: nat)
    requires forall identity | identity in objects :: objects[identity].Bytes() <= most
    ensures TotalBytes(objects) <= |objects| * most
    decreases |objects|
  {
    if |objects| == 0 {
    } else {
      var identity :| identity in objects;
      var rest := objects - {identity};
      TotalBytesPick(objects, identity);
      RemovedIsSmaller(objects, identity);
      TotalBytesBounded(rest, most);
      Times(|rest| + 1, |objects|, most);
    }
  }

  lemma {:induction false} KeysWithin(objects: map<StateIdentity, StateObject>, identities: set<StateIdentity>)
    requires forall identity | identity in objects :: identity in identities
    ensures |objects| <= |identities|
  {
    assert objects.Keys <= identities;
    assert identities == objects.Keys + (identities - objects.Keys);
    assert |objects| == |objects.Keys|;
  }

  lemma {:induction false} RoomAfter(config: CacheConfig, cache: Cache, item: StateObject,
                                     identities: set<StateIdentity>, most: nat)
    requires CacheOK(config, cache) && SmallFor(cache, identities, most) && item.Identity() in identities
             && item.Bytes() <= most
    requires |identities| <= config.maxObjects && |identities| * most <= config.maxBytes
    ensures var identity := item.Identity();
            && |cache.objects| + (if identity in cache.objects then 0 else 1) <= config.maxObjects
            && cache.bytes - (if identity in cache.objects then cache.objects[identity].Bytes() else 0)
               + item.Bytes() <= config.maxBytes
  {
    var after := cache.objects[item.Identity() := item];
    TotalBytesUpdate(cache.objects, item.Identity(), item);
    SizeAfter(cache.objects, item.Identity(), item);
    KeysWithin(after, identities);
    TotalBytesBounded(after, most);
    Times(|after|, |identities|, most);
  }

  /** An object of the known identities always finds room. */
  lemma {:induction false} OneFits(config: CacheConfig, cache: Cache, item: StateObject, identities: set<StateIdentity>,
                                   most: nat)
    requires CacheOK(config, cache) && SmallFor(cache, identities, most) && item.Identity() in identities
             && item.Bytes() <= most
    requires |identities| <= config.maxObjects && |identities| * most <= config.maxBytes
    ensures ApplyOne(config, cache, item) != Refused(SyncRequired)
    ensures match ApplyOne(config, cache, item)
            case Committed(after, _) => CacheOK(config, after) && SmallFor(after, identities, most)
            case Refused(_) => true
  {
    RoomAfter(config, cache, item, identities, most);
    ApplyOneKeepsCacheOK(config, cache, item);
  }

  /** With room for all identities no update is turned away. */
  lemma {:induction false} RoomSuffices(config: CacheConfig, cache: Cache, updates: seq<StateObject>,
                                        identities: set<StateIdentity>, most: nat)
    requires CacheOK(config, cache) && WithinRoom(config, cache, updates, identities, most)
    ensures NeverFull(config, cache, updates)
    ensures CacheOK(config, Receive(config, cache, updates))
            && SmallFor(Receive(config, cache, updates), identities, most)
    decreases |updates|
  {
    if updates == [] {
    } else {
      var front, last := updates[..|updates| - 1], updates[|updates| - 1];
      ElementsAppend({}, updates);
      RoomSuffices(config, cache, front, identities, most);
      OneFits(config, Receive(config, cache, front), last, identities, most);
    }
  }

  /** Two caches that agree up to JSON equality of the data. */
  ghost predicate SameUpToJson(a: Cache, b: Cache)
  {
    && a.objects.Keys == b.objects.Keys
    && forall identity | identity in a.objects ::
         && a.objects[identity].version == b.objects[identity].version
         && JsonValue.Equal(a.objects[identity].data, b.objects[identity].data)
  }

  /** Equal identity and version imply equal JSON: what a correct publisher guarantees. */
  ghost predicate Consistent(seen: set<StateObject>)
  {
    forall a, b | a in seen && b in seen && a.Identity() == b.Identity() && a.version == b.version ::
      JsonValue.Equal(a.data, b.data)
  }

  lemma {:induction false} LatestDetermines(a: Cache, b: Cache, seen: set<StateObject>)
    requires Latest(a, seen) && Latest(b, seen) && Consistent(seen)
    ensures SameUpToJson(a, b)
  {
    forall identity
      ensures identity in a.objects <==> identity in b.objects
    {
      if identity in a.objects { assert a.objects[identity] in seen; }
      if identity in b.objects { assert b.objects[identity] in seen; }
    }
    forall identity | identity in a.objects
      ensures a.objects[identity].version == b.objects[identity].version
      ensures JsonValue.Equal(a.objects[identity].data, b.objects[identity].data)
    {
      assert a.objects[identity] in seen && b.objects[identity] in seen;
    }
  }

  /** Convergence: the order in which updates arrive, and how often each one is repeated, do not
      matter. Two clients that saw the same set of updates hold the same State. */
  lemma {:induction false} UpdatesConverge(config: CacheConfig, cache: Cache, first: seq<StateObject>,
                                           second: seq<StateObject>)
    requires CacheOK(config, cache)
    requires forall item | item in first :: Valid(item, config.limits)
    requires Elements(first) == Elements(second)
    requires Consistent(cache.objects.Values + Elements(first))
    requires NeverFull(config, cache, first) && NeverFull(config, cache, second)
    ensures SameUpToJson(Receive(config, cache, first), Receive(config, cache, second))
    ensures Latest(Receive(config, cache, first), cache.objects.Values + Elements(first))
  {
    var base := cache.objects.Values;
    assert Latest(cache, base);
    forall item | item in second
      ensures Valid(item, config.limits)
    {
      assert item in Elements(second);
      assert item in Elements(first);
    }
    ReceiveKeepsLatest(config, cache, base, first);
    ReceiveKeepsLatest(config, cache, base, second);
    LatestDetermines(Receive(config, cache, first), Receive(config, cache, second), base + Elements(first));
  }

  /** Convergence from a condition on the inputs alone. */
  lemma {:induction false} UpdatesConvergeWithRoom(config: CacheConfig, cache: Cache, first: seq<StateObject>,
                                                   second: seq<StateObject>,
                                                   identities: set<StateIdentity>, most: nat)
    requires CacheOK(config, cache) && WithinRoom(config, cache, first, identities, most)
    requires forall item | item in first :: Valid(item, config.limits)
    requires Elements(first) == Elements(second)
    requires Consistent(cache.objects.Values + Elements(first))
    ensures SameUpToJson(Receive(config, cache, first), Receive(config, cache, second))
  {
    forall item | item in second
      ensures item in first
    {
      assert item in Elements(second);
      assert item in Elements(first);
    }
    RoomSuffices(config, cache, first, identities, most);
    RoomSuffices(config, cache, second, identities, most);
    UpdatesConverge(config, cache, first, second);
  }

  /** Consistency is needed: of two conflicting updates the first to arrive stays. */
  lemma {:induction false} ConflictDiverges(config: CacheConfig, a: StateObject, b: StateObject)
    requires Valid(a, config.limits) && Valid(b, config.limits)
    requires a.Identity() == b.Identity() && a.version == b.version
    requires !JsonValue.Equal(a.data, b.data)
    requires NeverFull(config, EMPTY, [a, b]) && NeverFull(config, EMPTY, [b, a])
    ensures Receive(config, EMPTY, [a, b]).objects == map[a.Identity() := a]
    ensures Receive(config, EMPTY, [b, a]).objects == map[b.Identity() := b]
    ensures !SameUpToJson(Receive(config, EMPTY, [a, b]), Receive(config, EMPTY, [b, a]))
  {
    if JsonValue.Equal(b.data, a.data) { JsonValue.EqualSymmetric(b.data, a.data); }
    assert [a, b][..1] == [a] && [b, a][..1] == [b];
    assert [a][..0] == [] && [b][..0] == [];
    assert NeverFull(config, EMPTY, [a]) && NeverFull(config, EMPTY, [b]);
    assert Receive(config, EMPTY, []) == EMPTY;
    assert Receive(config, EMPTY, [a]).objects == map[a.Identity() := a];
    assert Receive(config, EMPTY, [b]).objects == map[b.Identity() := b];
  }
}
