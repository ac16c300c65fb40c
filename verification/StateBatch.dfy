/** When the client takes a batch of State, and what live updates do to it. */
module StateBatch {
  import opened Wire
  import opened Protocol
  import opened ClientMachine
  import opened ClientInvariant
  import opened StateMerge
  import JsonValue

  // ---------------------------------------------------------------- when a batch commits

  /** Unknown, or newer than what is held. */
  predicate Newer(objects: map<StateIdentity, StateObject>, item: StateObject)
  {
    item.Identity() in objects ==> item.version > objects[item.Identity()].version
  }

  /** The version that is held, with the same JSON. */
  predicate Repeats(objects: map<StateIdentity, StateObject>, item: StateObject)
  {
    && item.Identity() in objects && item.version == objects[item.Identity()].version
    && JsonValue.Equal(objects[item.Identity()].data, item.data)
  }

  /** What is held once the newer objects of a batch have replaced the older ones. */
  function Overlay(objects: map<StateIdentity, StateObject>, states: seq<StateObject>): map<StateIdentity, StateObject>
    decreases |states|
  {
    if states == [] then objects
    else
      var front, last := Overlay(objects, states[..|states| - 1]), states[|states| - 1];
      if Newer(objects, last) then front[last.Identity() := last] else front
  }

  ghost predicate Fits(config: CacheConfig, objects: map<StateIdentity, StateObject>)
  {
    |objects| <= config.maxObjects && TotalBytes(objects) <= config.maxBytes
  }

  /** Every object is valid and newer than, or a repetition of, what is held, and both limits hold after
      each of them. */
  ghost predicate Takes(config: CacheConfig, objects: map<StateIdentity, StateObject>, states: seq<StateObject>)
  {
    && (forall i | 0 <= i < |states| ::
          Valid(states[i], config.limits) && (Newer(objects, states[i]) || Repeats(objects, states[i])))
    && (forall n | 0 <= n <= |states| :: FitsAfter(config, objects, states, n))
  }

  ghost predicate FitsAfter(config: CacheConfig, objects: map<StateIdentity, StateObject>, states: seq<StateObject>,
                            n: nat)
    requires n <= |states|
  {
    Fits(config, Overlay(objects, states[..n]))
  }

  lemma {:induction false} OverlayElsewhere(objects: map<StateIdentity, StateObject>, states: seq<StateObject>,
                                            identity: StateIdentity)
    requires forall i | 0 <= i < |states| :: states[i].Identity() != identity
    ensures identity in Overlay(objects, states) <==> identity in objects
    ensures identity in objects ==> Overlay(objects, states)[identity] == objects[identity]
    decreases |states|
  {
    if states == [] {
    } else {
      OverlayElsewhere(objects, states[..|states| - 1], identity);
    }
  }

  /** One more object: in terms of what is held before the whole batch. */
  lemma {:induction false} OneMore(config: CacheConfig, held: map<StateIdentity, StateObject>, mid: Cache,
                                   item: StateObject)
    requires CacheOK(config, mid)
    requires item.Identity() in mid.objects <==> item.Identity() in held
    requires item.Identity() in held ==> mid.objects[item.Identity()] == held[item.Identity()]
    ensures var next := if Newer(held, item) then mid.objects[item.Identity() := item] else mid.objects;
            var r := ApplyOne(config, mid, item);
            && (r.Committed? <==>
                Valid(item, config.limits) && (Newer(held, item) || Repeats(held, item)) && Fits(config, next))
            && (r.Committed? ==> r.cache.objects == next)
  {
    hide Fits, JsonValue.Equal, Valid;
    Verdict(config, mid, item);
    Accounting(config, mid, item);
  }

  /** The version check, on an object that is held or not. */
  lemma {:induction false} Verdict(config: CacheConfig, cache: Cache, item: StateObject)
    requires CacheOK(config, cache)
    ensures var r := ApplyStateObject(Lookup(cache, item.Identity()), item, config.limits);
            && (r.Applied? <==> Valid(item, config.limits) && Newer(cache.objects, item))
            && (r.Duplicate? <==> Valid(item, config.limits) && Repeats(cache.objects, item))
            && (r.Applied? ==> r == Applied(item))
  {
    hide TotalBytes, JsonValue.Equal, Valid;
  }

  /** The running byte count decides the limits as the total does. */
  lemma {:induction false} Accounting(config: CacheConfig, cache: Cache, item: StateObject)
    requires CacheOK(config, cache)
    ensures Fits(config, cache.objects)
    ensures var identity, after := item.Identity(), cache.objects[item.Identity() := item];
            Fits(config, after) <==>
              && (identity !in cache.objects ==> |cache.objects| + 1 <= config.maxObjects)
              && cache.bytes - (if identity in cache.objects then cache.objects[identity].Bytes() else 0) + item.Bytes()
                   <= config.maxBytes
  {
    hide TotalBytes, Valid;
    SizeAfter(cache.objects, item.Identity(), item);
    TotalBytesUpdate(cache.objects, item.Identity(), item);
  }

  lemma {:induction false} TakesFront(config: CacheConfig, objects: map<StateIdentity, StateObject>,
                                      states: seq<StateObject>)
    requires states != []
    ensures var front, last := states[..|states| - 1], states[|states| - 1];
            Takes(config, objects, states) <==>
              && Takes(config, objects, front) && Valid(last, config.limits)
              && (Newer(objects, last) || Repeats(objects, last)) && Fits(config, Overlay(objects, states))
  {
    var front := states[..|states| - 1];
    assert states[..|states|] == states;
    assert forall n | 0 <= n <= |front| :: front[..n] == states[..n];
    assert FitsAfter(config, objects, states, |states|) <==> Fits(config, Overlay(objects, states));
    assert forall n | 0 <= n <= |front| ::
           FitsAfter(config, objects, front, n) <==> FitsAfter(config, objects, states, n);
    assert Takes(config, objects, states) ==> forall i | 0 <= i < |front| :: front[i] == states[i];
  }

  /** A batch of distinct identities commits if and only if every object is valid and newer or a
      repetition, and both limits hold after each object; what is held is then the overlay. */
  lemma {:induction false} CommitsExactly(config: CacheConfig, cache: Cache, states: seq<StateObject>)
    requires CacheOK(config, cache) && DistinctIdentities(states)
    ensures ApplyBatch(config, cache, states).Committed? <==> Takes(config, cache.objects, states)
    ensures ApplyBatch(config, cache, states).Committed? ==>
              && ApplyBatch(config, cache, states).cache.objects == Overlay(cache.objects, states)
              && CacheOK(config, ApplyBatch(config, cache, states).cache)
    decreases |states|
  {
    if states == [] {
      assert FitsAfter(config, cache.objects, states, 0);
    } else {
      var front, last := states[..|states| - 1], states[|states| - 1];
      assert states == front + [last];
      CommitsExactly(config, cache, front);
      ApplyBatchAppend(config, cache, front, last);
      TakesFront(config, cache.objects, states);
      var r := ApplyBatch(config, cache, front);
      if r.Committed? {
        OverlayElsewhere(cache.objects, front, last.Identity());
        OneMore(config, cache.objects, r.cache, last);
        ApplyOneKeepsCacheOK(config, r.cache, last);
      }
    }
  }

  // ---------------------------------------------------------------- live updates at the client

  function ReceiveOneObject(config: CacheConfig, cache: Cache, item: StateObject): Cache
  {
    match ApplyOne(config, cache, item)
    case Committed(after, _) => after
    case Refused(_) => cache
  }

  lemma {:induction false} ReceiveFromLeft(config: CacheConfig, cache: Cache, item: StateObject, rest: seq<StateObject>)
    ensures Receive(config, cache, [item] + rest) == Receive(config, ReceiveOneObject(config, cache, item), rest)
    decreases |rest|
  {
    var updates := [item] + rest;
    if rest == [] {
      assert updates[..0] == [] && updates == [item];
      assert Receive(config, cache, updates[..|updates| - 1]) == cache;
    } else {
      assert updates[..|updates| - 1] == [item] + rest[..|rest| - 1];
      ReceiveFromLeft(config, cache, item, rest[..|rest| - 1]);
    }
  }

  lemma {:induction false} NothingReceived(config: CacheConfig, cache: Cache)
    ensures Receive(config, cache, []) == cache
  {
  }

  /** A STATE_UPDATE of the client's own connection and Session that carries `item`. */
  predicate Carries(c: Client, op: Op, item: StateObject)
  {
    && op.OpIncoming? && op.generation == c.generation && op.input.Parsed? && op.input.frame.StateUpdate?
    && op.input.frame.sessionID == c.sessionID && op.input.frame.state == item
  }

  lemma {:induction false} UpdateStep(config: Config, c: Client, op: Op, item: StateObject)
    requires c.phase == Ready && StateSyncEnabled(c.capabilities) && Carries(c, op, item)
    ensures HandleIncoming(config, c, op.generation, op.input, op.outboundOK).client
         == c.(cache := ReceiveOneObject(config.cache, c.cache, item))
  {
    SingleBatch(config.cache, c.cache, item);
  }

  lemma {:induction false} SingleBatch(config: CacheConfig, cache: Cache, item: StateObject)
    ensures match ApplyOne(config, cache, item)
            case Committed(after, changes) => ApplyBatch(config, cache, [item]) == Committed(after, changes)
            case Refused(error) => ApplyBatch(config, cache, [item]) == Refused(error)
  {
    assert [item][1..] == [];
    match ApplyOne(config, cache, item)
    case Committed(after, changes) =>
      assert ApplyBatch(config, after, []) == Committed(after, []);
      assert changes + [] == changes;
    case Refused(_) =>
  }

  /** Feeding updates to a READY client does to its cache what receiving them does, and nothing else. */
  lemma {:induction false} UpdatesReachCache(config: Config, start: Run, ops: seq<Op>, updates: seq<StateObject>)
    requires start.client.phase == Ready && StateSyncEnabled(start.client.capabilities) && |ops| == |updates|
    requires forall i | 0 <= i < |ops| :: Carries(start.client, ops[i], updates[i])
    ensures RunFrom(config, start, ops).client
         == start.client.(cache := Receive(config.cache, start.client.cache, updates))
    decreases |ops|
  {
    hide HandleIncoming, Receive, ReceiveOneObject, Observe;
    if ops == [] {
      assert updates == [];
      NothingReceived(config.cache, start.client.cache);
    } else {
      var c := start.client;
      var outcome := Step(config, c, ops[0]);
      UpdateStep(config, c, ops[0], updates[0]);
      UpdatesReachCache(config, Run(outcome.client, Observe(start.history, ops[0], outcome)), ops[1..], updates[1..]);
      assert updates == [updates[0]] + updates[1..];
      ReceiveFromLeft(config.cache, c.cache, updates[0], updates[1..]);
    }
  }

  /** Two runs of a READY client that are fed the same State updates, in any order and with any
      repetition, with room for all of them and agreeing versions, end in the same State. */
  lemma {:induction false} ClientsConverge(config: Config, start: Run, firstOps: seq<Op>, first: seq<StateObject>,
                                           secondOps: seq<Op>, second: seq<StateObject>,
                                           identities: set<StateIdentity>, most: nat)
    requires Inv(config, start) && start.client.phase == Ready && StateSyncEnabled(start.client.capabilities)
    requires |firstOps| == |first| && forall i | 0 <= i < |firstOps| :: Carries(start.client, firstOps[i], first[i])
    requires |secondOps| == |second| && forall i | 0 <= i < |secondOps| ::
             Carries(start.client, secondOps[i], second[i])
    requires WithinRoom(config.cache, start.client.cache, first, identities, most)
    requires forall item | item in first :: Valid(item, config.cache.limits)
    requires Elements(first) == Elements(second)
    requires Consistent(start.client.cache.objects.Values + Elements(first))
    ensures var a, b := RunFrom(config, start, firstOps).client, RunFrom(config, start, secondOps).client;
            SameUpToJson(a.cache, b.cache) && a.phase == Ready && b.phase == Ready
  {
    UpdatesReachCache(config, start, firstOps, first);
    UpdatesReachCache(config, start, secondOps, second);
    UpdatesConvergeWithRoom(config.cache, start.client.cache, first, second, identities, most);
  }
}
