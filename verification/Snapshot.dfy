/** Building the State snapshot of a RESUME: validation, canonical order, bounded accumulation. */
module Snapshot {
  import opened Wire
  import StateMerge
  import Text

  type StateObject = StateMerge.StateObject

  /** `encode` is the JSON text of one object, `validFrame` the outbound check of the finished frame; the
      bounds are those of one snapshot frame. */
  datatype Config = Config(
    maxObjects: nat,
    maxBytes: nat,
    limits: StateMerge.Limits,
    encode: StateObject -> string,
    validFrame: seq<StateObject> -> bool)

  const OPENING: string := "{\"states\":["
  const CLOSING: string := "]}"

  function Joined(states: seq<StateObject>, encode: StateObject -> string): string
  {
    if states == [] then ""
    else if |states| == 1 then encode(states[0])
    else Joined(states[..|states| - 1], encode) + "," + encode(states[|states| - 1])
  }

  /** The encoded snapshot payload. */
  function Payload(states: seq<StateObject>, encode: StateObject -> string): string
  {
    OPENING + Joined(states, encode) + CLOSING
  }

  // ---------------------------------------------------------------- the accumulator

  class Accumulator {
    const config: Config
    var states: seq<StateObject>
    var encodedBytes: nat

    /** The counter is the exact length of the payload, and both bounds hold. */
    ghost predicate Valid()
      reads this
    {
      && encodedBytes == |Payload(states, config.encode)| <= config.maxBytes
      && |states| <= config.maxObjects
    }

    constructor (config: Config)
      requires |OPENING| + |CLOSING| <= config.maxBytes
      ensures Valid() && states == [] && this.config == config
    {
      this.config := config;
      states := [];
      encodedBytes := |OPENING| + |CLOSING|;
      new;
      assert Payload([], config.encode) == OPENING + CLOSING;
    }

    /** Refuses exactly what is invalid or would break a bound, and then changes nothing. */
    method Add(item: StateObject) returns (ok: bool)
      requires Valid()
      modifies this
      ensures Valid()
      ensures ok <==> && |old(states)| < config.maxObjects && StateMerge.Valid(item, config.limits)
                      && |Payload(old(states) + [item], config.encode)| <= config.maxBytes
      ensures states == if ok then old(states) + [item] else old(states)
    {
      PayloadGrows(states, item, config.encode);
      if |states| >= config.maxObjects {
        return false;
      }
      if !StateMerge.Valid(item, config.limits) {
        return false;
      }
      var additional := |config.encode(item)|;
      if |states| > 0 {
        additional := additional + 1;
      }
      if additional > config.maxBytes - encodedBytes {
        return false;
      }
      encodedBytes := encodedBytes + additional;
      states := states + [item];
      return true;
    }
  }

  lemma {:induction false} PayloadGrows(states: seq<StateObject>, item: StateObject, encode: StateObject -> string)
    ensures |Payload(states + [item], encode)|
         == |Payload(states, encode)| + |encode(item)| + (if states == [] then 0 else 1)
  {
    if states == [] {
      assert states + [item] == [item];
    } else {
      assert (states + [item])[..|states|] == states;
    }
  }

  // ---------------------------------------------------------------- canonical order

  predicate Before(a: StateObject, b: StateObject)
  {
    if a.namespace != b.namespace then Text.Less(a.namespace, b.namespace) else Text.Less(a.objectID, b.objectID)
  }

  function Insert(item: StateObject, sorted: seq<StateObject>): seq<StateObject>
  {
    if sorted == [] || Before(item, sorted[0]) then [item] + sorted else [sorted[0]] + Insert(item, sorted[1..])
  }

  /** sort.Slice by namespace, then object identity. */
  function Sort(states: seq<StateObject>): seq<StateObject>
  {
    if states == [] then [] else Insert(states[0], Sort(states[1..]))
  }

  lemma {:induction false} SortRearranges(states: seq<StateObject>)
    ensures multiset(Sort(states)) == multiset(states) && |Sort(states)| == |states|
    decreases |states|
  {
    if states == [] {
    } else {
      assert states == [states[0]] + states[1..];
      SortRearranges(states[1..]);
      InsertRearranges(states[0], Sort(states[1..]));
    }
  }

  lemma {:induction false} InsertRearranges(item: StateObject, sorted: seq<StateObject>)
    ensures multiset(Insert(item, sorted)) == multiset{item} + multiset(sorted)
            && |Insert(item, sorted)| == |sorted| + 1
    decreases |sorted|
  {
    if sorted != [] && !Before(item, sorted[0]) {
      assert sorted == [sorted[0]] + sorted[1..];
      InsertRearranges(item, sorted[1..]);
    }
  }

  predicate Canonical(states: seq<StateObject>)
  {
    forall i, j | 0 <= i < j < |states| :: Before(states[i], states[j])
  }

  lemma {:induction false} BeforeTransitive(a: StateObject, b: StateObject, c: StateObject)
    requires Before(a, b) && Before(b, c)
    ensures Before(a, c)
  {
    Text.LessTotal(a.namespace, b.namespace);
    Text.LessTotal(b.namespace, c.namespace);
    if a.namespace != b.namespace && b.namespace != c.namespace {
      Text.LessTransitive(a.namespace, b.namespace, c.namespace);
      Text.LessTotal(a.namespace, c.namespace);
    } else if a.namespace == b.namespace == c.namespace {
      Text.LessTransitive(a.objectID, b.objectID, c.objectID);
    }
  }

  lemma {:induction false} InsertCanonical(item: StateObject, sorted: seq<StateObject>)
    requires Canonical(sorted) && forall other | other in sorted :: other.Identity() != item.Identity()
    ensures Canonical(Insert(item, sorted))
    decreases |sorted|
  {
    hide Text.Less;
    if sorted == [] {
    } else {
      var head, tail := sorted[0], sorted[1..];
      if Before(item, head) {
        forall k | 0 < k < |sorted|
          ensures Before(item, sorted[k])
        {
          BeforeTransitive(item, head, sorted[k]);
        }
      } else {
        Text.LessTotal(item.namespace, head.namespace);
        Text.LessTotal(item.objectID, head.objectID);
        assert head in sorted;
        InsertCanonical(item, tail);
        InsertRearranges(item, tail);
        var rest := Insert(item, tail);
        forall k | 0 <= k < |rest|
          ensures Before(head, rest[k])
        {
          assert rest[k] in multiset(rest);
          assert rest[k] == item || rest[k] in tail;
        }
      }
    }
  }

  lemma {:induction false} SortCanonical(states: seq<StateObject>)
    requires StateMerge.DistinctIdentities(states)
    ensures Canonical(Sort(states)) && StateMerge.DistinctIdentities(Sort(states))
    decreases |states|
  {
    if states == [] {
    } else {
      var head, tail := states[0], states[1..];
      SortCanonical(tail);
      SortRearranges(tail);
      forall other | other in Sort(tail)
        ensures other.Identity() != head.Identity()
      {
        assert other in multiset(Sort(tail));
        var i :| 0 <= i < |tail| && tail[i] == other;
        assert states[i + 1] == other;
      }
      InsertCanonical(head, Sort(tail));
    }
    CanonicalDistinct(Sort(states));
  }

  lemma {:induction false} CanonicalDistinct(states: seq<StateObject>)
    requires Canonical(states)
    ensures StateMerge.DistinctIdentities(states)
  {
    forall i, j | 0 <= i < j < |states|
      ensures states[i].Identity() != states[j].Identity()
    {
      Text.LessTotal(states[i].namespace, states[j].namespace);
      Text.LessTotal(states[i].objectID, states[j].objectID);
    }
  }

  // ---------------------------------------------------------------- the snapshot of a RESUME

  /** What the provider returned is usable: few enough, valid, requested, without repetition. */
  predicate Usable(config: Config, states: seq<StateObject>, namespaces: seq<string>)
  {
    && |states| <= config.maxObjects
    && StateMerge.DistinctIdentities(states)
    && forall i | 0 <= i < |states| :: StateMerge.Valid(states[i], config.limits) && states[i].namespace in namespaces
  }

  /** The limits allow a snapshot at all. */
  predicate Roomy(config: Config)
  {
    config.maxObjects > 0 && |OPENING| + |CLOSING| <= config.maxBytes
  }

  /** The snapshot for a provider result: the same objects in canonical order, if they fit one frame and
      that frame is valid. */
  function SnapshotOf(config: Config, states: seq<StateObject>, namespaces: seq<string>): Option<seq<StateObject>>
  {
    if && Roomy(config) && Usable(config, states, namespaces)
       && |Payload(Sort(states), config.encode)| <= config.maxBytes && config.validFrame(Sort(states))
    then Some(Sort(states))
    else None
  }

  method CheckStates(config: Config, states: seq<StateObject>, namespaces: seq<string>) returns (ok: bool)
    ensures ok <==> Usable(config, states, namespaces)
  {
    if |states| > config.maxObjects {
      return false;
    }
    var seen: set<StateMerge.StateIdentity> := {};
    var i := 0;
    while i < |states|
      invariant 0 <= i <= |states|
      invariant seen == set k | 0 <= k < i :: states[k].Identity()
      invariant StateMerge.DistinctIdentities(states[..i])
      invariant forall k | 0 <= k < i :: StateMerge.Valid(states[k], config.limits) && states[k].namespace in namespaces
    {
      if !StateMerge.Valid(states[i], config.limits) || states[i].namespace !in namespaces {
        return false;
      }
      var identity := states[i].Identity();
      if identity in seen {
        var k :| 0 <= k < i && states[k].Identity() == identity;
        assert states[k].Identity() == states[i].Identity();
        return false;
      }
      seen := seen + {identity};
      i := i + 1;
    }
    assert states[..i] == states;
    return true;
  }

  lemma {:induction false} PayloadPrefix(states: seq<StateObject>, n: nat, encode: StateObject -> string)
    requires n <= |states|
    ensures |Payload(states[..n], encode)| <= |Payload(states, encode)|
    decreases |states| - n
  {
    if n == |states| {
      assert states[..n] == states;
    } else {
      PayloadPrefix(states, n + 1, encode);
      assert states[..n + 1] == states[..n] + [states[n]];
      PayloadGrows(states[..n], states[n], encode);
    }
  }

  lemma {:induction false} SortedStayValid(config: Config, states: seq<StateObject>, namespaces: seq<string>, i: nat)
    requires Usable(config, states, namespaces) && i < |Sort(states)|
    ensures StateMerge.Valid(Sort(states)[i], config.limits) && Sort(states)[i].namespace in namespaces
    ensures |Sort(states)| <= config.maxObjects
  {
    SortRearranges(states);
    assert Sort(states)[i] in multiset(states);
    var k :| 0 <= k < |states| && states[k] == Sort(states)[i];
  }

  method Build(config: Config, states: seq<StateObject>, namespaces: seq<string>) returns (r: Option<seq<StateObject>>)
    ensures r == SnapshotOf(config, states, namespaces)
  {
    hide Usable, Sort, Payload, StateMerge.Valid;
    var usable := CheckStates(config, states, namespaces);
    if !usable {
      return None;
    }
    if config.maxObjects == 0 || |OPENING| + |CLOSING| > config.maxBytes {
      return None;
    }
    var sorted := Sort(states);
    var accumulator := new Accumulator(config);
    var i := 0;
    while i < |sorted|
      invariant 0 <= i <= |sorted|
      invariant accumulator.Valid() && accumulator.states == sorted[..i] && accumulator.config == config
      invariant fresh(accumulator)
    {
      assert sorted[..i + 1] == sorted[..i] + [sorted[i]];
      SortedStayValid(config, states, namespaces, i);
      var added := accumulator.Add(sorted[i]);
      if !added {
        PayloadPrefix(sorted, i + 1, config.encode);
        return None;
      }
      i := i + 1;
    }
    assert sorted[..i] == sorted;
    if !config.validFrame(accumulator.states) {
      return None;
    }
    return Some(accumulator.states);
  }
}
