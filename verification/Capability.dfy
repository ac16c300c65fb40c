/** Capability negotiation: what a server selects, and the client's check of the selection. */
module Capability {
  import opened Wire
  import Names
  import Text

  type u16 = n: int | 0 <= n <= 0xFFFF

  datatype Offer = Offer(name: string, versions: seq<u16>, required: bool)

  datatype Negotiated = Negotiated(name: string, version: u16)

  datatype Limits = Limits(maxCapabilities: nat, maxNameLength: nat, maxVersions: nat)

  datatype Error = InvalidCapability | UnsupportedFeature | ProtocolViolation

  datatype Result<+T> = Success(value: T) | Failure(error: Error)

  // ---------------------------------------------------------------- well-formed declarations

  /** The part of the name after its last separator. */
  function LastSegment(name: string): string
  {
    if name == "" || Names.Separator(name[|name| - 1]) then ""
    else LastSegment(name[..|name| - 1]) + [name[|name| - 1]]
  }

  predicate Digits(s: string) { forall i | 0 <= i < |s| :: '0' <= s[i] <= '9' }

  /** A version spelled into the name, such as the v2 of state-sync-v2. */
  predicate VersionSuffix(segment: string)
  {
    |segment| > 1 && segment[0] == 'v' && Digits(segment[1..])
  }

  predicate ValidName(name: string, limits: Limits)
  {
    && |name| <= limits.maxNameLength && Names.WellSpelled(name)
    && !VersionSuffix(LastSegment(name))
  }

  predicate Distinct<T(==)>(s: seq<T>)
  {
    forall i, j | 0 <= i < j < |s| :: s[i] != s[j]
  }

  predicate ValidVersions(versions: seq<u16>, limits: Limits)
  {
    && 0 < |versions| <= limits.maxVersions
    && Distinct(versions)
    && 0 !in versions
  }

  predicate DistinctNames(offers: seq<Offer>)
  {
    forall i, j | 0 <= i < j < |offers| :: offers[i].name != offers[j].name
  }

  predicate AllValid(offers: seq<Offer>, limits: Limits)
  {
    && DistinctNames(offers)
    && forall k | 0 <= k < |offers| :: ValidName(offers[k].name, limits) && ValidVersions(offers[k].versions, limits)
  }

  predicate ValidOffers(offers: seq<Offer>, limits: Limits)
  {
    |offers| <= limits.maxCapabilities && AllValid(offers, limits)
  }

  predicate CanonicalOrder(list: seq<Negotiated>)
  {
    forall i, j | 0 <= i < j < |list| :: Text.Less(list[i].name, list[j].name)
  }

  predicate ValidNegotiated(list: seq<Negotiated>, limits: Limits)
  {
    && |list| <= limits.maxCapabilities
    && CanonicalOrder(list)
    && forall i | 0 <= i < |list| :: ValidName(list[i].name, limits) && list[i].version != 0
  }

  // ---------------------------------------------------------------- the server's choice

  type Registry = map<string, seq<u16>>

  predicate Ascending(versions: seq<u16>)
  {
    forall i, j | 0 <= i < j < |versions| :: versions[i] < versions[j]
  }

  function Supported(registry: Registry, name: string): seq<u16>
  {
    if name in registry then registry[name] else []
  }

  predicate Common(v: u16, client: seq<u16>, server: seq<u16>)
  {
    v in client && v in server
  }

  /** `v` is the highest version both sides list. */
  ghost predicate Highest(v: u16, client: seq<u16>, server: seq<u16>)
  {
    Common(v, client, server) && forall w: u16 | Common(w, client, server) :: w <= v
  }

  ghost predicate Disjoint(client: seq<u16>, server: seq<u16>)
  {
    forall v: u16 :: !Common(v, client, server)
  }

  /** `offer` survives as `choice`: at the highest version both sides support. */
  ghost predicate Chosen(registry: Registry, offer: Offer, choice: Negotiated)
  {
    choice.name == offer.name && Highest(choice.version, offer.versions, Supported(registry, offer.name))
  }

  ghost predicate Unsupported(registry: Registry, offer: Offer)
  {
    Disjoint(offer.versions, Supported(registry, offer.name))
  }

  ghost predicate IsChoice(registry: Registry, offers: seq<Offer>, choice: Negotiated)
  {
    exists offer :: offer in offers && Chosen(registry, offer, choice)
  }

  /** The accepted capabilities are exactly the choices the offers lead to. */
  ghost predicate Selection(registry: Registry, offers: seq<Offer>, accepted: seq<Negotiated>)
  {
    forall choice: Negotiated :: choice in accepted <==> IsChoice(registry, offers, choice)
  }

  /** An offer is dropped exactly when the version sets are disjoint. */
  lemma {:induction false} SupportedIsChosen(registry: Registry, offer: Offer) returns (choice: Negotiated)
    requires !Unsupported(registry, offer)
    ensures Chosen(registry, offer, choice)
  {
    var server := Supported(registry, offer.name);
    var v: u16 :| Common(v, offer.versions, server);
    while exists w: u16 :: Common(w, offer.versions, server) && w > v
      invariant Common(v, offer.versions, server)
      decreases 0xFFFF - v
    {
      var w: u16 :| Common(w, offer.versions, server) && w > v;
      v := w;
    }
    choice := Negotiated(offer.name, v);
  }

  /** What a negotiation must yield, without saying how: which offers survive and at which version,
      in canonical order; which inputs fail, and with which error. */
  ghost predicate Negotiation(registry: Registry, offers: seq<Offer>, limits: Limits, r: Result<seq<Negotiated>>)
  {
    match r
    case Success(accepted) =>
      && ValidOffers(offers, limits)
      && CanonicalOrder(accepted)
      && Selection(registry, offers, accepted)
      && (forall offer | offer in offers && offer.required :: !Unsupported(registry, offer))
    case Failure(error) =>
      if !ValidOffers(offers, limits) then error == InvalidCapability
      else error == UnsupportedFeature && exists offer ::
        offer in offers && offer.required && Unsupported(registry, offer)
  }

  /** Two pointers from the top of both ascending lists. */
  lemma {:induction false} AtMostLast(versions: seq<u16>, n: nat, w: u16)
    requires Ascending(versions) && n < |versions| && w in versions[..n + 1]
    ensures w <= versions[n] && (w < versions[n] ==> w in versions[..n])
  {
    var k :| 0 <= k <= n && versions[k] == w;
    if w < versions[n] {
      assert versions[..n][k] == w;
    }
  }

  method HighestCommonVersion(client: seq<u16>, server: seq<u16>) returns (version: u16, ok: bool)
    requires Ascending(client) && Ascending(server)
    ensures ok ==> Highest(version, client, server)
    ensures !ok ==> Disjoint(client, server)
  {
    hide Ascending;
    var i, j := |client| - 1, |server| - 1;
    while i >= 0 && j >= 0
      invariant -1 <= i < |client| && -1 <= j < |server|
      invariant forall w: u16 | Common(w, client, server) :: w in client[..i + 1] && w in server[..j + 1]
      decreases i + j + 2
    {
      if client[i] == server[j] {
        assert Common(client[i], client, server);
        forall w: u16 | Common(w, client, server)
          ensures w <= client[i]
        {
          AtMostLast(client, i, w);
        }
        return client[i], true;
      } else if client[i] > server[j] {
        forall w: u16 | Common(w, client, server)
          ensures w in client[..i]
        {
          AtMostLast(server, j, w);
          AtMostLast(client, i, w);
        }
        i := i - 1;
      } else {
        forall w: u16 | Common(w, client, server)
          ensures w in server[..j]
        {
          AtMostLast(server, j, w);
          AtMostLast(client, i, w);
        }
        j := j - 1;
      }
    }
    return 0, false;
  }

  predicate NonDescending(versions: seq<u16>)
  {
    forall i, j | 0 <= i < j < |versions| :: versions[i] <= versions[j]
  }

  function InsertVersion(v: u16, sorted: seq<u16>): seq<u16>
  {
    if sorted == [] || v <= sorted[0] then [v] + sorted
    else [sorted[0]] + InsertVersion(v, sorted[1..])
  }

  /** sort.Slice on versions. */
  function SortVersions(versions: seq<u16>): seq<u16>
  {
    if versions == [] then [] else InsertVersion(versions[0], SortVersions(versions[1..]))
  }

  lemma {:induction false} InsertVersionKeeps(v: u16, sorted: seq<u16>)
    ensures multiset(InsertVersion(v, sorted)) == multiset{v} + multiset(sorted)
    decreases |sorted|
  {
    if sorted != [] && v > sorted[0] {
      assert sorted == [sorted[0]] + sorted[1..];
      InsertVersionKeeps(v, sorted[1..]);
    }
  }

  lemma {:induction false} InsertVersionAbove(v: u16, sorted: seq<u16>, low: u16)
    requires low <= v && forall k | 0 <= k < |sorted| :: low <= sorted[k]
    ensures forall k | 0 <= k < |InsertVersion(v, sorted)| :: low <= InsertVersion(v, sorted)[k]
    decreases |sorted|
  {
    if sorted != [] && v > sorted[0] {
      InsertVersionAbove(v, sorted[1..], low);
    }
  }

  lemma {:induction false} InsertVersionSorts(v: u16, sorted: seq<u16>)
    requires NonDescending(sorted)
    ensures multiset(InsertVersion(v, sorted)) == multiset{v} + multiset(sorted)
    ensures NonDescending(InsertVersion(v, sorted))
    decreases |sorted|
  {
    InsertVersionKeeps(v, sorted);
    if sorted != [] && v > sorted[0] {
      InsertVersionSorts(v, sorted[1..]);
      InsertVersionAbove(v, sorted[1..], sorted[0]);
    }
  }

  lemma {:induction false} SortVersionsSorts(versions: seq<u16>)
    ensures multiset(SortVersions(versions)) == multiset(versions) && NonDescending(SortVersions(versions))
    decreases |versions|
  {
    if versions == [] {
    } else {
      assert versions == [versions[0]] + versions[1..];
      SortVersionsSorts(versions[1..]);
      InsertVersionSorts(versions[0], SortVersions(versions[1..]));
    }
  }

  lemma {:induction false} MultisetMembers<T>(a: seq<T>, b: seq<T>)
    requires multiset(a) == multiset(b)
    ensures forall x :: x in a <==> x in b
  {
    assert forall x :: x in a <==> x in multiset(a);
    assert forall x :: x in b <==> x in multiset(b);
  }

  ghost function Members<T>(s: seq<T>): set<T>
  {
    set x | x in s
  }

  lemma {:induction false} DistinctByCount<T>(s: seq<T>)
    ensures |Members(s)| <= |s|
    ensures Distinct(s) <==> |Members(s)| == |s|
    decreases |s|
  {
    if s == [] {
    } else {
      var front, last := s[..|s| - 1], s[|s| - 1];
      DistinctByCount(front);
      assert s == front + [last];
      assert Members(s) == Members(front) + {last};
      if last in front {
        assert Members(s) == Members(front);
        var k :| 0 <= k < |front| && front[k] == last;
        assert s[k] == s[|s| - 1];
      } else {
        assert |Members(s)| == |Members(front)| + 1;
        assert Distinct(front) ==> Distinct(s);
      }
    }
  }

  lemma {:induction false} RearrangedDistinct<T>(a: seq<T>, b: seq<T>)
    requires multiset(a) == multiset(b)
    ensures |a| == |b| && (Distinct(a) <==> Distinct(b)) && Members(a) == Members(b)
  {
    MultisetMembers(a, b);
    assert Members(a) == Members(b);
    assert |a| == |multiset(a)| && |b| == |multiset(b)|;
    DistinctByCount(a);
    DistinctByCount(b);
  }

  /** Sorts a copy of the list and rejects zero and repeated versions in one pass over it. */
  method ValidateAndSortVersions(versions: seq<u16>, limits: Limits) returns (r: Result<seq<u16>>)
    ensures r.Success? <==> ValidVersions(versions, limits)
    ensures r.Failure? ==> r.error == InvalidCapability
    ensures r.Success? ==> Ascending(r.value) && multiset(r.value) == multiset(versions)
  {
    if |versions| == 0 || |versions| > limits.maxVersions {
      return Failure(InvalidCapability);
    }
    var sorted := SortVersions(versions);
    SortVersionsSorts(versions);
    MultisetMembers(sorted, versions);
    RearrangedDistinct(sorted, versions);
    var i := 0;
    while i < |sorted|
      invariant 0 <= i <= |sorted|
      invariant 0 !in sorted[..i]
      invariant forall k | 0 < k < i :: sorted[k - 1] < sorted[k]
    {
      if sorted[i] == 0 {
        assert 0 in versions;
        return Failure(InvalidCapability);
      }
      if i > 0 && sorted[i] == sorted[i - 1] {
        assert !Distinct(sorted);
        return Failure(InvalidCapability);
      }
      i := i + 1;
    }
    StepsAscend(sorted);
    assert Distinct(sorted);
    return Success(sorted);
  }

  lemma {:induction false} StepsAscend(sorted: seq<u16>)
    requires forall k | 0 < k < |sorted| :: sorted[k - 1] < sorted[k]
    ensures Ascending(sorted)
  {
    forall i, j | 0 <= i < j < |sorted|
      ensures sorted[i] < sorted[j]
    {
      StepsAscendTo(sorted, i, j);
    }
  }

  lemma {:induction false} StepsAscendTo(sorted: seq<u16>, i: nat, j: nat)
    requires i < j < |sorted|
    requires forall k | 0 < k < |sorted| :: sorted[k - 1] < sorted[k]
    ensures sorted[i] < sorted[j]
    decreases j
  {
    if i < j - 1 {
      StepsAscendTo(sorted, i, j - 1);
    }
  }

  method ValidateName(name: string, limits: Limits) returns (ok: bool)
    ensures ok <==> ValidName(name, limits)
  {
    if |name| > limits.maxNameLength {
      return false;
    }
    var spelled := Names.Scan(name);
    if !spelled {
      return false;
    }
    return !VersionSuffix(LastSegment(name));
  }

  /** Offer by offer, with the names seen so far; yields the offers with their versions ascending. */
  method ValidateAndCopyOffers(offers: seq<Offer>, limits: Limits) returns (r: Result<seq<Offer>>)
    ensures r.Success? <==> ValidOffers(offers, limits)
    ensures r.Failure? ==> r.error == InvalidCapability
    ensures r.Success? ==> Copied(offers, r.value)
  {
    if |offers| > limits.maxCapabilities {
      return Failure(InvalidCapability);
    }
    var seen: set<string> := {};
    var copies: seq<Offer> := [];
    var i := 0;
    while i < |offers|
      invariant 0 <= i <= |offers|
      invariant seen == Members(OfferNames(offers[..i]))
      invariant AllValid(offers[..i], limits)
      invariant Copied(offers[..i], copies)
    {
      var offer := offers[i];
      assert offers[..i + 1] == offers[..i] + [offer];
      var named := ValidateName(offer.name, limits);
      if !named {
        return Failure(InvalidCapability);
      }
      SeenNames(offers[..i], offer);
      if offer.name in seen {
        return Failure(InvalidCapability);
      }
      var versions := ValidateAndSortVersions(offer.versions, limits);
      if versions.Failure? {
        return Failure(InvalidCapability);
      }
      seen := seen + {offer.name};
      CopiedAppend(offers[..i], copies, offer, Offer(offer.name, versions.value, offer.required));
      copies := copies + [Offer(offer.name, versions.value, offer.required)];
      i := i + 1;
    }
    assert offers[..i] == offers;
    return Success(copies);
  }

  lemma {:induction false} SeenNames(offers: seq<Offer>, offer: Offer)
    ensures Members(OfferNames(offers + [offer])) == Members(OfferNames(offers)) + {offer.name}
    ensures offer.name in Members(OfferNames(offers)) <==> exists k | 0 <= k < |offers| :: offers[k].name == offer.name
  {
    var names := OfferNames(offers);
    assert OfferNames(offers + [offer]) == names + [offer.name];
    if offer.name in names {
      var k :| 0 <= k < |names| && names[k] == offer.name;
      assert offers[k].name == offer.name;
    }
    if k :| 0 <= k < |offers| && offers[k].name == offer.name {
      assert names[k] == offer.name;
    }
  }

  lemma {:induction false} CopiedAppend(offers: seq<Offer>, copies: seq<Offer>, offer: Offer, copy: Offer)
    requires DistinctNames(offers) && Copied(offers, copies) && forall k | 0 <= k < |offers| ::
             offers[k].name != offer.name
    requires copy.name == offer.name && copy.required == offer.required
    requires Ascending(copy.versions) && multiset(copy.versions) == multiset(offer.versions)
    ensures DistinctNames(offers + [offer]) && Copied(offers + [offer], copies + [copy])
  {
  }

  ghost predicate Copied(offers: seq<Offer>, copies: seq<Offer>)
  {
    && |copies| == |offers|
    && forall k | 0 <= k < |offers| ::
         && copies[k].name == offers[k].name && copies[k].required == offers[k].required
         && Ascending(copies[k].versions) && multiset(copies[k].versions) == multiset(offers[k].versions)
  }

  // ---------------------------------------------------------------- negotiation

  function InsertByName(choice: Negotiated, sorted: seq<Negotiated>): seq<Negotiated>
  {
    if sorted == [] || Text.Less(choice.name, sorted[0].name) then [choice] + sorted
    else [sorted[0]] + InsertByName(choice, sorted[1..])
  }

  /** sort.Slice on the accepted list. */
  function SortByName(list: seq<Negotiated>): seq<Negotiated>
  {
    if list == [] then [] else InsertByName(list[0], SortByName(list[1..]))
  }

  predicate DistinctChoices(list: seq<Negotiated>)
  {
    forall i, j | 0 <= i < j < |list| :: list[i].name != list[j].name
  }

  lemma {:induction false} InsertByNameKeeps(choice: Negotiated, sorted: seq<Negotiated>)
    ensures multiset(InsertByName(choice, sorted)) == multiset{choice} + multiset(sorted)
    decreases |sorted|
  {
    if sorted != [] && !Text.Less(choice.name, sorted[0].name) {
      assert sorted == [sorted[0]] + sorted[1..];
      InsertByNameKeeps(choice, sorted[1..]);
    }
  }

  lemma {:induction false} InsertByNameAfter(choice: Negotiated, sorted: seq<Negotiated>, low: string)
    requires Text.Less(low, choice.name) && forall k | 0 <= k < |sorted| :: Text.Less(low, sorted[k].name)
    ensures forall k | 0 <= k < |InsertByName(choice, sorted)| :: Text.Less(low, InsertByName(choice, sorted)[k].name)
    decreases |sorted|
  {
    if sorted != [] && !Text.Less(choice.name, sorted[0].name) {
      InsertByNameAfter(choice, sorted[1..], low);
    }
  }

  lemma {:induction false} InsertByNameSorts(choice: Negotiated, sorted: seq<Negotiated>)
    requires CanonicalOrder(sorted) && forall k | 0 <= k < |sorted| :: sorted[k].name != choice.name
    ensures multiset(InsertByName(choice, sorted)) == multiset{choice} + multiset(sorted)
    ensures CanonicalOrder(InsertByName(choice, sorted))
    decreases |sorted|
  {
    InsertByNameKeeps(choice, sorted);
    if sorted == [] {
    } else {
      Text.LessTotal(choice.name, sorted[0].name);
      if Text.Less(choice.name, sorted[0].name) {
        forall k | 0 < k < |sorted|
          ensures Text.Less(choice.name, sorted[k].name)
        {
          Text.LessTransitive(choice.name, sorted[0].name, sorted[k].name);
        }
      } else {
        InsertByNameSorts(choice, sorted[1..]);
        InsertByNameAfter(choice, sorted[1..], sorted[0].name);
      }
    }
  }

  lemma {:induction false} SortByNameSorts(list: seq<Negotiated>)
    requires DistinctChoices(list)
    ensures multiset(SortByName(list)) == multiset(list) && CanonicalOrder(SortByName(list))
    decreases |list|
  {
    if list == [] {
    } else {
      var tail := list[1..];
      assert list == [list[0]] + tail;
      SortByNameSorts(tail);
      MultisetMembers(SortByName(tail), tail);
      var sorted := SortByName(tail);
      assert forall k | 0 <= k < |sorted| :: sorted[k] in tail;
      InsertByNameSorts(list[0], sorted);
    }
  }

  /** Copies of an offer are negotiated as the offer itself is. */
  lemma {:induction false} CopyNegotiates(registry: Registry, offer: Offer, copy: Offer)
    requires copy.name == offer.name && multiset(copy.versions) == multiset(offer.versions)
    ensures Unsupported(registry, offer) <==> Unsupported(registry, copy)
    ensures forall choice :: Chosen(registry, offer, choice) <==> Chosen(registry, copy, choice)
  {
    MultisetMembers(copy.versions, offer.versions);
    var server := Supported(registry, offer.name);
    assert forall v: u16 :: Common(v, offer.versions, server) <==> Common(v, copy.versions, server);
  }

  /** The negotiation loop; it stops at a required offer without a common version. */
  method Select(registry: Registry, offers: seq<Offer>, copies: seq<Offer>)
    returns (ok: bool, accepted: seq<Negotiated>)
    requires forall name | name in registry :: Ascending(registry[name])
    requires DistinctNames(offers) && Copied(offers, copies)
    ensures ok ==> Selection(registry, offers, accepted) && DistinctChoices(accepted)
    ensures ok ==> forall offer | offer in offers && offer.required :: !Unsupported(registry, offer)
    ensures !ok ==> exists offer :: offer in offers && offer.required && Unsupported(registry, offer)
  {
    accepted := [];
    var i := 0;
    while i < |offers|
      invariant 0 <= i <= |offers|
      invariant Selection(registry, offers[..i], accepted) && DistinctChoices(accepted)
      invariant forall offer | offer in offers[..i] && offer.required :: !Unsupported(registry, offer)
    {
      var offer := copies[i];
      CopyNegotiates(registry, offers[i], offer);
      assert offers[..i + 1] == offers[..i] + [offers[i]];
      var version, common := HighestCommonVersion(offer.versions, Supported(registry, offer.name));
      if common {
        var choice := Negotiated(offer.name, version);
        assert Chosen(registry, offers[i], choice) by { assert Chosen(registry, offer, choice); }
        FreshName(registry, offers, i, accepted);
        ExtendSelection(registry, offers[..i], offers[i], accepted, [choice]);
        assert !Unsupported(registry, offers[i]) by {
          assert Common(version, offers[i].versions, Supported(registry, offers[i].name));
        }
        accepted := accepted + [choice];
      } else {
        if offer.required {
          assert offers[i] in offers && offers[i].required && Unsupported(registry, offers[i]);
          return false, [];
        }
        ExtendSelection(registry, offers[..i], offers[i], accepted, []);
        assert accepted + [] == accepted;
      }
      i := i + 1;
    }
    assert offers[..i] == offers;
    return true, accepted;
  }

  method Negotiate(registry: Registry, offers: seq<Offer>, limits: Limits) returns (r: Result<seq<Negotiated>>)
    requires forall name | name in registry :: Ascending(registry[name])
    ensures Negotiation(registry, offers, limits, r)
  {
    var copies := ValidateAndCopyOffers(offers, limits);
    if copies.Failure? {
      return Failure(copies.error);
    }
    var ok, accepted := Select(registry, offers, copies.value);
    if !ok {
      return Failure(UnsupportedFeature);
    }
    SortByNameSorts(accepted);
    var sorted := SortByName(accepted);
    MultisetMembers(sorted, accepted);
    var shaped := ValidateNegotiated(sorted, limits);
    NegotiatedIsAccepted(registry, offers, limits, sorted);
    assert shaped;  // the constructor of the Session capabilities never refuses a negotiated list
    return Success(sorted);
  }

  lemma {:induction false} FreshName(registry: Registry, offers: seq<Offer>, i: nat, accepted: seq<Negotiated>)
    requires i < |offers| && DistinctNames(offers) && Selection(registry, offers[..i], accepted)
    ensures forall c | c in accepted :: c.name != offers[i].name
  {
    forall c | c in accepted
      ensures c.name != offers[i].name
    {
      var o :| o in offers[..i] && Chosen(registry, o, c);
      var k :| 0 <= k < i && offers[k] == o;
      assert offers[k].name != offers[i].name;
    }
  }

  lemma {:induction false} ChosenUnique(registry: Registry, offer: Offer, x: Negotiated, y: Negotiated)
    requires Chosen(registry, offer, x) && Chosen(registry, offer, y)
    ensures x == y
  {
  }

  lemma {:induction false} ExtendSelection(registry: Registry, offers: seq<Offer>, offer: Offer,
                                           accepted: seq<Negotiated>, more: seq<Negotiated>)
    requires Selection(registry, offers, accepted)
    requires if more == [] then Unsupported(registry, offer) else |more| == 1 && Chosen(registry, offer, more[0])
    ensures Selection(registry, offers + [offer], accepted + more)
  {
    forall choice: Negotiated
      ensures choice in accepted + more <==> IsChoice(registry, offers + [offer], choice)
    {
      if choice in accepted {
        var o :| o in offers && Chosen(registry, o, choice);
        assert o in offers + [offer];
      } else if choice in more {
        assert offer in offers + [offer];
      } else if IsChoice(registry, offers + [offer], choice) {
        var o :| o in offers + [offer] && Chosen(registry, o, choice);
        if o in offers {
          assert IsChoice(registry, offers, choice);
          assert false;
        } else {
          assert Common(choice.version, offer.versions, Supported(registry, offer.name));
          ChosenUnique(registry, offer, choice, more[0]);
          assert false;
        }
      }
    }
  }

  // ---------------------------------------------------------------- the client's check

  predicate Offered(offers: seq<Offer>, choice: Negotiated)
  {
    exists offer | offer in offers :: offer.name == choice.name && choice.version in offer.versions
  }

  predicate Answered(accepted: seq<Negotiated>, offer: Offer)
  {
    exists choice | choice in accepted :: choice.name == offer.name
  }

  /** The client's verdict on the list in a NEW WELCOME. */
  function CheckAccepted(offers: seq<Offer>, accepted: seq<Negotiated>, limits: Limits): Option<Error>
  {
    if !ValidOffers(offers, limits) || !ValidNegotiated(accepted, limits) then Some(InvalidCapability)
    else if (exists choice | choice in accepted :: !Offered(offers, choice))
         || (exists offer | offer in offers :: offer.required && !Answered(accepted, offer))
         then Some(ProtocolViolation)
    else None
  }

  /** Binary search in an ascending list. */
  method ContainsVersion(versions: seq<u16>, target: u16) returns (found: bool)
    requires Ascending(versions)
    ensures found <==> target in versions
  {
    var lo, hi := 0, |versions|;
    while lo < hi
      invariant 0 <= lo <= hi <= |versions|
      invariant forall k | 0 <= k < lo :: versions[k] < target
      invariant forall k | hi <= k < |versions| :: versions[k] >= target
    {
      var mid := (lo + hi) / 2;
      if versions[mid] >= target {
        hi := mid;
      } else {
        lo := mid + 1;
      }
    }
    return lo < |versions| && versions[lo] == target;
  }

  /** Name by name in canonical order; a repeated name is also out of order. */
  lemma {:induction false} OneMoreInOrder(list: seq<Negotiated>, i: nat)
    requires i < |list| && CanonicalOrder(list[..i]) && (i > 0 ==> Text.Less(list[i - 1].name, list[i].name))
    ensures CanonicalOrder(list[..i + 1])
  {
    forall k | 0 <= k < i
      ensures Text.Less(list[k].name, list[i].name)
    {
      if k < i - 1 {
        assert list[..i][k] == list[k] && list[..i][i - 1] == list[i - 1];
        Text.LessTransitive(list[k].name, list[i - 1].name, list[i].name);
      }
    }
    assert list[..i + 1] == list[..i] + [list[i]];
  }

  method ValidateNegotiated(list: seq<Negotiated>, limits: Limits) returns (ok: bool)
    ensures ok <==> ValidNegotiated(list, limits)
  {
    if |list| > limits.maxCapabilities {
      return false;
    }
    var seen: set<string> := {};
    var i := 0;
    while i < |list|
      invariant 0 <= i <= |list|
      invariant CanonicalOrder(list[..i])
      invariant forall k | 0 <= k < i :: ValidName(list[k].name, limits) && list[k].version != 0
      invariant seen == set k | 0 <= k < i :: list[k].name
    {
      var named := ValidateName(list[i].name, limits);
      if !named || list[i].version == 0 {
        return false;
      }
      if list[i].name in seen {
        var k :| 0 <= k < i && list[k].name == list[i].name;
        Text.LessTotal(list[k].name, list[i].name);
        return false;
      }
      if i > 0 && !Text.Less(list[i - 1].name, list[i].name) {
        return false;
      }
      OneMoreInOrder(list, i);
      seen := seen + {list[i].name};
      i := i + 1;
    }
    assert list[..i] == list;
    return true;
  }

  /** The copies indexed by name. */
  method IndexByName(offers: seq<Offer>, copies: seq<Offer>) returns (byName: map<string, Offer>)
    requires DistinctNames(offers) && Copied(offers, copies)
    ensures forall k | 0 <= k < |offers| :: offers[k].name in byName && byName[offers[k].name] == copies[k]
    ensures forall name | name in byName :: exists k :: 0 <= k < |offers| && offers[k].name == name
  {
    byName := map[];
    var i := 0;
    while i < |offers|
      invariant 0 <= i <= |offers|
      invariant forall k | 0 <= k < i :: offers[k].name in byName && byName[offers[k].name] == copies[k]
      invariant forall name | name in byName :: exists k :: 0 <= k < i && offers[k].name == name
    {
      byName := byName[copies[i].name := copies[i]];
      i := i + 1;
    }
  }

  /** The first loop: was every accepted version offered? */
  method AllOffered(offers: seq<Offer>, copies: seq<Offer>, accepted: seq<Negotiated>)
    returns (ok: bool, names: set<string>)
    requires DistinctNames(offers) && Copied(offers, copies)
    ensures ok <==> forall choice | choice in accepted :: Offered(offers, choice)
    ensures ok ==> forall name :: name in names <==> exists choice :: choice in accepted && choice.name == name
  {
    var byName := IndexByName(offers, copies);
    names := {};
    var i := 0;
    while i < |accepted|
      invariant 0 <= i <= |accepted|
      invariant forall choice | choice in accepted[..i] :: Offered(offers, choice)
      invariant names == Members(ChosenNames(accepted[..i]))
    {
      var choice := accepted[i];
      assert accepted[..i + 1] == accepted[..i] + [choice];
      var matched := WasOffered(offers, copies, byName, choice);
      if !matched {
        assert choice in accepted && !Offered(offers, choice);
        return false, {};
      }
      NamesAppend(accepted[..i], choice);
      names := names + {choice.name};
      i := i + 1;
    }
    assert accepted[..i] == accepted;
    NamesAreChosen(accepted);
    return true, names;
  }

  /** One lookup of the first loop. */
  method WasOffered(offers: seq<Offer>, copies: seq<Offer>, byName: map<string, Offer>, choice: Negotiated)
    returns (matched: bool)
    requires DistinctNames(offers) && Copied(offers, copies)
    requires forall k | 0 <= k < |offers| :: offers[k].name in byName && byName[offers[k].name] == copies[k]
    requires forall name | name in byName :: exists k :: 0 <= k < |offers| && offers[k].name == name
    ensures matched <==> Offered(offers, choice)
  {
    if choice.name !in byName {
      return false;
    }
    ghost var k :| 0 <= k < |offers| && offers[k].name == choice.name;
    MultisetMembers(copies[k].versions, offers[k].versions);
    UniqueOffer(offers, k, choice);
    matched := ContainsVersion(byName[choice.name].versions, choice.version);
  }

  lemma {:induction false} NamesAppend(accepted: seq<Negotiated>, choice: Negotiated)
    ensures Members(ChosenNames(accepted + [choice])) == Members(ChosenNames(accepted)) + {choice.name}
  {
    assert ChosenNames(accepted + [choice]) == ChosenNames(accepted) + [choice.name];
  }

  lemma {:induction false} NamesAreChosen(accepted: seq<Negotiated>)
    ensures forall name :: name in Members(ChosenNames(accepted)) <==> exists choice ::
            choice in accepted && choice.name == name
  {
    var names := ChosenNames(accepted);
    forall name
      ensures name in Members(names) <==> exists choice :: choice in accepted && choice.name == name
    {
      if name in names {
        var i :| 0 <= i < |names| && names[i] == name;
        assert accepted[i] in accepted;
      }
      if choice :| choice in accepted && choice.name == name {
        var i :| 0 <= i < |accepted| && accepted[i] == choice;
        assert names[i] == name;
      }
    }
  }

  /** Every accepted version was offered, and every required offer was accepted. */
  method ValidateAgainstOffers(offers: seq<Offer>, accepted: seq<Negotiated>, limits: Limits) returns (r: Option<Error>)
    ensures r == CheckAccepted(offers, accepted, limits)
  {
    var copies := ValidateAndCopyOffers(offers, limits);
    if copies.Failure? {
      return Some(InvalidCapability);
    }
    var shaped := ValidateNegotiated(accepted, limits);
    if !shaped {
      return Some(InvalidCapability);
    }
    var offered, names := AllOffered(offers, copies.value, accepted);
    if !offered {
      return Some(ProtocolViolation);
    }
    var i := 0;
    while i < |offers|
      invariant 0 <= i <= |offers|
      invariant forall offer | offer in offers[..i] && offer.required :: Answered(accepted, offer)
    {
      assert offers[..i + 1] == offers[..i] + [offers[i]];
      if copies.value[i].required && copies.value[i].name !in names {
        assert offers[i] in offers && !Answered(accepted, offers[i]);
        return Some(ProtocolViolation);
      }
      i := i + 1;
    }
    assert offers[..i] == offers;
    return None;
  }

  /** With distinct names, only the offer of that name can answer for a choice. */
  lemma {:induction false} UniqueOffer(offers: seq<Offer>, k: nat, choice: Negotiated)
    requires k < |offers| && DistinctNames(offers) && offers[k].name == choice.name
    ensures Offered(offers, choice) <==> choice.version in offers[k].versions
  {
    assert offers[k] in offers;
    if Offered(offers, choice) {
      var offer :| offer in offers && offer.name == choice.name && choice.version in offer.versions;
      var i :| 0 <= i < |offers| && offers[i] == offer;
    }
  }

  // ---------------------------------------------------------------- what negotiation guarantees

  /** Whatever a server negotiates, a client with the same limits accepts. */
  lemma {:induction false} NegotiatedIsAccepted(registry: Registry, offers: seq<Offer>, limits: Limits,
                                                accepted: seq<Negotiated>)
    requires Negotiation(registry, offers, limits, Success(accepted))
    ensures CheckAccepted(offers, accepted, limits) == None
  {
    forall choice | choice in accepted
      ensures Offered(offers, choice) && choice.version != 0 && ValidName(choice.name, limits)
    {
      var offer :| offer in offers && Chosen(registry, offer, choice);
    }
    forall offer | offer in offers && offer.required
      ensures Answered(accepted, offer)
    {
      var choice := SupportedIsChosen(registry, offer);
      assert IsChoice(registry, offers, choice);
    }
    NoMoreChoicesThanOffers(registry, offers, accepted);
  }

  function OfferNames(offers: seq<Offer>): seq<string>
  {
    seq(|offers|, i requires 0 <= i < |offers| => offers[i].name)
  }

  function ChosenNames(accepted: seq<Negotiated>): seq<string>
  {
    seq(|accepted|, i requires 0 <= i < |accepted| => accepted[i].name)
  }

  lemma {:induction false} ChosenWereOffered(registry: Registry, offers: seq<Offer>, accepted: seq<Negotiated>)
    requires Selection(registry, offers, accepted)
    ensures Members(ChosenNames(accepted)) <= Members(OfferNames(offers))
  {
    var chosen, offered := ChosenNames(accepted), OfferNames(offers);
    forall name | name in Members(chosen)
      ensures name in Members(offered)
    {
      var i :| 0 <= i < |chosen| && chosen[i] == name;
      assert accepted[i] in accepted;
      var offer :| offer in offers && Chosen(registry, offer, accepted[i]);
      var j :| 0 <= j < |offers| && offers[j] == offer;
      assert offered[j] == name;
    }
  }

  lemma {:induction false} CanonicalNamesDistinct(accepted: seq<Negotiated>)
    requires CanonicalOrder(accepted)
    ensures Distinct(ChosenNames(accepted))
  {
    var chosen := ChosenNames(accepted);
    forall i, j | 0 <= i < j < |chosen|
      ensures chosen[i] != chosen[j]
    {
      assert Text.Less(accepted[i].name, accepted[j].name);
      Text.LessTotal(chosen[i], chosen[j]);
    }
  }

  lemma {:induction false} SubsetNotLarger<T>(a: set<T>, b: set<T>)
    requires a <= b
    ensures |a| <= |b|
  {
    assert b == a + (b - a);
  }

  lemma {:induction false} NoMoreChoicesThanOffers(registry: Registry, offers: seq<Offer>, accepted: seq<Negotiated>)
    requires CanonicalOrder(accepted) && Selection(registry, offers, accepted)
    ensures |accepted| <= |offers|
  {
    var chosen, offered := ChosenNames(accepted), OfferNames(offers);
    CanonicalNamesDistinct(accepted);
    ChosenWereOffered(registry, offers, accepted);
    DistinctByCount(chosen);
    DistinctByCount(offered);
    SubsetNotLarger(Members(chosen), Members(offered));
  }

  /** `b` lists the offers of `a` in another order, each with its versions in another order;
      `p` and `q` are the rearrangement and its inverse. */
  ghost predicate Reordered(a: seq<Offer>, b: seq<Offer>, p: seq<nat>, q: seq<nat>)
  {
    && |a| == |b| == |p| == |q|
    && (forall i | 0 <= i < |p| :: p[i] < |p| && q[p[i]] == i)
    && (forall i | 0 <= i < |q| :: q[i] < |q| && p[q[i]] == i)
    && (forall i | 0 <= i < |b| ::
          && b[i].name == a[p[i]].name && b[i].required == a[p[i]].required
          && multiset(b[i].versions) == multiset(a[p[i]].versions))
  }

  lemma {:induction false} ReorderedInverse(a: seq<Offer>, b: seq<Offer>, p: seq<nat>, q: seq<nat>)
    requires Reordered(a, b, p, q)
    ensures Reordered(b, a, q, p)
  {
    forall i | 0 <= i < |a|
      ensures a[i].name == b[q[i]].name && a[i].required == b[q[i]].required
      ensures multiset(a[i].versions) == multiset(b[q[i]].versions)
    {
      assert p[q[i]] == i;
    }
  }

  lemma {:induction false} ReorderedValid(a: seq<Offer>, b: seq<Offer>, p: seq<nat>, q: seq<nat>, limits: Limits)
    requires Reordered(a, b, p, q) && ValidOffers(a, limits)
    ensures ValidOffers(b, limits)
  {
    forall i | 0 <= i < |b|
      ensures ValidName(b[i].name, limits) && ValidVersions(b[i].versions, limits)
    {
      RearrangedDistinct(b[i].versions, a[p[i]].versions);
      MultisetMembers(b[i].versions, a[p[i]].versions);
    }
    forall i, j | 0 <= i < j < |b|
      ensures b[i].name != b[j].name
    {
      assert q[p[i]] == i && q[p[j]] == j;
      assert p[i] < p[j] || p[j] < p[i];
    }
  }

  lemma {:induction false} ReorderedChoice(registry: Registry, a: seq<Offer>, b: seq<Offer>, p: seq<nat>, q: seq<nat>,
                                           choice: Negotiated)
    requires Reordered(a, b, p, q) && IsChoice(registry, a, choice)
    ensures IsChoice(registry, b, choice)
  {
    var offer :| offer in a && Chosen(registry, offer, choice);
    var k :| 0 <= k < |a| && a[k] == offer;
    assert p[q[k]] == k;
    CopyNegotiates(registry, offer, b[q[k]]);
    assert b[q[k]] in b;
  }

  lemma {:induction false} ReorderedSelection(registry: Registry, a: seq<Offer>, b: seq<Offer>, p: seq<nat>,
                                              q: seq<nat>, accepted: seq<Negotiated>)
    requires Reordered(a, b, p, q) && Selection(registry, a, accepted)
    ensures Selection(registry, b, accepted)
  {
    ReorderedInverse(a, b, p, q);
    forall choice: Negotiated
      ensures choice in accepted <==> IsChoice(registry, b, choice)
    {
      if IsChoice(registry, a, choice) { ReorderedChoice(registry, a, b, p, q, choice); }
      if IsChoice(registry, b, choice) { ReorderedChoice(registry, b, a, q, p, choice); }
    }
  }

  lemma {:induction false} ReorderedRequired(registry: Registry, a: seq<Offer>, b: seq<Offer>, p: seq<nat>, q: seq<nat>)
    requires Reordered(a, b, p, q)
    requires forall offer | offer in a && offer.required :: !Unsupported(registry, offer)
    ensures forall offer | offer in b && offer.required :: !Unsupported(registry, offer)
  {
    forall offer | offer in b && offer.required
      ensures !Unsupported(registry, offer)
    {
      var k :| 0 <= k < |b| && b[k] == offer;
      CopyNegotiates(registry, a[p[k]], offer);
      assert a[p[k]] in a;
    }
  }

  lemma {:induction false} CanonicalHead(x: seq<Negotiated>, y: seq<Negotiated>)
    requires CanonicalOrder(x) && CanonicalOrder(y) && x != [] && y != []
    requires x[0] in y && y[0] in x
    ensures x[0] == y[0]
  {
    CanonicalFirst(x, y[0]);
    CanonicalFirst(y, x[0]);
    Text.LessTotal(x[0].name, y[0].name);
  }

  lemma {:induction false} CanonicalFirst(list: seq<Negotiated>, choice: Negotiated)
    requires CanonicalOrder(list) && choice in list
    ensures choice == list[0] || Text.Less(list[0].name, choice.name)
  {
    var i :| 0 <= i < |list| && list[i] == choice;
  }

  lemma {:induction false} HasMember<T>(s: seq<T>)
    ensures s != [] ==> exists x :: x in s
  {
    if s != [] {
      assert s[0] in s;
    }
  }

  /** A set of choices has one canonical arrangement. */
  lemma {:induction false} CanonicalUnique(x: seq<Negotiated>, y: seq<Negotiated>)
    requires CanonicalOrder(x) && CanonicalOrder(y)
    requires (forall c | c in x :: c in y) && (forall c | c in y :: c in x)
    ensures x == y
    decreases |x|
  {
    if x == [] {
      HasMember(y);
    } else {
      assert x[0] in y && y != [];
      assert y[0] in x;
      CanonicalHead(x, y);
      var tx, ty := x[1..], y[1..];
      forall c | c in tx
        ensures c in ty
      {
        TailMember(x, y, c);
      }
      forall c | c in ty
        ensures c in tx
      {
        TailMember(y, x, c);
      }
      CanonicalUnique(tx, ty);
      assert x == [x[0]] + tx && y == [y[0]] + ty;
    }
  }

  lemma {:induction false} TailMember(x: seq<Negotiated>, y: seq<Negotiated>, c: Negotiated)
    requires CanonicalOrder(x) && x != [] && y != [] && x[0] == y[0]
    requires c in x[1..] && (forall d | d in x :: d in y)
    ensures c in y[1..]
  {
    var i :| 0 < i < |x| && x[i] == c;
    assert Text.Less(x[0].name, c.name);
    Text.LessTotal(c.name, c.name);
    assert c != y[0];
    assert c in y;
    var k :| 0 <= k < |y| && y[k] == c;
    assert y[1..][k - 1] == c;
  }

  /** Neither the order of the offers nor the order of the versions inside an offer matters:
      a reordered HELLO succeeds exactly when the original does, with the same accepted list. */
  lemma {:induction false} NegotiationIgnoresOrder(registry: Registry, a: seq<Offer>, b: seq<Offer>, p: seq<nat>,
                                                   q: seq<nat>,
                                limits: Limits, x: Result<seq<Negotiated>>, y: Result<seq<Negotiated>>)
    requires Reordered(a, b, p, q)
    requires Negotiation(registry, a, limits, x) && Negotiation(registry, b, limits, y)
    ensures x.Success? <==> y.Success?
    ensures x == y
  {
    ReorderedInverse(a, b, p, q);
    if ValidOffers(a, limits) { ReorderedValid(a, b, p, q, limits); }
    if ValidOffers(b, limits) { ReorderedValid(b, a, q, p, limits); }
    if x.Success? { ReorderedRequired(registry, a, b, p, q); }
    if y.Success? { ReorderedRequired(registry, b, a, q, p); }
    if x.Success? && y.Success? {
      ReorderedSelection(registry, b, a, q, p, y.value);
      CanonicalUnique(x.value, y.value);
    }
  }
}
