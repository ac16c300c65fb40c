/** Strings in the byte order Go compares them by, and the in-place insertion sort of client.go.
    A model string stands for a Go byte string, one character per byte. */
module Text {

  /** Go's `a < b` on strings. */
  predicate Less(a: string, b: string)
  {
    b != [] && (a == [] || a[0] < b[0] || (a[0] == b[0] && Less(a[1..], b[1..])))
  }

  lemma {:induction false} LessTransitive(a: string, b: string, c: string)
    requires Less(a, b) && Less(b, c)
    ensures Less(a, c)
  {
    if a != [] && a[0] == b[0] && b[0] == c[0] {
      LessTransitive(a[1..], b[1..], c[1..]);
    }
  }

  lemma {:induction false} LessTotal(a: string, b: string)
    ensures !Less(a, a)
    ensures a == b || Less(a, b) || Less(b, a)
    ensures !(Less(a, b) && Less(b, a))
  {
    if a != [] && b != [] && a[0] == b[0] {
      LessTotal(a[1..], b[1..]);
      assert a == [a[0]] + a[1..] && b == [b[0]] + b[1..];
    }
    if a == [] {
    } else {
      LessTotal(a[1..], a[1..]);
    }
  }

  lemma {:induction false} NotLessTransitive(a: string, b: string, c: string)
    requires !Less(b, a) && !Less(c, b)
    ensures !Less(c, a)
  {
    LessTotal(a, b);
    LessTotal(b, c);
    if Less(c, a) {
      if a == b || b == c {
        assert false;
      } else {
        LessTransitive(c, a, b);
        assert false;
      }
    }
  }

  predicate Sorted(s: seq<string>)
  {
    forall i, j | 0 <= i < j < |s| :: !Less(s[j], s[i])
  }

  /** Canonical order without repetition, as the wire format requires of namespace lists. */
  predicate StrictlySorted(s: seq<string>)
  {
    forall i, j | 0 <= i < j < |s| :: Less(s[i], s[j])
  }

  lemma {:induction false} SortedHead(a: seq<string>, x: string)
    requires Sorted(a) && x in a
    ensures !Less(x, a[0])
  {
    var i :| 0 <= i < |a| && a[i] == x;
    LessTotal(x, x);
    assert i == 0 || !Less(a[i], a[0]);
  }

  /** The sorted arrangement of a multiset of strings is unique, so sorting is canonical:
      the order in which a caller listed the strings cannot show. */
  lemma {:induction false} SortedUnique(a: seq<string>, b: seq<string>)
    requires Sorted(a) && Sorted(b) && multiset(a) == multiset(b)
    ensures a == b
    decreases |a|
  {
    assert |a| == |multiset(a)| == |multiset(b)| == |b|;
    if a == [] {
    } else {
      assert a[0] in multiset(b) && b[0] in multiset(a);
      SortedHead(a, b[0]);
      SortedHead(b, a[0]);
      LessTotal(a[0], b[0]);
      assert a == [a[0]] + a[1..] && b == [b[0]] + b[1..];
      TailMembers(a);
      TailMembers(b);
      SortedUnique(a[1..], b[1..]);
    }
  }

  lemma {:induction false} TailMembers(a: seq<string>)
    requires a != [] && Sorted(a)
    ensures multiset(a[1..]) == multiset(a) - multiset{a[0]} && Sorted(a[1..])
  {
    assert a == [a[0]] + a[1..];
  }

  /** Everything up to and including `i` is ordered, except that the element at `j`
      has not yet been compared with its predecessors. */
  ghost predicate SortedBut(s: seq<string>, j: nat, i: nat)
    requires j <= i < |s|
  {
    && (forall p, q | 0 <= p < q <= i && q != j :: !Less(s[q], s[p]))
  }

  lemma {:induction false} SettledIsSorted(s: seq<string>, j: nat, i: nat)
    requires j <= i < |s| && SortedBut(s, j, i)
    requires j == 0 || !Less(s[j], s[j - 1])
    ensures Sorted(s[..i + 1])
  {
    forall p, q | 0 <= p < q <= i
      ensures !Less(s[q], s[p])
    {
      if q == j && p < j - 1 {
        NotLessTransitive(s[p], s[j - 1], s[j]);
      }
    }
  }

  lemma {:induction false} SwapKeepsSortedBut(s: seq<string>, t: seq<string>, j: nat, i: nat)
    requires 0 < j <= i < |s| && SortedBut(s, j, i) && Less(s[j], s[j - 1])
    requires t == s[j := s[j - 1]][j - 1 := s[j]]
    ensures SortedBut(t, j - 1, i)
    ensures multiset(t) == multiset(s)
  {
    LessTotal(s[j], s[j - 1]);
    forall p, q | 0 <= p < q <= i && q != j - 1
      ensures !Less(t[q], t[p])
    {
      if q == j && p == j - 1 {
        assert t[q] == s[j - 1] && t[p] == s[j];
      } else if q == j {
        assert t[q] == s[j - 1] && t[p] == s[p];
      } else if p == j {
        assert t[q] == s[q] && t[p] == s[j - 1];
      } else if p == j - 1 {
        assert t[q] == s[q] && t[p] == s[j];
      }
    }
  }

  /** Insertion sort by adjacent swaps, in place. */
  method SortStrings(values: array<string>)
    modifies values
    ensures Sorted(values[..])
    ensures multiset(values[..]) == multiset(old(values[..]))
  {
    if values.Length == 0 { return; }
    var i := 1;
    while i < values.Length
      invariant 1 <= i <= values.Length
      invariant Sorted(values[..i])
      invariant multiset(values[..]) == multiset(old(values[..]))
    {
      var j := i;
      while j > 0 && Less(values[j], values[j - 1])
        invariant 0 <= j <= i
        invariant SortedBut(values[..], j, i)
        invariant multiset(values[..]) == multiset(old(values[..]))
      {
        ghost var before := values[..];
        values[j], values[j - 1] := values[j - 1], values[j];
        SwapKeepsSortedBut(before, values[..], j, i);
        j := j - 1;
      }
      SettledIsSorted(values[..], j, i);
      assert values[..][..i + 1] == values[..i + 1];
      i := i + 1;
    }
    assert values[..values.Length] == values[..];
  }

  function Insert(x: string, sorted: seq<string>): seq<string>
  {
    if sorted == [] || !Less(sorted[0], x) then [x] + sorted else [sorted[0]] + Insert(x, sorted[1..])
  }

  /** The canonical arrangement of a list of strings. */
  function SortedCopy(s: seq<string>): seq<string>
  {
    if s == [] then [] else Insert(s[0], SortedCopy(s[1..]))
  }

  lemma {:induction false} InsertSorts(x: string, sorted: seq<string>)
    requires Sorted(sorted)
    ensures Sorted(Insert(x, sorted)) && multiset(Insert(x, sorted)) == multiset{x} + multiset(sorted)
    decreases |sorted|
  {
    if sorted == [] {
    } else {
      var head, tail := sorted[0], sorted[1..];
      assert sorted == [head] + tail;
      if Less(head, x) {
        InsertSorts(x, tail);
        var rest := Insert(x, tail);
        LessTotal(head, x);
        forall k | 0 <= k < |rest|
          ensures !Less(rest[k], head)
        {
          assert rest[k] in multiset(rest);
          assert rest[k] == x || rest[k] in tail;
        }
      } else {
        forall k | 0 < k < |sorted|
          ensures !Less(sorted[k], x)
        {
          NotLessTransitive(x, head, sorted[k]);
        }
      }
    }
  }

  lemma {:induction false} SortedCopySorts(s: seq<string>)
    ensures Sorted(SortedCopy(s)) && multiset(SortedCopy(s)) == multiset(s)
    decreases |s|
  {
    if s == [] {
    } else {
      assert s == [s[0]] + s[1..];
      SortedCopySorts(s[1..]);
      InsertSorts(s[0], SortedCopy(s[1..]));
    }
  }

  /** Copies the list into a buffer and sorts it there. */
  method Canonicalize(values: seq<string>) returns (sorted: seq<string>)
    ensures sorted == SortedCopy(values)
  {
    var buffer := new string[|values|](i requires 0 <= i < |values| => values[i]);
    assert buffer[..] == values;
    SortStrings(buffer);
    sorted := buffer[..];
    SortedCopySorts(values);
    SortedUnique(sorted, SortedCopy(values));
  }

  // ---------------------------------------------------------------- the elements of a set in order

  predicate Least(x: string, keys: set<string>)
  {
    x in keys && forall other | other in keys :: other == x || Less(x, other)
  }

  lemma {:induction false} LeastExists(keys: set<string>)
    requires keys != {}
    ensures exists x :: Least(x, keys)
    decreases |keys|
  {
    var some :| some in keys;
    var rest := keys - {some};
    if rest == {} {
      assert keys == {some};
      assert Least(some, keys);
    } else {
      LeastExists(rest);
      var x :| Least(x, rest);
      LessTotal(some, x);
      if Less(x, some) {
        assert Least(x, keys);
      } else {
        forall other | other in rest && other != x
          ensures Less(some, other)
        {
          LessTransitive(some, x, other);
        }
        assert Least(some, keys);
      }
    }
  }

  lemma {:induction false} LeastUnique(keys: set<string>)
    ensures forall a, b | Least(a, keys) && Least(b, keys) :: a == b
  {
    forall a, b | Least(a, keys) && Least(b, keys)
      ensures a == b
    {
      LessTotal(a, b);
    }
  }

  /** `ids` is the set `keys` in ascending order. */
  predicate Lists(ids: seq<string>, keys: set<string>)
  {
    StrictlySorted(ids) && (forall id | id in ids :: id in keys) && (forall id | id in keys :: id in ids)
  }

  function Ordered(keys: set<string>): (ids: seq<string>)
    ensures Lists(ids, keys)
    decreases |keys|
  {
    if keys == {} then []
    else
      LeastExists(keys);
      LeastUnique(keys);
      var x :| Least(x, keys);
      var rest := Ordered(keys - {x});
      LeastFirst(x, rest, keys);
      [x] + rest
  }

  lemma {:induction false} LeastFirst(x: string, rest: seq<string>, keys: set<string>)
    requires Least(x, keys) && Lists(rest, keys - {x})
    ensures Lists([x] + rest, keys)
  {
    var ids := [x] + rest;
    forall i, j | 0 <= i < j < |ids|
      ensures Less(ids[i], ids[j])
    {
      assert ids[j] == rest[j - 1] && rest[j - 1] in rest;
    }
  }

  lemma {:induction false} OrderedOnly(ids: seq<string>, keys: set<string>)
    requires Lists(ids, keys)
    ensures ids == Ordered(keys)
    decreases |ids|
  {
    if ids == [] {
      assert forall id :: id !in keys;
      assert keys == {};
    } else {
      assert ids[0] in ids;
      assert Least(ids[0], keys);
      LeastUnique(keys);
      var rest := keys - {ids[0]};
      forall id | id in ids[1..]
        ensures id in rest
      {
        LessTotal(ids[0], id);
      }
      OrderedOnly(ids[1..], rest);
    }
  }
}
