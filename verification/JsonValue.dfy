/** Semantic equality of decoded JSON documents, as State comparison uses it. */
module JsonValue {
  import opened Wire
  import JsonNumber

  /** What decoding with UseNumber yields: numbers keep their text. */
  datatype Json =
    | Null
    | Bool(flag: bool)
    | Str(text: string)
    | Num(number: string)
    | Arr(items: seq<Json>)
    | Obj(members: map<string, Json>)

  /** Every number in the document follows the JSON grammar, as the decoder guarantees. */
  ghost predicate WellFormed(j: Json)
  {
    match j
    case Num(number) => JsonNumber.IsNumber(number)
    case Arr(items) => forall i | 0 <= i < |items| :: WellFormed(items[i])
    case Obj(members) => forall k | k in members :: WellFormed(members[k])
    case _ => true
  }

  predicate Equal(left: Json, right: Json)
  {
    match left
    case Null => right.Null?
    case Bool(flag) => right.Bool? && flag == right.flag
    case Str(text) => right.Str? && text == right.text
    case Num(number) =>
      right.Num? &&
      var l, r := JsonNumber.Normalize(number), JsonNumber.Normalize(right.number);
      l.Some? && r.Some? && l == r
    case Arr(items) =>
      && right.Arr? && |items| == |right.items|
      && forall i | 0 <= i < |items| :: Equal(items[i], right.items[i])
    case Obj(members) =>
      && right.Obj? && |members| == |right.members|
      && forall k | k in members :: k in right.members && Equal(members[k], right.members[k])
  }

  /** A document with its numbers read as real numbers: what two equal documents have in common. */
  datatype Meaning =
    | Nothing
    | Truth(flag: bool)
    | Words(text: string)
    | Number(value: real)
    | List(items: seq<Meaning>)
    | Record(members: map<string, Meaning>)

  ghost function NumberValue(text: string): real
    requires JsonNumber.IsNumber(text)
  {
    var n :| JsonNumber.WellFormed(n) && text == JsonNumber.Render(n);
    JsonNumber.Value(n)
  }

  ghost function MeaningOf(j: Json): Meaning
    requires WellFormed(j)
  {
    match j
    case Null => Nothing
    case Bool(flag) => Truth(flag)
    case Str(text) => Words(text)
    case Num(number) => Number(NumberValue(number))
    case Arr(items) => List(seq(|items|, i requires 0 <= i < |items| => MeaningOf(items[i])))
    case Obj(members) => Record(map k | k in members :: MeaningOf(members[k]))
  }

  lemma {:induction false} SameNumber(a: string, b: string)
    requires JsonNumber.IsNumber(a) && JsonNumber.IsNumber(b)
    ensures Equal(Num(a), Num(b)) <==> NumberValue(a) == NumberValue(b)
  {
    var n :| JsonNumber.WellFormed(n) && a == JsonNumber.Render(n) && NumberValue(a) == JsonNumber.Value(n);
    var m :| JsonNumber.WellFormed(m) && b == JsonNumber.Render(m) && NumberValue(b) == JsonNumber.Value(m);
    JsonNumber.NormalFormsDecideValue(n, m);
  }

  lemma {:induction false} SameKeys<V, W>(a: map<string, V>, b: map<string, W>)
    requires |a| == |b| && forall k | k in a :: k in b
    ensures a.Keys == b.Keys
  {
    assert a.Keys <= b.Keys && |a.Keys| == |b.Keys|;
    assert b.Keys == a.Keys + (b.Keys - a.Keys);
    assert |b.Keys - a.Keys| == 0;
  }

  /** The comparison decides semantic equality: it accepts exactly the pairs of documents that mean
      the same, nested arrays and objects included. */
  lemma {:induction false} EqualDecidesMeaning(a: Json, b: Json)
    requires WellFormed(a) && WellFormed(b)
    ensures Equal(a, b) <==> MeaningOf(a) == MeaningOf(b)
    decreases a
  {
    match a
    case Num(number) =>
      if b.Num? { SameNumber(number, b.number); }
    case Arr(items) =>
      if b.Arr? && |items| == |b.items| {
        var l, r := MeaningOf(a).items, MeaningOf(b).items;
        forall i | 0 <= i < |items|
          ensures Equal(items[i], b.items[i]) <==> l[i] == r[i]
        {
          EqualDecidesMeaning(items[i], b.items[i]);
        }
        assert (forall i | 0 <= i < |items| :: l[i] == r[i]) <==> l == r;
      } else if b.Arr? {
        assert |MeaningOf(a).items| != |MeaningOf(b).items|;
      }
    case Obj(members) =>
      if b.Obj? { EqualObjects(a, b); }
    case _ =>
  }

  lemma {:induction false} EqualObjects(a: Json, b: Json)
    requires a.Obj? && b.Obj? && WellFormed(a) && WellFormed(b)
    ensures Equal(a, b) <==> MeaningOf(a) == MeaningOf(b)
    decreases a, 0
  {
    var l, r := MeaningOf(a).members, MeaningOf(b).members;
    assert l.Keys == a.members.Keys && r.Keys == b.members.Keys;
    forall k | k in a.members && k in b.members
      ensures Equal(a.members[k], b.members[k]) <==> l[k] == r[k]
    {
      EqualDecidesMeaning(a.members[k], b.members[k]);
    }
    if Equal(a, b) {
      SameKeys(a.members, b.members);
      assert l == r;
    }
    if l == r {
      assert a.members.Keys == b.members.Keys;
      assert |a.members| == |a.members.Keys| && |b.members| == |b.members.Keys|;
      forall k | k in a.members
        ensures k in b.members && Equal(a.members[k], b.members[k])
      {
        assert k in a.members.Keys;
        assert l[k] == r[k];
      }
    }
  }

  /** Hence the comparison is an equivalence relation. */
  lemma {:induction false} EqualIsEquivalence(a: Json, b: Json, c: Json)
    requires WellFormed(a) && WellFormed(b) && WellFormed(c)
    ensures Equal(a, a)
    ensures Equal(a, b) ==> Equal(b, a)
    ensures Equal(a, b) && Equal(b, c) ==> Equal(a, c)
  {
    EqualDecidesMeaning(a, a);
    EqualDecidesMeaning(a, b);
    EqualDecidesMeaning(b, a);
    EqualDecidesMeaning(b, c);
    EqualDecidesMeaning(a, c);
  }

  /** Symmetry needs no well-formedness. */
  lemma {:induction false} EqualSymmetric(a: Json, b: Json)
    requires Equal(a, b)
    ensures Equal(b, a)
    decreases a
  {
    match a
    case Arr(items) =>
      forall i | 0 <= i < |items| ensures Equal(b.items[i], items[i]) { EqualSymmetric(items[i], b.items[i]); }
    case Obj(members) =>
      SameKeys(members, b.members);
      forall k | k in b.members ensures k in members && Equal(b.members[k], members[k]) {
        assert k in members.Keys;
        EqualSymmetric(members[k], b.members[k]);
      }
    case _ =>
  }
}
