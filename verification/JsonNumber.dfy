/** Exact decimal normalisation of JSON numbers (section 6 of RFC 8259), as State
    comparison uses it, against the real number each numeral denotes. */
module JsonNumber {
  import opened Wire

  // ---------------------------------------------------------------- numerals and their value

  predicate Digit(c: char) { '0' <= c <= '9' }

  predicate AllDigits(s: string) { forall i | 0 <= i < |s| :: Digit(s[i]) }

  function DigitValue(c: char): nat
    requires Digit(c)
  {
    (c - '0') as int
  }

  /** The natural number a string of decimal digits stands for; the empty string stands for zero. */
  function NatOf(s: string): nat
    requires AllDigits(s)
  {
    if s == "" then 0 else 10 * NatOf(s[..|s| - 1]) + DigitValue(s[|s| - 1])
  }

  datatype Sign = Unsigned | Plus | Minus

  datatype Exponent = Exponent(marker: char, sign: Sign, digits: string)

  /** The RFC 8259 grammar: optional minus, integer part, optional fraction, optional exponent. */
  datatype Numeral = Numeral(negative: bool, whole: string, fraction: Option<string>, exponent: Option<Exponent>)

  predicate WellFormed(n: Numeral)
  {
    && AllDigits(n.whole) && n.whole != "" && (n.whole[0] == '0' ==> |n.whole| == 1)
    && (n.fraction.Some? ==> AllDigits(n.fraction.value) && n.fraction.value != "")
    && (n.exponent.Some? ==>
          && n.exponent.value.marker in {'e', 'E'}
          && AllDigits(n.exponent.value.digits) && n.exponent.value.digits != "")
  }

  function SignText(s: Sign): string
  {
    match s case Unsigned => "" case Plus => "+" case Minus => "-"
  }

  function FractionText(n: Numeral): string
  {
    if n.fraction.Some? then "." + n.fraction.value else ""
  }

  function ExponentBody(e: Exponent): string
  {
    SignText(e.sign) + e.digits
  }

  function ExponentText(n: Numeral): string
  {
    if n.exponent.Some? then [n.exponent.value.marker] + ExponentBody(n.exponent.value) else ""
  }

  function Render(n: Numeral): string
  {
    (if n.negative then "-" else "") + (n.whole + FractionText(n) + ExponentText(n))
  }

  ghost predicate IsNumber(text: string)
  {
    exists n :: WellFormed(n) && text == Render(n)
  }

  function FractionDigits(n: Numeral): string
  {
    if n.fraction.Some? then n.fraction.value else ""
  }

  function ExponentValue(n: Numeral): int
    requires WellFormed(n)
  {
    if n.exponent.None? then 0
    else if n.exponent.value.sign == Minus then 0 - NatOf(n.exponent.value.digits)
    else NatOf(n.exponent.value.digits)
  }

  /** x * 10^e. */
  ghost function Shift(x: real, e: int): real
    decreases if e < 0 then -e else e
  {
    if e == 0 then x else if e > 0 then Shift(10.0 * x, e - 1) else Shift(x / 10.0, e + 1)
  }

  ghost function Scaled(negative: bool, coefficient: nat, exponent: int): real
  {
    var magnitude := Shift(coefficient as real, exponent);
    if negative then -magnitude else magnitude
  }

  lemma {:induction false} FractionIsDigits(n: Numeral)
    requires WellFormed(n)
    ensures AllDigits(n.whole + FractionDigits(n))
  {
  }

  /** The real number a numeral denotes. */
  ghost function Value(n: Numeral): real
    requires WellFormed(n)
  {
    FractionIsDigits(n);
    Scaled(n.negative, NatOf(n.whole + FractionDigits(n)), ExponentValue(n) - |FractionDigits(n)|)
  }

  // ---------------------------------------------------------------- the normaliser

  datatype Normalized = Normalized(negative: bool, coefficient: string, exponent: string)

  /** strings.IndexAny and strings.IndexByte: the first position holding one of `chars`. */
  function IndexAny(s: string, chars: set<char>): (r: Option<nat>)
    ensures r.Some? ==> r.value < |s| && s[r.value] in chars && forall i | 0 <= i < r.value :: s[i] !in chars
    ensures r.None? ==> forall i | 0 <= i < |s| :: s[i] !in chars
  {
    if s == "" then None
    else if s[0] in chars then Some(0)
    else
      match IndexAny(s[1..], chars)
      case None => None
      case Some(i) => Some(i + 1)
  }

  function TrimLeftZeros(s: string): (r: string)
    ensures |r| <= |s| && r == s[|s| - |r|..]
    ensures forall i | 0 <= i < |s| - |r| :: s[i] == '0'
    ensures r != "" ==> r[0] != '0'
  {
    if s != "" && s[0] == '0' then TrimLeftZeros(s[1..]) else s
  }

  function TrimRightZeros(s: string): (r: string)
    ensures r <= s
    ensures forall i | |r| <= i < |s| :: s[i] == '0'
    ensures r != "" ==> r[|r| - 1] != '0'
  {
    if s != "" && s[|s| - 1] == '0' then TrimRightZeros(s[..|s| - 1]) else s
  }

  /** big.Int.SetString in base ten: an optional sign, then at least one digit. */
  function ParseInt(s: string): Option<int>
  {
    var negative := s != "" && s[0] == '-';
    var digits := if s != "" && (s[0] == '-' || s[0] == '+') then s[1..] else s;
    if digits == "" || !AllDigits(digits) then None
    else Some(if negative then 0 - NatOf(digits) else NatOf(digits))
  }

  function NatText(n: nat): (r: string)
    ensures r != "" && AllDigits(r) && NatOf(r) == n
  {
    var last := ['0' + (n % 10) as char];
    if n < 10 then last else NatText(n / 10) + last
  }

  /** big.Int.String: the canonical decimal text. */
  function IntText(n: int): (r: string)
    ensures ParseInt(r) == Some(n)
  {
    if n < 0 then "-" + NatText(-n) else NatText(n)
  }

  /** The exponent text, and what precedes the exponent marker. */
  function SplitExponent(text: string): (string, string)
  {
    match IndexAny(text, {'e', 'E'})
    case None => (text, "0")
    case Some(i) => (text[..i], text[i + 1..])
  }

  /** The digits with the decimal point removed, and how many of them followed the point. */
  function SplitFraction(text: string): (string, nat)
  {
    match IndexAny(text, {'.'})
    case None => (text, 0)
    case Some(i) => (text[..i] + text[i + 1..], |text| - i - 1)
  }

  datatype Decimal = Decimal(negative: bool, coefficient: string, exponent: int)

  const ZERO: Decimal := Decimal(false, "0", 0)

  /** Drops redundant zeros and folds the point and the trailing zeros into the exponent. */
  function Assemble(negative: bool, all: string, fractionDigits: nat, exponent: int): Decimal
  {
    var digits := TrimLeftZeros(all);
    if digits == "" then ZERO else FoldTrailingZeros(negative, digits, exponent - fractionDigits)
  }

  function FoldTrailingZeros(negative: bool, digits: string, exponent: int): Decimal
  {
    var trimmed := TrimRightZeros(digits);
    Decimal(negative, trimmed, exponent + (|digits| - |trimmed|))
  }

  function InText(d: Decimal): Normalized
  {
    Normalized(d.negative, d.coefficient, IntText(d.exponent))
  }

  function NormalizeUnsigned(negative: bool, unsigned: string): Option<Normalized>
  {
    var (mantissa, exponentText) := SplitExponent(unsigned);
    match ParseInt(exponentText)
    case None => None
    case Some(exponent) =>
      var (all, fractionDigits) := SplitFraction(mantissa);
      Some(InText(Assemble(negative, all, fractionDigits, exponent)))
  }

  function Normalize(number: string): Option<Normalized>
  {
    var negative := number != "" && number[0] == '-';
    NormalizeUnsigned(negative, if negative then number[1..] else number)
  }

  // ---------------------------------------------------------------- scaling by powers of ten

  lemma {:induction false} ShiftSign(x: real, e: int)
    ensures x == 0.0 ==> Shift(x, e) == 0.0
    ensures x > 0.0 ==> Shift(x, e) > 0.0
    decreases if e < 0 then -e else e
  {
    if e > 0 {
      ShiftSign(10.0 * x, e - 1);
    } else if e < 0 {
      ShiftSign(x / 10.0, e + 1);
    }
  }

  lemma {:induction false} ShiftInjective(x: real, y: real, e: int)
    requires Shift(x, e) == Shift(y, e)
    ensures x == y
    decreases if e < 0 then -e else e
  {
    if e > 0 {
      ShiftInjective(10.0 * x, 10.0 * y, e - 1);
    } else if e < 0 {
      ShiftInjective(x / 10.0, y / 10.0, e + 1);
    }
  }

  lemma {:induction false} ShiftDigit(m: nat, e: int)
    ensures Shift((10 * m) as real, e) == Shift(m as real, e + 1)
  {
    assert (10 * m) as real == 10.0 * m as real;
  }

  /** Lowering the exponent multiplies the coefficient by a power of ten. */
  lemma {:induction false} LowerExponent(m: nat, e: int, k: nat) returns (lowered: nat)
    ensures Shift(m as real, e + k) == Shift(lowered as real, e)
    ensures k > 0 ==> lowered % 10 == 0
    ensures k == 0 ==> lowered == m
    decreases k
  {
    if k == 0 {
      lowered := m;
    } else {
      ShiftDigit(m, e + k - 1);
      lowered := LowerExponent(10 * m, e, k - 1);
    }
  }

  // ---------------------------------------------------------------- digit strings

  lemma {:induction false} NatOfPositive(s: string)
    requires AllDigits(s) && s != "" && s[0] != '0'
    ensures NatOf(s) > 0
    ensures |s| > 1 ==> NatOf(s) >= 10
  {
    if |s| == 1 {
    } else {
      NatOfPositive(s[..|s| - 1]);
    }
  }

  /** Leading zeros do not count. */
  lemma {:induction false} NatOfTrimLeft(s: string)
    requires AllDigits(s)
    ensures AllDigits(TrimLeftZeros(s)) && NatOf(TrimLeftZeros(s)) == NatOf(s)
    decreases |s|
  {
    if s != "" && s[0] == '0' {
      NatOfTrimLeft(s[1..]);
      NatOfDropZero(s);
    }
  }

  lemma {:induction false} NatOfDropZero(s: string)
    requires AllDigits(s) && s != "" && s[0] == '0'
    ensures NatOf(s[1..]) == NatOf(s)
    decreases |s|
  {
    if |s| == 1 {
    } else {
      NatOfDropZero(s[..|s| - 1]);
      assert s[1..][..|s[1..]| - 1] == s[..|s| - 1][1..];
    }
  }

  /** Each trailing zero is one power of ten. */
  lemma {:induction false} TrailingZeros(s: string, e: int)
    requires AllDigits(s)
    ensures AllDigits(TrimRightZeros(s))
    ensures Shift(NatOf(s) as real, e)
         == Shift(NatOf(TrimRightZeros(s)) as real, e + (|s| - |TrimRightZeros(s)|))
    decreases |s|
  {
    if s != "" && s[|s| - 1] == '0' {
      var t := s[..|s| - 1];
      TrailingZeros(t, e + 1);
      ShiftDigit(NatOf(t), e);
      assert e + 1 + (|t| - |TrimRightZeros(t)|) == e + (|s| - |TrimRightZeros(s)|);
    }
  }

  /** Digit strings without leading zeros are determined by their value. */
  lemma {:induction false} NatOfInjective(a: string, b: string)
    requires AllDigits(a) && AllDigits(b) && a != "" && b != "" && a[0] != '0' && b[0] != '0'
    requires NatOf(a) == NatOf(b)
    ensures a == b
    decreases |a|
  {
    NatOfPositive(a);
    NatOfPositive(b);
    var pa, pb := a[..|a| - 1], b[..|b| - 1];
    var la, lb := a[|a| - 1], b[|b| - 1];
    assert DigitValue(la) == NatOf(a) % 10 && DigitValue(lb) == NatOf(b) % 10;
    assert la == lb;
    assert NatOf(pa) == NatOf(pb);
    if |a| > 1 && |b| > 1 {
      NatOfInjective(pa, pb);
    }
    assert a == pa + [la] && b == pb + [lb];
  }

  lemma {:induction false} LastDigit(s: string)
    requires AllDigits(s) && s != "" && s[|s| - 1] != '0'
    ensures NatOf(s) % 10 != 0
  {
  }

  // ---------------------------------------------------------------- what the normaliser computes

  /** A normal form is zero, or a coefficient without leading or trailing zeros. */
  predicate Canonical(d: Decimal)
  {
    || d == ZERO
    || (&& d.coefficient != "" && AllDigits(d.coefficient)
        && d.coefficient[0] != '0' && d.coefficient[|d.coefficient| - 1] != '0')
  }

  ghost function DecimalValue(d: Decimal): real
    requires Canonical(d)
  {
    if d == ZERO then 0.0 else Scaled(d.negative, NatOf(d.coefficient), d.exponent)
  }

  lemma {:induction false} InTextInjective(a: Decimal, b: Decimal)
    ensures InText(a) == InText(b) ==> a == b
  {
    assert ParseInt(IntText(a.exponent)) == Some(a.exponent);
    assert ParseInt(IntText(b.exponent)) == Some(b.exponent);
  }

  predicate Lacks(s: string, chars: set<char>)
  {
    forall i | 0 <= i < |s| :: s[i] !in chars
  }

  /** The first character looked for, and what lies before and after it. */
  lemma {:induction false} FirstIndex(head: string, c: char, rest: string, chars: set<char>)
    requires Lacks(head, chars) && c in chars
    ensures var text := head + ([c] + rest);
            IndexAny(text, chars) == Some(|head|) && text[..|head|] == head && text[|head| + 1..] == rest
  {
    var text := head + ([c] + rest);
    assert forall i | 0 <= i < |head| :: text[i] == head[i];
    assert text[|head|] == c;
    var found := IndexAny(text, chars);
    assert found.Some? && found.value == |head|;
  }

  lemma {:induction false} NoIndex(text: string, chars: set<char>)
    requires Lacks(text, chars)
    ensures IndexAny(text, chars).None?
  {
  }

  lemma {:induction false} MantissaLacksMarker(n: Numeral)
    requires WellFormed(n)
    ensures Lacks(n.whole + FractionText(n), {'e', 'E'}) && Lacks(n.whole, {'.'})
  {
    hide NatOf;
    assert Lacks(n.whole, {'e', 'E'}) && Lacks(FractionText(n), {'e', 'E'});
  }

  lemma {:induction false} SplitExponentOfRender(n: Numeral)
    requires WellFormed(n)
    ensures SplitExponent(n.whole + FractionText(n) + ExponentText(n))
         == (n.whole + FractionText(n), if n.exponent.Some? then ExponentBody(n.exponent.value) else "0")
  {
    hide IndexAny, Lacks, FractionText, ExponentBody;
    MantissaLacksMarker(n);
    var head := n.whole + FractionText(n);
    if n.exponent.Some? {
      FirstIndex(head, n.exponent.value.marker, ExponentBody(n.exponent.value), {'e', 'E'});
    } else {
      NoIndex(head, {'e', 'E'});
      assert head + ExponentText(n) == head;
    }
  }

  lemma {:induction false} SplitFractionOfRender(n: Numeral)
    requires WellFormed(n)
    ensures SplitFraction(n.whole + FractionText(n)) == (n.whole + FractionDigits(n), |FractionDigits(n)|)
  {
    hide IndexAny, Lacks;
    MantissaLacksMarker(n);
    if n.fraction.Some? {
      FirstIndex(n.whole, '.', n.fraction.value, {'.'});
    } else {
      NoIndex(n.whole, {'.'});
      assert n.whole + FractionText(n) == n.whole && n.whole + FractionDigits(n) == n.whole;
    }
  }

  lemma {:induction false} ParseExponentOfRender(n: Numeral)
    requires WellFormed(n)
    ensures ParseInt(if n.exponent.Some? then ExponentBody(n.exponent.value) else "0") == Some(ExponentValue(n))
  {
    if n.exponent.Some? {
      var e := n.exponent.value;
      var body := ExponentBody(e);
      match e.sign
      case Unsigned => assert body == e.digits;
      case Plus => assert body[0] == '+' && body[1..] == e.digits;
      case Minus => assert body[0] == '-' && body[1..] == e.digits;
    } else {
      assert NatOf("0") == 0;
    }
  }

  lemma {:induction false} UnsignedPart(n: Numeral)
    requires WellFormed(n)
    ensures var text := Render(n);
            && (n.negative <==> text != "" && text[0] == '-')
            && (if n.negative then text[1..] else text) == n.whole + FractionText(n) + ExponentText(n)
  {
    var body := n.whole + FractionText(n) + ExponentText(n);
    assert body[0] == n.whole[0];
    assert n.negative ==> Render(n)[1..] == body;
    assert !n.negative ==> Render(n) == body;
  }

  /** What a numeral denotes, in normal form. */
  function DecimalOf(n: Numeral): Decimal
    requires WellFormed(n)
  {
    Assemble(n.negative, n.whole + FractionDigits(n), |FractionDigits(n)|, ExponentValue(n))
  }

  lemma {:induction false} NormalizeOfRender(n: Numeral)
    requires WellFormed(n)
    ensures Normalize(Render(n)) == Some(InText(DecimalOf(n)))
  {
    UnsignedPart(n);
    SplitExponentOfRender(n);
    ParseExponentOfRender(n);
    SplitFractionOfRender(n);
  }

  lemma {:induction false} TrimmedNonEmpty(digits: string)
    requires digits != "" && digits[0] != '0'
    ensures TrimRightZeros(digits) != "" && TrimRightZeros(digits)[0] == digits[0]
  {
  }

  lemma {:induction false} SameShiftSameScaled(negative: bool, m1: nat, e1: int, m2: nat, e2: int)
    requires Shift(m1 as real, e1) == Shift(m2 as real, e2)
    ensures Scaled(negative, m1, e1) == Scaled(negative, m2, e2)
  {
  }

  lemma {:induction false} ZeroScaled(negative: bool, e: int)
    ensures Scaled(negative, 0, e) == 0.0
  {
    ShiftSign(0.0, e);
  }

  lemma {:induction false} TrimmedKeepsValue(negative: bool, digits: string, exponent: int)
    requires AllDigits(digits) && digits != "" && digits[0] != '0'
    ensures Canonical(FoldTrailingZeros(negative, digits, exponent))
    ensures DecimalValue(FoldTrailingZeros(negative, digits, exponent)) == Scaled(negative, NatOf(digits), exponent)
  {
    hide Shift, Scaled, TrimRightZeros, AllDigits;
    var trimmed := TrimRightZeros(digits);
    TrimmedNonEmpty(digits);
    TrailingZeros(digits, exponent);
    SameShiftSameScaled(negative, NatOf(trimmed), exponent + (|digits| - |trimmed|), NatOf(digits), exponent);
  }

  lemma {:induction false} AssembleKeepsValue(negative: bool, all: string, fractionDigits: nat, exponent: int)
    requires AllDigits(all)
    ensures Canonical(Assemble(negative, all, fractionDigits, exponent))
    ensures DecimalValue(Assemble(negative, all, fractionDigits, exponent))
         == Scaled(negative, NatOf(all), exponent - fractionDigits)
  {
    hide Scaled, FoldTrailingZeros, TrimLeftZeros;
    NatOfTrimLeft(all);
    var digits := TrimLeftZeros(all);
    if digits == "" {
      ZeroScaled(negative, exponent - fractionDigits);
    } else {
      TrimmedKeepsValue(negative, digits, exponent - fractionDigits);
    }
  }

  /** The normal form is canonical and keeps the value. */
  lemma {:induction false} DecimalOfKeepsValue(n: Numeral)
    requires WellFormed(n)
    ensures Canonical(DecimalOf(n)) && DecimalValue(DecimalOf(n)) == Value(n)
  {
    hide Canonical, Assemble, Scaled, NatOf, DecimalValue;
    FractionIsDigits(n);
    AssembleKeepsValue(n.negative, n.whole + FractionDigits(n), |FractionDigits(n)|, ExponentValue(n));
  }

  /** Two coefficients not divisible by ten, scaled, agree only if both parts agree. */
  lemma {:induction false} ScaledInjectiveOrdered(m1: nat, e1: int, m2: nat, e2: int)
    requires m1 % 10 != 0 && m2 % 10 != 0 && e1 <= e2
    requires Shift(m1 as real, e1) == Shift(m2 as real, e2)
    ensures m1 == m2 && e1 == e2
  {
    var lowered := LowerExponent(m2, e1, e2 - e1);
    ShiftInjective(m1 as real, lowered as real, e1);
    assert m1 == lowered;
  }

  lemma {:induction false} SignsAgree(n1: bool, x: real, n2: bool, y: real)
    requires x > 0.0 && y > 0.0
    requires (if n1 then -x else x) == (if n2 then -y else y)
    ensures n1 == n2 && x == y
  {
  }

  lemma {:induction false} ScaledInjective(n1: bool, m1: nat, e1: int, n2: bool, m2: nat, e2: int)
    requires m1 % 10 != 0 && m2 % 10 != 0
    requires Scaled(n1, m1, e1) == Scaled(n2, m2, e2)
    ensures n1 == n2 && m1 == m2 && e1 == e2
  {
    ShiftSign(m1 as real, e1);
    ShiftSign(m2 as real, e2);
    SignsAgree(n1, Shift(m1 as real, e1), n2, Shift(m2 as real, e2));
    if e1 <= e2 {
      ScaledInjectiveOrdered(m1, e1, m2, e2);
    } else {
      ScaledInjectiveOrdered(m2, e2, m1, e1);
    }
  }

  lemma {:induction false} ZeroOnly(a: Decimal)
    requires Canonical(a)
    ensures DecimalValue(a) == 0.0 <==> a == ZERO
  {
    if a != ZERO {
      NatOfPositive(a.coefficient);
      ShiftSign(NatOf(a.coefficient) as real, a.exponent);
    }
  }

  /** A canonical form is determined by its value. */
  lemma {:induction false} CanonicalUnique(a: Decimal, b: Decimal)
    requires Canonical(a) && Canonical(b) && DecimalValue(a) == DecimalValue(b)
    ensures a == b
  {
    ZeroOnly(a);
    ZeroOnly(b);
    if a != ZERO && b != ZERO {
      LastDigit(a.coefficient);
      LastDigit(b.coefficient);
      ScaledInjective(a.negative, NatOf(a.coefficient), a.exponent, b.negative, NatOf(b.coefficient), b.exponent);
      NatOfInjective(a.coefficient, b.coefficient);
    }
  }

  /** Soundness and completeness: the normaliser accepts every JSON number, and two of them have the
      same normal form exactly when they denote the same number, whatever their exponents,
      redundant zeros or sign of zero. */
  lemma {:induction false} NormalFormsDecideValue(a: Numeral, b: Numeral)
    requires WellFormed(a) && WellFormed(b)
    ensures Normalize(Render(a)).Some? && Normalize(Render(b)).Some?
    ensures Normalize(Render(a)) == Normalize(Render(b)) <==> Value(a) == Value(b)
  {
    hide Normalize, Render, DecimalOf, Canonical, DecimalValue, InText, Value, WellFormed;
    NormalizeOfRender(a);
    NormalizeOfRender(b);
    DecimalOfKeepsValue(a);
    DecimalOfKeepsValue(b);
    InTextInjective(DecimalOf(a), DecimalOf(b));
    if Value(a) == Value(b) {
      CanonicalUnique(DecimalOf(a), DecimalOf(b));
    }
  }
}
