/** ULIDs: 48 bits of time and 80 random bits as 26 Crockford base-32 digits. */
module Ulid {
  import opened Wire
  import Text

  type byte = n: int | 0 <= n <= 0xFF

  const ALPHABET: string := "0123456789ABCDEFGHJKMNPQRSTVWXYZ"

  /** A number as `k` base-32 digits, most significant first. */
  function Encoded(n: nat, k: nat): (s: string)
    ensures |s| == k
  {
    if k == 0 then "" else Encoded(n / 32, k - 1) + [ALPHABET[n % 32]]
  }

  /** The number a byte string stands for, most significant byte first (big.Int.SetBytes). */
  function BigEndian(raw: seq<byte>): nat
  {
    if raw == [] then 0 else 256 * BigEndian(raw[..|raw| - 1]) + raw[|raw| - 1]
  }

  function Pow32(k: nat): nat
  {
    if k == 0 then 1 else 32 * Pow32(k - 1)
  }

  function Pow256(k: nat): nat
  {
    if k == 0 then 1 else 256 * Pow256(k - 1)
  }

  // ---------------------------------------------------------------- powers and bytes

  lemma {:induction false} Pow256Add(a: nat, b: nat)
    ensures Pow256(a + b) == Pow256(a) * Pow256(b)
    decreases b
  {
    if b == 0 {
    } else {
      Pow256Add(a, b - 1);
      Regroup(Pow256(a), Pow256(b - 1));
    }
  }

  /** Eight base-32 digits are five bytes. */
  lemma {:induction false} PowersMeet(j: nat)
    ensures Pow32(8 * j) == Pow256(5 * j)
  {
    if j == 0 {
    } else {
      PowersMeet(j - 1);
      var p, q: nat := 8 * j, 5 * j;
      assert Pow32(p) == 1024 * Pow32(p - 2) && Pow32(p - 2) == 1024 * Pow32(p - 4);
      assert Pow32(p - 4) == 1024 * Pow32(p - 6) && Pow32(p - 6) == 1024 * Pow32(p - 8);
      assert Pow256(q) == 0x1_0000 * Pow256(q - 2) && Pow256(q - 2) == 0x1_0000 * Pow256(q - 4);
    }
  }

  lemma {:induction false} Capacity()
    ensures Pow256(6) == 0x1_0000_0000_0000
    ensures Pow256(16) <= Pow32(26)
  {
    assert Pow256(3) == 0x100_0000 && Pow256(6) == 0x100_0000 * Pow256(3);
    PowersMeet(3);
    assert Pow32(26) == 32 * 32 * Pow32(24) && Pow256(16) == 256 * Pow256(15);
  }

  lemma {:induction false} Regroup(a: int, b: int)
    ensures 256 * (a * b) == a * (256 * b)
  {
  }

  lemma {:induction false} BigEndianBound(raw: seq<byte>)
    ensures BigEndian(raw) < Pow256(|raw|)
    decreases |raw|
  {
    if raw == [] {
    } else {
      BigEndianBound(raw[..|raw| - 1]);
    }
  }

  lemma {:induction false} BigEndianConcat(high: seq<byte>, low: seq<byte>)
    ensures BigEndian(high + low) == BigEndian(high) * Pow256(|low|) + BigEndian(low)
    decreases |low|
  {
    if low == [] {
      assert high + low == high;
    } else {
      var front := low[..|low| - 1];
      BigEndianConcat(high, front);
      assert (high + low)[..|high + low| - 1] == high + front;
      AppendByte(BigEndian(high), Pow256(|front|), BigEndian(front), low[|low| - 1]);
    }
  }

  lemma {:induction false} AppendByte(high: int, p: int, low: int, last: int)
    ensures 256 * (high * p + low) + last == high * (256 * p) + (256 * low + last)
  {
    Regroup(high, p);
  }

  lemma {:induction false} SplitByte(rest: nat, p: nat)
    ensures rest * p == (rest / 256) * (256 * p) + (rest % 256) * p
  {
    assert rest == 256 * (rest / 256) + rest % 256;
    Distribute(rest / 256, rest % 256, p);
  }

  lemma {:induction false} Distribute(q: int, r: int, p: int)
    ensures (256 * q + r) * p == q * (256 * p) + r * p
  {
  }

  // ---------------------------------------------------------------- the generator

  /** The millisecond count in six bytes, filled from the last byte to the first. */
  method TimestampBytes(millis: nat) returns (raw: array<byte>)
    requires millis < Pow256(6)
    ensures fresh(raw) && raw.Length == 6 && BigEndian(raw[..]) == millis
  {
    raw := new byte[6];
    var rest: nat, i := millis, 5;
    while i >= 0
      invariant -1 <= i <= 5
      invariant rest < Pow256(i + 1)
      invariant millis == rest * Pow256(5 - i) + BigEndian(raw[i + 1..])
    {
      ghost var low := raw[i + 1..];
      raw[i] := rest % 256;
      assert raw[i..] == [rest % 256] + low;
      BigEndianConcat([rest % 256], low);
      assert BigEndian([rest % 256]) == rest % 256;
      SplitByte(rest, Pow256(|low|));
      rest := rest / 256;
      i := i - 1;
    }
    assert raw[0..] == raw[..];
  }

  /** The digit loop: 26 divisions by 32, written from the last position to the first. The value is
      used up when the loop ends. */
  method EncodeDigits(value: nat) returns (out: array<char>, rest: nat)
    requires value < Pow256(16)
    ensures fresh(out) && out[..] == Encoded(value, 26)
    ensures rest == 0
  {
    Capacity();
    out := new char[26];
    var n: nat, i := value, 25;
    assert Encoded(n, 26) + out[26..] == Encoded(value, 26);
    while i >= 0
      invariant -1 <= i <= 25
      invariant n < Pow32(i + 1)
      invariant Encoded(n, i + 1) + out[i + 1..] == Encoded(value, 26)
    {
      ghost var low := out[i + 1..];
      out[i] := ALPHABET[n % 32];
      assert out[i..] == [ALPHABET[n % 32]] + low;
      assert Encoded(n / 32, i) + out[i..] == Encoded(n, i + 1) + low;
      n := n / 32;
      i := i - 1;
    }
    assert Encoded(n, 0) + out[0..] == out[..];
    rest := n;
  }

  /** Fails when the time does not fit 48 bits or the random source runs short. */
  method NewULID(unixMilli: int, random: seq<byte>) returns (r: Option<string>)
    ensures r.Some? <==> Wrap(unixMilli) < 0x1_0000_0000_0000 && |random| >= 10
    ensures r.Some? ==> r.value == Encoded(Wrap(unixMilli) * Pow256(10) + BigEndian(random[..10]), 26)
  {
    Capacity();
    var millis := Wrap(unixMilli);
    if millis > 0x1_0000_0000_0000 - 1 {
      return None;
    }
    var time := TimestampBytes(millis);
    if |random| < 10 {
      return None;
    }
    var raw := time[..] + random[..10];
    BigEndianConcat(time[..], random[..10]);
    BigEndianBound(raw);
    var out, rest := EncodeDigits(BigEndian(raw));
    return Some(out[..]);
  }

  // ---------------------------------------------------------------- order and uniqueness

  lemma {:induction false} LessExtends(a: string, b: string, x: string, y: string)
    requires |a| == |b| && Text.Less(a, b)
    ensures Text.Less(a + x, b + y)
    decreases |a|
  {
    if a[0] == b[0] {
      LessExtends(a[1..], b[1..], x, y);
      assert (a + x)[1..] == a[1..] + x && (b + y)[1..] == b[1..] + y;
    }
  }

  lemma {:induction false} LessLast(a: string, x: char, y: char)
    requires x < y
    ensures Text.Less(a + [x], a + [y])
    decreases |a|
  {
    if a == [] {
    } else {
      LessLast(a[1..], x, y);
      assert (a + [x])[1..] == a[1..] + [x] && (a + [y])[1..] == a[1..] + [y];
    }
  }

  lemma {:induction false} AlphabetAscends(i: nat, j: nat)
    requires i < j < 32
    ensures ALPHABET[i] < ALPHABET[j]
  {
  }

  /** The string order is the numeric order. */
  lemma {:induction false} EncodedOrder(n: nat, m: nat, k: nat)
    requires n < m < Pow32(k)
    ensures Text.Less(Encoded(n, k), Encoded(m, k))
    decreases k
  {
    if n / 32 < m / 32 {
      EncodedOrder(n / 32, m / 32, k - 1);
      LessExtends(Encoded(n / 32, k - 1), Encoded(m / 32, k - 1), [ALPHABET[n % 32]], [ALPHABET[m % 32]]);
    } else {
      assert n / 32 == m / 32;
      AlphabetAscends(n % 32, m % 32);
      LessLast(Encoded(n / 32, k - 1), ALPHABET[n % 32], ALPHABET[m % 32]);
    }
  }

  /** Distinct 128-bit values get distinct strings. */
  lemma {:induction false} EncodedInjective(n: nat, m: nat)
    requires n < Pow256(16) && m < Pow256(16)
    ensures Encoded(n, 26) == Encoded(m, 26) <==> n == m
  {
    Capacity();
    Text.LessTotal(Encoded(n, 26), Encoded(m, 26));
    if n < m {
      EncodedOrder(n, m, 26);
    } else if m < n {
      EncodedOrder(m, n, 26);
    }
  }

  lemma {:induction false} HighPartDecides(t1: nat, t2: nat, p: nat, r1: nat)
    requires t1 < t2 && r1 < p
    ensures t1 * p + r1 < t2 * p
  {
    assert (t1 + 1) * p <= t2 * p;
  }

  lemma {:induction false} TimeThenRandom(t1: nat, t2: nat, r1: nat, r2: nat) returns (n: nat, m: nat)
    requires t1 < t2 < Pow256(6) && r1 < Pow256(10) && r2 < Pow256(10)
    ensures n == t1 * Pow256(10) + r1 && m == t2 * Pow256(10) + r2
    ensures n < m < Pow256(16)
  {
    var p := Pow256(10);
    n, m := t1 * p + r1, t2 * p + r2;
    HighPartDecides(t1, t2, p, r1);
    HighPartDecides(t2, Pow256(6), p, r2);
    Pow256Add(6, 10);
  }

  /** An identifier made at an earlier millisecond sorts first, whatever the random bits. */
  lemma {:induction false} EarlierSortsFirst(t1: nat, t2: nat, r1: seq<byte>, r2: seq<byte>)
    requires t1 < t2 < Pow256(6) && |r1| == |r2| == 10
    ensures Text.Less(Encoded(t1 * Pow256(10) + BigEndian(r1), 26), Encoded(t2 * Pow256(10) + BigEndian(r2), 26))
  {
    BigEndianBound(r1);
    BigEndianBound(r2);
    var n, m := TimeThenRandom(t1, t2, BigEndian(r1), BigEndian(r2));
    Capacity();
    EncodedOrder(n, m, 26);
  }
}
