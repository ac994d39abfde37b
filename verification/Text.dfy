/** Decimal and hexadecimal text, and the lexical order of names and keys. */
module Text {
  import opened Wrappers

  const DIGITS := "0123456789abcdef"
  const UPPER_DIGITS := "0123456789ABCDEF"

  // ---------------------------------------------------------------- decimal

  predicate IsDigit(c: char) {
    '0' <= c <= '9'
  }

  function DigitValue(c: char): nat
    requires IsDigit(c)
  {
    c as int - '0' as int
  }

  predicate AllDigits(s: string) {
    forall i :: 0 <= i < |s| ==> IsDigit(s[i])
  }

  /** The number a digit string denotes, most significant digit first. */
  function Value(s: string): nat
    requires AllDigits(s)
  {
    if s == [] then 0 else Value(s[..|s| - 1]) * 10 + DigitValue(s[|s| - 1])
  }

  /** The canonical decimal text of a number: what Rust's `{}` prints. */
  function Decimal(n: nat): string {
    if n < 10 then [DIGITS[n]] else Decimal(n / 10) + [DIGITS[n % 10]]
  }

  function Zeros(n: nat): string {
    seq(n, i => '0')
  }

  /** `{:0width}`: zero padding on the left, no truncation. */
  function Padded(n: nat, width: nat): string {
    var s := Decimal(n);
    if |s| >= width then s else Zeros(width - |s|) + s
  }

  function Pow10(n: nat): nat {
    if n == 0 then 1 else 10 * Pow10(n - 1)
  }

  lemma {:induction false} DecimalValue(n: nat)
    ensures |Decimal(n)| > 0 && AllDigits(Decimal(n)) && Value(Decimal(n)) == n
  {
    if n >= 10 {
      DecimalValue(n / 10);
      assert Decimal(n)[..|Decimal(n)| - 1] == Decimal(n / 10);
    }
  }

  lemma {:induction false} DecimalWidth(n: nat, width: nat)
    requires width > 0
    ensures |Decimal(n)| <= width <==> n < Pow10(width)
  {
    if n >= 10 {
      if width == 1 {
        assert |Decimal(n / 10)| > 0 by { DecimalValue(n / 10); }
      } else {
        DecimalWidth(n / 10, width - 1);
      }
    } else {
      Pow10Positive(width - 1);
    }
  }

  lemma {:induction false} Pow10Positive(n: nat)
    ensures Pow10(n) >= 1
  {
    if n > 0 { Pow10Positive(n - 1); }
  }

  lemma {:induction false} ZerosValue(n: nat, s: string)
    requires AllDigits(s)
    ensures AllDigits(Zeros(n) + s) && Value(Zeros(n) + s) == Value(s)
  {
    if s == [] {
      if n > 0 {
        ZerosValue(n - 1, []);
        assert (Zeros(n) + s)[..n - 1] == Zeros(n - 1) + [];
      }
    } else {
      ZerosValue(n, s[..|s| - 1]);
      assert (Zeros(n) + s)[..n + |s| - 1] == Zeros(n) + s[..|s| - 1];
    }
  }

  lemma PaddedValue(n: nat, width: nat)
    ensures AllDigits(Padded(n, width)) && Value(Padded(n, width)) == n
    ensures |Decimal(n)| <= width ==> |Padded(n, width)| == width
  {
    DecimalValue(n);
    if |Decimal(n)| < width {
      ZerosValue(width - |Decimal(n)|, Decimal(n));
    }
  }

  // ------------------------------------------------------------ hexadecimal

  /** Rust's `char::to_digit(16)`. */
  function HexDigit(c: char): Option<nat> {
    if '0' <= c <= '9' then Some(c as int - '0' as int)
    else if 'a' <= c <= 'f' then Some(c as int - 'a' as int + 10)
    else if 'A' <= c <= 'F' then Some(c as int - 'A' as int + 10)
    else None
  }

  /** Two digits for each byte, in the given alphabet. */
  function Hex(bytes: seq<Byte>, digits: string): (s: string)
    requires |digits| == 16
    ensures |s| == 2 * |bytes|
    ensures forall i :: 0 <= i < |bytes| ==> s[2 * i] == digits[bytes[i] / 16] && s[2 * i + 1] == digits[bytes[i] % 16]
  {
    if bytes == [] then []
    else
      var n := |bytes| - 1;
      var front := Hex(bytes[..n], digits);
      assert forall i :: 0 <= i < n ==> bytes[..n][i] == bytes[i];
      front + [digits[bytes[n] / 16], digits[bytes[n] % 16]]
  }

  // ---------------------------------------------------------- lexical order

  /** The order object stores list names in, and ClickHouse orders keys by. */
  predicate LexLess(a: seq<int>, b: seq<int>) {
    if b == [] then false
    else if a == [] then true
    else a[0] < b[0] || (a[0] == b[0] && LexLess(a[1..], b[1..]))
  }

  function Codes(s: string): (r: seq<int>)
    ensures |r| == |s| && forall i :: 0 <= i < |s| ==> r[i] == s[i] as int
  {
    seq(|s|, i requires 0 <= i < |s| => s[i] as int)
  }

  lemma {:induction false} LexTotal(a: seq<int>, b: seq<int>)
    ensures LexLess(a, b) || LexLess(b, a) || a == b
    ensures !(LexLess(a, b) && LexLess(b, a))
    ensures !LexLess(a, a)
  {
    if a != [] { LexTotal(a[1..], a[1..]); }
    if a != [] && b != [] {
      LexTotal(a[1..], b[1..]);
      if a[0] == b[0] && a[1..] == b[1..] {
        assert a == [a[0]] + a[1..];
      }
    }
  }

  lemma {:induction false} LexTransitive(a: seq<int>, b: seq<int>, c: seq<int>)
    requires LexLess(a, b) && LexLess(b, c)
    ensures LexLess(a, c)
  {
    if a != [] && a[0] == b[0] == c[0] {
      LexTransitive(a[1..], b[1..], c[1..]);
    }
  }

  lemma {:induction false} LexPrefix(p: seq<int>, a: seq<int>, b: seq<int>)
    ensures LexLess(p + a, p + b) <==> LexLess(a, b)
  {
    if p == [] {
      assert p + a == a && p + b == b;
    } else {
      assert (p + a)[1..] == p[1..] + a && (p + b)[1..] == p[1..] + b;
      LexPrefix(p[1..], a, b);
    }
  }

  lemma AppendDigit(d: nat, p: nat, rest: nat, e: nat)
    ensures (d * p + rest) * 10 + e == d * (10 * p) + (rest * 10 + e)
  {
    assert d * (10 * p) == 10 * (d * p);
  }

  /** The number a digit string denotes, read from the left. */
  lemma {:induction false} ValueFromLeft(s: string)
    requires AllDigits(s) && s != []
    ensures Value(s) == DigitValue(s[0]) * Pow10(|s| - 1) + Value(s[1..])
    ensures Value(s[1..]) < Pow10(|s| - 1)
  {
    if |s| > 1 {
      var front, d, p := s[..|s| - 1], DigitValue(s[0]), Pow10(|s| - 2);
      ValueFromLeft(front);
      assert s[1..][..|s| - 2] == front[1..];
      assert Value(s[1..]) == Value(front[1..]) * 10 + DigitValue(s[|s| - 1]);
      AppendDigit(d, p, Value(front[1..]), DigitValue(s[|s| - 1]));
    } else {
      assert s[..0] == [] && s[1..] == [];
    }
  }

  /** Leading digit first, then the rest. */
  lemma CompareLeading(a: nat, b: nat, p: nat, ra: nat, rb: nat)
    requires ra < p && rb < p
    ensures a * p + ra < b * p + rb <==> a < b || (a == b && ra < rb)
    ensures a * p + ra == b * p + rb <==> a == b && ra == rb
  {
    if a < b {
      assert (a + 1) * p <= b * p;
    } else if b < a {
      assert (b + 1) * p <= a * p;
    }
  }

  /** Equal-length digit strings compare as the numbers they denote. */
  lemma {:induction false} LexIsNumeric(a: string, b: string)
    requires AllDigits(a) && AllDigits(b) && |a| == |b|
    ensures LexLess(Codes(a), Codes(b)) <==> Value(a) < Value(b)
    ensures a == b <==> Value(a) == Value(b)
  {
    if a != [] {
      ValueFromLeft(a);
      ValueFromLeft(b);
      LexIsNumeric(a[1..], b[1..]);
      CompareLeading(DigitValue(a[0]), DigitValue(b[0]), Pow10(|a| - 1), Value(a[1..]), Value(b[1..]));
      LexStep(a, b);
    }
  }

  lemma LexStep(a: string, b: string)
    requires a != [] && b != []
    ensures LexLess(Codes(a), Codes(b)) <==> a[0] < b[0] || (a[0] == b[0] && LexLess(Codes(a[1..]), Codes(b[1..])))
    ensures a == b <==> a[0] == b[0] && a[1..] == b[1..]
  {
    assert Codes(a)[1..] == Codes(a[1..]) && Codes(b)[1..] == Codes(b[1..]);
    assert a == [a[0]] + a[1..] && b == [b[0]] + b[1..];
  }
}
