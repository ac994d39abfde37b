/** Values read back from text at export (src/bin/parquet_export.rs). */
module ExportValues {
  import opened Wrappers
  import opened Text

  const U128: nat := 0x1_0000_0000_0000_0000_0000_0000_0000_0000
  const I128_MAX: nat := 0x7fff_ffff_ffff_ffff_ffff_ffff_ffff_ffff

  /** `10^38 - 1`: what `Decimal128(38, 0)` can hold. */
  const MAX_SF_VALUE: nat := 99_999_999_999_999_999_999_999_999_999_999_999_999

  // --------------------------------------------------------------- parse_sf

  /** Digit by digit, with the overflow check at each one. */
  function ParseDigits(s: string, acc: nat): Option<nat> {
    if s == "" then Some(acc)
    else if !IsDigit(s[0]) then None
    else
      var next := acc * 10 + DigitValue(s[0]);
      if next >= U128 then None else ParseDigits(s[1..], next)
  }

  /** What follows an optional plus sign. */
  function Unsigned(text: string): string {
    if text != "" && text[0] == '+' then text[1..] else text
  }

  /** `str::parse::<u128>`. */
  function ParseU128(text: string): Option<nat> {
    if Unsigned(text) == "" then None else ParseDigits(Unsigned(text), 0)
  }

  function ParseSf(text: string): Result<nat> {
    match ParseU128(text)
    case None => Err
    case Some(u) =>
      var v := if u <= I128_MAX then u else I128_MAX;
      if v > MAX_SF_VALUE then Err else Ok(v)
  }

  lemma {:induction false} ParseDigitsExact(s: string, acc: nat, v: nat)
    requires acc < U128
    ensures ParseDigits(s, acc) == Some(v) <==> AllDigits(s) && v == acc * Pow10(|s|) + Value(s) && v < U128
  {
    if s != "" {
      AllDigitsSplit(s);
      if AllDigits(s) {
        FirstDigitFolds(s, acc);
      }
      if IsDigit(s[0]) && acc * 10 + DigitValue(s[0]) < U128 {
        ParseDigitsExact(s[1..], acc * 10 + DigitValue(s[0]), v);
      }
    }
  }

  /** Folding the first digit into the accumulator leaves the number denoted, which is at least the accumulator. */
  lemma FirstDigitFolds(s: string, acc: nat)
    requires s != "" && AllDigits(s)
    ensures var next := acc * 10 + DigitValue(s[0]);
      acc * Pow10(|s|) + Value(s) == next * Pow10(|s[1..]|) + Value(s[1..]) >= next
  {
    var p := Pow10(|s| - 1);
    ValueFromLeft(s);
    Pow10Positive(|s| - 1);
    Fold(acc, DigitValue(s[0]), p, Value(s[1..]), Pow10(|s|), Value(s));
  }

  lemma Fold(acc: nat, d: nat, p: nat, rest: nat, p10: nat, v: nat)
    requires p >= 1 && p10 == 10 * p && v == d * p + rest
    ensures acc * p10 + v == (acc * 10 + d) * p + rest >= acc * 10 + d
  {
    ShiftIn(acc, d, p, rest);
    AtLeast(acc * 10 + d, p);
  }

  lemma AtLeast(n: nat, p: nat)
    requires p >= 1
    ensures n * p >= n
  {
  }

  lemma AllDigitsSplit(s: string)
    requires s != ""
    ensures AllDigits(s) <==> IsDigit(s[0]) && AllDigits(s[1..])
  {
    assert s == [s[0]] + s[1..];
  }

  lemma ShiftIn(acc: nat, d: nat, p: nat, rest: nat)
    ensures acc * (10 * p) + (d * p + rest) == (acc * 10 + d) * p + rest
  {
  }

  /**
  A text is accepted exactly when it is a run of digits, perhaps after a plus
  sign, denoting at most `10^38 - 1`; and then the value is that number. No larger
  number wraps or saturates into range.
   */
  lemma ParseSfExact(text: string, v: nat)
    ensures ParseSf(text) == Ok(v) <==>
      Unsigned(text) != "" && AllDigits(Unsigned(text)) && v == Value(Unsigned(text)) && v <= MAX_SF_VALUE
  {
    var body := Unsigned(text);
    ParseDigitsExact(body, 0, v);
    if ParseU128(text).Some? {
      ParseDigitsExact(body, 0, ParseU128(text).value);
    }
    if body != "" && AllDigits(body) && Value(body) < U128 {
      ParseDigitsExact(body, 0, Value(body));
    }
  }

  /** Printing and parsing round-trips every representable value and rejects every other. */
  lemma ParseSfRoundTrip(v: nat)
    ensures ParseSf(Decimal(v)) == if v <= MAX_SF_VALUE then Ok(v) else Err
  {
    DecimalValue(v);
    ParseSfExact(Decimal(v), v);
    if ParseSf(Decimal(v)).Ok? {
      ParseSfExact(Decimal(v), ParseSf(Decimal(v)).value);
    }
  }

  // -------------------------------------------------------- pubkeys in hex

  const KEY_BYTES: nat := 32

  predicate IsKeyHex(hex: string) {
    |hex| == 2 * KEY_BYTES && forall i :: 0 <= i < |hex| ==> HexDigit(hex[i]).Some?
  }

  function PairValue(hi: char, lo: char): Byte
    requires HexDigit(hi).Some? && HexDigit(lo).Some?
  {
    HexDigit(hi).value * 16 + HexDigit(lo).value
  }

  /** Two digits a byte; anything but 64 hex digits is an error. */
  function DecodedKey(hex: string): Result<seq<Byte>> {
    if IsKeyHex(hex) then Ok(seq(KEY_BYTES, i requires 0 <= i < KEY_BYTES => PairValue(hex[2 * i], hex[2 * i + 1])))
    else Err
  }

  method DecodePubkeyHex(hex: string) returns (r: Result<seq<Byte>>)
    ensures r == DecodedKey(hex)
  {
    if |hex| != 64 {
      return Err;
    }
    var out := new Byte[32](_ => 0);
    for i := 0 to 32
      invariant forall j :: 0 <= j < 2 * i ==> HexDigit(hex[j]).Some?
      invariant forall j :: 0 <= j < i ==> out[j] == PairValue(hex[2 * j], hex[2 * j + 1])
    {
      var hi := HexDigit(hex[2 * i]);
      if hi.None? {
        assert HexDigit(hex[2 * i]).None?;
        return Err;
      }
      var lo := HexDigit(hex[2 * i + 1]);
      if lo.None? {
        assert HexDigit(hex[2 * i + 1]).None?;
        return Err;
      }
      out[i] := hi.value * 16 + lo.value;
    }
    assert IsKeyHex(hex);
    assert out[..] == DecodedKey(hex).value;
    r := Ok(out[..]);
  }

  lemma PairOf(b: Byte, digits: string, hi: char, lo: char)
    requires digits == DIGITS || digits == UPPER_DIGITS
    requires |digits| == 16 && hi == digits[b / 16] && lo == digits[b % 16]
    ensures HexDigit(hi).Some? && HexDigit(lo).Some? && PairValue(hi, lo) == b
  {
    hide HexDigit;
    DigitReads(b / 16, digits);
    DigitReads(b % 16, digits);
  }

  lemma AllPairs(hex: string)
    requires |hex| == 2 * KEY_BYTES
    requires forall j :: 0 <= j < KEY_BYTES ==> HexDigit(hex[2 * j]).Some? && HexDigit(hex[2 * j + 1]).Some?
    ensures IsKeyHex(hex)
  {
    hide HexDigit;
    forall i | 0 <= i < |hex|
      ensures HexDigit(hex[i]).Some?
    {
      var j := i / 2;
      assert i == 2 * j || i == 2 * j + 1;
    }
  }

  /** Upper- or lower-case hex of a 32-byte key, zero bytes included, decodes to that key. */
  lemma HexKeyRoundTrip(key: seq<Byte>, digits: string)
    requires |key| == KEY_BYTES && (digits == DIGITS || digits == UPPER_DIGITS)
    ensures DecodedKey(Hex(key, digits)) == Ok(key)
  {
    hide HexDigit, PairValue, Hex, IsKeyHex;
    var hex := Hex(key, digits);
    forall j | 0 <= j < KEY_BYTES
      ensures HexDigit(hex[2 * j]).Some? && HexDigit(hex[2 * j + 1]).Some? && PairValue(hex[2 * j], hex[2 * j + 1]) == key[j]
    {
      PairOf(key[j], digits, hex[2 * j], hex[2 * j + 1]);
    }
    AllPairs(hex);
    assert DecodedKey(hex).value == key;
  }

  lemma DigitReads(d: nat, digits: string)
    requires d < 16 && (digits == DIGITS || digits == UPPER_DIGITS)
    ensures |digits| == 16 && HexDigit(digits[d]) == Some(d)
  {
  }

  /** Nothing else decodes to it: an accepted text reads, digit for digit, as the key's own hex. */
  lemma HexKeyOnlyItself(hex: string, key: seq<Byte>)
    requires DecodedKey(hex) == Ok(key)
    ensures |key| == KEY_BYTES && |hex| == |Hex(key, DIGITS)|
    ensures forall i :: 0 <= i < |hex| ==> HexDigit(hex[i]) == HexDigit(Hex(key, DIGITS)[i])
  {
    hide HexDigit;
    forall i | 0 <= i < |hex|
      ensures HexDigit(hex[i]) == HexDigit(Hex(key, DIGITS)[i])
    {
      var j := i / 2;
      assert key[j] == PairValue(hex[2 * j], hex[2 * j + 1]);
      PairReads(hex[2 * j], hex[2 * j + 1]);
      assert Hex(key, DIGITS)[2 * j] == DIGITS[key[j] / 16] && Hex(key, DIGITS)[2 * j + 1] == DIGITS[key[j] % 16];
      assert i == 2 * j || i == 2 * j + 1;
    }
  }

  lemma PairReads(hi: char, lo: char)
    requires HexDigit(hi).Some? && HexDigit(lo).Some?
    ensures HexDigit(DIGITS[PairValue(hi, lo) / 16]) == HexDigit(hi) && HexDigit(DIGITS[PairValue(hi, lo) % 16]) == HexDigit(lo)
  {
    var h, l := HexDigit(hi).value, HexDigit(lo).value;
    NibbleSplit(h, l);
    ReadsBack(PairValue(hi, lo) / 16, h);
    ReadsBack(PairValue(hi, lo) % 16, l);
  }

  lemma ReadsBack(n: nat, d: nat)
    requires n == d < 16
    ensures HexDigit(DIGITS[n]) == Some(d)
  {
    DigitReads(d, DIGITS);
  }

  lemma NibbleSplit(hi: nat, lo: nat)
    requires hi < 16 && lo < 16
    ensures (hi * 16 + lo) / 16 == hi && (hi * 16 + lo) % 16 == lo
  {
  }
}
