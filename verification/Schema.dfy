/** Account classification and its stored label (src/schema.rs). */
module Schema {
  import opened Wrappers
  import opened Text

  const CANDIDATE_ACCOUNTS: seq<string> := [
    "Reserve", "Obligation", "LendingMarket", "ReferrerTokenState",
    "UserMetadata", "ReferrerState", "ShortUrl", "GlobalConfig"]

  const OBLIGATION_DISC: seq<Byte> := [0xa8, 0xce, 0x8d, 0x6a, 0x58, 0x4c, 0xac, 0xa7]
  const RESERVE_DISC: seq<Byte> := [0x2b, 0xf2, 0xcc, 0xca, 0x1a, 0xf7, 0x3b, 0x7f]
  const LENDING_MARKET_DISC: seq<Byte> := [0xf6, 0x72, 0x32, 0x62, 0x48, 0x9d, 0x1c, 0x78]

  /**
  `discriminator -> struct name`. The hash that derives it is not modelled: any
  table that gives each candidate name its own 8-byte tag, the three published
  tags included, is admitted.
   */
  type Discriminators = map<seq<Byte>, string>

  ghost predicate ValidDiscriminators(discs: Discriminators) {
    && (forall d :: d in discs ==> |d| == 8 && discs[d] in CANDIDATE_ACCOUNTS)
    && (forall d, e :: d in discs && e in discs && discs[d] == discs[e] ==> d == e)
    && OBLIGATION_DISC in discs && discs[OBLIGATION_DISC] == "Obligation"
    && RESERVE_DISC in discs && discs[RESERVE_DISC] == "Reserve"
    && LENDING_MARKET_DISC in discs && discs[LENDING_MARKET_DISC] == "LendingMarket"
  }

  datatype AccountKind = Known(name: string) | Unknown(disc: seq<Byte>) | Untagged(len: nat)

  /** Total: an account that cannot be named is recorded, not rejected. */
  function Classify(discs: Discriminators, data: seq<Byte>): AccountKind {
    if |data| < 8 then Untagged(|data|)
    else if data[..8] in discs then Known(discs[data[..8]])
    else Unknown(data[..8])
  }

  function Label(kind: AccountKind): string {
    match kind
    case Known(name) => name
    case Unknown(disc) => "unknown:" + Hex(disc, DIGITS)
    case Untagged(len) => "untagged:" + Decimal(len) + "b"
  }

  /** The kinds classification can produce. */
  ghost predicate ValidKind(kind: AccountKind) {
    match kind
    case Known(name) => name in CANDIDATE_ACCOUNTS
    case Unknown(disc) => |disc| == 8
    case Untagged(len) => len < 8
  }

  lemma ClassifyValid(discs: Discriminators, data: seq<Byte>)
    requires ValidDiscriminators(discs)
    ensures ValidKind(Classify(discs, data))
    ensures Classify(discs, data) == Known("Obligation") <==> |data| >= 8 && data[..8] == OBLIGATION_DISC
    ensures Classify(discs, data) == Known("Reserve") <==> |data| >= 8 && data[..8] == RESERVE_DISC
    ensures Classify(discs, data) == Known("LendingMarket") <==> |data| >= 8 && data[..8] == LENDING_MARKET_DISC
  {
    var tag := if |data| >= 8 then data[..8] else [];
    assert tag in discs && discs[tag] == discs[OBLIGATION_DISC] ==> tag == OBLIGATION_DISC;
    assert tag in discs && discs[tag] == discs[RESERVE_DISC] ==> tag == RESERVE_DISC;
    assert tag in discs && discs[tag] == discs[LENDING_MARKET_DISC] ==> tag == LENDING_MARKET_DISC;
  }

  /** Hex text determines its bytes, in either alphabet. */
  lemma HexInjective(a: seq<Byte>, b: seq<Byte>)
    requires Hex(a, DIGITS) == Hex(b, DIGITS)
    ensures a == b
  {
    var s := Hex(a, DIGITS);
    forall i | 0 <= i < |a|
      ensures a[i] == b[i]
    {
      DigitsInjective(a[i] / 16, b[i] / 16);
      DigitsInjective(a[i] % 16, b[i] % 16);
      assert s[2 * i] == DIGITS[a[i] / 16] && s[2 * i + 1] == DIGITS[a[i] % 16];
      assert s[2 * i] == DIGITS[b[i] / 16] && s[2 * i + 1] == DIGITS[b[i] % 16];
    }
  }

  lemma DigitsInjective(a: nat, b: nat)
    requires a < 16 && b < 16 && DIGITS[a] == DIGITS[b]
    ensures a == b
  {
    assert HexDigit(DIGITS[a]) == Some(a) && HexDigit(DIGITS[b]) == Some(b);
  }

  /** Two different kinds never share a stored label, so counting by label counts by kind. */
  lemma LabelInjective(a: AccountKind, b: AccountKind)
    requires ValidKind(a) && ValidKind(b)
    requires Label(a) == Label(b)
    ensures a == b
  {
    LabelStart(a);
    LabelStart(b);
    if a.Unknown? && b.Unknown? {
      assert Label(a)[8..] == Hex(a.disc, DIGITS) && Label(b)[8..] == Hex(b.disc, DIGITS);
      HexInjective(a.disc, b.disc);
    }
    if a.Untagged? && b.Untagged? {
      assert Label(a)[9..|Label(a)| - 1] == Decimal(a.len) && Label(b)[9..|Label(b)| - 1] == Decimal(b.len);
      DecimalValue(a.len);
      DecimalValue(b.len);
    }
  }

  /** The first letter separates names from the two synthetic labels, the third separates those. */
  lemma LabelStart(k: AccountKind)
    requires ValidKind(k)
    ensures |Label(k)| > 2
    ensures k.Known? <==> 'A' <= Label(k)[0] <= 'Z'
    ensures k.Unknown? ==> Label(k)[2] == 'k'
    ensures k.Untagged? ==> Label(k)[2] == 't'
  {
    match k
    case Known(name) =>
      var i :| 0 <= i < |CANDIDATE_ACCOUNTS| && CANDIDATE_ACCOUNTS[i] == name;
    case Unknown(disc) =>
      assert Label(k)[..8] == "unknown:";
      assert Label(k)[0] == "unknown:"[0] && Label(k)[2] == "unknown:"[2];
    case Untagged(len) =>
      assert Label(k)[0] == "untagged:"[0] && Label(k)[2] == "untagged:"[2];
  }
}
