/** The stored health factor of an obligation (src/decode.rs), in the machine's widths. */
module Health {

  const TWO_64: nat := 0x1_0000_0000_0000_0000
  const MAX_U64: nat := TWO_64 - 1
  const MAX_U128: nat := TWO_64 * TWO_64 - 1

  const SCALE: nat := 1_000_000

  /** `u128`, `u8`. */
  type U128 = n: nat | n <= MAX_U128
  type U8 = n: nat | n < 256

  /** `saturating_mul`. */
  function SaturatingMul(a: U128, b: U128): U128 {
    if a * b > MAX_U128 then MAX_U128 else a * b
  }

  /** `as u64`. */
  function Truncate(n: U128): nat {
    n % TWO_64
  }

  function HealthFactor(deposited: U128, debt: U128, hasDebt: U8): (r: nat)
    ensures r <= MAX_U64
  {
    if debt == 0 || hasDebt == 0 then MAX_U64 else Truncate(SaturatingMul(deposited, SCALE) / debt)
  }

  /** The scaled product still divides as the true one would, and the quotient fits in 64 bits. */
  predicate InRange(deposited: U128, debt: U128)
    requires debt > 0
  {
    deposited * SCALE < (MAX_U128 / debt + 1) * debt && deposited * SCALE < TWO_64 * debt
  }

  lemma Quotient(n: nat, d: nat, t: nat)
    requires d > 0
    ensures n / d < t <==> n < t * d
  {
    if n / d < t {
      assert (n / d + 1) * d <= t * d;
    } else {
      assert t * d <= (n / d) * d;
    }
  }

  lemma QuotientGrows(m: nat, n: nat, d: nat)
    requires d > 0 && m <= n
    ensures m / d <= n / d
  {
    Quotient(m, d, n / d + 1);
    Quotient(n, d, n / d + 1);
  }

  lemma StoredForm(deposited: U128, debt: U128, hasDebt: U8)
    requires debt > 0 && hasDebt > 0
    ensures HealthFactor(deposited, debt, hasDebt) ==
            (if deposited * SCALE > MAX_U128 then MAX_U128 / debt else deposited * SCALE / debt) % TWO_64
  {
  }

  lemma RangeForm(n: nat, debt: nat, most: nat)
    requires debt > 0
    ensures n < (most / debt + 1) * debt && n < TWO_64 * debt <==> n / debt < most / debt + 1 && n / debt < TWO_64
  {
    Quotient(n, debt, TWO_64);
    Quotient(n, debt, most / debt + 1);
  }

  /** A saturated product divides no higher than the true one; truncation only ever lowers. */
  lemma StoredIs(q: nat, most: nat, saturated: bool)
    requires if saturated then most <= q else q <= most
    ensures (if saturated then most else q) % TWO_64 == q <==> q < most + 1 && q < TWO_64
  {
  }

  lemma StoredRange(n: nat, debt: nat, most: nat)
    requires debt > 0
    ensures (if n > most then most / debt else n / debt) % TWO_64 == n / debt <==> n < (most / debt + 1) * debt && n < TWO_64 * debt
  {
    RangeForm(n, debt, most);
    if n > most { QuotientGrows(most, n, debt); } else { QuotientGrows(n, most, debt); }
    StoredIs(n / debt, most / debt, n > most);
  }

  /** The stored value is the true quotient exactly when it is in range: elsewhere saturation or truncation changes it. */
  lemma StoredExact(deposited: U128, debt: U128, hasDebt: U8)
    requires debt > 0 && hasDebt > 0
    ensures HealthFactor(deposited, debt, hasDebt) == deposited * SCALE / debt <==> InRange(deposited, debt)
  {
    hide HealthFactor;
    StoredForm(deposited, debt, hasDebt);
    StoredRange(deposited * SCALE, debt, MAX_U128);
  }

  /** Deposits of less than 2^128 after scaling never saturate. */
  lemma UnsaturatedInRange(deposited: U128, debt: U128)
    requires debt > 0 && deposited * SCALE <= MAX_U128
    ensures InRange(deposited, debt) <==> deposited * SCALE < TWO_64 * debt
  {
    Quotient(MAX_U128, debt, MAX_U128 / debt + 1);
  }

  /**
  Every threshold a query may compare the stored value with separates positions by
  their true ratio exactly when the position is in range.
   */
  lemma ThresholdsExact(deposited: U128, debt: U128, hasDebt: U8)
    requires debt > 0 && hasDebt > 0
    ensures (forall t: nat :: HealthFactor(deposited, debt, hasDebt) < t <==> deposited * SCALE < t * debt) <==> InRange(deposited, debt)
  {
    var stored, n := HealthFactor(deposited, debt, hasDebt), deposited * SCALE;
    StoredExact(deposited, debt, hasDebt);
    if stored == n / debt {
      forall t: nat
        ensures stored < t <==> n < t * debt
      {
        Quotient(n, debt, t);
      }
    } else {
      var t := if stored < n / debt then stored + 1 else n / debt + 1;
      Quotient(n, debt, t);
      assert !(stored < t <==> n < t * debt);
    }
  }

  /** Below saturation, that is exactly when the true quotient fits in 64 bits. */
  lemma UnsaturatedThresholdsExact(deposited: U128, debt: U128, hasDebt: U8)
    requires debt > 0 && hasDebt > 0 && deposited * SCALE <= MAX_U128
    ensures (forall t: nat :: HealthFactor(deposited, debt, hasDebt) < t <==> deposited * SCALE < t * debt) <==> deposited * SCALE / debt < TWO_64
  {
    hide HealthFactor, InRange;
    ThresholdsExact(deposited, debt, hasDebt);
    UnsaturatedInRange(deposited, debt);
    Quotient(deposited * SCALE, debt, TWO_64);
  }

  /** In range, the sentinel for "no debt" is only shared with positions of the greatest ratio that can be stored. */
  lemma SentinelExact(deposited: U128, debt: U128, hasDebt: U8)
    requires debt > 0 && hasDebt > 0 ==> InRange(deposited, debt)
    ensures HealthFactor(deposited, debt, hasDebt) == MAX_U64 <==> debt == 0 || hasDebt == 0 || deposited * SCALE >= MAX_U64 * debt
  {
    if debt > 0 && hasDebt > 0 {
      StoredExact(deposited, debt, hasDebt);
      Quotient(deposited * SCALE, debt, MAX_U64);
      Quotient(deposited * SCALE, debt, TWO_64);
    }
  }

  /** `web/queries.js`: what the dashboard counts as at risk. */
  const AT_RISK: nat := 1_050_000

  /** Out of range is reachable: a position 18 trillion times over its debt is counted as at risk. */
  lemma HealthyCountedAtRisk()
    ensures var deposited: U128 := TWO_64 + 1; var debt: U128 := SCALE;
      && 0 < HealthFactor(deposited, debt, 1) < AT_RISK
      && deposited * SCALE >= AT_RISK * debt
      && !InRange(deposited, debt)
  {
    var deposited: U128 := TWO_64 + 1;
    assert deposited * SCALE / SCALE == deposited;
  }
}
