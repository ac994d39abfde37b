/** Partition layout of the cold copy (src/coldpath.rs). */
module ColdPath {
  import opened Wrappers
  import opened Text

  const SLOTS_PER_PARTITION: nat := 1_000_000

  const PARTITION_COL := "slot_bucket"

  /** The first slot of the partition holding `slot`. */
  function Bucket(slot: nat): nat {
    (slot / SLOTS_PER_PARTITION) * SLOTS_PER_PARTITION
  }

  function PartitionDir(slot: nat): string {
    PARTITION_COL + "=" + Padded(Bucket(slot), 12)
  }

  /** Half-open buckets tile the slot line: a slot lies in its own bucket and in no other. */
  lemma BucketsTile(slot: nat, n: nat)
    ensures var lo := n * SLOTS_PER_PARTITION; lo <= slot < lo + SLOTS_PER_PARTITION <==> lo == Bucket(slot)
  {
    if n < slot / SLOTS_PER_PARTITION {
      assert (n + 1) * SLOTS_PER_PARTITION <= (slot / SLOTS_PER_PARTITION) * SLOTS_PER_PARTITION;
    }
  }

  lemma DirSplit(slot: nat)
    ensures PartitionDir(slot)[..12] == PARTITION_COL + "=" && PartitionDir(slot)[12..] == Padded(Bucket(slot), 12)
    ensures Codes(PartitionDir(slot)) == Codes(PARTITION_COL + "=") + Codes(Padded(Bucket(slot), 12))
  {
  }

  /** The digits in the name are the bucket. */
  lemma DirDenotesBucket(slot: nat)
    ensures AllDigits(PartitionDir(slot)[12..]) && Value(PartitionDir(slot)[12..]) == Bucket(slot)
  {
    DirSplit(slot);
    PaddedValue(Bucket(slot), 12);
  }

  /** Two slots share a directory exactly when they share a bucket. */
  lemma DirInjective(a: nat, b: nat)
    ensures PartitionDir(a) == PartitionDir(b) <==> Bucket(a) == Bucket(b)
  {
    DirDenotesBucket(a);
    DirDenotesBucket(b);
  }

  /** A directory is named by its first slot and holds the million slots from there, and no other. */
  lemma DirHoldsItsSlots(slot: nat, other: nat)
    ensures AllDigits(PartitionDir(slot)[12..])
    ensures PartitionDir(other) == PartitionDir(slot) <==> Value(PartitionDir(slot)[12..]) <= other < Value(PartitionDir(slot)[12..]) + SLOTS_PER_PARTITION
  {
    hide PartitionDir, Padded;
    DirDenotesBucket(slot);
    DirInjective(slot, other);
    BucketsTile(other, slot / SLOTS_PER_PARTITION);
  }

  predicate ListedBefore(a: nat, b: nat) {
    LexLess(Codes(PartitionDir(a)), Codes(PartitionDir(b)))
  }

  const TWELVE_DIGITS: nat := 1_000_000_000_000

  lemma PowTwelve()
    ensures Pow10(12) == TWELVE_DIGITS && Pow10(11) == 100_000_000_000
  {
    assert Pow10(4) == 10_000;
    assert Pow10(8) == 100_000_000;
  }

  /** Below 10^12 an object store lists the partitions in slot order. */
  lemma DirsInSlotOrder(a: nat, b: nat)
    requires a < TWELVE_DIGITS && b < TWELVE_DIGITS
    ensures ListedBefore(a, b) <==> Bucket(a) < Bucket(b)
  {
    PowTwelve();
    DecimalWidth(Bucket(a), 12);
    DecimalWidth(Bucket(b), 12);
    PaddedValue(Bucket(a), 12);
    PaddedValue(Bucket(b), 12);
    DirSplit(a);
    DirSplit(b);
    LexPrefix(Codes(PARTITION_COL + "="), Codes(Padded(Bucket(a), 12)), Codes(Padded(Bucket(b), 12)));
    LexIsNumeric(Padded(Bucket(a), 12), Padded(Bucket(b), 12));
  }

  /** A bucket of at least twelve digits is written without padding, leading digit first. */
  lemma WideName(slot: nat, k: nat, d: nat)
    requires k >= 11 && 0 < d < 10 && d * Pow10(k) <= Bucket(slot) < (d + 1) * Pow10(k)
    ensures Padded(Bucket(slot), 12) != [] && Padded(Bucket(slot), 12)[0] == DIGITS[d]
  {
    hide Bucket, Decimal;
    FirstDigit(Bucket(slot), k, d);
    Pow10Grows(11, k);
    assert Bucket(slot) >= Pow10(k) by { assert d * Pow10(k) >= Pow10(k); }
    DecimalWidth(Bucket(slot), 11);
  }

  lemma {:induction false} Pow10Grows(a: nat, b: nat)
    requires a <= b
    ensures Pow10(a) <= Pow10(b)
  {
    if a < b { Pow10Grows(a, b - 1); }
  }

  lemma SmallerLeadingDigitFirst(x: string, y: string, c: char, d: char)
    requires x != [] && y != [] && x[0] == c && y[0] == d && c < d
    ensures LexLess(Codes(x), Codes(y))
  {
  }

  /** The first slot past the padding is listed too early. */
  lemma ThirteenDigitsListedEarly()
    ensures ListedBefore(TWELVE_DIGITS, TWELVE_DIGITS - 1) && Bucket(TWELVE_DIGITS - 1) < Bucket(TWELVE_DIGITS)
  {
    PowTwelve();
    WideName(TWELVE_DIGITS, 12, 1);
    WideName(TWELVE_DIGITS - 1, 11, 9);
    var x, y := Padded(Bucket(TWELVE_DIGITS), 12), Padded(Bucket(TWELVE_DIGITS - 1), 12);
    assert DIGITS[1] == '1' && DIGITS[9] == '9';
    SmallerLeadingDigitFirst(x, y, '1', '9');
    DirSplit(TWELVE_DIGITS);
    DirSplit(TWELVE_DIGITS - 1);
    LexPrefix(Codes(PARTITION_COL + "="), Codes(x), Codes(y));
  }

  /** The leading digit of a number of known magnitude. */
  lemma {:induction false} FirstDigit(n: nat, k: nat, d: nat)
    requires 0 < d < 10 && d * Pow10(k) <= n < (d + 1) * Pow10(k)
    ensures Decimal(n) != [] && Decimal(n)[0] == DIGITS[d]
  {
    if k > 0 {
      Pow10Positive(k - 1);
      DropDigit(n, Pow10(k - 1), d);
      FirstDigit(n / 10, k - 1, d);
      DecimalValue(n / 10);
    }
  }

  lemma DropDigit(n: nat, p: nat, d: nat)
    requires p > 0 && d > 0 && d * (10 * p) <= n < (d + 1) * (10 * p)
    ensures d * p <= n / 10 < (d + 1) * p && n >= 10
  {
    assert d * (10 * p) == 10 * (d * p) && (d + 1) * (10 * p) == 10 * ((d + 1) * p);
    assert d * p >= 1;
  }

  /**
  Listing order is slot order for all slots below a bound exactly when the bound
  is at most 10^12: the padding fixes where the layout stops working.
   */
  lemma PaddingBoundExact(bound: nat)
    ensures (forall a: nat, b: nat :: a < bound && b < bound ==> (ListedBefore(a, b) <==> Bucket(a) < Bucket(b))) <==> bound <= TWELVE_DIGITS
  {
    if bound <= TWELVE_DIGITS {
      forall a: nat, b: nat | a < bound && b < bound
        ensures ListedBefore(a, b) <==> Bucket(a) < Bucket(b)
      {
        DirsInSlotOrder(a, b);
      }
    } else {
      ThirteenDigitsListedEarly();
    }
  }
}
