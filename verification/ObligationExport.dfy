/**
Rows of the decoded table on their way into columns (src/bin/parquet_export.rs,
`SnapshotBatchBuilder`). The partition loop around it is the one of `Parquet`.
 */
module ObligationExport {
  import opened Wrappers
  import opened Text
  import opened ExportValues

  /** The columns that cannot fail, appended together. */
  datatype Plain = Plain(slot: nat, writeVersion: nat, numDeposits: nat, numBorrows: nat, health: nat, flags: nat,
                         elevationGroup: nat, ingestedAt: nat, lowestLtv: nat)

  /** One row as the query returns it: keys in hex, fractions in decimal. */
  datatype SnapshotText = SnapshotText(plain: Plain, pubkey: string, owner: string, market: string, referrer: string,
                                       deposited: string, borrowed: string, debt: string, allowed: string, unhealthy: string)

  /** One row as the table and the file hold it. */
  datatype SnapshotRecord = SnapshotRecord(plain: Plain, pubkey: seq<Byte>, owner: seq<Byte>, market: seq<Byte>, referrer: seq<Byte>,
                                           deposited: nat, borrowed: nat, debt: nat, allowed: nat, unhealthy: nat)

  datatype SnapshotBatch = SnapshotBatch(plain: seq<Plain>, pubkey: seq<seq<Byte>>, owner: seq<seq<Byte>>, market: seq<seq<Byte>>, referrer: seq<seq<Byte>>,
                                         deposited: seq<nat>, borrowed: seq<nat>, debt: seq<nat>, allowed: seq<nat>, unhealthy: seq<nat>)

  /** Every key is 64 hex digits and every fraction fits `Decimal128(38, 0)`. */
  predicate Accepted(row: SnapshotText) {
    && DecodedKey(row.pubkey).Ok? && DecodedKey(row.owner).Ok? && DecodedKey(row.market).Ok? && DecodedKey(row.referrer).Ok?
    && ParseSf(row.deposited).Ok? && ParseSf(row.borrowed).Ok? && ParseSf(row.debt).Ok? && ParseSf(row.allowed).Ok? && ParseSf(row.unhealthy).Ok?
  }

  /** All columns have one length. */
  predicate Level(b: SnapshotBatch) {
    |b.plain| == |b.pubkey| == |b.owner| == |b.market| == |b.referrer| == |b.deposited| == |b.borrowed| == |b.debt| == |b.allowed| == |b.unhealthy|
  }

  /** The text the query sends for a row of the table, column by column. */
  predicate Sent(r: SnapshotRecord, row: SnapshotText) {
    && row.plain == r.plain
    && row.pubkey == Hex(r.pubkey, UPPER_DIGITS) && row.owner == Hex(r.owner, UPPER_DIGITS)
    && row.market == Hex(r.market, UPPER_DIGITS) && row.referrer == Hex(r.referrer, UPPER_DIGITS)
    && row.deposited == Decimal(r.deposited) && row.borrowed == Decimal(r.borrowed) && row.debt == Decimal(r.debt)
    && row.allowed == Decimal(r.allowed) && row.unhealthy == Decimal(r.unhealthy)
  }

  predicate Wide(r: SnapshotRecord) {
    |r.pubkey| == KEY_BYTES && |r.owner| == KEY_BYTES && |r.market| == KEY_BYTES && |r.referrer| == KEY_BYTES
  }

  /**
  A row of the table is exported unchanged exactly when none of its five fractions
  exceeds 10^38 - 1; one that does is refused, never stored with a digit lost.
   */
  lemma SnapshotRowSurvivesExact(r: SnapshotRecord, row: SnapshotText)
    requires Wide(r) && Sent(r, row)
    ensures Accepted(row) <==>
      r.deposited <= MAX_SF_VALUE && r.borrowed <= MAX_SF_VALUE && r.debt <= MAX_SF_VALUE && r.allowed <= MAX_SF_VALUE && r.unhealthy <= MAX_SF_VALUE
    ensures DecodedKey(row.pubkey) == Ok(r.pubkey) && DecodedKey(row.owner) == Ok(r.owner)
    ensures DecodedKey(row.market) == Ok(r.market) && DecodedKey(row.referrer) == Ok(r.referrer)
    ensures Accepted(row) ==> ParseSf(row.deposited) == Ok(r.deposited) && ParseSf(row.borrowed) == Ok(r.borrowed) && ParseSf(row.debt) == Ok(r.debt)
    ensures Accepted(row) ==> ParseSf(row.allowed) == Ok(r.allowed) && ParseSf(row.unhealthy) == Ok(r.unhealthy)
  {
    hide Decimal, Hex, ParseSf, DecodedKey;
    HexKeyRoundTrip(r.pubkey, UPPER_DIGITS);
    HexKeyRoundTrip(r.owner, UPPER_DIGITS);
    HexKeyRoundTrip(r.market, UPPER_DIGITS);
    HexKeyRoundTrip(r.referrer, UPPER_DIGITS);
    ParseSfRoundTrip(r.deposited);
    ParseSfRoundTrip(r.borrowed);
    ParseSfRoundTrip(r.debt);
    ParseSfRoundTrip(r.allowed);
    ParseSfRoundTrip(r.unhealthy);
  }

  /** Column builders, filled one after the other. */
  class SnapshotBatchBuilder {
    var batch: SnapshotBatch

    constructor ()
      ensures batch == SnapshotBatch([], [], [], [], [], [], [], [], [], [])
    {
      batch := SnapshotBatch([], [], [], [], [], [], [], [], [], []);
    }

    /**
    A value is appended as soon as it is read, so a row that is refused half way
    leaves the columns uneven, exactly when its pubkey was readable. The row count
    is then still that of the rows accepted, and the run ends.
     */
    method Push(row: SnapshotText) returns (ok: bool)
      modifies this
      ensures ok == Accepted(row)
      ensures ok ==> batch.plain == old(batch).plain + [row.plain]
      ensures ok ==> batch.pubkey == old(batch).pubkey + [DecodedKey(row.pubkey).value] && batch.owner == old(batch).owner + [DecodedKey(row.owner).value]
      ensures ok ==> batch.market == old(batch).market + [DecodedKey(row.market).value] && batch.referrer == old(batch).referrer + [DecodedKey(row.referrer).value]
      ensures ok ==> batch.deposited == old(batch).deposited + [ParseSf(row.deposited).value] && batch.borrowed == old(batch).borrowed + [ParseSf(row.borrowed).value]
      ensures ok ==> batch.debt == old(batch).debt + [ParseSf(row.debt).value] && batch.allowed == old(batch).allowed + [ParseSf(row.allowed).value]
      ensures ok ==> batch.unhealthy == old(batch).unhealthy + [ParseSf(row.unhealthy).value]
      ensures !ok ==> batch.plain == old(batch).plain
      ensures !ok && Level(old(batch)) ==> (Level(batch) <==> DecodedKey(row.pubkey).Err?)
    {
      hide ParseSf, DecodedKey;
      ok := false;
      var pubkey := DecodePubkeyHex(row.pubkey);
      if pubkey.Err? { return; }
      batch := batch.(pubkey := batch.pubkey + [pubkey.value]);
      var owner := DecodePubkeyHex(row.owner);
      if owner.Err? { return; }
      batch := batch.(owner := batch.owner + [owner.value]);
      var market := DecodePubkeyHex(row.market);
      if market.Err? { return; }
      batch := batch.(market := batch.market + [market.value]);
      var referrer := DecodePubkeyHex(row.referrer);
      if referrer.Err? { return; }
      batch := batch.(referrer := batch.referrer + [referrer.value]);
      ok := PushFractions(row);
      if !ok { return; }
      batch := batch.(plain := batch.plain + [row.plain]);
    }

    method PushFractions(row: SnapshotText) returns (ok: bool)
      modifies this
      ensures ok == (ParseSf(row.deposited).Ok? && ParseSf(row.borrowed).Ok? && ParseSf(row.debt).Ok? && ParseSf(row.allowed).Ok? && ParseSf(row.unhealthy).Ok?)
      ensures batch.plain == old(batch).plain && batch.pubkey == old(batch).pubkey && batch.owner == old(batch).owner
      ensures batch.market == old(batch).market && batch.referrer == old(batch).referrer
      ensures ok ==> batch.deposited == old(batch).deposited + [ParseSf(row.deposited).value]
      ensures ok ==> batch.borrowed == old(batch).borrowed + [ParseSf(row.borrowed).value]
      ensures ok ==> batch.debt == old(batch).debt + [ParseSf(row.debt).value]
      ensures ok ==> batch.allowed == old(batch).allowed + [ParseSf(row.allowed).value]
      ensures ok ==> batch.unhealthy == old(batch).unhealthy + [ParseSf(row.unhealthy).value]
    {
      hide ParseSf;
      ok := false;
      var deposited := ParseSf(row.deposited);
      if deposited.Err? { return; }
      batch := batch.(deposited := batch.deposited + [deposited.value]);
      var borrowed := ParseSf(row.borrowed);
      if borrowed.Err? { return; }
      batch := batch.(borrowed := batch.borrowed + [borrowed.value]);
      var debt := ParseSf(row.debt);
      if debt.Err? { return; }
      batch := batch.(debt := batch.debt + [debt.value]);
      var allowed := ParseSf(row.allowed);
      if allowed.Err? { return; }
      batch := batch.(allowed := batch.allowed + [allowed.value]);
      var unhealthy := ParseSf(row.unhealthy);
      if unhealthy.Err? { return; }
      batch := batch.(unhealthy := batch.unhealthy + [unhealthy.value]);
      ok := true;
    }
  }
}
