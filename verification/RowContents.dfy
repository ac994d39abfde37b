/**
What the stored rows say, field by field (src/main.rs, src/schema.rs): the raw row
of an update, and which of the decoded tables gets what from which payload.
 */
module RowContents {
  import opened Wrappers
  import opened Text
  import opened MergeTree
  import opened Schema
  import opened Protocol
  import opened Coverage
  import opened Safety
  import opened IngestTheorems

  /** The stored label of a payload, by its length and its first eight bytes. */
  function LabelText(discs: Discriminators, data: seq<Byte>): string {
    if |data| < 8 then "untagged:" + Decimal(|data|) + "b"
    else if data[..8] in discs then discs[data[..8]]
    else "unknown:" + Hex(data[..8], DIGITS)
  }

  predicate StartsWith(data: seq<Byte>, tag: seq<Byte>) {
    |data| >= 8 && data[..8] == tag
  }

  /** An update is buffered as one raw row, with its own fields and its payload untouched. */
  lemma RawRowContents(cfg: Cfg, b: Buffers, u: Update)
    ensures Push(cfg, b, u).raw == b.raw + [RawRow(u.slot, u.writeVersion, u.pubkey, LabelText(cfg.discs, u.data), u.owner, u.lamports, u.data)]
  {
    hide Decimal, Hex, DerivedOf;
  }

  /** The decoded row of a payload for one decoder, if it accepts. */
  function DecodedRows(u: Update, fields: Option<Decoded>): seq<DerivedRow> {
    if fields.Some? then [DerivedRow(u.slot, u.writeVersion, u.pubkey, fields.value)] else []
  }

  lemma TagsDiffer()
    ensures OBLIGATION_DISC != RESERVE_DISC && OBLIGATION_DISC != LENDING_MARKET_DISC && RESERVE_DISC != LENDING_MARKET_DISC
  {
    assert OBLIGATION_DISC[0] != RESERVE_DISC[0] && OBLIGATION_DISC[0] != LENDING_MARKET_DISC[0] && RESERVE_DISC[0] != LENDING_MARKET_DISC[0];
  }

  /**
  The first eight bytes decide. An obligation's payload goes to the obligation
  decoder and, if that accepts it, to the obligation buffer; a reserve's and a
  market's likewise; any other payload gives no decoded row.
   */
  lemma DecodedRowContents(cfg: Cfg, b: Buffers, u: Update)
    requires ValidDiscriminators(cfg.discs)
    ensures Push(cfg, b, u).snap == b.snap + (if StartsWith(u.data, OBLIGATION_DISC) then DecodedRows(u, cfg.decode(Obligations, u.data)) else [])
    ensures Push(cfg, b, u).reserve == b.reserve + (if StartsWith(u.data, RESERVE_DISC) then DecodedRows(u, cfg.decode(Reserves, u.data)) else [])
    ensures Push(cfg, b, u).lm == b.lm + (if StartsWith(u.data, LENDING_MARKET_DISC) then DecodedRows(u, cfg.decode(Markets, u.data)) else [])
  {
    hide ValidDiscriminators, Classify, RowOf;
    TagsDiffer();
    ClassifyValid(cfg.discs, u.data);
    assert b.snap + [] == b.snap && b.reserve + [] == b.reserve && b.lm + [] == b.lm;
  }

  // ---------------------------------------------------------- over runs

  /** Every raw row the indexer landed is a chain update, field by field. */
  lemma LandedRawContents(cfg: Cfg, events: seq<Event>, row: RawRow)
    requires SlotOrdered(cfg.chain) && ServedRun(cfg, events)
    requires Has(Run(cfg, events).db.raw.landed, row)
    ensures exists k :: 0 <= k < |cfg.chain| && (var u := cfg.chain[k];
      row.slot == u.slot && row.writeVersion == u.writeVersion && row.pubkey == u.pubkey && row.owner == u.owner
      && row.lamports == u.lamports && row.data == u.data && row.kind == LabelText(cfg.discs, u.data))
  {
    hide Run, ServedRun, StreamInv, JournalCovered, Decimal, Hex;
    RunKeepsInv(cfg, events);
    var db := Run(cfg, events).db;
    var i :| 0 <= i < |db.raw.landed| && db.raw.landed[i].row == row;
    var j :| 0 <= j < |db.raw.issued| && db.raw.issued[j] == row;
    var k :| 0 <= k < |cfg.chain| && row == RowOf(cfg, cfg.chain[k]);
  }

  /** A row of a decoded table, from a payload with the given tag that the given decoder read. */
  ghost predicate DecodedFrom(cfg: Cfg, landed: seq<Stamped<RawRow>>, tag: seq<Byte>, t: Table, row: DerivedRow) {
    exists k :: 0 <= k < |cfg.chain| && (var u := cfg.chain[k];
      && StartsWith(u.data, tag) && cfg.decode(t, u.data) == Some(row.fields)
      && row.slot == u.slot && row.writeVersion == u.writeVersion && row.pubkey == u.pubkey
      && Has(landed, RawRow(u.slot, u.writeVersion, u.pubkey, LabelText(cfg.discs, u.data), u.owner, u.lamports, u.data)))
  }

  lemma DerivedOfContents(cfg: Cfg, u: Update)
    requires ValidDiscriminators(cfg.discs)
    ensures DerivedOf(cfg, u, Obligations) == (if StartsWith(u.data, OBLIGATION_DISC) && cfg.decode(Obligations, u.data).Some?
                                              then Some(DerivedRow(u.slot, u.writeVersion, u.pubkey, cfg.decode(Obligations, u.data).value)) else None)
    ensures DerivedOf(cfg, u, Reserves) == (if StartsWith(u.data, RESERVE_DISC) && cfg.decode(Reserves, u.data).Some?
                                           then Some(DerivedRow(u.slot, u.writeVersion, u.pubkey, cfg.decode(Reserves, u.data).value)) else None)
    ensures DerivedOf(cfg, u, Markets) == (if StartsWith(u.data, LENDING_MARKET_DISC) && cfg.decode(Markets, u.data).Some?
                                          then Some(DerivedRow(u.slot, u.writeVersion, u.pubkey, cfg.decode(Markets, u.data).value)) else None)
    ensures RowOf(cfg, u) == RawRow(u.slot, u.writeVersion, u.pubkey, LabelText(cfg.discs, u.data), u.owner, u.lamports, u.data)
  {
    hide Decimal, Hex, ValidDiscriminators;
    TagsDiffer();
    ClassifyValid(cfg.discs, u.data);
  }

  /** Each decoded table holds rows of its own kind of account only, read by its own decoder, beside their raw rows. */
  lemma LandedDecodedContents(cfg: Cfg, events: seq<Event>, row: DerivedRow)
    requires SlotOrdered(cfg.chain) && ServedRun(cfg, events) && ValidDiscriminators(cfg.discs)
    ensures var db := Run(cfg, events).db;
      && (Has(db.snap.landed, row) ==> DecodedFrom(cfg, db.raw.landed, OBLIGATION_DISC, Obligations, row))
      && (Has(db.reserve.landed, row) ==> DecodedFrom(cfg, db.raw.landed, RESERVE_DISC, Reserves, row))
      && (Has(db.lm.landed, row) ==> DecodedFrom(cfg, db.raw.landed, LENDING_MARKET_DISC, Markets, row))
  {
    hide Run, ServedRun, DerivedFromRaw, DecodedFrom, ValidDiscriminators, Has;
    var db := Run(cfg, events).db;
    if Has(db.snap.landed, row) {
      DerivedNeverOutrunRaw(cfg, events, Obligations, row);
      FromRawIsDecoded(cfg, db, Obligations, row);
    }
    if Has(db.reserve.landed, row) {
      DerivedNeverOutrunRaw(cfg, events, Reserves, row);
      FromRawIsDecoded(cfg, db, Reserves, row);
    }
    if Has(db.lm.landed, row) {
      DerivedNeverOutrunRaw(cfg, events, Markets, row);
      FromRawIsDecoded(cfg, db, Markets, row);
    }
  }

  lemma FromRawIsDecoded(cfg: Cfg, db: Db, t: Table, row: DerivedRow)
    requires ValidDiscriminators(cfg.discs) && DerivedFromRaw(cfg, db, t, row)
    ensures t.Obligations? ==> DecodedFrom(cfg, db.raw.landed, OBLIGATION_DISC, Obligations, row)
    ensures t.Reserves? ==> DecodedFrom(cfg, db.raw.landed, RESERVE_DISC, Reserves, row)
    ensures t.Markets? ==> DecodedFrom(cfg, db.raw.landed, LENDING_MARKET_DISC, Markets, row)
  {
    hide RowOf, DerivedOf, ValidDiscriminators, LabelText, StartsWith, Has;
    var k :| 0 <= k < |cfg.chain| && DerivedOf(cfg, cfg.chain[k], t) == Some(row) && Has(db.raw.landed, RowOf(cfg, cfg.chain[k]));
    DerivedOfContents(cfg, cfg.chain[k]);
  }

  /** What `NoSilentHole` calls stored, spelled out: the raw row, and the row of the table its tag names if that decoder accepts. */
  lemma StoredContents(cfg: Cfg, db: Db, u: Update)
    requires ValidDiscriminators(cfg.discs)
    ensures Stored(cfg, db, u) <==>
      && Has(db.raw.landed, RawRow(u.slot, u.writeVersion, u.pubkey, LabelText(cfg.discs, u.data), u.owner, u.lamports, u.data))
      && (StartsWith(u.data, OBLIGATION_DISC) && cfg.decode(Obligations, u.data).Some? ==>
            Has(db.snap.landed, DerivedRow(u.slot, u.writeVersion, u.pubkey, cfg.decode(Obligations, u.data).value)))
      && (StartsWith(u.data, RESERVE_DISC) && cfg.decode(Reserves, u.data).Some? ==>
            Has(db.reserve.landed, DerivedRow(u.slot, u.writeVersion, u.pubkey, cfg.decode(Reserves, u.data).value)))
      && (StartsWith(u.data, LENDING_MARKET_DISC) && cfg.decode(Markets, u.data).Some? ==>
            Has(db.lm.landed, DerivedRow(u.slot, u.writeVersion, u.pubkey, cfg.decode(Markets, u.data).value)))
  {
    hide RowOf, DerivedOf, ValidDiscriminators, LabelText, StartsWith, Has;
    DerivedOfContents(cfg, u);
    StoredByTable(cfg, db, u);
  }

  lemma StoredByTable(cfg: Cfg, db: Db, u: Update)
    ensures Stored(cfg, db, u) <==>
      && Has(db.raw.landed, RowOf(cfg, u))
      && (DerivedOf(cfg, u, Obligations).Some? ==> Has(db.snap.landed, DerivedOf(cfg, u, Obligations).value))
      && (DerivedOf(cfg, u, Reserves).Some? ==> Has(db.reserve.landed, DerivedOf(cfg, u, Reserves).value))
      && (DerivedOf(cfg, u, Markets).Some? ==> Has(db.lm.landed, DerivedOf(cfg, u, Markets).value))
  {
    hide RowOf, DerivedOf, Has;
    assert TableLog(db, Obligations) == db.snap && TableLog(db, Reserves) == db.reserve && TableLog(db, Markets) == db.lm;
  }

  // ------------------------------------------------------- every version

  /** No two updates of one account share slot and write version. */
  ghost predicate VersionsDistinct(chain: seq<Update>) {
    forall i, j ::
      (0 <= i < |chain| && 0 <= j < |chain| && chain[i].pubkey == chain[j].pubkey
       && chain[i].slot == chain[j].slot && chain[i].writeVersion == chain[j].writeVersion) ==>
      chain[i] == chain[j]
  }

  /**
  `FINAL` keeps every version apart: under (pubkey, slot, write_version) of a landed
  update it has that update's row and no other, however often and in whatever order
  it was inserted; and it has nothing else.
   */
  lemma FinalKeepsEveryVersion(cfg: Cfg, events: seq<Event>, key: Key)
    requires SlotOrdered(cfg.chain) && VersionsDistinct(cfg.chain) && ServedRun(cfg, events)
    ensures var landed := Run(cfg, events).db.raw.landed;
      forall k :: 0 <= k < |cfg.chain| && (var u := cfg.chain[k]; Key(u.pubkey, u.slot, u.writeVersion) == key) ==>
        (var u := cfg.chain[k]; var row := RawRow(u.slot, u.writeVersion, u.pubkey, LabelText(cfg.discs, u.data), u.owner, u.lamports, u.data);
         (key in View(landed, RawKey) <==> Has(landed, row)) && (key in View(landed, RawKey) ==> View(landed, RawKey)[key] == row))
    ensures key in View(Run(cfg, events).db.raw.landed, RawKey) ==>
      exists k :: 0 <= k < |cfg.chain| && Key(cfg.chain[k].pubkey, cfg.chain[k].slot, cfg.chain[k].writeVersion) == key
  {
    hide Run, ServedRun, View, Inv, Has, LabelText;
    DistinctVersionsAreKeys(cfg.chain);
    RunKeepsInv(cfg, events);
    RawRowsFromChain(cfg, Run(cfg, events));
    ViewIsRows(Run(cfg, events).db.raw.landed, RawKey);
    forall k | 0 <= k < |cfg.chain| && (var u := cfg.chain[k]; Key(u.pubkey, u.slot, u.writeVersion) == key)
      ensures var landed := Run(cfg, events).db.raw.landed; var u := cfg.chain[k];
        var row := RawRow(u.slot, u.writeVersion, u.pubkey, LabelText(cfg.discs, u.data), u.owner, u.lamports, u.data);
        (key in View(landed, RawKey) <==> Has(landed, row)) && (key in View(landed, RawKey) ==> View(landed, RawKey)[key] == row)
    {
      VersionKept(cfg, Run(cfg, events).db.raw.landed, k);
    }
    if key in View(Run(cfg, events).db.raw.landed, RawKey) {
      ViewFromLanded(cfg, Run(cfg, events).db.raw.landed, key);
    }
  }

  lemma DistinctVersionsAreKeys(chain: seq<Update>)
    requires VersionsDistinct(chain)
    ensures KeysDistinct(chain)
  {
  }

  lemma ViewFromLanded(cfg: Cfg, landed: seq<Stamped<RawRow>>, key: Key)
    requires Functional(landed, RawKey) && key in View(landed, RawKey)
    requires forall i :: 0 <= i < |landed| ==> FromChain(cfg, landed[i].row)
    ensures exists k ::
        && 0 <= k < |cfg.chain| && View(landed, RawKey)[key] == RowOf(cfg, cfg.chain[k])
        && Key(cfg.chain[k].pubkey, cfg.chain[k].slot, cfg.chain[k].writeVersion) == key
    ensures Has(landed, View(landed, RawKey)[key])
  {
    hide View, Label, Classify;
    ViewIsRows(landed, RawKey);
    var i :| 0 <= i < |landed| && landed[i].row == View(landed, RawKey)[key];
    var k :| 0 <= k < |cfg.chain| && landed[i].row == RowOf(cfg, cfg.chain[k]);
  }

  lemma VersionKept(cfg: Cfg, landed: seq<Stamped<RawRow>>, k: nat)
    requires VersionsDistinct(cfg.chain) && Functional(landed, RawKey) && k < |cfg.chain|
    requires forall i :: 0 <= i < |landed| ==> FromChain(cfg, landed[i].row)
    ensures var u := cfg.chain[k]; var key := Key(u.pubkey, u.slot, u.writeVersion);
      var row := RawRow(u.slot, u.writeVersion, u.pubkey, LabelText(cfg.discs, u.data), u.owner, u.lamports, u.data);
      (key in View(landed, RawKey) <==> Has(landed, row)) && (key in View(landed, RawKey) ==> View(landed, RawKey)[key] == row)
  {
    hide View, Has, LabelText, FromChain, RowOf;
    var u := cfg.chain[k];
    var key := Key(u.pubkey, u.slot, u.writeVersion);
    RowIs(cfg, u);
    if Has(landed, RowOf(cfg, u)) { KeyListed(landed, RowOf(cfg, u)); }
    if key in View(landed, RawKey) {
      ViewFromLanded(cfg, landed, key);
      var l :| 0 <= l < |cfg.chain| && View(landed, RawKey)[key] == RowOf(cfg, cfg.chain[l])
        && Key(cfg.chain[l].pubkey, cfg.chain[l].slot, cfg.chain[l].writeVersion) == key;
      assert cfg.chain[l] == u;
    }
  }

  lemma RowIs(cfg: Cfg, u: Update)
    ensures RowOf(cfg, u) == RawRow(u.slot, u.writeVersion, u.pubkey, LabelText(cfg.discs, u.data), u.owner, u.lamports, u.data)
    ensures RawKey(RowOf(cfg, u)) == Key(u.pubkey, u.slot, u.writeVersion)
  {
    hide Decimal, Hex;
  }

  lemma KeyListed(landed: seq<Stamped<RawRow>>, row: RawRow)
    requires Functional(landed, RawKey) && Has(landed, row)
    ensures RawKey(row) in View(landed, RawKey)
  {
    hide View;
    ViewIsRows(landed, RawKey);
    var i :| 0 <= i < |landed| && landed[i].row == row;
  }
}
