/**
The order of the exported rows (src/bin/parquet_export.rs, `ORDER BY slot,
write_version, pubkey`), number by number and byte by byte, and what a reader of
the cold copy gets in that order.
 */
module ExportOrder {
  import opened Wrappers
  import opened Text
  import opened MergeTree
  import opened Protocol
  import opened ColdPath
  import opened ColdTable
  import opened ExportValues
  import opened Parquet
  import opened ColdCopy
  import opened ColdTheorems

  /** Of two keys of one width, the bytes agree up to some place, and there the first is smaller. */
  ghost predicate BytesBelow(a: seq<Byte>, b: seq<Byte>) {
    exists n :: 0 <= n < |a| && n < |b| && a[n] < b[n] && forall i :: 0 <= i < n ==> a[i] == b[i]
  }

  lemma {:induction false} LexFirstDifference(a: seq<Byte>, b: seq<Byte>)
    requires |a| == |b| && LexLess(a, b)
    ensures BytesBelow(a, b)
  {
    if a[0] == b[0] {
      LexFirstDifference(a[1..], b[1..]);
      var n :| 0 <= n < |a[1..]| && n < |b[1..]| && a[1..][n] < b[1..][n] && forall i :: 0 <= i < n ==> a[1..][i] == b[1..][i];
      forall i | 0 <= i < n + 1
        ensures a[i] == b[i]
      {
        if i > 0 { assert a[1..][i - 1] == b[1..][i - 1]; }
      }
      assert a[n + 1] < b[n + 1];
    } else {
      assert a[0] < b[0];
    }
  }

  /** Slots ascend; at one slot write versions ascend; at one slot and version the keys do, byte by byte. */
  ghost predicate Before(slot: nat, version: nat, key: seq<Byte>, slot2: nat, version2: nat, key2: seq<Byte>) {
    slot < slot2 || (slot == slot2 && (version < version2 || (version == version2 && BytesBelow(key, key2))))
  }

  lemma FinalRowsWide(table: seq<Entry>)
    requires WideKeys(table)
    ensures WideKeys(OrderedFinal(table))
  {
    hide OrderedFinal, Final;
    var rows := OrderedFinal(table);
    forall i | 0 <= i < |rows|
      ensures |rows[i].row.pubkey| == KEY_BYTES && |rows[i].row.owner| == KEY_BYTES
    {
      assert rows[i] in rows;
      OrderedFinalMembers(table, rows[i]);
      FinalIsNewest(table, RawKey);
      var j :| 0 <= j < |table| && table[j] == rows[i];
    }
  }

  /** The query's rows are in order, no two with one key. */
  lemma QueryOrder(table: seq<Entry>, i: nat, j: nat)
    requires WideKeys(table) && i < j < |OrderedFinal(table)|
    ensures var a, b := OrderedFinal(table)[i].row, OrderedFinal(table)[j].row;
      Before(a.slot, a.writeVersion, a.pubkey, b.slot, b.writeVersion, b.pubkey)
  {
    hide OrderedFinal, LexLess, BytesBelow;
    var a, b := OrderedFinal(table)[i].row, OrderedFinal(table)[j].row;
    OrderedFinalIsFinal(table);
    FinalRowsWide(table);
    assert RowLess(a, b);
    if LexLess(a.pubkey, b.pubkey) { LexFirstDifference(a.pubkey, b.pubkey); }
  }

  /**
  What a reader of a full export gets: as many records as `FINAL` has rows, record
  by record the fields of a row that `FINAL` keeps, in slot, version and key order.
   */
  lemma FullExportOrder(table: seq<Entry>, files: map<Path, File>, dirs: seq<string>, i: nat, j: nat)
    requires table != [] && SlotsFit(table) && WideKeys(table) && StraysEmpty(table, files)
    requires Listing(ExportAll(table, files, true).files, dirs)
    ensures var read := ReadAll(ExportAll(table, files, true).files, dirs);
      && read.Ok? && |read.value| == |OrderedFinal(table)|
      && (i < j < |read.value| ==>
            var a, b := read.value[i], read.value[j]; Before(a.slot, a.writeVersion, a.pubkey, b.slot, b.writeVersion, b.pubkey))
      && (i < |read.value| ==>
            var a := read.value[i]; var key := Key(a.pubkey, a.slot, a.writeVersion);
            key in Final(table, RawKey) && (var e := Final(table, RawKey)[key];
              && a.kind == e.row.kind && a.owner == e.row.owner && a.lamports == e.row.lamports
              && a.data == e.row.data && a.dataLen == |e.row.data| && a.ingestedAt == e.at))
  {
    hide OrderedFinal, ExportAll, ReadAll, Listing, StraysEmpty, Before, SlotsFit, WideKeys, Final;
    FullExportIsFinal(table, files, dirs);
    var rows := OrderedFinal(table);
    if i < |rows| {
      RecordFields(rows, i);
      assert rows[i] in rows;
      OrderedFinalMembers(table, rows[i]);
    }
    if i < j < |rows| {
      RecordFields(rows, j);
      QueryOrder(table, i, j);
    }
  }
}
