/**
The export as a whole (src/bin/parquet_export.rs, `main`): which partitions a run
writes, and what the directory then holds.
 */
module ColdCopy {
  import opened Wrappers
  import opened Text
  import opened MergeTree
  import opened Protocol
  import opened ColdPath
  import opened ColdTable
  import opened ExportValues
  import opened Parquet

  const W: nat := SLOTS_PER_PARTITION

  // ------------------------------------------------------- rows and records

  /** What the query sends for one row: keys through `hex()`. */
  function ExportRowOf(e: Entry): ExportRow {
    ExportRow(e.row.slot, e.row.writeVersion, Hex(e.row.pubkey, UPPER_DIGITS), e.row.kind, Hex(e.row.owner, UPPER_DIGITS),
              e.row.lamports, e.row.data, |e.row.data|, e.at)
  }

  function RecordOf(e: Entry): Record {
    Record(e.row.slot, e.row.writeVersion, e.row.pubkey, e.row.kind, e.row.owner, e.row.lamports, e.row.data, |e.row.data|, e.at)
  }

  /** The table row a record stands for. */
  function EntryOf(r: Record): Entry {
    Stamped(RawRow(r.slot, r.writeVersion, r.pubkey, r.kind, r.owner, r.lamports, r.data), r.ingestedAt)
  }

  /** `FixedString(32)`. */
  predicate WideKeys(rows: seq<Entry>) {
    forall i :: 0 <= i < |rows| ==> |rows[i].row.pubkey| == KEY_BYTES && |rows[i].row.owner| == KEY_BYTES
  }

  function ExportRowsOf(rows: seq<Entry>): (r: seq<ExportRow>)
    ensures |r| == |rows| && forall i :: 0 <= i < |rows| ==> r[i] == ExportRowOf(rows[i])
  {
    seq(|rows|, i requires 0 <= i < |rows| => ExportRowOf(rows[i]))
  }

  function RecordsOf(rows: seq<Entry>): (r: seq<Record>)
    ensures |r| == |rows| && forall i :: 0 <= i < |rows| ==> r[i] == RecordOf(rows[i])
  {
    seq(|rows|, i requires 0 <= i < |rows| => RecordOf(rows[i]))
  }

  function EntriesOf(rs: seq<Record>): (r: seq<Entry>)
    ensures |r| == |rs| && forall i :: 0 <= i < |rs| ==> r[i] == EntryOf(rs[i])
  {
    seq(|rs|, i requires 0 <= i < |rs| => EntryOf(rs[i]))
  }

  /** The exporter reads every row of the query, as the row the table holds. */
  lemma RowsSurviveHex(rows: seq<Entry>)
    requires WideKeys(rows)
    ensures Readable(ExportRowsOf(rows)) && Records(ExportRowsOf(rows)) == RecordsOf(rows)
    ensures EntriesOf(RecordsOf(rows)) == rows
  {
    forall i | 0 <= i < |rows|
      ensures ReadRow(ExportRowOf(rows[i])) == Ok(RecordOf(rows[i]))
    {
      HexKeyRoundTrip(rows[i].row.pubkey, UPPER_DIGITS);
      HexKeyRoundTrip(rows[i].row.owner, UPPER_DIGITS);
    }
  }

  /** The record of a row has the row's fields, each under its own name. */
  lemma RecordFields(rows: seq<Entry>, i: nat)
    requires i < |rows|
    ensures var r := RecordsOf(rows)[i]; var e := rows[i];
      && r.slot == e.row.slot && r.writeVersion == e.row.writeVersion && r.pubkey == e.row.pubkey && r.kind == e.row.kind
      && r.owner == e.row.owner && r.lamports == e.row.lamports && r.data == e.row.data && r.dataLen == |e.row.data| && r.ingestedAt == e.at
  {
  }

  // ------------------------------------------------------------ the bounds

  function MaxSlot(table: seq<Entry>): nat
    requires table != []
  {
    var s := table[|table| - 1].row.slot;
    if |table| == 1 then s else (var m := MaxSlot(table[..|table| - 1]); if s > m then s else m)
  }

  function MinSlot(table: seq<Entry>): nat
    requires table != []
  {
    var s := table[|table| - 1].row.slot;
    if |table| == 1 then s else (var m := MinSlot(table[..|table| - 1]); if s < m then s else m)
  }

  lemma {:induction false} BoundsHold(table: seq<Entry>)
    requires table != []
    ensures forall i :: 0 <= i < |table| ==> MinSlot(table) <= table[i].row.slot <= MaxSlot(table)
    ensures exists i :: 0 <= i < |table| && table[i].row.slot == MaxSlot(table)
  {
    if |table| > 1 {
      var front := table[..|table| - 1];
      BoundsHold(front);
      var i :| 0 <= i < |front| && front[i].row.slot == MaxSlot(front);
      assert table[i] == front[i];
      assert forall j :: 0 <= j < |front| ==> table[j] == front[j];
    }
  }

  // ----------------------------------------------------- one run of the loop

  /** The rows of the partition starting at `part`. */
  function PartRows(table: seq<Entry>, part: nat): seq<Entry> {
    Range(OrderedFinal(table), part, part + W)
  }

  function PublishedAt(files: map<Path, File>, part: nat): Option<File> {
    var p := FinalOf(PartitionDir(part));
    if p in files then Some(files[p]) else None
  }

  /** Only the last partition can still grow, so a finished file before it is not redone. */
  predicate Skips(files: map<Path, File>, full: bool, part: nat, last: nat) {
    !full && part != last && PublishedAt(files, part).Some?
  }

  datatype Exported = Exported(files: map<Path, File>, total: nat)

  /** One turn of the loop: skip the partition, or publish its rows. */
  function Visit(table: seq<Entry>, files: map<Path, File>, full: bool, part: nat, last: nat): Exported {
    if Skips(files, full, part, last) then Exported(files, 0)
    else Exported(Published(files, PartitionDir(part), RecordsOf(PartRows(table, part))), |PartRows(table, part)|)
  }

  function First(table: seq<Entry>): nat
    requires table != []
  {
    Bucket(MinSlot(table))
  }

  function Last(table: seq<Entry>): nat
    requires table != []
  {
    Bucket(MaxSlot(table))
  }

  /** Partitions from the one with the least slot to the one with the greatest. */
  function Partitions(table: seq<Entry>): nat {
    if table == [] then 0 else (MaxSlot(table) / W - MinSlot(table) / W) + 1
  }

  function PartAt(table: seq<Entry>, i: nat): nat
    requires table != []
  {
    First(table) + i * W
  }

  /** The first `n` turns of a run: the whole of it, or one cut short. */
  function After(table: seq<Entry>, files: map<Path, File>, full: bool, n: nat): Exported
    requires n <= Partitions(table)
  {
    if n == 0 then Exported(files, 0)
    else
      var a := After(table, files, full, n - 1);
      var v := Visit(table, a.files, full, PartAt(table, n - 1), Last(table));
      Exported(v.files, a.total + v.total)
  }

  /** A complete run over a table. */
  function ExportAll(table: seq<Entry>, files: map<Path, File>, full: bool): Exported {
    After(table, files, full, Partitions(table))
  }

  lemma LastTurn(table: seq<Entry>, i: nat)
    requires table != []
    ensures PartAt(table, i) <= Last(table) <==> i < Partitions(table)
    ensures PartAt(table, i) % W == 0 && Last(table) % W == 0 && Last(table) == PartAt(table, Partitions(table) - 1)
  {
    BoundsHold(table);
    Quotients(MinSlot(table), MaxSlot(table));
  }

  lemma Quotients(a: nat, b: nat)
    requires a <= b
    ensures a / W <= b / W
  {
  }

  /** One turn of the loop, as the program runs it. */
  method VisitPartition(table: seq<Entry>, full: bool, part: nat, last: nat, broken: bool, disk: Disk) returns (r: Result<nat>)
    requires WideKeys(table)
    modifies disk
    ensures r.Ok? ==> Visit(table, old(disk.files), full, part, last) == Exported(disk.files, r.value)
    ensures r.Err? ==> OnlyTmpDiffers(old(disk.files), disk.files, PartitionDir(part)) && (broken || disk.left == 0)
  {
    if !full && part != last && FinalOf(PartitionDir(part)) in disk.files {
      return Ok(0);
    }
    var rows := PartRows(table, part);
    PartRowsWide(table, part);
    RowsSurviveHex(rows);
    r := ExportPartition(ExportRowsOf(rows), broken, disk, PartitionDir(part));
  }

  /** The program stands at turn `n`, having exported `total` rows. */
  ghost predicate Reached(table: seq<Entry>, before: map<Path, File>, full: bool, n: nat, files: map<Path, File>, total: nat) {
    n <= Partitions(table) && After(table, before, full, n) == Exported(files, total)
  }

  lemma ReachedStart(table: seq<Entry>, before: map<Path, File>, full: bool)
    ensures Reached(table, before, full, 0, before, 0)
    ensures table == [] ==> Partitions(table) == 0
  {
  }

  lemma ReachedNext(table: seq<Entry>, before: map<Path, File>, full: bool, n: nat, files: map<Path, File>, total: nat, v: Exported)
    requires table != [] && n < Partitions(table) && Reached(table, before, full, n, files, total)
    requires v == Visit(table, files, full, PartAt(table, n), Last(table))
    ensures Reached(table, before, full, n + 1, v.files, total + v.total)
  {
  }

  /**
  Export a table. `broken` holds the partitions whose row stream ends in an error.
  Success leaves the complete run; a failure at some partition leaves the run as
  far as that partition, but for one temporary file.
   */
  method ExportTable(table: seq<Entry>, full: bool, broken: set<nat>, disk: Disk) returns (r: Result<nat>, ghost n: nat)
    requires WideKeys(table)
    modifies disk
    ensures r.Ok? ==> ExportAll(table, old(disk.files), full) == Exported(disk.files, r.value)
    ensures r.Err? ==> n < Partitions(table) && OnlyTmpDiffers(After(table, old(disk.files), full, n).files, disk.files, PartitionDir(PartAt(table, n)))
    ensures r.Err? ==> PartAt(table, n) in broken || disk.left == 0
  {
    hide After, Visit, Bucket, MinSlot, MaxSlot;
    n := 0;
    ReachedStart(table, disk.files, full);
    if table == [] {
      return Ok(0), 0;
    }
    var total, part, last := 0, First(table), Last(table);
    ghost var before := disk.files;
    LastTurn(table, 0);
    while part <= last
      invariant part == PartAt(table, n)
      invariant part <= last <==> n < Partitions(table)
      invariant Reached(table, before, full, n, disk.files, total)
      decreases last + W - part
    {
      ghost var files := disk.files;
      var v := VisitPartition(table, full, part, last, part in broken, disk);
      if v.Err? {
        return Err, n;
      }
      ReachedNext(table, before, full, n, files, total, Exported(disk.files, v.value));
      LastTurn(table, n + 1);
      total := total + v.value;
      part := part + W;
      n := n + 1;
    }
    r := Ok(total);
  }

  lemma PartRowsWide(table: seq<Entry>, part: nat)
    requires WideKeys(table)
    ensures WideKeys(PartRows(table, part))
  {
    var rows := PartRows(table, part);
    forall i | 0 <= i < |rows|
      ensures |rows[i].row.pubkey| == KEY_BYTES && |rows[i].row.owner| == KEY_BYTES
    {
      PartRowInTable(table, part, rows[i]);
      var j :| 0 <= j < |table| && table[j] == rows[i];
    }
  }

  lemma PartRowInTable(table: seq<Entry>, part: nat, x: Entry)
    requires x in PartRows(table, part)
    ensures x in table && part <= x.row.slot < part + W
  {
    RangeMembers(OrderedFinal(table), part, part + W);
    OrderedFinalMembers(table, x);
    FinalIsNewest(table, RawKey);
  }

  // ------------------------------------------ what a run leaves, file by file

  function FileOf(table: seq<Entry>, part: nat): File {
    Complete(Batches(RecordsOf(PartRows(table, part))))
  }

  /** This run, so far, has written the file of partition `p`. */
  predicate Rewrites(table: seq<Entry>, files: map<Path, File>, full: bool, n: nat, p: nat) {
    table != [] && First(table) <= p < PartAt(table, n) && !Skips(files, full, p, Last(table)) && PartRows(table, p) != []
  }

  /** A run rewrites exactly the partitions it does not skip and that have rows. */
  lemma {:induction false} RunEffect(table: seq<Entry>, files: map<Path, File>, full: bool, n: nat, p: nat)
    requires n <= Partitions(table) && p % W == 0
    ensures PublishedAt(After(table, files, full, n).files, p) ==
            if Rewrites(table, files, full, n, p) then Some(FileOf(table, p)) else PublishedAt(files, p)
  {
    hide Visit, Bucket, PartRows, FileOf, Rewrites, PartAt, Last, PublishedAt;
    NothingRewritten(table, files, full, p);
    if n > 0 {
      RunEffect(table, files, full, n - 1, p);
      LastTurn(table, n - 1);
      RewritesNext(table, files, full, n, p);
      LastTurn(table, n - 1);
      VisitEffect(table, After(table, files, full, n - 1).files, full, PartAt(table, n - 1), Last(table), p);
    }
  }

  lemma NothingRewritten(table: seq<Entry>, files: map<Path, File>, full: bool, p: nat)
    ensures !Rewrites(table, files, full, 0, p)
  {
  }

  /** Turn `n` adds its own partition, and no other, to the ones rewritten. */
  lemma RewritesNext(table: seq<Entry>, files: map<Path, File>, full: bool, n: nat, p: nat)
    requires 0 < n <= Partitions(table) && p % W == 0
    ensures Rewrites(table, files, full, n, p) <==>
            Rewrites(table, files, full, n - 1, p) || (p == PartAt(table, n - 1) && !Skips(files, full, p, Last(table)) && PartRows(table, p) != [])
    ensures PartAt(table, n - 1) == p ==> !Rewrites(table, files, full, n - 1, p)
  {
    hide Skips, PartRows;
    LastTurn(table, 0);
    SamePartition(First(table), n - 1, p);
  }

  lemma SamePartition(first: nat, i: nat, p: nat)
    requires first % W == 0 && p % W == 0
    ensures first + i * W <= p < first + i * W + W ==> p == first + i * W
  {
  }

  lemma VisitEffect(table: seq<Entry>, files: map<Path, File>, full: bool, part: nat, last: nat, p: nat)
    requires part % W == 0 && p % W == 0
    ensures PublishedAt(Visit(table, files, full, part, last).files, p) ==
            if p == part && !Skips(files, full, p, last) && PartRows(table, p) != [] then Some(FileOf(table, p)) else PublishedAt(files, p)
  {
    DirInjective(part, p);
    BucketOfMultiple(part);
    BucketOfMultiple(p);
  }

  lemma BucketOfMultiple(n: nat)
    requires n % W == 0
    ensures Bucket(n) == n
  {
  }
}
