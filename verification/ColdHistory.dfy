/**
The cold copy over a sequence of export runs, complete or cut short, against a
source that keeps growing (src/bin/parquet_export.rs, `main`): what each
partition file holds, and when the file of a skipped partition can be trusted.
 */
module ColdHistory {
  import opened Wrappers
  import opened Text
  import opened MergeTree
  import opened Protocol
  import opened ColdPath
  import opened ColdTable
  import opened Parquet
  import opened ColdCopy

  // ------------------------------------------------------- a growing source

  /**
  What the exporter assumes of its source, that the stream only moves forward: what
  is inserted later is at the newest slot or past it, or a replay of a row already there.
   */
  ghost predicate Forward(a: seq<Entry>, b: seq<Entry>) {
    && a <= b
    && forall i :: |a| <= i < |b| ==> Has(a, b[i].row) || (a != [] ==> b[i].row.slot >= MaxSlot(a))
  }

  lemma ForwardTrans(a: seq<Entry>, b: seq<Entry>, c: seq<Entry>)
    requires a != [] && Forward(a, b) && Forward(b, c)
    ensures Forward(a, c)
  {
    hide MaxSlot;
    MaxGrows(a, b);
    forall i | |a| <= i < |c|
      ensures Has(a, c[i].row) || c[i].row.slot >= MaxSlot(a)
    {
      if i < |b| {
        assert c[i] == b[i];
      } else if Has(b, c[i].row) {
        var j :| 0 <= j < |b| && b[j].row == c[i].row;
        if j < |a| { assert a[j] == b[j]; }
      }
    }
  }

  lemma MaxGrows(a: seq<Entry>, b: seq<Entry>)
    requires a != [] && a <= b
    ensures MaxSlot(a) <= MaxSlot(b)
  {
    BoundsHold(a);
    BoundsHold(b);
    var i :| 0 <= i < |a| && a[i].row.slot == MaxSlot(a);
    assert b[i] == a[i];
  }

  lemma PrefixFunctional(a: seq<Entry>, b: seq<Entry>)
    requires a <= b && Functional(b, RawKey)
    ensures Functional(a, RawKey)
  {
    forall i, j | 0 <= i < |a| && 0 <= j < |a| && RawKey(a[i].row) == RawKey(a[j].row)
      ensures a[i].row == a[j].row
    {
      assert a[i] == b[i] && a[j] == b[j];
    }
  }

  // ------------------------------------------- rows without their stamps

  /** The rows themselves; a replay changes only when a row was ingested. */
  function Bare(rows: seq<Entry>): (r: seq<Entry>)
    ensures |r| == |rows| && forall i :: 0 <= i < |rows| ==> r[i] == Stamped(rows[i].row, 0)
  {
    seq(|rows|, i requires 0 <= i < |rows| => Stamped(rows[i].row, 0))
  }

  function BarePart(table: seq<Entry>, part: nat): seq<Entry> {
    Bare(PartRows(table, part))
  }

  lemma BarePartSorted(table: seq<Entry>, part: nat)
    ensures Sorted(BarePart(table, part))
  {
    hide OrderedFinal, Range;
    OrderedFinalIsFinal(table);
    RangeSorted(OrderedFinal(table), part, part + W);
  }

  /** A partition holds exactly the rows ever inserted in its slots. */
  lemma BarePartExact(table: seq<Entry>, part: nat, x: Entry)
    requires Functional(table, RawKey)
    ensures x in BarePart(table, part) <==> x.at == 0 && part <= x.row.slot < part + W && Has(table, x.row)
  {
    hide OrderedFinal, Range, Final, RawKey;
    var rows := PartRows(table, part);
    if x in BarePart(table, part) {
      var i :| 0 <= i < |rows| && BarePart(table, part)[i] == x;
      PartRowInTable(table, part, rows[i]);
      var j :| 0 <= j < |table| && table[j] == rows[i];
    }
    if x.at == 0 && part <= x.row.slot < part + W && Has(table, x.row) {
      RowIsListed(table, part, x.row);
    }
  }

  lemma RowIsListed(table: seq<Entry>, part: nat, row: RawRow)
    requires Functional(table, RawKey) && part <= row.slot < part + W && Has(table, row)
    ensures Stamped(row, 0) in BarePart(table, part)
  {
    hide OrderedFinal, Range, Final, RawKey;
    FinalIsNewest(table, RawKey);
    var j :| 0 <= j < |table| && table[j].row == row;
    var e := Final(table, RawKey)[RawKey(row)];
    var k :| 0 <= k < |table| && table[k] == e;
    assert e.row == row;
    OrderedFinalMembers(table, e);
    RangeMembers(OrderedFinal(table), part, part + W);
    var rows := PartRows(table, part);
    var i :| 0 <= i < |rows| && rows[i] == e;
    assert BarePart(table, part)[i] == Stamped(row, 0);
  }

  /** A partition never loses a row. */
  lemma PartsGrow(a: seq<Entry>, b: seq<Entry>, part: nat, x: Entry)
    requires a <= b && Functional(b, RawKey) && x in BarePart(a, part)
    ensures x in BarePart(b, part)
  {
    hide BarePart, RawKey;
    PrefixFunctional(a, b);
    BarePartExact(a, part, x);
    BarePartExact(b, part, x);
    HasMore(a, b, x.row);
  }

  /** The partition before the one holding the newest slot is closed. */
  ghost predicate Closed(table: seq<Entry>, part: nat) {
    table != [] && part < Last(table)
  }

  lemma ClosedBelowMax(table: seq<Entry>, part: nat)
    requires part % W == 0 && Closed(table, part)
    ensures part + W <= MaxSlot(table)
  {
  }

  lemma ClosedStays(a: seq<Entry>, b: seq<Entry>, part: nat)
    requires part % W == 0 && Closed(a, part) && Forward(a, b) && Functional(b, RawKey)
    ensures BarePart(b, part) == BarePart(a, part)
  {
    hide BarePart, RawKey, MaxSlot, Last;
    ClosedBelowMax(a, part);
    PrefixFunctional(a, b);
    BarePartSorted(a, part);
    BarePartSorted(b, part);
    forall x
      ensures x in BarePart(a, part) <==> x in BarePart(b, part)
    {
      BarePartExact(a, part, x);
      BarePartExact(b, part, x);
      if x in BarePart(b, part) {
        var i :| 0 <= i < |b| && b[i].row == x.row;
        if i < |a| { assert a[i] == b[i]; }
      }
      if x in BarePart(a, part) { HasMore(a, b, x.row); }
    }
    SortedUnique(BarePart(a, part), BarePart(b, part));
  }

  /** No row was inserted in the partition that was not there already. */
  ghost predicate NothingNew(a: seq<Entry>, b: seq<Entry>, part: nat) {
    forall i :: |a| <= i < |b| && part <= b[i].row.slot < part + W ==> Has(a, b[i].row)
  }

  /** A growing table keeps a partition exactly while nothing new is inserted there. */
  lemma SamePartExact(a: seq<Entry>, b: seq<Entry>, part: nat)
    requires a <= b && Functional(b, RawKey)
    ensures BarePart(a, part) == BarePart(b, part) <==> NothingNew(a, b, part)
  {
    hide BarePart, RawKey, Functional;
    PrefixFunctional(a, b);
    if NothingNew(a, b, part) {
      BarePartSorted(a, part);
      BarePartSorted(b, part);
      forall x
        ensures x in BarePart(a, part) <==> x in BarePart(b, part)
      {
        NothingNewHas(a, b, part, x);
      }
      SortedUnique(BarePart(a, part), BarePart(b, part));
    }
    if BarePart(a, part) == BarePart(b, part) {
      forall i | |a| <= i < |b| && part <= b[i].row.slot < part + W
        ensures Has(a, b[i].row)
      {
        BarePartExact(a, part, Stamped(b[i].row, 0));
        BarePartExact(b, part, Stamped(b[i].row, 0));
      }
    }
  }

  lemma NothingNewHas(a: seq<Entry>, b: seq<Entry>, part: nat, x: Entry)
    requires a <= b && Functional(a, RawKey) && Functional(b, RawKey) && NothingNew(a, b, part)
    ensures x in BarePart(a, part) <==> x in BarePart(b, part)
  {
    hide BarePart, RawKey, Functional;
    BarePartExact(a, part, x);
    BarePartExact(b, part, x);
    if x in BarePart(a, part) { HasMore(a, b, x.row); }
    if x in BarePart(b, part) {
      var i :| 0 <= i < |b| && b[i].row == x.row;
      if i < |a| { assert a[i] == b[i]; }
    }
  }

  // --------------------------------------- an open partition can still grow

  function MaxVersion(table: seq<Entry>): nat {
    if table == [] then 0
    else
      var m := MaxVersion(table[..|table| - 1]);
      var v := table[|table| - 1].row.writeVersion;
      if v > m then v else m
  }

  lemma {:induction false} VersionsBelow(table: seq<Entry>)
    ensures forall i :: 0 <= i < |table| ==> table[i].row.writeVersion <= MaxVersion(table)
  {
    if table != [] {
      var front := table[..|table| - 1];
      VersionsBelow(front);
      assert forall i :: 0 <= i < |front| ==> table[i] == front[i];
    }
  }

  /** An update that has not been seen before. */
  function Fresh(table: seq<Entry>, slot: nat): Entry {
    Stamped(RawRow(slot, MaxVersion(table) + 1, seq(32, _ => 0), "", seq(32, _ => 0), 0, []), 0)
  }

  lemma FreshIsFunctional(table: seq<Entry>, slot: nat)
    requires Functional(table, RawKey)
    ensures Functional(table + [Fresh(table, slot)], RawKey) && !Has(table, Fresh(table, slot).row)
  {
    VersionsBelow(table);
  }

  lemma AppendForward(table: seq<Entry>, e: Entry)
    requires table != [] ==> e.row.slot >= MaxSlot(table)
    ensures Forward(table, table + [e])
  {
  }

  /** One more update, at the newest slot or past it, in a partition that is not closed. */
  lemma OpenGrows(table: seq<Entry>, part: nat, slot: nat)
    requires part % W == 0 && Functional(table, RawKey)
    requires part <= slot < part + W && (table != [] ==> slot >= MaxSlot(table))
    ensures var more := table + [Fresh(table, slot)];
      Forward(table, more) && Functional(more, RawKey) && Fresh(table, slot) in BarePart(more, part) && Fresh(table, slot) !in BarePart(table, part)
  {
    hide BarePart, RawKey, MaxSlot, MaxVersion;
    var e := Fresh(table, slot);
    var more := table + [e];
    FreshIsFunctional(table, slot);
    AppendForward(table, e);
    BarePartExact(table, part, e);
    BarePartExact(more, part, e);
    assert more[|table|].row == e.row;
  }

  lemma OpenSlot(table: seq<Entry>, part: nat) returns (slot: nat)
    requires part % W == 0 && !Closed(table, part)
    ensures part <= slot < part + W && (table != [] ==> slot >= MaxSlot(table))
  {
    slot := if table != [] && MaxSlot(table) > part then MaxSlot(table) else part;
  }

  /**
  Under that assumption a partition of the table keeps its rows for ever exactly
  when it is before the last one.
   */
  lemma ClosedForeverExact(table: seq<Entry>, part: nat)
    requires part % W == 0 && Functional(table, RawKey)
    ensures (forall later: seq<Entry> :: Forward(table, later) && Functional(later, RawKey) ==> BarePart(later, part) == BarePart(table, part))
            <==> Closed(table, part)
  {
    hide BarePart, RawKey, MaxSlot, Last, Fresh;
    if Closed(table, part) {
      forall later | Forward(table, later) && Functional(later, RawKey)
        ensures BarePart(later, part) == BarePart(table, part)
      {
        ClosedStays(table, later, part);
      }
    } else {
      var slot := OpenSlot(table, part);
      OpenGrows(table, part, slot);
    }
  }

  // --------------------------------------------------------------- histories

  /** One run of the program: the table as it found it, and how many turns it got through. */
  datatype ExportRun = ExportRun(table: seq<Entry>, full: bool, turns: nat)

  /** Two directories that differ in temporary files at most. */
  ghost predicate SamePublished(a: map<Path, File>, b: map<Path, File>) {
    forall d: string ::
      (FinalOf(d) in a <==> FinalOf(d) in b) && (FinalOf(d) in a ==> a[FinalOf(d)] == b[FinalOf(d)])
  }

  /** A failed run leaves what the turns before the failure published. */
  lemma FailureIsSamePublished(a: map<Path, File>, b: map<Path, File>, dir: string)
    requires OnlyTmpDiffers(a, b, dir)
    ensures SamePublished(a, b)
  {
    forall d: string
      ensures (FinalOf(d) in a <==> FinalOf(d) in b) && (FinalOf(d) in a ==> a[FinalOf(d)] == b[FinalOf(d)])
    {
      assert FinalOf(d) in a <==> FinalOf(d) in a - {TmpOf(dir)};
      assert FinalOf(d) in b <==> FinalOf(d) in b - {TmpOf(dir)};
    }
  }

  ghost predicate RunLeaves(run: ExportRun, before: map<Path, File>, after: map<Path, File>) {
    run.turns <= Partitions(run.table) && SamePublished(After(run.table, before, run.full, run.turns).files, after)
  }

  /** Export runs, complete or cut short, over one growing table, into a directory that began with nothing published. */
  ghost predicate History(runs: seq<ExportRun>, disks: seq<map<Path, File>>) {
    && |disks| == |runs| + 1
    && (forall d: string :: FinalOf(d) !in disks[0])
    && (forall k :: 0 <= k < |runs| ==> RunLeaves(runs[k], disks[k], disks[k + 1]))
    && (forall j, k :: 0 <= j <= k < |runs| ==> runs[j].table <= runs[k].table)
    && (forall k :: 0 <= k < |runs| ==> Functional(runs[k].table, RawKey))
  }

  /** Whether a run wrote the file of a partition. */
  predicate Wrote(run: ExportRun, before: map<Path, File>, p: nat) {
    Rewrites(run.table, before, run.full, run.turns, p)
  }

  /** The last of the first `k` runs that wrote the file of a partition. */
  ghost function LastWriter(runs: seq<ExportRun>, disks: seq<map<Path, File>>, k: nat, p: nat): (r: Option<nat>)
    requires k <= |runs| < |disks|
    ensures r.Some? ==> r.value < k
  {
    if k == 0 then None
    else if Wrote(runs[k - 1], disks[k - 1], p) then Some(k - 1)
    else LastWriter(runs, disks, k - 1, p)
  }

  lemma RunLeavesFile(run: ExportRun, before: map<Path, File>, after: map<Path, File>, p: nat)
    requires RunLeaves(run, before, after) && p % W == 0
    ensures PublishedAt(after, p) == if Wrote(run, before, p) then Some(FileOf(run.table, p)) else PublishedAt(before, p)
  {
    hide After, Partitions, FileOf, Rewrites, PartitionDir;
    RunEffect(run.table, before, run.full, run.turns, p);
    var files := After(run.table, before, run.full, run.turns).files;
    assert FinalOf(PartitionDir(p)) in files <==> FinalOf(PartitionDir(p)) in after;
  }

  lemma {:induction false} FileOfLastWriter(runs: seq<ExportRun>, disks: seq<map<Path, File>>, k: nat, p: nat)
    requires History(runs, disks) && k <= |runs| && p % W == 0
    ensures var w := LastWriter(runs, disks, k, p);
      if w.None? then PublishedAt(disks[k], p) == None
      else w.value < k && Wrote(runs[w.value], disks[w.value], p) && PublishedAt(disks[k], p) == Some(FileOf(runs[w.value].table, p))
  {
    hide Wrote, FileOf, RunLeaves, Forward, RawKey, Functional, PartitionDir;
    if k > 0 {
      FileOfLastWriter(runs, disks, k - 1, p);
      RunLeavesFile(runs[k - 1], disks[k - 1], disks[k], p);
    } else {
      assert FinalOf(PartitionDir(p)) !in disks[0];
    }
  }

  /**
  The file of a partition holds the partition as of the run that wrote it last:
  never a row the source does not have now, and every row it has now exactly when
  nothing new was inserted there since. Had the stream only moved forward, a
  partition closed when written would be such a one.
   */
  lemma FilesAreSubsets(runs: seq<ExportRun>, disks: seq<map<Path, File>>, p: nat)
    requires History(runs, disks) && runs != [] && p % W == 0
    ensures var w := LastWriter(runs, disks, |runs|, p); var now := runs[|runs| - 1].table;
      if w.None? then PublishedAt(disks[|runs|], p) == None
      else (
        var written := runs[w.value].table;
        && PublishedAt(disks[|runs|], p) == Some(FileOf(written, p))
        && (forall x :: x in BarePart(written, p) ==> x in BarePart(now, p))
        && (BarePart(written, p) == BarePart(now, p) <==> NothingNew(written, now, p))
        && (Forward(written, now) && Closed(written, p) ==> BarePart(written, p) == BarePart(now, p)))
  {
    hide BarePart, RawKey, Functional, FileOf, Wrote, RunLeaves, PublishedAt, Closed, LastWriter, Forward, NothingNew;
    FileOfLastWriter(runs, disks, |runs|, p);
    var w := LastWriter(runs, disks, |runs|, p);
    if w.Some? {
      var a, b := runs[w.value].table, runs[|runs| - 1].table;
      forall x | x in BarePart(a, p)
        ensures x in BarePart(b, p)
      {
        PartsGrow(a, b, p, x);
      }
      SamePartExact(a, b, p);
      if Forward(a, b) && Closed(a, p) {
        ClosedStays(a, b, p);
      }
    }
  }

  /** A run that reaches a partition leaves it exact when the file was missing, when it is the last one, or on a full run. */
  lemma VisitedIsExact(runs: seq<ExportRun>, disks: seq<map<Path, File>>, p: nat)
    requires History(runs, disks) && runs != [] && p % W == 0
    requires var run := runs[|runs| - 1];
      run.table != [] && First(run.table) <= p < PartAt(run.table, run.turns) && PartRows(run.table, p) != []
    requires var run := runs[|runs| - 1]; run.full || p == Last(run.table) || PublishedAt(disks[|runs| - 1], p) == None
    ensures PublishedAt(disks[|runs|], p) == Some(FileOf(runs[|runs| - 1].table, p))
  {
    hide RawKey, Functional, FileOf, RunLeaves, PublishedAt, PartRows, Last, First, PartAt;
    var k := |runs| - 1;
    RunLeavesFile(runs[k], disks[k], disks[k + 1], p);
  }

  // ------------------------------------------------------- the stale file

  lemma LastPartHasRows(table: seq<Entry>)
    requires table != []
    ensures PartRows(table, Last(table)) != []
  {
    hide OrderedFinal, Range, Final;
    BoundsHold(table);
    var i :| 0 <= i < |table| && table[i].row.slot == MaxSlot(table);
    FinalIsNewest(table, RawKey);
    var e := Final(table, RawKey)[RawKey(table[i].row)];
    OrderedFinalMembers(table, e);
    RangeMembers(OrderedFinal(table), Last(table), Last(table) + W);
    assert e in PartRows(table, Last(table));
  }

  /** A complete run always rewrites the last partition. */
  lemma LastPartWritten(table: seq<Entry>, files: map<Path, File>, full: bool)
    requires table != []
    ensures PublishedAt(ExportAll(table, files, full).files, Last(table)) == Some(FileOf(table, Last(table)))
  {
    hide PartRows, PublishedAt, After, FileOf;
    LastTurn(table, Partitions(table) - 1);
    LastPartHasRows(table);
    RunEffect(table, files, full, Partitions(table), Last(table));
  }

  /** A file before the last partition is not rewritten by an incremental run. */
  lemma FinishedIsSkipped(table: seq<Entry>, files: map<Path, File>, p: nat)
    requires table != [] && p % W == 0 && p != Last(table) && PublishedAt(files, p).Some?
    ensures PublishedAt(ExportAll(table, files, false).files, p) == PublishedAt(files, p)
  {
    hide PartRows, PublishedAt, After, FileOf, Partitions, Last;
    RunEffect(table, files, false, Partitions(table), p);
  }

  lemma MaxSnoc(table: seq<Entry>, e: Entry)
    requires table != [] ==> e.row.slot >= MaxSlot(table)
    ensures MaxSlot(table + [e]) == e.row.slot
  {
    assert (table + [e])[..|table|] == table;
  }

  lemma FreshSlot(table: seq<Entry>, slot: nat)
    ensures Fresh(table, slot).row.slot == slot
  {
  }

  lemma LastAround(table: seq<Entry>)
    requires table != []
    ensures Last(table) <= MaxSlot(table) < Last(table) + W && Last(table) % W == 0
  {
  }

  /** One update at the newest slot, then one in the next partition. */
  lemma MoveOn(table: seq<Entry>) returns (later: seq<Entry>)
    requires table != [] && Functional(table, RawKey)
    ensures Forward(table, later) && Functional(later, RawKey)
    ensures later != [] && Last(table) < Last(later)
    ensures BarePart(later, Last(table)) != BarePart(table, Last(table))
  {
    hide BarePart, RawKey, Fresh, Functional, MaxSlot, Last, Forward;
    var p, slot := Last(table), MaxSlot(table);
    LastAround(table);
    OpenGrows(table, p, slot);
    FreshSlot(table, slot);
    MaxSnoc(table, Fresh(table, slot));
    var more := table + [Fresh(table, slot)];
    var e := Fresh(more, p + W);
    FreshSlot(more, p + W);
    FreshIsFunctional(more, p + W);
    AppendForward(more, e);
    MaxSnoc(more, e);
    later := more + [e];
    LastAround(later);
    ForwardTrans(table, more, later);
    PartsGrow(more, later, p, Fresh(table, slot));
  }

  /**
  A closed partition that was written while it was the last one is skipped with
  its old contents: whatever the table and the directory, some forward-only
  continuation makes the next incremental run leave a file that lacks rows.
   */
  lemma StaleFileIsSkipped(table: seq<Entry>, files: map<Path, File>, full: bool)
    requires table != [] && Functional(table, RawKey)
    ensures exists later: seq<Entry> ::
        && Forward(table, later) && Functional(later, RawKey) && Closed(later, Last(table))
        && PublishedAt(ExportAll(later, ExportAll(table, files, full).files, false).files, Last(table)) == Some(FileOf(table, Last(table)))
        && BarePart(later, Last(table)) != BarePart(table, Last(table))
  {
    hide BarePart, RawKey, Functional, Forward, FileOf, PublishedAt, ExportAll, Last;
    LastAround(table);
    var later := MoveOn(table);
    LastPartWritten(table, files, full);
    FinishedIsSkipped(later, ExportAll(table, files, full).files, Last(table));
  }
}
