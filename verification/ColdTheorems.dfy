/**
What the cold copy holds: after one full run, and after any history of
incremental ones (src/bin/parquet_export.rs, `main`).
 */
module ColdTheorems {
  import opened Wrappers
  import opened Text
  import opened MergeTree
  import opened Protocol
  import opened ColdPath
  import opened ColdTable
  import opened Parquet
  import opened ColdCopy

  // ------------------------------------------------------ reading the copy

  /** One file, or nothing readable. */
  function ReadOne(files: map<Path, File>, dir: string): Result<seq<Record>> {
    if FinalOf(dir) in files && files[FinalOf(dir)].Complete? then ReadFile(files[FinalOf(dir)].batches) else Err
  }

  /** The files of a list of directories, concatenated. */
  function ReadAll(files: map<Path, File>, dirs: seq<string>): Result<seq<Record>> {
    if dirs == [] then Ok([])
    else
      match ReadAll(files, dirs[..|dirs| - 1])
      case Err => Err
      case Ok(front) =>
        match ReadOne(files, dirs[|dirs| - 1])
        case Err => Err
        case Ok(rest) => Ok(front + rest)
  }

  ghost predicate LexSorted(dirs: seq<string>) {
    forall i, j :: 0 <= i < j < |dirs| ==> LexLess(Codes(dirs[i]), Codes(dirs[j]))
  }

  /** What an object store lists: the directories with a published file, in lexical order. */
  ghost predicate Listing(files: map<Path, File>, dirs: seq<string>) {
    LexSorted(dirs) && forall d: string :: d in dirs <==> FinalOf(d) in files
  }

  lemma LexLessStrict(a: string, b: string)
    ensures !(LexLess(Codes(a), Codes(b)) && LexLess(Codes(b), Codes(a)))
    ensures a == b ==> !LexLess(Codes(a), Codes(b))
  {
    LexTotal(Codes(a), Codes(b));
  }

  lemma LexTail(dirs: seq<string>, x: string)
    requires LexSorted(dirs) && dirs != []
    ensures x in dirs[1..] <==> x in dirs && x != dirs[0]
  {
    if dirs[0] in dirs[1..] {
      var i :| 0 <= i < |dirs| - 1 && dirs[1..][i] == dirs[0];
      LexLessStrict(dirs[0], dirs[i + 1]);
    }
  }

  lemma LexHead(a: seq<string>, b: seq<string>)
    requires LexSorted(a) && LexSorted(b) && a != [] && b != []
    requires forall x :: x in a <==> x in b
    ensures a[0] == b[0]
  {
    assert a[0] in b && b[0] in a;
    var i :| 0 <= i < |b| && b[i] == a[0];
    var j :| 0 <= j < |a| && a[j] == b[0];
    LexLessStrict(a[0], b[0]);
  }

  /** A lexical listing is determined by what it lists. */
  lemma {:induction false} ListingUnique(a: seq<string>, b: seq<string>)
    requires LexSorted(a) && LexSorted(b)
    requires forall x :: x in a <==> x in b
    ensures a == b
  {
    SomeMember(a);
    SomeMember(b);
    if a != [] && b != [] {
      LexHead(a, b);
      forall x
        ensures x in a[1..] <==> x in b[1..]
      {
        LexTail(a, x);
        LexTail(b, x);
      }
      ListingUnique(a[1..], b[1..]);
    }
  }

  // ------------------------------------------------------ the full export

  /** Directories of the first `n` partitions that have rows, in slot order. */
  function LiveDirs(table: seq<Entry>, n: nat): seq<string>
    requires table != [] || n == 0
  {
    if n == 0 then []
    else LiveDirs(table, n - 1) + (if PartRows(table, PartAt(table, n - 1)) != [] then [PartitionDir(PartAt(table, n - 1))] else [])
  }

  ghost predicate SlotsFit(table: seq<Entry>) {
    forall i :: 0 <= i < |table| ==> table[i].row.slot < TWELVE_DIGITS
  }

  lemma {:induction false} LiveDirsFrom(table: seq<Entry>, n: nat, d: string)
    requires table != []
    ensures d in LiveDirs(table, n) <==>
      exists i: nat :: i < n && d == PartitionDir(PartAt(table, i)) && PartRows(table, PartAt(table, i)) != []
  {
    hide PartRows, PartAt, PartitionDir;
    if n > 0 {
      LiveDirsFrom(table, n - 1, d);
    }
  }

  lemma PartsFit(table: seq<Entry>, i: nat)
    requires table != [] && SlotsFit(table) && i < Partitions(table)
    ensures PartAt(table, i) < TWELVE_DIGITS && Bucket(PartAt(table, i)) == PartAt(table, i)
  {
    hide PartAt, Last, Partitions;
    LastTurn(table, i);
    BoundsHold(table);
    LastFits(table);
    BucketOfMultiple(PartAt(table, i));
  }

  lemma LastFits(table: seq<Entry>)
    requires table != []
    ensures Last(table) <= MaxSlot(table)
  {
  }

  lemma PartsInOrder(table: seq<Entry>, i: nat, j: nat)
    requires table != [] && SlotsFit(table) && i < j < Partitions(table)
    ensures LexLess(Codes(PartitionDir(PartAt(table, i))), Codes(PartitionDir(PartAt(table, j))))
  {
    hide LexLess, PartitionDir, Partitions, First, Bucket;
    PartsFit(table, i);
    PartsFit(table, j);
    DirsInSlotOrder(PartAt(table, i), PartAt(table, j));
  }

  /** Slot order is lexical order. */
  lemma {:induction false} LiveDirsSorted(table: seq<Entry>, n: nat)
    requires table != [] && SlotsFit(table) && n <= Partitions(table)
    ensures LexSorted(LiveDirs(table, n))
  {
    hide LexLess, PartitionDir, PartAt, PartRows, Partitions;
    if n > 0 {
      LiveDirsSorted(table, n - 1);
      var front := LiveDirs(table, n - 1);
      forall k | 0 <= k < |front|
        ensures LexLess(Codes(front[k]), Codes(PartitionDir(PartAt(table, n - 1))))
      {
        LiveDirsFrom(table, n - 1, front[k]);
        var i: nat :| i < n - 1 && front[k] == PartitionDir(PartAt(table, i));
        PartsInOrder(table, i, n - 1);
      }
    }
  }

  /** Files left in other directories, by whatever, hold no rows. */
  ghost predicate StraysEmpty(table: seq<Entry>, files: map<Path, File>) {
    forall d: string :: FinalOf(d) in files && d !in LiveDirs(table, Partitions(table)) ==> ReadOne(files, d) == Ok([])
  }

  lemma VisitDirs(table: seq<Entry>, files: map<Path, File>, part: nat, last: nat, d: string)
    ensures FinalOf(d) in Visit(table, files, true, part, last).files <==>
            FinalOf(d) in files || (d == PartitionDir(part) && PartRows(table, part) != [])
    ensures !(d == PartitionDir(part) && PartRows(table, part) != []) ==> ReadOne(Visit(table, files, true, part, last).files, d) == ReadOne(files, d)
  {
    hide PartRows, PartitionDir, Batches, ReadFile;
  }

  lemma {:induction false} RunDirs(table: seq<Entry>, files: map<Path, File>, n: nat, d: string)
    requires table != [] && n <= Partitions(table)
    ensures FinalOf(d) in After(table, files, true, n).files <==> FinalOf(d) in files || d in LiveDirs(table, n)
    ensures d !in LiveDirs(table, n) ==> ReadOne(After(table, files, true, n).files, d) == ReadOne(files, d)
  {
    hide ReadOne, Visit, PartAt, PartRows, PartitionDir, Partitions, Last;
    if n > 0 {
      RunDirs(table, files, n - 1, d);
      VisitDirs(table, After(table, files, true, n - 1).files, PartAt(table, n - 1), Last(table), d);
    }
  }

  /** Each of the first `n` partitions with rows holds them. */
  ghost predicate HoldsParts(table: seq<Entry>, files: map<Path, File>, n: nat)
    requires table != []
  {
    forall i: nat :: i < n && PartRows(table, PartAt(table, i)) != [] ==> PublishedAt(files, PartAt(table, i)) == Some(FileOf(table, PartAt(table, i)))
  }

  lemma FullRunHolds(table: seq<Entry>, files: map<Path, File>)
    requires table != []
    ensures HoldsParts(table, ExportAll(table, files, true).files, Partitions(table))
  {
    hide PartRows, PublishedAt, After, Partitions, First, FileOf;
    var n := Partitions(table);
    forall i: nat | i < n && PartRows(table, PartAt(table, i)) != []
      ensures PublishedAt(ExportAll(table, files, true).files, PartAt(table, i)) == Some(FileOf(table, PartAt(table, i)))
    {
      LastTurn(table, i);
      RunEffect(table, files, true, n, PartAt(table, i));
    }
  }

  lemma ReadPart(table: seq<Entry>, files: map<Path, File>, part: nat)
    requires PublishedAt(files, part) == Some(FileOf(table, part))
    ensures ReadOne(files, PartitionDir(part)) == Ok(RecordsOf(PartRows(table, part)))
  {
    hide PartRows, PartitionDir, Batches, ReadFile;
    FileRoundTrip(RecordsOf(PartRows(table, part)));
  }

  lemma RecordsAppend(a: seq<Entry>, b: seq<Entry>)
    ensures RecordsOf(a) + RecordsOf(b) == RecordsOf(a + b)
  {
  }

  lemma ReadNext(files: map<Path, File>, dirs: seq<string>, dir: string, a: seq<Entry>, b: seq<Entry>)
    requires ReadAll(files, dirs) == Ok(RecordsOf(a)) && ReadOne(files, dir) == Ok(RecordsOf(b))
    ensures ReadAll(files, dirs + [dir]) == Ok(RecordsOf(a + b))
  {
    hide ReadOne, RecordsOf;
    assert (dirs + [dir])[..|dirs|] == dirs;
    RecordsAppend(a, b);
  }

  /** The rows of the first partitions, together. */
  function RowsTo(table: seq<Entry>, n: nat): seq<Entry>
    requires table != []
  {
    Range(OrderedFinal(table), First(table), PartAt(table, n))
  }

  lemma RowsToNext(table: seq<Entry>, n: nat)
    requires table != []
    ensures RowsTo(table, n + 1) == RowsTo(table, n) + PartRows(table, PartAt(table, n))
  {
    hide OrderedFinal, Range, First;
    OrderedFinalIsFinal(table);
    RangesTile(OrderedFinal(table), First(table), PartAt(table, n), PartAt(table, n + 1));
  }

  lemma {:induction false} RangeNone(rows: seq<Entry>, at: nat)
    ensures Range(rows, at, at) == []
  {
    if rows != [] { RangeNone(rows[1..], at); }
  }

  lemma RowsToNone(table: seq<Entry>)
    requires table != []
    ensures RowsTo(table, 0) == []
  {
    hide OrderedFinal, Range, First;
    RangeNone(OrderedFinal(table), First(table));
  }

  lemma {:induction false} ReadLive(table: seq<Entry>, files: map<Path, File>, n: nat)
    requires table != [] && HoldsParts(table, files, n)
    ensures ReadAll(files, LiveDirs(table, n)) == Ok(RecordsOf(RowsTo(table, n)))
  {
    hide PartRows, PartAt, PublishedAt, FileOf, RowsTo, PartitionDir, ReadOne, OrderedFinal, First;
    if n == 0 {
      RowsToNone(table);
    } else {
      var part := PartAt(table, n - 1);
      ReadLive(table, files, n - 1);
      RowsToNext(table, n - 1);
      if PartRows(table, part) != [] {
        ReadPart(table, files, part);
        ReadNext(files, LiveDirs(table, n - 1), PartitionDir(part), RowsTo(table, n - 1), PartRows(table, part));
      } else {
        assert LiveDirs(table, n - 1) + [] == LiveDirs(table, n - 1);
        assert RowsTo(table, n - 1) + [] == RowsTo(table, n - 1);
      }
    }
  }

  lemma {:induction false} TotalIsRows(table: seq<Entry>, files: map<Path, File>, full: bool, n: nat)
    requires table != [] && n <= Partitions(table)
    ensures After(table, files, full, n).total <= |RowsTo(table, n)|
    ensures full ==> After(table, files, full, n).total == |RowsTo(table, n)|
  {
    hide PartRows, PartAt, PublishedAt, RowsTo, PartitionDir, Published, OrderedFinal, Partitions, Last;
    if n == 0 {
      RowsToNone(table);
    } else {
      TotalIsRows(table, files, full, n - 1);
      RowsToNext(table, n - 1);
    }
  }

  /** Every row falls in one of the partitions. */
  lemma AllRows(table: seq<Entry>)
    requires table != []
    ensures RowsTo(table, Partitions(table)) == OrderedFinal(table)
  {
    hide OrderedFinal, Range;
    var rows, n := OrderedFinal(table), Partitions(table);
    LastTurn(table, n - 1);
    BoundsHold(table);
    forall x | x in rows
      ensures First(table) <= x.row.slot < PartAt(table, n)
    {
      OrderedFinalMembers(table, x);
      FinalIsNewest(table, RawKey);
      var i :| 0 <= i < |table| && table[i] == x;
      InSpan(table, i);
    }
    RangeAll(rows, First(table), PartAt(table, n));
  }

  lemma InSpan(table: seq<Entry>, i: nat)
    requires i < |table|
    ensures First(table) <= table[i].row.slot < Last(table) + W
  {
    BoundsHold(table);
  }

  /** The directories of a listing that are in another list. */
  function Keep(dirs: seq<string>, kept: seq<string>): seq<string> {
    if dirs == [] then []
    else
      var front := Keep(dirs[..|dirs| - 1], kept);
      if dirs[|dirs| - 1] in kept then front + [dirs[|dirs| - 1]] else front
  }

  lemma {:induction false} KeepSorted(dirs: seq<string>, kept: seq<string>)
    requires LexSorted(dirs)
    ensures LexSorted(Keep(dirs, kept)) && forall d :: d in Keep(dirs, kept) <==> d in dirs && d in kept
  {
    hide LexLess;
    if dirs != [] {
      var front, last := dirs[..|dirs| - 1], dirs[|dirs| - 1];
      KeepSorted(front, kept);
      assert dirs == front + [last];
      forall i | 0 <= i < |Keep(front, kept)|
        ensures LexLess(Codes(Keep(front, kept)[i]), Codes(last))
      {
        assert Keep(front, kept)[i] in front;
        var j :| 0 <= j < |front| && front[j] == Keep(front, kept)[i];
        assert dirs[j] == front[j];
      }
    }
  }

  lemma ReadSnoc(files: map<Path, File>, dirs: seq<string>, d: string)
    ensures ReadAll(files, dirs).Ok? && ReadOne(files, d).Ok? ==>
      ReadAll(files, dirs + [d]) == Ok(ReadAll(files, dirs).value + ReadOne(files, d).value)
    ensures ReadAll(files, dirs + [d]).Ok? ==> ReadAll(files, dirs).Ok? && ReadOne(files, d).Ok?
  {
    hide ReadOne;
    assert (dirs + [d])[..|dirs|] == dirs;
  }

  lemma KeepSnoc(dirs: seq<string>, kept: seq<string>, d: string)
    ensures Keep(dirs + [d], kept) == if d in kept then Keep(dirs, kept) + [d] else Keep(dirs, kept)
  {
    assert (dirs + [d])[..|dirs|] == dirs;
  }

  /** What is kept reads, and reads as everything when the rest holds no rows. */
  lemma {:induction false} ReadKept(files: map<Path, File>, dirs: seq<string>, kept: seq<string>)
    requires forall d :: d in dirs && d in kept ==> ReadOne(files, d).Ok?
    ensures ReadAll(files, Keep(dirs, kept)).Ok?
    ensures (forall d :: d in dirs && d !in kept ==> ReadOne(files, d) == Ok([])) ==> ReadAll(files, dirs) == ReadAll(files, Keep(dirs, kept))
  {
    if dirs != [] {
      hide ReadOne, ReadAll, Keep;
      var front, last := dirs[..|dirs| - 1], dirs[|dirs| - 1];
      assert dirs == front + [last];
      ReadKept(files, front, kept);
      KeepSnoc(front, kept, last);
      ReadSnoc(files, Keep(front, kept), last);
      ReadSnoc(files, front, last);
      if last !in kept && ReadOne(files, last) == Ok([]) && ReadAll(files, front).Ok? {
        assert ReadAll(files, front).value + [] == ReadAll(files, front).value;
      }
    }
  }

  /** If everything reads, it is longer than what is kept by the rows of the rest. */
  lemma {:induction false} ReadLonger(files: map<Path, File>, dirs: seq<string>, kept: seq<string>)
    requires ReadAll(files, dirs).Ok? && ReadAll(files, Keep(dirs, kept)).Ok?
    ensures |ReadAll(files, dirs).value| >= |ReadAll(files, Keep(dirs, kept)).value|
    ensures |ReadAll(files, dirs).value| == |ReadAll(files, Keep(dirs, kept)).value| ==> forall d :: d in dirs && d !in kept ==> ReadOne(files, d) == Ok([])
  {
    if dirs != [] {
      hide ReadOne, ReadAll, Keep;
      var front, last := dirs[..|dirs| - 1], dirs[|dirs| - 1];
      assert dirs == front + [last];
      KeepSnoc(front, kept, last);
      ReadSnoc(files, front, last);
      ReadSnoc(files, Keep(front, kept), last);
      ReadLonger(files, front, kept);
    }
  }

  /** Every live directory of the run reads as its rows. */
  lemma LiveReadable(table: seq<Entry>, files: map<Path, File>, d: string)
    requires table != [] && HoldsParts(table, files, Partitions(table)) && d in LiveDirs(table, Partitions(table))
    ensures ReadOne(files, d).Ok?
  {
    hide PartRows, PartAt, PartitionDir, ReadOne, PublishedAt, Partitions, FileOf, LiveDirs;
    LiveDirsFrom(table, Partitions(table), d);
    var i: nat :| i < Partitions(table) && d == PartitionDir(PartAt(table, i)) && PartRows(table, PartAt(table, i)) != [];
    ReadPart(table, files, PartAt(table, i));
  }

  /**
  A full export equals the deduplicated table: the files, concatenated in lexical
  directory order, are the `FINAL` rows in (slot, write_version, pubkey) order,
  each once, if and only if no other directory held rows before. The reported total
  is their number in any case.
   */
  lemma FullExportIsFinal(table: seq<Entry>, files: map<Path, File>, dirs: seq<string>)
    requires table != [] && SlotsFit(table)
    requires Listing(ExportAll(table, files, true).files, dirs)
    ensures ReadAll(ExportAll(table, files, true).files, dirs) == Ok(RecordsOf(OrderedFinal(table))) <==> StraysEmpty(table, files)
    ensures ExportAll(table, files, true).total == |OrderedFinal(table)|
  {
    hide After, PartRows, PartAt, LexLess, Partitions, HoldsParts, RowsTo, OrderedFinal, LiveDirs, ReadOne;
    var n := Partitions(table);
    var after, live := ExportAll(table, files, true).files, LiveDirs(table, n);
    forall d
      ensures FinalOf(d) in after <==> FinalOf(d) in files || d in live
      ensures d !in live ==> ReadOne(after, d) == ReadOne(files, d)
    {
      RunDirs(table, files, n, d);
    }
    LiveDirsSorted(table, n);
    KeepSorted(dirs, live);
    ListingUnique(Keep(dirs, live), live);
    FullRunHolds(table, files);
    forall d | d in live
      ensures ReadOne(after, d).Ok?
    {
      LiveReadable(table, after, d);
    }
    ReadKept(after, dirs, live);
    if ReadAll(after, dirs).Ok? { ReadLonger(after, dirs, live); }
    ReadLive(table, after, n);
    TotalIsRows(table, files, true, n);
    AllRows(table);
  }

  /** No run reports more rows than were inserted: the branch that reports a defect is dead. */
  lemma NeverMoreThanSource(table: seq<Entry>, files: map<Path, File>, full: bool)
    ensures ExportAll(table, files, full).total <= |OrderedFinal(table)| <= |table|
  {
    hide RowsTo, OrderedFinal, PartRows;
    OrderedFinalCount(table);
    if table != [] {
      TotalIsRows(table, files, full, Partitions(table));
      AllRows(table);
    }
  }
}
