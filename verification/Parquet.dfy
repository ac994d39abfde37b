/**
Writing one partition (src/bin/parquet_export.rs): rows into columns, columns into
batches, batches into a temporary file, and the file into place.
 */
module Parquet {
  import opened Wrappers
  import opened Text
  import opened ExportValues

  const BATCH_ROWS: nat := 8192

  // ---------------------------------------------------------------- records

  /** One row as the query returns it, keys in hex. */
  datatype ExportRow = ExportRow(slot: nat, writeVersion: nat, pubkeyHex: string, kind: string, ownerHex: string,
                                 lamports: nat, data: seq<Byte>, dataLen: nat, ingestedAt: nat)

  /** One row as the file holds it. */
  datatype Record = Record(slot: nat, writeVersion: nat, pubkey: seq<Byte>, kind: string, owner: seq<Byte>,
                           lamports: nat, data: seq<Byte>, dataLen: nat, ingestedAt: nat)

  function ReadRow(row: ExportRow): Result<Record> {
    match DecodedKey(row.pubkeyHex)
    case Err => Err
    case Ok(pubkey) =>
      match DecodedKey(row.ownerHex)
      case Err => Err
      case Ok(owner) => Ok(Record(row.slot, row.writeVersion, pubkey, row.kind, owner, row.lamports, row.data, row.dataLen, row.ingestedAt))
  }

  predicate Readable(rows: seq<ExportRow>) {
    forall i :: 0 <= i < |rows| ==> ReadRow(rows[i]).Ok?
  }

  function Records(rows: seq<ExportRow>): (r: seq<Record>)
    requires Readable(rows)
    ensures |r| == |rows|
  {
    seq(|rows|, i requires 0 <= i < |rows| => ReadRow(rows[i]).value)
  }

  // ---------------------------------------------------------------- columns

  datatype RecordBatch = RecordBatch(slot: seq<nat>, writeVersion: seq<nat>, pubkey: seq<seq<Byte>>, kind: seq<string>, owner: seq<seq<Byte>>,
                                     lamports: seq<nat>, data: seq<seq<Byte>>, dataLen: seq<nat>, ingestedAt: seq<nat>)

  const NO_COLUMNS := RecordBatch([], [], [], [], [], [], [], [], [])

  /** One row appended to every column. */
  function WithRow(b: RecordBatch, r: Record): RecordBatch {
    RecordBatch(b.slot + [r.slot], b.writeVersion + [r.writeVersion], b.pubkey + [r.pubkey], b.kind + [r.kind], b.owner + [r.owner],
                b.lamports + [r.lamports], b.data + [r.data], b.dataLen + [r.dataLen], b.ingestedAt + [r.ingestedAt])
  }

  function Transpose(rs: seq<Record>): RecordBatch {
    if rs == [] then NO_COLUMNS else WithRow(Transpose(rs[..|rs| - 1]), rs[|rs| - 1])
  }

  predicate Rectangular(b: RecordBatch) {
    |b.slot| == |b.writeVersion| == |b.pubkey| == |b.kind| == |b.owner| == |b.lamports| == |b.data| == |b.dataLen| == |b.ingestedAt|
  }

  function RowAt(b: RecordBatch, i: nat): Record
    requires Rectangular(b) && i < |b.slot|
  {
    Record(b.slot[i], b.writeVersion[i], b.pubkey[i], b.kind[i], b.owner[i], b.lamports[i], b.data[i], b.dataLen[i], b.ingestedAt[i])
  }

  /** Reading a batch back row by row. */
  function Untranspose(b: RecordBatch): seq<Record>
    requires Rectangular(b)
  {
    seq(|b.slot|, i requires 0 <= i < |b.slot| => RowAt(b, i))
  }

  lemma {:induction false} TransposeRoundTrip(rs: seq<Record>)
    ensures Rectangular(Transpose(rs)) && |Transpose(rs).slot| == |rs|
    ensures forall j :: 0 <= j < |rs| ==> RowAt(Transpose(rs), j) == rs[j]
  {
    if rs != [] {
      var front := rs[..|rs| - 1];
      TransposeRoundTrip(front);
      forall j | 0 <= j < |rs|
        ensures RowAt(Transpose(rs), j) == rs[j]
      {
        RowAtWithRow(Transpose(front), rs[|rs| - 1], j);
      }
    }
  }

  /** All columns have the length of the batch, and each column holds, row by row, the field of its name. */
  lemma {:induction false} ColumnsHoldFields(rs: seq<Record>)
    ensures var b := Transpose(rs);
      && |b.slot| == |b.writeVersion| == |b.pubkey| == |b.kind| == |b.owner| == |b.lamports| == |b.data| == |b.dataLen| == |b.ingestedAt| == |rs|
      && forall j :: 0 <= j < |rs| ==>
           && b.slot[j] == rs[j].slot && b.writeVersion[j] == rs[j].writeVersion && b.pubkey[j] == rs[j].pubkey
           && b.kind[j] == rs[j].kind && b.owner[j] == rs[j].owner && b.lamports[j] == rs[j].lamports
           && b.data[j] == rs[j].data && b.dataLen[j] == rs[j].dataLen && b.ingestedAt[j] == rs[j].ingestedAt
  {
    if rs != [] {
      ColumnsHoldFields(rs[..|rs| - 1]);
    }
  }

  /** A row that is read has the fields it was sent with, keys in bytes. */
  lemma ReadRowFields(row: ExportRow)
    ensures ReadRow(row).Ok? <==> DecodedKey(row.pubkeyHex).Ok? && DecodedKey(row.ownerHex).Ok?
    ensures ReadRow(row).Ok? ==> (var r := ReadRow(row).value;
      && Ok(r.pubkey) == DecodedKey(row.pubkeyHex) && Ok(r.owner) == DecodedKey(row.ownerHex)
      && r.slot == row.slot && r.writeVersion == row.writeVersion && r.kind == row.kind && r.lamports == row.lamports
      && r.data == row.data && r.dataLen == row.dataLen && r.ingestedAt == row.ingestedAt)
  {
  }

  lemma RowAtWithRow(b: RecordBatch, r: Record, j: nat)
    requires Rectangular(b) && j <= |b.slot|
    ensures RowAt(WithRow(b, r), j) == if j < |b.slot| then RowAt(b, j) else r
  {
  }

  lemma TransposeSnoc(rs: seq<Record>, r: Record)
    ensures Transpose(rs + [r]) == WithRow(Transpose(rs), r)
  {
    assert (rs + [r])[..|rs|] == rs;
  }

  lemma UntransposeTranspose(rs: seq<Record>)
    ensures Rectangular(Transpose(rs)) && Untranspose(Transpose(rs)) == rs
  {
    TransposeRoundTrip(rs);
  }

  /** The batches of a file: full ones, then one that holds what is left. */
  function Batches(rs: seq<Record>): seq<RecordBatch>
    decreases |rs|
  {
    if rs == [] then []
    else if |rs| <= BATCH_ROWS then [Transpose(rs)]
    else [Transpose(rs[..BATCH_ROWS])] + Batches(rs[BATCH_ROWS..])
  }

  /** Reading a file back, batch by batch. */
  function ReadFile(bs: seq<RecordBatch>): Result<seq<Record>> {
    if bs == [] then Ok([])
    else if !Rectangular(bs[0]) then Err
    else
      match ReadFile(bs[1..])
      case Err => Err
      case Ok(rest) => Ok(Untranspose(bs[0]) + rest)
  }

  /** What was written is what is read, in order. */
  lemma {:induction false} FileRoundTrip(rs: seq<Record>)
    ensures ReadFile(Batches(rs)) == Ok(rs)
    decreases |rs|
  {
    hide Transpose, Untranspose, Rectangular;
    if rs != [] {
      if |rs| <= BATCH_ROWS {
        UntransposeTranspose(rs);
        assert Batches(rs)[1..] == [];
        assert rs + [] == rs;
      } else {
        UntransposeTranspose(rs[..BATCH_ROWS]);
        FileRoundTrip(rs[BATCH_ROWS..]);
        assert Batches(rs)[1..] == Batches(rs[BATCH_ROWS..]);
        assert rs[..BATCH_ROWS] + rs[BATCH_ROWS..] == rs;
      }
    }
  }

  /** Every batch is full but the last, which is never empty. */
  lemma {:induction false} BatchSizes(rs: seq<Record>)
    ensures forall i :: 0 <= i < |Batches(rs)| ==> 0 < |Batches(rs)[i].slot| <= BATCH_ROWS
    ensures forall i :: 0 <= i < |Batches(rs)| - 1 ==> |Batches(rs)[i].slot| == BATCH_ROWS
    decreases |rs|
  {
    if |rs| > BATCH_ROWS {
      TransposeRoundTrip(rs[..BATCH_ROWS]);
      BatchSizes(rs[BATCH_ROWS..]);
    } else {
      TransposeRoundTrip(rs);
    }
  }

  /** A batch may be closed after any whole number of full ones. */
  lemma {:induction false} BatchesAppend(a: seq<Record>, b: seq<Record>)
    requires |a| % BATCH_ROWS == 0 && 0 < |b| <= BATCH_ROWS
    ensures Batches(a + b) == Batches(a) + [Transpose(b)]
    decreases |a|
  {
    if a == [] {
      assert a + b == b;
    } else {
      var head, tail := a[..BATCH_ROWS], a[BATCH_ROWS..];
      assert (a + b)[..BATCH_ROWS] == head && (a + b)[BATCH_ROWS..] == tail + b;
      BatchesAppend(tail, b);
      if tail == [] {
        assert a == head;
      }
    }
  }

  // ---------------------------------------------------------- the builder

  /** Column builders, filled together. */
  class BatchBuilder {
    var slot: seq<nat>
    var writeVersion: seq<nat>
    var pubkey: seq<seq<Byte>>
    var kind: seq<string>
    var owner: seq<seq<Byte>>
    var lamports: seq<nat>
    var data: seq<seq<Byte>>
    var dataLen: seq<nat>
    var ingestedAt: seq<nat>
    var rows: nat

    constructor ()
      ensures Holds([])
    {
      slot, writeVersion, pubkey, kind, owner, lamports, data, dataLen, ingestedAt := [], [], [], [], [], [], [], [], [];
      rows := 0;
    }

    function Columns(): RecordBatch
      reads this
    {
      RecordBatch(slot, writeVersion, pubkey, kind, owner, lamports, data, dataLen, ingestedAt)
    }

    ghost predicate Holds(rs: seq<Record>)
      reads this
    {
      Columns() == Transpose(rs) && rows == |rs|
    }

    /** Both keys are decoded before any column grows, so a bad row leaves the columns level. */
    method Push(row: ExportRow, ghost rs: seq<Record>) returns (ok: bool)
      requires Holds(rs)
      modifies this
      ensures ok == ReadRow(row).Ok?
      ensures Holds(if ok then rs + [ReadRow(row).value] else rs)
    {
      var key := DecodePubkeyHex(row.pubkeyHex);
      if key.Err? { return false; }
      var ownerKey := DecodePubkeyHex(row.ownerHex);
      if ownerKey.Err? { return false; }
      Append(row, key.value, ownerKey.value);
      TransposeSnoc(rs, ReadRow(row).value);
      ok := true;
    }

    method Append(row: ExportRow, key: seq<Byte>, ownerKey: seq<Byte>)
      modifies this
      ensures rows == old(rows) + 1
      ensures Columns() == WithRow(old(Columns()), Record(row.slot, row.writeVersion, key, row.kind, ownerKey, row.lamports, row.data, row.dataLen, row.ingestedAt))
    {
      pubkey := pubkey + [key];
      owner := owner + [ownerKey];
      slot := slot + [row.slot];
      writeVersion := writeVersion + [row.writeVersion];
      kind := kind + [row.kind];
      lamports := lamports + [row.lamports];
      data := data + [row.data];
      dataLen := dataLen + [row.dataLen];
      ingestedAt := ingestedAt + [row.ingestedAt];
      rows := rows + 1;
    }

    /** Drain the columns, leaving the builder empty and reusable. */
    method Finish(ghost rs: seq<Record>) returns (batch: RecordBatch)
      requires Holds(rs)
      modifies this
      ensures batch == Transpose(rs) && Holds([])
    {
      batch := Columns();
      slot, writeVersion, pubkey, kind, owner, lamports, data, dataLen, ingestedAt := [], [], [], [], [], [], [], [], [];
      rows := 0;
    }
  }

  // -------------------------------------------------------------- the disk

  /** `<table>/<dir>/<table>.parquet`, or the `.tmp` beside it. */
  datatype Path = Path(dir: string, tmp: bool)

  /** A file without its footer is unreadable. */
  datatype File = Partial(batches: seq<RecordBatch>) | Complete(batches: seq<RecordBatch>)

  /**
  The output directory. `left` is how many more operations succeed before the
  disk or the process fails; each either takes full effect or none.
   */
  class Disk {
    var files: map<Path, File>
    var left: nat

    constructor (files: map<Path, File>, left: nat)
      ensures this.files == files && this.left == left
    {
      this.files := files;
      this.left := left;
    }

    method Put(p: Path, f: File) returns (ok: bool)
      modifies this
      ensures ok == (old(left) > 0)
      ensures files == if ok then old(files)[p := f] else old(files)
      ensures left == if ok then old(left) - 1 else 0
    {
      ok := left > 0;
      if ok {
        files := files[p := f];
        left := left - 1;
      }
    }

    method Rename(from: Path, to: Path) returns (ok: bool)
      requires from in files
      modifies this
      ensures ok == (old(left) > 0)
      ensures files == if ok then (old(files) - {from})[to := old(files)[from]] else old(files)
      ensures left == if ok then old(left) - 1 else 0
    {
      ok := left > 0;
      if ok {
        files := (files - {from})[to := files[from]];
        left := left - 1;
      }
    }
  }

  function TmpOf(dir: string): Path { Path(dir, true) }
  function FinalOf(dir: string): Path { Path(dir, false) }

  /** The directory once a partition has been published: nothing is touched for an empty range. */
  function Published(files: map<Path, File>, dir: string, rs: seq<Record>): map<Path, File> {
    if rs == [] then files else (files - {TmpOf(dir)})[FinalOf(dir) := Complete(Batches(rs))]
  }

  /** Only the temporary file of one partition may differ. */
  ghost predicate OnlyTmpDiffers(a: map<Path, File>, b: map<Path, File>, dir: string) {
    a - {TmpOf(dir)} == b - {TmpOf(dir)}
  }

  // -------------------------------------------------------- one partition

  /** One partition being written. The file is only created when a first row arrives. */
  class PartitionWriter {
    const disk: Disk
    const dir: string
    const builder: BatchBuilder
    var open: bool
    var written: nat
    var batches: seq<RecordBatch>

    constructor (disk: Disk, dir: string)
      ensures this.disk == disk && this.dir == dir && fresh(builder)
      ensures At(disk.files, [], [])
    {
      this.disk, this.dir := disk, dir;
      this.builder := new BatchBuilder();
      open, written, batches := false, 0, [];
    }

    /** `done` is on disk in full batches, `pending` is in the builder: every row is in one of the two. */
    ghost predicate At(before: map<Path, File>, done: seq<Record>, pending: seq<Record>)
      reads this, disk, builder
    {
      && written == |done| && written % BATCH_ROWS == 0
      && builder.Holds(pending) && |pending| < BATCH_ROWS
      && batches == Batches(done)
      && (open <==> done + pending != [])
      && disk.files == if open then before[TmpOf(dir) := Partial(batches)] else before
    }

    /** Hand the pending rows to the file as one batch. */
    method Drain(ghost before: map<Path, File>, ghost done: seq<Record>, ghost pending: seq<Record>) returns (ok: bool)
      requires open && written == |done| && written % BATCH_ROWS == 0 && batches == Batches(done)
      requires builder.Holds(pending) && 0 < |pending| <= BATCH_ROWS
      requires disk.files == before[TmpOf(dir) := Partial(batches)]
      modifies this, disk, builder
      ensures ok ==> open && written == |done + pending| && batches == Batches(done + pending) && builder.Holds([])
      ensures ok ==> disk.files == before[TmpOf(dir) := Partial(batches)]
      ensures !ok ==> OnlyTmpDiffers(before, disk.files, dir) && disk.left == 0
    {
      hide Transpose, Batches, Rectangular, RowAt;
      var batch := builder.Finish(pending);
      TransposeRoundTrip(pending);
      BatchesAppend(done, pending);
      written := written + |batch.slot|;
      batches := batches + [batch];
      ok := disk.Put(TmpOf(dir), Partial(batches));
    }

    method Open(ghost before: map<Path, File>) returns (ok: bool)
      requires At(before, [], [])
      modifies this, disk
      ensures ok ==> open && written == 0 && batches == [] && builder.Holds([]) && disk.files == before[TmpOf(dir) := Partial([])]
      ensures !ok ==> disk.files == before && disk.left == 0
    {
      ok := disk.Put(TmpOf(dir), Partial([]));
      open := ok;
    }

    /** One row of the stream. */
    method Add(row: ExportRow, ghost before: map<Path, File>, ghost done: seq<Record>, ghost pending: seq<Record>) returns (ok: bool)
      requires At(before, done, pending)
      modifies this, disk, builder
      ensures ok ==> ReadRow(row).Ok? && (var more := pending + [ReadRow(row).value];
        if |more| < BATCH_ROWS then At(before, done, more) else At(before, done + more, []))
      ensures !ok ==> OnlyTmpDiffers(before, disk.files, dir) && (ReadRow(row).Err? || disk.left == 0)
    {
      if !open {
        ok := Open(before);
        if !ok { return; }
      }
      ok := builder.Push(row, pending);
      if !ok { return; }
      ghost var more := pending + [ReadRow(row).value];
      if builder.rows >= BATCH_ROWS {
        ok := Drain(before, done, more);
        assert done + more + [] == done + more;
      }
    }

    /** The last batch, the footer, and the rename that publishes the file. */
    method Close(ghost before: map<Path, File>, ghost done: seq<Record>, ghost pending: seq<Record>) returns (ok: bool)
      requires At(before, done, pending)
      modifies this, disk, builder
      ensures ok ==> written == |done + pending| && disk.files == Published(before, dir, done + pending)
      ensures !ok ==> OnlyTmpDiffers(before, disk.files, dir) && disk.left == 0
    {
      if !open {
        return true;
      }
      if builder.rows > 0 {
        ok := Drain(before, done, pending);
        if !ok { return; }
      } else {
        assert done + pending == done;
      }
      ok := disk.Put(TmpOf(dir), Complete(batches));
      if !ok { return; }
      ok := disk.Rename(TmpOf(dir), FinalOf(dir));
    }
  }

  /**
  Export one partition. `broken` says the row stream ends in an error. Success
  publishes exactly the rows; any failure, wherever it strikes, leaves every
  published file as it was.
   */
  method ExportPartition(rows: seq<ExportRow>, broken: bool, disk: Disk, dir: string) returns (r: Result<nat>)
    modifies disk
    ensures r.Ok? ==> !broken && Readable(rows) && r.value == |rows| && disk.files == Published(old(disk.files), dir, Records(rows))
    ensures r.Err? ==> OnlyTmpDiffers(old(disk.files), disk.files, dir)
    ensures r.Err? ==> broken || !Readable(rows) || disk.left == 0
  {
    hide ReadRow, Batches, Transpose;
    ghost var before := disk.files;
    var writer := new PartitionWriter(disk, dir);
    ghost var done: seq<Record>, pending: seq<Record> := [], [];
    for i := 0 to |rows|
      invariant fresh(writer) && fresh(writer.builder) && writer.disk == disk && writer.dir == dir
      invariant Readable(rows[..i]) && done + pending == Records(rows[..i])
      invariant writer.At(before, done, pending)
    {
      var ok := writer.Add(rows[i], before, done, pending);
      if !ok { return Err; }
      RecordsGrow(rows, i);
      ghost var more := pending + [ReadRow(rows[i]).value];
      assert done + more == Records(rows[..i + 1]);
      if |more| < BATCH_ROWS {
        pending := more;
      } else {
        done, pending := done + more, [];
      }
    }
    assert rows[..|rows|] == rows;
    if broken { return Err; }
    var ok := writer.Close(before, done, pending);
    if !ok { return Err; }
    r := Ok(writer.written);
  }

  lemma RecordsGrow(rows: seq<ExportRow>, i: nat)
    requires i < |rows| && Readable(rows[..i]) && ReadRow(rows[i]).Ok?
    ensures Readable(rows[..i + 1]) && Records(rows[..i + 1]) == Records(rows[..i]) + [ReadRow(rows[i]).value]
  {
    hide ReadRow;
    var seen, next := rows[..i], rows[..i + 1];
    assert next == seen + [rows[i]];
    forall j | 0 <= j < |next|
      ensures ReadRow(next[j]).Ok?
    {
      if j < i { assert next[j] == seen[j]; }
    }
    assert forall j :: 0 <= j < |seen| ==> next[j] == seen[j];
  }
}
