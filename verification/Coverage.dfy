/**
Safety of the ingest protocol over every run: what is stored below a checkpoint,
what may be missing, and that decoded rows never outrun raw ones.
 */
module Coverage {
  import opened Wrappers
  import opened MergeTree
  import opened Protocol

  // ------------------------------------------------------------- predicates

  /** The raw row of an update has landed, and so has its decoded row if it has one. */
  ghost predicate Stored(cfg: Cfg, db: Db, u: Update) {
    && Has(db.raw.landed, RowOf(cfg, u))
    && forall t: Table :: DerivedOf(cfg, u, t).Some? ==> Has(TableLog(db, t).landed, DerivedOf(cfg, u, t).value)
  }

  /**
  Chain position `k` precedes the opening of a session: one started with no
  checkpoint, or one started at a checkpoint not past it.
   */
  predicate Lost(cfg: Cfg, seam: Seam, k: nat)
    requires k < |cfg.chain|
  {
    k < seam.start && (seam.base.None? || seam.base.value <= cfg.chain[k].slot)
  }

  ghost predicate Excused(cfg: Cfg, seams: seq<Seam>, k: nat)
    requires k < |cfg.chain|
  {
    exists i :: 0 <= i < |seams| && Lost(cfg, seams[i], k)
  }

  /** Everything strictly below a slot is stored, or was lost at a seam. */
  ghost predicate Covered(cfg: Cfg, db: Db, seams: seq<Seam>, slot: nat) {
    forall k :: 0 <= k < |cfg.chain| && cfg.chain[k].slot < slot ==> Stored(cfg, db, cfg.chain[k]) || Excused(cfg, seams, k)
  }

  ghost predicate Delivered(cfg: Cfg, db: Db, c: Checkpoint) {
    exists k :: 0 <= k < |cfg.chain| && Stored(cfg, db, cfg.chain[k]) && c == Checkpoint(cfg.chain[k].slot, cfg.chain[k].writeVersion)
  }

  ghost predicate JournalCovered(cfg: Cfg, db: Db, seams: seq<Seam>) {
    forall p :: 0 <= p < |db.journal| && db.journal[p].CheckpointNote? ==>
      Covered(cfg, db, seams, db.journal[p].checkpoint.slot) && Delivered(cfg, db, db.journal[p].checkpoint)
  }

  ghost predicate FromChain(cfg: Cfg, r: RawRow) {
    exists k :: 0 <= k < |cfg.chain| && r == RowOf(cfg, cfg.chain[k])
  }

  ghost predicate DerivedFromRaw(cfg: Cfg, db: Db, t: Table, r: DerivedRow) {
    exists k :: 0 <= k < |cfg.chain| && DerivedOf(cfg, cfg.chain[k], t) == Some(r) && Has(db.raw.landed, RowOf(cfg, cfg.chain[k]))
  }

  ghost predicate LandedIssued<T>(log: Log<T>) {
    forall i :: 0 <= i < |log.landed| ==> log.landed[i].row in log.issued
  }

  /** Nothing in a table was not sent there, and nothing was sent there that it should not hold. */
  ghost predicate Sound(cfg: Cfg, db: Db) {
    && LandedIssued(db.raw)
    && (forall i :: 0 <= i < |db.raw.issued| ==> FromChain(cfg, db.raw.issued[i]))
    && (forall t: Table :: LandedIssued(TableLog(db, t)))
    && (forall t: Table, i :: 0 <= i < |TableLog(db, t).issued| ==> DerivedFromRaw(cfg, db, t, TableLog(db, t).issued[i]))
    && (forall i :: 0 <= i < |db.checkpoints| ==> CheckpointNote(db.checkpoints[i].row) in db.journal)
    && (forall i :: 0 <= i < |db.gaps| ==> GapNote(db.gaps[i].row) in db.journal)
  }

  /** Tables only grow. */
  ghost predicate Grows(a: Db, b: Db) {
    && a.raw.landed <= b.raw.landed
    && a.snap.landed <= b.snap.landed
    && a.reserve.landed <= b.reserve.landed
    && a.lm.landed <= b.lm.landed
    && a.journal <= b.journal
  }

  // ----------------------------------------------------------- monotonicity

  lemma StoredGrows(cfg: Cfg, a: Db, b: Db, u: Update)
    requires Grows(a, b) && Stored(cfg, a, u)
    ensures Stored(cfg, b, u)
  {
    HasMore(a.raw.landed, b.raw.landed, RowOf(cfg, u));
    forall t: Table | DerivedOf(cfg, u, t).Some?
      ensures Has(TableLog(b, t).landed, DerivedOf(cfg, u, t).value)
    {
      HasMore(TableLog(a, t).landed, TableLog(b, t).landed, DerivedOf(cfg, u, t).value);
    }
  }

  lemma CoveredGrows(cfg: Cfg, a: Db, b: Db, seams: seq<Seam>, more: seq<Seam>, slot: nat)
    requires Grows(a, b) && seams <= more && Covered(cfg, a, seams, slot)
    ensures Covered(cfg, b, more, slot)
  {
    forall k | 0 <= k < |cfg.chain| && cfg.chain[k].slot < slot
      ensures Stored(cfg, b, cfg.chain[k]) || Excused(cfg, more, k)
    {
      if Stored(cfg, a, cfg.chain[k]) {
        StoredGrows(cfg, a, b, cfg.chain[k]);
      } else {
        var i :| 0 <= i < |seams| && Lost(cfg, seams[i], k);
        assert more[i] == seams[i];
      }
    }
  }

  lemma DeliveredGrows(cfg: Cfg, a: Db, b: Db, c: Checkpoint)
    requires Grows(a, b) && Delivered(cfg, a, c)
    ensures Delivered(cfg, b, c)
  {
    var k :| 0 <= k < |cfg.chain| && Stored(cfg, a, cfg.chain[k]) && c == Checkpoint(cfg.chain[k].slot, cfg.chain[k].writeVersion);
    StoredGrows(cfg, a, b, cfg.chain[k]);
  }

  /** Growing tables keep the journal covered while no checkpoint is added. */
  lemma JournalGrows(cfg: Cfg, a: Db, b: Db, seams: seq<Seam>, more: seq<Seam>)
    requires Grows(a, b) && seams <= more && JournalCovered(cfg, a, seams)
    requires forall p :: |a.journal| <= p < |b.journal| ==> b.journal[p].GapNote?
    ensures JournalCovered(cfg, b, more)
  {
    forall p | 0 <= p < |b.journal| && b.journal[p].CheckpointNote?
      ensures Covered(cfg, b, more, b.journal[p].checkpoint.slot) && Delivered(cfg, b, b.journal[p].checkpoint)
    {
      assert b.journal[p] == a.journal[p];
      CoveredGrows(cfg, a, b, seams, more, b.journal[p].checkpoint.slot);
      DeliveredGrows(cfg, a, b, b.journal[p].checkpoint);
    }
  }

  lemma DerivedFromRawGrows(cfg: Cfg, a: Db, b: Db, t: Table, r: DerivedRow)
    requires a.raw.landed <= b.raw.landed && DerivedFromRaw(cfg, a, t, r)
    ensures DerivedFromRaw(cfg, b, t, r)
  {
    var k :| 0 <= k < |cfg.chain| && DerivedOf(cfg, cfg.chain[k], t) == Some(r) && Has(a.raw.landed, RowOf(cfg, cfg.chain[k]));
    HasMore(a.raw.landed, b.raw.landed, RowOf(cfg, cfg.chain[k]));
  }

  // ---------------------------------------------------------------- buffers

  function RawRows(cfg: Cfg, us: seq<Update>): (r: seq<RawRow>)
    ensures |r| == |us|
    ensures forall i :: 0 <= i < |us| ==> r[i] == RowOf(cfg, us[i])
  {
    seq(|us|, i requires 0 <= i < |us| => RowOf(cfg, us[i]))
  }

  function DerivedRows(cfg: Cfg, us: seq<Update>, t: Table): seq<DerivedRow> {
    if us == [] then [] else Append(DerivedRows(cfg, us[..|us| - 1], t), DerivedOf(cfg, us[|us| - 1], t))
  }

  /** What the buffers hold after a run of updates: derived from the updates alone. */
  function BuffersOf(cfg: Cfg, us: seq<Update>): Buffers {
    Buffers(RawRows(cfg, us), DerivedRows(cfg, us, Obligations), DerivedRows(cfg, us, Reserves), DerivedRows(cfg, us, Markets))
  }

  lemma PushIsBuffersOf(cfg: Cfg, us: seq<Update>, u: Update)
    ensures Push(cfg, BuffersOf(cfg, us), u) == BuffersOf(cfg, us + [u])
  {
    assert (us + [u])[..|us|] == us;
  }

  lemma {:induction false} DerivedRowsExact(cfg: Cfg, us: seq<Update>, t: Table)
    ensures forall i :: 0 <= i < |us| && DerivedOf(cfg, us[i], t).Some? ==> DerivedOf(cfg, us[i], t).value in DerivedRows(cfg, us, t)
    ensures forall r :: r in DerivedRows(cfg, us, t) ==> exists i :: 0 <= i < |us| && DerivedOf(cfg, us[i], t) == Some(r)
  {
    if us != [] {
      var front := us[..|us| - 1];
      DerivedRowsExact(cfg, front, t);
      forall r | r in DerivedRows(cfg, us, t)
        ensures exists i :: 0 <= i < |us| && DerivedOf(cfg, us[i], t) == Some(r)
      {
        if r in DerivedRows(cfg, front, t) {
          var i :| 0 <= i < |front| && DerivedOf(cfg, front[i], t) == Some(r);
          assert us[i] == front[i];
        } else {
          assert DerivedOf(cfg, us[|us| - 1], t) == Some(r);
        }
      }
    }
  }

  /** An update decodes into at most one table, so the derived buffers never outnumber the raw one. */
  lemma {:induction false} DerivedNoMoreThanRaw(cfg: Cfg, us: seq<Update>)
    ensures |DerivedRows(cfg, us, Obligations)| + |DerivedRows(cfg, us, Reserves)| + |DerivedRows(cfg, us, Markets)| <= |us|
  {
    if us != [] {
      DerivedNoMoreThanRaw(cfg, us[..|us| - 1]);
    }
  }

  function RawKeys(rows: seq<RawRow>): multiset<Key> {
    if rows == [] then multiset{} else RawKeys(rows[..|rows| - 1]) + multiset{RawKey(rows[|rows| - 1])}
  }

  function DerivedKeys(rows: seq<DerivedRow>): multiset<Key> {
    if rows == [] then multiset{} else DerivedKeys(rows[..|rows| - 1]) + multiset{DerivedKey(rows[|rows| - 1])}
  }

  /** The derived buffers hold keys of distinct raw rows, counted with multiplicity. */
  lemma {:induction false} BufferKeys(cfg: Cfg, us: seq<Update>)
    ensures DerivedKeys(DerivedRows(cfg, us, Obligations)) + DerivedKeys(DerivedRows(cfg, us, Reserves)) + DerivedKeys(DerivedRows(cfg, us, Markets))
         <= RawKeys(RawRows(cfg, us))
  {
    if us != [] {
      var front, u := us[..|us| - 1], us[|us| - 1];
      BufferKeys(cfg, front);
      DerivedKeysStep(cfg, us, Obligations);
      DerivedKeysStep(cfg, us, Reserves);
      DerivedKeysStep(cfg, us, Markets);
      assert RawRows(cfg, us)[..|us| - 1] == RawRows(cfg, front);
      DerivedHasKey(cfg, u);
    }
  }

  lemma DerivedKeysStep(cfg: Cfg, us: seq<Update>, t: Table)
    requires us != []
    ensures var u := us[|us| - 1];
      DerivedKeys(DerivedRows(cfg, us, t))
        == DerivedKeys(DerivedRows(cfg, us[..|us| - 1], t)) + (if DerivedOf(cfg, u, t).Some? then multiset{UpdateKey(u)} else multiset{})
  {
    var r := DerivedOf(cfg, us[|us| - 1], t);
    AppendKeys(DerivedRows(cfg, us[..|us| - 1], t), r);
    DerivedHasKey(cfg, us[|us| - 1]);
  }

  lemma DerivedHasKey(cfg: Cfg, u: Update)
    ensures RawKey(RowOf(cfg, u)) == UpdateKey(u)
    ensures forall t: Table :: DerivedOf(cfg, u, t).Some? ==> DerivedKey(DerivedOf(cfg, u, t).value) == UpdateKey(u)
    ensures forall t, t': Table :: DerivedOf(cfg, u, t).Some? && DerivedOf(cfg, u, t').Some? ==> t == t'
  {
  }

  /**
  So the raw buffer is empty only when all are, the program's fallback
  high-water marks are never used, and a full buffer is a full raw buffer.
   */
  lemma BufferMarks(cfg: Cfg, us: seq<Update>)
    ensures IsEmpty(BuffersOf(cfg, us)) <==> us == []
    ensures Full(BuffersOf(cfg, us)) <==> |us| >= BATCH_MAX_ROWS
    ensures us != [] ==> HighWater(BuffersOf(cfg, us)) == Checkpoint(us[|us| - 1].slot, us[|us| - 1].writeVersion)
  {
    DerivedNoMoreThanRaw(cfg, us);
  }

  lemma AppendKeys(rows: seq<DerivedRow>, r: Option<DerivedRow>)
    ensures DerivedKeys(Append(rows, r)) == DerivedKeys(rows) + (if r.Some? then multiset{DerivedKey(r.value)} else multiset{})
  {
    if r.Some? {
      assert (rows + [r.value])[..|rows|] == rows;
    }
  }

  // ------------------------------------------------------------------ flush

  function PlanOf(p: FlushPlan, t: Table): Outcome {
    match t
    case Obligations => p.snap
    case Reserves => p.reserve
    case Markets => p.lm
  }

  /** A table is as before, or the whole buffer was sent to it. */
  predicate SameOrSent<T(==)>(before: Log<T>, rows: seq<T>, o: Outcome, after: Log<T>) {
    after == before || after == Insert(before, rows, o)
  }

  /** What a flush of `b` can leave behind, the order of its inserts included. */
  ghost predicate FlushEffect(b: Buffers, a: Db, p: FlushPlan, f: Db, ok: bool) {
    && SameOrSent(a.raw, b.raw, p.raw, f.raw)
    && (forall t: Table :: SameOrSent(TableLog(a, t), BufferOf(b, t), PlanOf(p, t), TableLog(f, t)))
    && (forall t: Table :: TableLog(f, t) != TableLog(a, t) ==> p.raw.Acked? && f.raw == Insert(a.raw, b.raw, p.raw))
    && f.gaps == a.gaps
    && (if f.journal == a.journal then f.checkpoints == a.checkpoints && (ok ==> IsEmpty(b) && f == a) else CheckpointEffect(b, a, p, f))
  }

  /** The checkpoint is issued last: every buffer was sent and acknowledged before it. */
  ghost predicate CheckpointEffect(b: Buffers, a: Db, p: FlushPlan, f: Db) {
    && !IsEmpty(b)
    && f.journal == a.journal + [CheckpointNote(HighWater(b))]
    && f.checkpoints == a.checkpoints + Landing([HighWater(b)], p.checkpoint)
    && p.raw.Acked? && f.raw == Insert(a.raw, b.raw, p.raw)
    && (forall t: Table :: BufferOf(b, t) != [] ==> PlanOf(p, t).Acked? && TableLog(f, t) == Insert(TableLog(a, t), BufferOf(b, t), PlanOf(p, t)))
  }

  lemma FlushHasEffect(b: Buffers, a: Db, p: FlushPlan)
    ensures FlushEffect(b, a, p, FlushDb(b, a, p).db, FlushDb(b, a, p).ok)
  {
    hide HighWater, Insert, Landing, IsEmpty;
  }

  /** A flush only adds. */
  lemma FlushGrows(b: Buffers, a: Db, p: FlushPlan, f: Db, ok: bool)
    requires FlushEffect(b, a, p, f, ok)
    ensures Grows(a, f)
  {
    assert forall t: Table :: TableLog(a, t).landed <= TableLog(f, t).landed;
    assert a.snap == TableLog(a, Obligations) && a.reserve == TableLog(a, Reserves) && a.lm == TableLog(a, Markets);
    assert f.snap == TableLog(f, Obligations) && f.reserve == TableLog(f, Reserves) && f.lm == TableLog(f, Markets);
  }

  /** If the checkpoint is even issued, every buffered row has landed first. */
  lemma FlushLandsData(cfg: Cfg, us: seq<Update>, a: Db, p: FlushPlan, f: Db)
    requires CheckpointEffect(BuffersOf(cfg, us), a, p, f)
    ensures forall i :: 0 <= i < |us| ==> Stored(cfg, f, us[i])
  {
    forall i | 0 <= i < |us|
      ensures Stored(cfg, f, us[i])
    {
      LandsRaw(cfg, us, a, p, f, i);
      forall t: Table | DerivedOf(cfg, us[i], t).Some?
        ensures Has(TableLog(f, t).landed, DerivedOf(cfg, us[i], t).value)
      {
        LandsDerivedOf(cfg, us, a, p, f, i, t, DerivedOf(cfg, us[i], t).value);
      }
    }
  }

  lemma LandsRaw(cfg: Cfg, us: seq<Update>, a: Db, p: FlushPlan, f: Db, i: nat)
    requires i < |us|
    requires p.raw.Acked? && f.raw == Insert(a.raw, RawRows(cfg, us), p.raw)
    ensures Has(f.raw.landed, RowOf(cfg, us[i]))
  {
    assert RawRows(cfg, us)[i] == RowOf(cfg, us[i]);
    AckedHasAll(a.raw.landed, RawRows(cfg, us), p.raw, i);
  }

  lemma LandsDerivedOf(cfg: Cfg, us: seq<Update>, a: Db, p: FlushPlan, f: Db, i: nat, t: Table, r: DerivedRow)
    requires i < |us| && DerivedOf(cfg, us[i], t) == Some(r)
    requires CheckpointEffect(BuffersOf(cfg, us), a, p, f)
    ensures Has(TableLog(f, t).landed, r)
  {
    DerivedRowsExact(cfg, us, t);
    assert BufferOf(BuffersOf(cfg, us), t) == DerivedRows(cfg, us, t);
    LandsDerived(BuffersOf(cfg, us), a, p, f, t, r);
  }

  lemma LandsDerived(b: Buffers, a: Db, p: FlushPlan, f: Db, t: Table, r: DerivedRow)
    requires CheckpointEffect(b, a, p, f) && r in BufferOf(b, t)
    ensures Has(TableLog(f, t).landed, r)
  {
    var j :| 0 <= j < |BufferOf(b, t)| && BufferOf(b, t)[j] == r;
    AckedHasAll(TableLog(a, t).landed, BufferOf(b, t), PlanOf(p, t), j);
  }

  lemma InsertLandedIssued<T>(log: Log<T>, rows: seq<T>, o: Outcome)
    requires LandedIssued(log)
    ensures LandedIssued(Insert(log, rows, o))
  {
  }

  /** A derived row is only ever sent after its raw row has landed. */
  lemma FlushTableSound(cfg: Cfg, lo: nat, hi: nat, a: Db, p: FlushPlan, f: Db, ok: bool, t: Table)
    requires lo <= hi <= |cfg.chain| && Sound(cfg, a)
    requires FlushEffect(BuffersOf(cfg, cfg.chain[lo..hi]), a, p, f, ok)
    ensures LandedIssued(TableLog(f, t))
    ensures forall i :: 0 <= i < |TableLog(f, t).issued| ==> DerivedFromRaw(cfg, f, t, TableLog(f, t).issued[i])
  {
    var us := cfg.chain[lo..hi];
    var b := BuffersOf(cfg, us);
    var rows := DerivedRows(cfg, us, t);
    assert rows == BufferOf(b, t);
    InsertLandedIssued(TableLog(a, t), rows, PlanOf(p, t));
    DerivedRowsExact(cfg, us, t);
    FlushGrows(b, a, p, f, ok);
    forall i | 0 <= i < |TableLog(f, t).issued|
      ensures DerivedFromRaw(cfg, f, t, TableLog(f, t).issued[i])
    {
      var r := TableLog(f, t).issued[i];
      if i < |TableLog(a, t).issued| {
        assert r == TableLog(a, t).issued[i];
        DerivedFromRawGrows(cfg, a, f, t, r);
      } else {
        assert r in rows;
        NewDerivedFromRaw(cfg, lo, hi, a, p, f, t, r);
      }
    }
  }

  lemma NewDerivedFromRaw(cfg: Cfg, lo: nat, hi: nat, a: Db, p: FlushPlan, f: Db, t: Table, r: DerivedRow)
    requires lo <= hi <= |cfg.chain| && r in DerivedRows(cfg, cfg.chain[lo..hi], t)
    requires p.raw.Acked? && f.raw == Insert(a.raw, RawRows(cfg, cfg.chain[lo..hi]), p.raw)
    ensures DerivedFromRaw(cfg, f, t, r)
  {
    var us := cfg.chain[lo..hi];
    DerivedRowsExact(cfg, us, t);
    var j :| 0 <= j < |us| && DerivedOf(cfg, us[j], t) == Some(r);
    LandsRaw(cfg, us, a, p, f, j);
    assert cfg.chain[lo + j] == us[j];
  }

  lemma FlushSound(cfg: Cfg, lo: nat, hi: nat, a: Db, p: FlushPlan, f: Db, ok: bool)
    requires lo <= hi <= |cfg.chain| && Sound(cfg, a)
    requires FlushEffect(BuffersOf(cfg, cfg.chain[lo..hi]), a, p, f, ok)
    ensures Sound(cfg, f)
  {
    var b := BuffersOf(cfg, cfg.chain[lo..hi]);
    InsertLandedIssued(a.raw, b.raw, p.raw);
    forall i | 0 <= i < |f.raw.issued|
      ensures FromChain(cfg, f.raw.issued[i])
    {
      if i < |a.raw.issued| {
        assert f.raw.issued[i] == a.raw.issued[i];
      } else {
        assert f.raw.issued[i] == b.raw[i - |a.raw.issued|];
        assert f.raw.issued[i] == RowOf(cfg, cfg.chain[lo + i - |a.raw.issued|]);
      }
    }
    forall t: Table
      ensures LandedIssued(TableLog(f, t))
      ensures forall i :: 0 <= i < |TableLog(f, t).issued| ==> DerivedFromRaw(cfg, f, t, TableLog(f, t).issued[i])
    {
      FlushTableSound(cfg, lo, hi, a, p, f, ok, t);
    }
    forall i | 0 <= i < |f.checkpoints|
      ensures CheckpointNote(f.checkpoints[i].row) in f.journal
    {
      if i < |a.checkpoints| {
        assert f.checkpoints[i] == a.checkpoints[i];
        assert CheckpointNote(a.checkpoints[i].row) in a.journal;
      } else {
        assert f.checkpoints[i].row in [HighWater(b)];
        assert f.journal[|a.journal|] == CheckpointNote(HighWater(b));
      }
    }
    assert a.journal <= f.journal;
  }

  /** What is stored of the chain segment a session has delivered. */
  ghost predicate SegmentStored(cfg: Cfg, db: Db, lo: nat, hi: nat)
    requires hi <= |cfg.chain|
  {
    forall k :: lo <= k < hi ==> Stored(cfg, db, cfg.chain[k])
  }

  ghost predicate HasSeam(seams: seq<Seam>, base: Option<nat>, start: nat) {
    exists i :: 0 <= i < |seams| && seams[i].base == base && seams[i].start == start
  }

  lemma SegmentGrows(cfg: Cfg, a: Db, f: Db, lo: nat, hi: nat)
    requires hi <= |cfg.chain| && Grows(a, f) && SegmentStored(cfg, a, lo, hi)
    ensures SegmentStored(cfg, f, lo, hi)
  {
    forall k | lo <= k < hi
      ensures Stored(cfg, f, cfg.chain[k])
    {
      StoredGrows(cfg, a, f, cfg.chain[k]);
    }
  }

  lemma FlushExtendsSegment(cfg: Cfg, start: nat, lo: nat, hi: nat, a: Db, p: FlushPlan, f: Db)
    requires start <= lo <= hi <= |cfg.chain|
    requires SegmentStored(cfg, a, start, lo)
    requires Grows(a, f) && CheckpointEffect(BuffersOf(cfg, cfg.chain[lo..hi]), a, p, f)
    ensures SegmentStored(cfg, f, start, hi)
  {
    FlushLandsData(cfg, cfg.chain[lo..hi], a, p, f);
    SegmentGrows(cfg, a, f, start, lo);
    forall k | lo <= k < hi
      ensures Stored(cfg, f, cfg.chain[k])
    {
      assert cfg.chain[lo..hi][k - lo] == cfg.chain[k];
    }
  }

  /**
  The heart of "duplicates, never holes". A session opened at chain position
  `start` from checkpoint `base` has flushed `[start, lo)` and buffers `[lo, hi)`:
  whatever its flush does, every checkpoint issued stays covered.
   */
  lemma FlushCovered(cfg: Cfg, seams: seq<Seam>, base: Option<nat>, start: nat, lo: nat, hi: nat, a: Db, p: FlushPlan, f: Db, ok: bool)
    requires SlotOrdered(cfg.chain) && start <= lo <= hi <= |cfg.chain|
    requires JournalCovered(cfg, a, seams)
    requires base.Some? ==> Covered(cfg, a, seams, base.value)
    requires HasSeam(seams, base, start)
    requires SegmentStored(cfg, a, start, lo)
    requires FlushEffect(BuffersOf(cfg, cfg.chain[lo..hi]), a, p, f, ok)
    ensures JournalCovered(cfg, f, seams)
    ensures ok ==> SegmentStored(cfg, f, start, hi)
  {
    var us := cfg.chain[lo..hi];
    FlushGrows(BuffersOf(cfg, us), a, p, f, ok);
    BufferMarks(cfg, us);
    if f.journal == a.journal {
      JournalGrows(cfg, a, f, seams, seams);
    } else {
      FlushExtendsSegment(cfg, start, lo, hi, a, p, f);
      CheckpointCovered(cfg, seams, base, start, hi, a, f);
      assert us[|us| - 1] == cfg.chain[hi - 1];
      CheckpointJoinsJournal(cfg, seams, a, f, HighWater(BuffersOf(cfg, us)));
    }
  }

  lemma CheckpointJoinsJournal(cfg: Cfg, seams: seq<Seam>, a: Db, f: Db, c: Checkpoint)
    requires Grows(a, f) && JournalCovered(cfg, a, seams)
    requires f.journal == a.journal + [CheckpointNote(c)]
    requires Covered(cfg, f, seams, c.slot) && Delivered(cfg, f, c)
    ensures JournalCovered(cfg, f, seams)
  {
    forall q | 0 <= q < |f.journal| && f.journal[q].CheckpointNote?
      ensures Covered(cfg, f, seams, f.journal[q].checkpoint.slot) && Delivered(cfg, f, f.journal[q].checkpoint)
    {
      if q < |a.journal| {
        assert f.journal[q] == a.journal[q];
        CoveredGrows(cfg, a, f, seams, seams, a.journal[q].checkpoint.slot);
        DeliveredGrows(cfg, a, f, a.journal[q].checkpoint);
      }
    }
  }

  /** With `[start, hi)` stored, everything below the last delivered slot is stored or lost at a seam. */
  lemma CheckpointCovered(cfg: Cfg, seams: seq<Seam>, base: Option<nat>, start: nat, hi: nat, a: Db, f: Db)
    requires SlotOrdered(cfg.chain) && start < hi <= |cfg.chain|
    requires Grows(a, f)
    requires base.Some? ==> Covered(cfg, a, seams, base.value)
    requires HasSeam(seams, base, start)
    requires SegmentStored(cfg, f, start, hi)
    ensures Covered(cfg, f, seams, cfg.chain[hi - 1].slot)
  {
    var i :| 0 <= i < |seams| && seams[i].base == base && seams[i].start == start;
    forall k | 0 <= k < |cfg.chain| && cfg.chain[k].slot < cfg.chain[hi - 1].slot
      ensures Stored(cfg, f, cfg.chain[k]) || Excused(cfg, seams, k)
    {
      if k < start {
        if base.None? || base.value <= cfg.chain[k].slot {
          assert Lost(cfg, seams[i], k);
        } else if Stored(cfg, a, cfg.chain[k]) {
          StoredGrows(cfg, a, f, cfg.chain[k]);
        }
      }
    }
  }
}
