/** What a reader of the tables may rely on, after any run of the ingest protocol. */
module IngestTheorems {
  import opened Wrappers
  import opened MergeTree
  import opened Protocol
  import opened Resume
  import opened Coverage
  import opened Safety
  import opened Announce

  /** The payload of an update is determined by its key. */
  ghost predicate KeysDistinct(chain: seq<Update>) {
    forall i, j :: 0 <= i < |chain| && 0 <= j < |chain| && UpdateKey(chain[i]) == UpdateKey(chain[j]) ==> chain[i] == chain[j]
  }

  // -------------------------------------------------------- no silent holes

  /**
  Prefer duplicates over holes: below the durable checkpoint every update is
  stored, raw and decoded, unless it was lost at a recorded seam.
   */
  lemma NoSilentHole(cfg: Cfg, events: seq<Event>, k: nat)
    requires SlotOrdered(cfg.chain) && ServedRun(cfg, events) && k < |cfg.chain|
    requires ReadResumeSlot(Run(cfg, events).db).Some?
    requires cfg.chain[k].slot < ReadResumeSlot(Run(cfg, events).db).value
    ensures var s := Run(cfg, events); Stored(cfg, s.db, cfg.chain[k]) || Excused(cfg, s.hist.seams, k)
  {
    RunKeepsInv(cfg, events);
    DurableIsCovered(cfg, Run(cfg, events));
  }

  /** Counting from the last start that found no checkpoint, only checkpointed seams can lose anything. */
  lemma NoHoleSinceColdStart(cfg: Cfg, events: seq<Event>, k: nat)
    requires SlotOrdered(cfg.chain) && ServedRun(cfg, events) && k < |cfg.chain|
    requires forall i :: 0 <= i < |Run(cfg, events).hist.seams| && Run(cfg, events).hist.seams[i].base.None? ==>
      Run(cfg, events).hist.seams[i].start <= k
    requires ReadResumeSlot(Run(cfg, events).db).Some?
    requires cfg.chain[k].slot < ReadResumeSlot(Run(cfg, events).db).value
    ensures var s := Run(cfg, events);
      Stored(cfg, s.db, cfg.chain[k]) || exists i :: 0 <= i < |s.hist.seams| && s.hist.seams[i].base.Some? && Lost(cfg, s.hist.seams[i], k)
  {
    NoSilentHole(cfg, events, k);
  }

  /** The same holds of every checkpoint ever issued, landed or not, and each names a stored update. */
  lemma CheckpointNeverAhead(cfg: Cfg, events: seq<Event>, p: nat)
    requires SlotOrdered(cfg.chain) && ServedRun(cfg, events)
    requires p < |Run(cfg, events).db.journal| && Run(cfg, events).db.journal[p].CheckpointNote?
    ensures var s := Run(cfg, events); var c := s.db.journal[p].checkpoint;
      Delivered(cfg, s.db, c) && Covered(cfg, s.db, s.hist.seams, c.slot)
  {
    RunKeepsInv(cfg, events);
  }

  /** The server opens a session at the first update of a slot. */
  ghost predicate OpensOnSlot(chain: seq<Update>, seam: Seam) {
    seam.start < |chain| && (seam.start == 0 || chain[seam.start - 1].slot < chain[seam.start].slot)
  }

  /** A seam then loses exactly the slots from its checkpoint, inclusive, to its first slot, exclusive. */
  lemma LostIsSlotRange(cfg: Cfg, seam: Seam, k: nat)
    requires SlotOrdered(cfg.chain) && OpensOnSlot(cfg.chain, seam) && k < |cfg.chain|
    ensures Lost(cfg, seam, k) <==>
      cfg.chain[k].slot < cfg.chain[seam.start].slot && (seam.base.None? || seam.base.value <= cfg.chain[k].slot)
  {
    if seam.start > 0 {
      assert k < seam.start ==> cfg.chain[k].slot <= cfg.chain[seam.start - 1].slot;
    }
  }

  /** The server opened at the requested slot or further back. */
  ghost predicate Honoured(chain: seq<Update>, seam: Seam) {
    OpensOnSlot(chain, seam) && seam.base.Some? && chain[seam.start].slot <= seam.base.value
  }

  /**
  Duplicates, never holes: if every session that had a checkpoint was served from
  it, then however often the process died, everything from `first` on, where the
  last start without a checkpoint opened, is stored up to the checkpoint.
   */
  lemma HonouredRunHasNoHole(cfg: Cfg, events: seq<Event>, first: nat, k: nat)
    requires SlotOrdered(cfg.chain) && ServedRun(cfg, events)
    requires forall i :: 0 <= i < |Run(cfg, events).hist.seams| ==>
      var seam := Run(cfg, events).hist.seams[i]; (if seam.base.None? then seam.start <= first else Honoured(cfg.chain, seam))
    requires first <= k < |cfg.chain|
    requires ReadResumeSlot(Run(cfg, events).db).Some?
    requires cfg.chain[k].slot < ReadResumeSlot(Run(cfg, events).db).value
    ensures Stored(cfg, Run(cfg, events).db, cfg.chain[k])
  {
    NoSilentHole(cfg, events, k);
    var seams := Run(cfg, events).hist.seams;
    forall i | 0 <= i < |seams|
      ensures !Lost(cfg, seams[i], k)
    {
      if seams[i].base.Some? { LostIsSlotRange(cfg, seams[i], k); }
    }
  }

  /** The last insertion wins when no stamp is newer. */
  lemma NewestWins(log: seq<Stamped<Checkpoint>>, e: Stamped<Checkpoint>)
    requires forall i :: 0 <= i < |log| ==> log[i].at <= e.at
    ensures Final(log + [e], (c: Checkpoint) => ()) == Final(log, (c: Checkpoint) => ())[() := e]
  {
    var key := (c: Checkpoint) => ();
    FinalIsNewest(log, key);
    assert (log + [e])[..|log|] == log;
    if () in Final(log, key) {
      var i :| 0 <= i < |log| && log[i] == Final(log, key)[()];
    }
  }

  predicate AllAcked(p: FlushPlan) {
    p.raw.Acked? && p.snap.Acked? && p.lm.Acked? && p.reserve.Acked? && p.checkpoint.Acked?
  }

  lemma AckedFlushDb(b: Buffers, db: Db, p: FlushPlan)
    requires !IsEmpty(b) && AllAcked(p)
    ensures FlushDb(b, db, p).ok
    ensures FlushDb(b, db, p).db.checkpoints == db.checkpoints + [Stamped(HighWater(b), p.checkpoint.at)]
    ensures FlushDb(b, db, p).db.raw == Insert(db.raw, b.raw, p.raw)
    ensures FlushDb(b, db, p).db.gaps == db.gaps
    ensures FlushDb(b, db, p).db.journal == db.journal + [CheckpointNote(HighWater(b))]
  {
  }

  lemma NewestCheckpointRead(db: Db, before: seq<Stamped<Checkpoint>>, e: Stamped<Checkpoint>)
    requires db.checkpoints == before + [e]
    requires forall i :: 0 <= i < |before| ==> before[i].at <= e.at
    ensures ReadResumeSlot(db) == Some(e.row.slot)
  {
    NewestWins(before, e);
  }

  lemma AckedFlushSucceeds(cfg: Cfg, s: State, p: FlushPlan)
    requires Inv(cfg, s) && s.phase.Streaming? && s.hist.flushed < s.hist.next && AllAcked(p)
    ensures s.hist.start.Some? && s.hist.next <= |cfg.chain|
    ensures !IsEmpty(s.bufs) && HighWater(s.bufs).slot == cfg.chain[s.hist.next - 1].slot
    ensures FlushOk(s, p) && Flush(s, p).db.checkpoints == s.db.checkpoints + [Stamped(HighWater(s.bufs), p.checkpoint.at)]
  {
    hide FlushDb, Sound, JournalCovered, Covered, SegmentStored, HighWater, IsEmpty;
    var us := cfg.chain[s.hist.flushed..s.hist.next];
    BufferMarks(cfg, us);
    AckedFlushDb(s.bufs, s.db, p);
    assert us[|us| - 1] == cfg.chain[s.hist.next - 1];
  }

  lemma FlushedSegment(cfg: Cfg, s: State, p: FlushPlan)
    requires SlotOrdered(cfg.chain) && Inv(cfg, s) && s.phase.Streaming? && s.hist.start.Some? && FlushOk(s, p)
    ensures s.hist.next <= |cfg.chain| && SegmentStored(cfg, Flush(s, p).db, s.hist.start.value, s.hist.next)
  {
    FlushKeepsInv(cfg, s, p);
    assert Opened(cfg, Flush(s, p), s.hist.start.value);
  }

  /** With every insert acknowledged, a flush stores the whole session and the checkpoint names its last update. */
  lemma AckedFlushCommits(cfg: Cfg, events: seq<Event>, p: FlushPlan)
    requires SlotOrdered(cfg.chain) && ServedRun(cfg, events)
    requires Run(cfg, events).phase.Streaming? && Run(cfg, events).hist.flushed < Run(cfg, events).hist.next
    requires AllAcked(p)
    requires forall i :: 0 <= i < |Run(cfg, events).db.checkpoints| ==> Run(cfg, events).db.checkpoints[i].at <= p.checkpoint.at
    ensures var s := Run(cfg, events); var f := Flush(s, p);
      && FlushOk(s, p) && s.hist.start.Some? && s.hist.next <= |cfg.chain|
      && SegmentStored(cfg, f.db, s.hist.start.value, s.hist.next)
      && ReadResumeSlot(f.db) == Some(cfg.chain[s.hist.next - 1].slot)
  {
    RunKeepsInv(cfg, events);
    AckedFlushCommitsState(cfg, Run(cfg, events), p, Flush(Run(cfg, events), p));
  }

  lemma AckedFlushCommitsState(cfg: Cfg, s: State, p: FlushPlan, f: State)
    requires SlotOrdered(cfg.chain) && Inv(cfg, s) && f == Flush(s, p)
    requires s.phase.Streaming? && s.hist.flushed < s.hist.next && AllAcked(p)
    requires forall i :: 0 <= i < |s.db.checkpoints| ==> s.db.checkpoints[i].at <= p.checkpoint.at
    ensures FlushOk(s, p) && s.hist.start.Some? && s.hist.next <= |cfg.chain|
    ensures SegmentStored(cfg, f.db, s.hist.start.value, s.hist.next)
    ensures ReadResumeSlot(f.db) == Some(cfg.chain[s.hist.next - 1].slot)
  {
    AckedFlushSucceeds(cfg, s, p);
    FlushedSegment(cfg, s, p);
    NewestCheckpointRead(f.db, s.db.checkpoints, Stamped(HighWater(s.bufs), p.checkpoint.at));
  }

  // ---------------------------------------------------------------- buffers

  /** What holds of the four buffers wherever a flush can be called. */
  ghost predicate Paired(b: Buffers) {
    && |b.snap| + |b.reserve| + |b.lm| <= |b.raw|
    && DerivedKeys(b.snap) + DerivedKeys(b.reserve) + DerivedKeys(b.lm) <= RawKeys(b.raw)
    && (IsEmpty(b) <==> b.raw == [])
    && (b.raw != [] ==> HighWater(b) == Checkpoint(b.raw[|b.raw| - 1].slot, b.raw[|b.raw| - 1].writeVersion))
  }

  lemma SegmentPaired(cfg: Cfg, us: seq<Update>)
    ensures Paired(BuffersOf(cfg, us)) && |BuffersOf(cfg, us).raw| == |us|
  {
    hide DerivedKeys, RawKeys;
    DerivedNoMoreThanRaw(cfg, us);
    BufferKeys(cfg, us);
  }

  lemma NoRowsPaired()
    ensures Paired(NO_ROWS) && |NO_ROWS.raw| == 0
  {
  }

  /**
  In every reachable state the decoded buffers hold keys of distinct buffered raw
  rows, so raw is empty only when all are and the high-water mark is always the
  last raw row's. The same holds after one more update, where a flush may come;
  there are never more than 4096 raw rows to flush.
   */
  lemma BuffersStayPaired(cfg: Cfg, events: seq<Event>, k: nat)
    requires SlotOrdered(cfg.chain) && ServedRun(cfg, events)
    ensures Paired(Run(cfg, events).bufs) && |Run(cfg, events).bufs.raw| < BATCH_MAX_ROWS
    ensures var s := Run(cfg, events);
      s.phase.Streaming? && k < |cfg.chain| && (s.hist.start.Some? ==> k == s.hist.next) ==>
      Paired(Receive(cfg, s, k).bufs) && |Receive(cfg, s, k).bufs.raw| <= BATCH_MAX_ROWS
  {
    hide Paired, Run, Push, SegmentStored, Sound, JournalCovered, Covered;
    var s := Run(cfg, events);
    RunKeepsInv(cfg, events);
    NoRowsPaired();
    if s.phase.Streaming? && s.hist.start.Some? { SegmentPaired(cfg, cfg.chain[s.hist.flushed..s.hist.next]); }
    if s.phase.Streaming? && k < |cfg.chain| && (s.hist.start.Some? ==> k == s.hist.next) {
      ReceiveKeepsInv(cfg, s, k);
      var r := Receive(cfg, s, k);
      SegmentPaired(cfg, cfg.chain[r.hist.flushed..r.hist.next]);
    }
  }

  // ------------------------------------------------------ exactly-once view

  /** Landed raw rows are chain updates, so the key determines the row. */
  lemma RawRowsFromChain(cfg: Cfg, s: State)
    requires Inv(cfg, s) && KeysDistinct(cfg.chain)
    ensures forall i :: 0 <= i < |s.db.raw.landed| ==> FromChain(cfg, s.db.raw.landed[i].row)
    ensures Functional(s.db.raw.landed, RawKey)
  {
    var landed := s.db.raw.landed;
    forall i | 0 <= i < |landed|
      ensures FromChain(cfg, landed[i].row)
    {
      assert landed[i].row in s.db.raw.issued;
      var j :| 0 <= j < |s.db.raw.issued| && s.db.raw.issued[j] == landed[i].row;
    }
    forall i, j | 0 <= i < |landed| && 0 <= j < |landed| && RawKey(landed[i].row) == RawKey(landed[j].row)
      ensures landed[i].row == landed[j].row
    {
      var k :| 0 <= k < |cfg.chain| && landed[i].row == RowOf(cfg, cfg.chain[k]);
      var l :| 0 <= l < |cfg.chain| && landed[j].row == RowOf(cfg, cfg.chain[l]);
      assert UpdateKey(cfg.chain[k]) == RawKey(landed[i].row) && UpdateKey(cfg.chain[l]) == RawKey(landed[j].row);
    }
  }

  /**
  `FINAL` of `account_updates` is exactly the landed chain updates, every
  intra-slot version under its own key, whatever was inserted twice.
   */
  lemma FinalIsLandedUpdates(cfg: Cfg, events: seq<Event>)
    requires SlotOrdered(cfg.chain) && KeysDistinct(cfg.chain) && ServedRun(cfg, events)
    ensures var view := View(Run(cfg, events).db.raw.landed, RawKey);
      && (forall k :: 0 <= k < |cfg.chain| && Has(Run(cfg, events).db.raw.landed, RowOf(cfg, cfg.chain[k])) ==>
            UpdateKey(cfg.chain[k]) in view && view[UpdateKey(cfg.chain[k])] == RowOf(cfg, cfg.chain[k]))
      && (forall key :: key in view ==>
            exists k :: 0 <= k < |cfg.chain| && UpdateKey(cfg.chain[k]) == key && view[key] == RowOf(cfg, cfg.chain[k]))
  {
    hide Run, Inv, Final, ServedRun;
    var s := Run(cfg, events);
    var landed := s.db.raw.landed;
    RunKeepsInv(cfg, events);
    RawRowsFromChain(cfg, s);
    ViewIsRows(landed, RawKey);
    var view := View(landed, RawKey);
    forall k | 0 <= k < |cfg.chain| && Has(landed, RowOf(cfg, cfg.chain[k]))
      ensures UpdateKey(cfg.chain[k]) in view && view[UpdateKey(cfg.chain[k])] == RowOf(cfg, cfg.chain[k])
    {
      var i :| 0 <= i < |landed| && landed[i].row == RowOf(cfg, cfg.chain[k]);
      DerivedHasKey(cfg, cfg.chain[k]);
    }
    forall key | key in view
      ensures exists k :: 0 <= k < |cfg.chain| && UpdateKey(cfg.chain[k]) == key && view[key] == RowOf(cfg, cfg.chain[k])
    {
      var i :| 0 <= i < |landed| && landed[i].row == view[key];
      var k :| 0 <= k < |cfg.chain| && landed[i].row == RowOf(cfg, cfg.chain[k]);
      assert UpdateKey(cfg.chain[k]) == key;
    }
  }

  /** Replays are invisible: a longer run that lands no new row shows the same table. */
  lemma ReplaysInvisible(cfg: Cfg, events: seq<Event>, more: seq<Event>)
    requires SlotOrdered(cfg.chain) && KeysDistinct(cfg.chain)
    requires ServedRun(cfg, events) && ServedRun(cfg, more)
    requires forall i :: 0 <= i < |Run(cfg, events).db.raw.landed| ==> Has(Run(cfg, more).db.raw.landed, Run(cfg, events).db.raw.landed[i].row)
    requires forall i :: 0 <= i < |Run(cfg, more).db.raw.landed| ==> Has(Run(cfg, events).db.raw.landed, Run(cfg, more).db.raw.landed[i].row)
    ensures View(Run(cfg, more).db.raw.landed, RawKey) == View(Run(cfg, events).db.raw.landed, RawKey)
  {
    RunKeepsInv(cfg, events);
    RawRowsFromChain(cfg, Run(cfg, events));
    SameRowsSameView(Run(cfg, events).db.raw.landed, Run(cfg, more).db.raw.landed, RawKey);
  }

  // --------------------------------------------------------- derived tables

  /** Every decoded row is the decode of an update whose raw row is stored. */
  lemma DerivedNeverOutrunRaw(cfg: Cfg, events: seq<Event>, t: Table, r: DerivedRow)
    requires SlotOrdered(cfg.chain) && ServedRun(cfg, events)
    requires Has(TableLog(Run(cfg, events).db, t).landed, r)
    ensures DerivedFromRaw(cfg, Run(cfg, events).db, t, r)
  {
    RunKeepsInv(cfg, events);
    var log := TableLog(Run(cfg, events).db, t);
    var i :| 0 <= i < |log.landed| && log.landed[i].row == r;
    assert LandedIssued(log);
    var j :| 0 <= j < |log.issued| && log.issued[j] == r;
  }

  // --------------------------------------------------------------- gap rows

  /**
  Unattended, or with any budget but zero: once a checkpoint has been issued past
  a seam that needs a row, the row for it was issued before.
   */
  lemma GapRowBeforeCheckpoint(cfg: Cfg, events: seq<Event>, i: nat, p: nat)
    requires cfg.budget != Some(0)
    requires SlotOrdered(cfg.chain) && ServedRun(cfg, events)
    requires i < |Run(cfg, events).hist.seams| && NeedsRow(cfg, Run(cfg, events).hist.seams[i])
    requires Run(cfg, events).hist.seams[i].at <= p < |Run(cfg, events).db.journal| && Run(cfg, events).db.journal[p].CheckpointNote?
    ensures var s := Run(cfg, events); var seam := s.hist.seams[i]; Announced(s.db.journal, p, seam.base.value, EndOf(cfg, seam))
  {
    RunKeepsGaps(cfg, events);
  }

  /** A sampling process subscribes at most once; a pass of the reconnect loop records at most one gap. */
  lemma OneSubscribeOneGap(cfg: Cfg, events: seq<Event>)
    ensures cfg.budget.Some? ==> Run(cfg, events).hist.subscribes <= 1
    ensures Run(cfg, events).hist.passGaps <= 1
    ensures Run(cfg, events).phase.Streaming? ==>
      (Run(cfg, events).session.gotData <==> Run(cfg, events).session.firstSlot.Some?)
  {
    RunKeepsControl(cfg, events);
  }
}
