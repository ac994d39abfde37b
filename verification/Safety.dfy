/** The invariant of the ingest protocol, kept by every step of every run. */
module Safety {
  import opened Wrappers
  import opened MergeTree
  import opened Protocol
  import opened Resume
  import opened Coverage

  // -------------------------------------------------------------- invariant

  /** A session that has delivered nothing holds nothing. */
  ghost predicate Unopened(s: State) {
    s.bufs == NO_ROWS && s.session.firstSlot.None? && !s.session.gotData && !s.session.judged
  }

  /**
  A session opened at chain position `start` has delivered `[start, next)`: up to
  `flushed` it is stored, the rest is exactly what the buffers hold.
   */
  ghost predicate Opened(cfg: Cfg, s: State, start: nat) {
    var h := s.hist;
    && start <= h.flushed <= h.next <= |cfg.chain| && start < h.next
    && s.bufs == BuffersOf(cfg, cfg.chain[h.flushed..h.next])
    && SegmentStored(cfg, s.db, start, h.flushed)
    && HasSeam(h.seams, h.base, start)
    && s.session.firstSlot == Some(cfg.chain[start].slot)
    && s.session.gotData
  }

  ghost predicate StreamInv(cfg: Cfg, s: State) {
    && (s.hist.base.Some? ==> Covered(cfg, s.db, s.hist.seams, s.hist.base.value))
    && (if s.hist.forced then s.session.resumeFrom.None? && s.hist.base.Some? else s.session.resumeFrom == s.hist.base)
    && match s.hist.start
       case None => Unopened(s) && s.hist.flushed == s.hist.next
       case Some(start) => Opened(cfg, s, start)
  }

  ghost predicate TablesInv(cfg: Cfg, s: State) {
    Sound(cfg, s.db) && JournalCovered(cfg, s.db, s.hist.seams)
  }

  ghost predicate Inv(cfg: Cfg, s: State) {
    && TablesInv(cfg, s)
    && (forall i :: 0 <= i < |s.hist.seams| ==> s.hist.seams[i].start < |cfg.chain|)
    && (s.phase.Connecting? && s.proc.forceTip ==> Covered(cfg, s.db, s.hist.seams, s.hist.givenUp))
    && (!s.phase.Streaming? ==> s.bufs == NO_ROWS)
    && (s.phase.Streaming? ==> StreamInv(cfg, s) && s.hist.next < s.hist.flushed + BATCH_MAX_ROWS && !s.proc.forceTip)
  }

  // -------------------------------------------------------------- the steps

  /** Tables may grow under the program's feet, as long as no new checkpoint is issued. */
  lemma GrowKeepsInv(cfg: Cfg, s: State, db: Db)
    requires Inv(cfg, s) && Grows(s.db, db) && Sound(cfg, db)
    requires forall p :: |s.db.journal| <= p < |db.journal| ==> db.journal[p].GapNote?
    ensures Inv(cfg, s.(db := db))
  {
    var h := s.hist;
    JournalGrows(cfg, s.db, db, h.seams, h.seams);
    if s.phase.Connecting? && s.proc.forceTip {
      CoveredGrows(cfg, s.db, db, h.seams, h.seams, h.givenUp);
    }
    if s.phase.Streaming? {
      if h.base.Some? {
        CoveredGrows(cfg, s.db, db, h.seams, h.seams, h.base.value);
      }
      if h.start.Some? {
        SegmentGrows(cfg, s.db, db, h.start.value, h.flushed);
      }
    }
  }

  lemma GapIsSound(cfg: Cfg, db: Db, g: GapRow, o: Outcome)
    requires Sound(cfg, db)
    ensures Sound(cfg, RecordGap(db, g, o)) && Grows(db, RecordGap(db, g, o))
  {
    var f := RecordGap(db, g, o);
    SameDataSound(cfg, db, f);
    forall i | 0 <= i < |f.gaps|
      ensures GapNote(f.gaps[i].row) in f.journal
    {
      if i < |db.gaps| {
        assert GapNote(db.gaps[i].row) in db.journal;
      } else {
        assert f.gaps[i].row in [g];
        assert f.journal[|db.journal|] == GapNote(g);
      }
    }
  }

  /** Changing only the control tables leaves the data tables sound. */
  lemma SameDataSound(cfg: Cfg, db: Db, f: Db)
    requires Sound(cfg, db)
    requires f.raw == db.raw && f.snap == db.snap && f.reserve == db.reserve && f.lm == db.lm
    ensures LandedIssued(f.raw) && forall i :: 0 <= i < |f.raw.issued| ==> FromChain(cfg, f.raw.issued[i])
    ensures forall t: Table :: LandedIssued(TableLog(f, t))
    ensures forall t: Table, i :: 0 <= i < |TableLog(f, t).issued| ==> DerivedFromRaw(cfg, f, t, TableLog(f, t).issued[i])
  {
    forall t: Table
      ensures LandedIssued(TableLog(f, t))
      ensures forall i :: 0 <= i < |TableLog(f, t).issued| ==> DerivedFromRaw(cfg, f, t, TableLog(f, t).issued[i])
    {
      assert TableLog(f, t) == TableLog(db, t);
      forall i | 0 <= i < |TableLog(f, t).issued|
        ensures DerivedFromRaw(cfg, f, t, TableLog(f, t).issued[i])
      {
        DerivedFromRawGrows(cfg, db, f, t, TableLog(db, t).issued[i]);
      }
    }
  }

  lemma LateNoteSound(cfg: Cfg, db: Db, i: nat, at: nat)
    requires Sound(cfg, db)
    ensures Sound(cfg, LateNoteLanding(db, i, at))
  {
    SameDataSound(cfg, db, LateNoteLanding(db, i, at));
  }

  lemma LateRawSound(cfg: Cfg, db: Db, i: nat, at: nat)
    requires Sound(cfg, db)
    ensures Sound(cfg, LateRawLanding(db, i, at))
  {
    var f := LateRawLanding(db, i, at);
    forall t: Table
      ensures LandedIssued(TableLog(f, t))
      ensures forall j :: 0 <= j < |TableLog(f, t).issued| ==> DerivedFromRaw(cfg, f, t, TableLog(f, t).issued[j])
    {
      assert TableLog(f, t) == TableLog(db, t);
      forall j | 0 <= j < |TableLog(f, t).issued|
        ensures DerivedFromRaw(cfg, f, t, TableLog(f, t).issued[j])
      {
        DerivedFromRawGrows(cfg, db, f, t, TableLog(db, t).issued[j]);
      }
    }
  }

  lemma LateDerivedSound(cfg: Cfg, db: Db, t: Table, i: nat, at: nat)
    requires Sound(cfg, db)
    ensures Sound(cfg, LateDerivedLanding(db, t, i, at))
  {
    hide DerivedFromRaw, FromChain;
    var f := LateDerivedLanding(db, t, i, at);
    assert LandedIssued(TableLog(db, t));
    forall u: Table
      ensures LandedIssued(TableLog(f, u))
      ensures forall j :: 0 <= j < |TableLog(f, u).issued| ==> DerivedFromRaw(cfg, f, u, TableLog(f, u).issued[j])
    {
      assert TableLog(f, u).issued == TableLog(db, u).issued;
      assert u != t ==> TableLog(f, u) == TableLog(db, u);
      forall j | 0 <= j < |TableLog(f, u).issued|
        ensures DerivedFromRaw(cfg, f, u, TableLog(f, u).issued[j])
      {
        DerivedFromRawGrows(cfg, db, f, u, TableLog(db, u).issued[j]);
      }
    }
  }

  /** The durable checkpoint is one the program issued, so it is covered whichever landing won. */
  lemma DurableIsCovered(cfg: Cfg, s: State)
    requires TablesInv(cfg, s)
    ensures ReadResumeSlot(s.db).Some? ==> Covered(cfg, s.db, s.hist.seams, ReadResumeSlot(s.db).value)
  {
    var key := (c: Checkpoint) => ();
    FinalIsNewest(s.db.checkpoints, key);
    if ReadResumeSlot(s.db).Some? {
      var i :| 0 <= i < |s.db.checkpoints| && s.db.checkpoints[i] == Final(s.db.checkpoints, key)[()];
      var p :| 0 <= p < |s.db.journal| && s.db.journal[p] == CheckpointNote(s.db.checkpoints[i].row);
    }
  }

  /** A flush keeps the tables right whether it succeeds or not; if it succeeds the session goes on. */
  lemma FlushKeepsInv(cfg: Cfg, s: State, p: FlushPlan)
    requires SlotOrdered(cfg.chain)
    requires TablesInv(cfg, s) && StreamInv(cfg, s)
    ensures TablesInv(cfg, Flush(s, p))
    ensures FlushOk(s, p) ==> StreamInv(cfg, Flush(s, p))
  {
    var h := s.hist;
    var f := FlushDb(s.bufs, s.db, p);
    FlushHasEffect(s.bufs, s.db, p);
    FlushGrows(s.bufs, s.db, p, f.db, f.ok);
    match h.start
    case None =>
    case Some(start) =>
      FlushSound(cfg, h.flushed, h.next, s.db, p, f.db, f.ok);
      FlushCovered(cfg, h.seams, h.base, start, h.flushed, h.next, s.db, p, f.db, f.ok);
      if h.base.Some? {
        CoveredGrows(cfg, s.db, f.db, h.seams, h.seams, h.base.value);
      }
      EmptyBuffers(cfg, h.next);
  }

  lemma EmptyBuffers(cfg: Cfg, k: nat)
    requires k <= |cfg.chain|
    ensures BuffersOf(cfg, cfg.chain[k..k]) == NO_ROWS
  {
    assert cfg.chain[k..k] == [];
  }

  /** The update joins the buffered segment. */
  lemma ReceiveBuffers(cfg: Cfg, lo: nat, k: nat)
    requires lo <= k < |cfg.chain|
    ensures Push(cfg, BuffersOf(cfg, cfg.chain[lo..k]), cfg.chain[k]) == BuffersOf(cfg, cfg.chain[lo..k + 1])
  {
    PushIsBuffersOf(cfg, cfg.chain[lo..k], cfg.chain[k]);
    assert cfg.chain[lo..k] + [cfg.chain[k]] == cfg.chain[lo..k + 1];
  }

  /** The seam of a session joins the record as its first update arrives. */
  lemma SeamJoins(cfg: Cfg, s: State, seam: Seam, seams: seq<Seam>)
    requires Inv(cfg, s) && seams == s.hist.seams + [seam] && seam.base == s.hist.base && s.phase.Streaming?
    ensures JournalCovered(cfg, s.db, seams)
    ensures s.hist.base.Some? ==> Covered(cfg, s.db, seams, s.hist.base.value)
    ensures HasSeam(seams, s.hist.base, seam.start)
  {
    JournalGrows(cfg, s.db, s.db, s.hist.seams, seams);
    if s.hist.base.Some? {
      CoveredGrows(cfg, s.db, s.db, s.hist.seams, seams, s.hist.base.value);
    }
    assert seams[|s.hist.seams|] == seam;
  }

  lemma ReceiveFirst(cfg: Cfg, s: State, k: nat, r: State)
    requires Inv(cfg, s) && s.phase.Streaming? && k < |cfg.chain| && s.hist.start.None?
    requires r == Receive(cfg, s, k)
    ensures TablesInv(cfg, r) && StreamInv(cfg, r)
  {
    hide Push, Sound, JournalCovered, Covered, HasSeam;
    EmptyBuffers(cfg, k);
    ReceiveBuffers(cfg, k, k);
    SeamJoins(cfg, s, Seam(s.hist.base, s.hist.forced, k, |s.db.journal|), r.hist.seams);
    assert Opened(cfg, r, k);
  }

  lemma ReceiveNext(cfg: Cfg, s: State, k: nat, r: State)
    requires Inv(cfg, s) && s.phase.Streaming? && k < |cfg.chain| && s.hist.start.Some? && k == s.hist.next
    requires r == Receive(cfg, s, k)
    ensures TablesInv(cfg, r) && StreamInv(cfg, r)
  {
    hide Push, SegmentStored, Sound, JournalCovered, Covered;
    assert Opened(cfg, s, s.hist.start.value);
    ReceiveBuffers(cfg, s.hist.flushed, k);
    assert r.bufs == BuffersOf(cfg, cfg.chain[s.hist.flushed..k + 1]);
    assert Opened(cfg, r, s.hist.start.value);
  }

  lemma ReceiveKeepsInv(cfg: Cfg, s: State, k: nat)
    requires Inv(cfg, s) && s.phase.Streaming? && k < |cfg.chain|
    requires s.hist.start.Some? ==> k == s.hist.next
    ensures TablesInv(cfg, Receive(cfg, s, k)) && StreamInv(cfg, Receive(cfg, s, k))
    ensures Receive(cfg, s, k).hist.next <= Receive(cfg, s, k).hist.flushed + BATCH_MAX_ROWS
    ensures forall i :: 0 <= i < |Receive(cfg, s, k).hist.seams| ==> Receive(cfg, s, k).hist.seams[i].start < |cfg.chain|
  {
    if s.hist.start.None? {
      ReceiveFirst(cfg, s, k, Receive(cfg, s, k));
    } else {
      ReceiveNext(cfg, s, k, Receive(cfg, s, k));
    }
  }

  /** A full buffer after one more row means exactly one full batch. */
  lemma FullIsBatch(cfg: Cfg, s: State)
    requires StreamInv(cfg, s) && s.hist.start.Some?
    ensures Full(s.bufs) <==> s.hist.next - s.hist.flushed >= BATCH_MAX_ROWS
  {
    BufferMarks(cfg, cfg.chain[s.hist.flushed..s.hist.next]);
  }

  lemma JudgeKeepsInv(cfg: Cfg, s: State, o: Outcome)
    requires Inv(cfg, s) && s.phase.Streaming?
    ensures Inv(cfg, Judge(s, o))
  {
    hide Sound, JournalCovered, Covered, AddGap;
    if !s.session.judged && s.session.firstSlot.Some? {
      var s1 := s.(session := s.session.(judged := true));
      assert Inv(cfg, s1);
      var v := ClassifyResume(s.session.resumeFrom, s.session.firstSlot.value);
      if v.Gap? {
        AddGapKeepsInv(cfg, s1, v.startSlot, v.endSlot, o);
      }
    }
  }

  lemma AddGapKeepsInv(cfg: Cfg, s: State, start: nat, end: nat, o: Outcome)
    requires Inv(cfg, s)
    ensures Inv(cfg, AddGap(s, start, end, o))
  {
    GapIsSound(cfg, s.db, GapRow(start, end), o);
    GrowKeepsInv(cfg, s, RecordGap(s.db, GapRow(start, end), o));
  }

  /** Giving a resume point up keeps it covered: it was read from the checkpoint table. */
  lemma GiveUpKeepsInv(cfg: Cfg, s: State, from: nat, o: Outcome)
    requires TablesInv(cfg, s) && s.bufs == NO_ROWS && Covered(cfg, s.db, s.hist.seams, from)
    requires forall i :: 0 <= i < |s.hist.seams| ==> s.hist.seams[i].start < |cfg.chain|
    ensures Inv(cfg, GiveUp(s, from, o))
  {
    var g := GapRow(from, s.proc.lastSlot);
    var f := RecordGap(s.db, g, o);
    GapIsSound(cfg, s.db, g, o);
    JournalGrows(cfg, s.db, f, s.hist.seams, s.hist.seams);
    CoveredGrows(cfg, s.db, f, s.hist.seams, s.hist.seams, from);
  }

  lemma DeliverKeepsInv(cfg: Cfg, s: State, k: nat, cap: FlushPlan, fin: FlushPlan, gap: Outcome)
    requires SlotOrdered(cfg.chain)
    requires Inv(cfg, s) && s.phase.Streaming? && k < |cfg.chain|
    requires s.hist.start.Some? ==> k == s.hist.next
    ensures Inv(cfg, OnDeliver(cfg, s, k, cap, fin, gap))
  {
    hide Sound, JournalCovered, Covered, Opened, FlushDb, Judge, Full, BudgetReached, Push;
    var s1 := Receive(cfg, s, k);
    ReceiveKeepsInv(cfg, s, k);
    FullIsBatch(cfg, s1);
    FlushKeepsInv(cfg, s1, cap);
    if !Full(s1.bufs) || FlushOk(s1, cap) {
      var s2 := if Full(s1.bufs) then Flush(s1, cap) else s1;
      FlushKeepsInv(cfg, s2, fin);
      if !BudgetReached(cfg, s2.proc) {
        JudgeKeepsInv(cfg, s2, gap);
      }
    }
  }

  lemma StreamEndKeepsInv(cfg: Cfg, s: State, p: FlushPlan, gap: Outcome)
    requires SlotOrdered(cfg.chain)
    requires Inv(cfg, s) && s.phase.Streaming?
    ensures Inv(cfg, OnStreamEnd(cfg, s, p, gap))
  {
    hide Sound, JournalCovered, Covered, Opened, FlushDb, GiveUp;
    FlushKeepsInv(cfg, s, p);
    var s1 := Flush(s, p);
    if FlushOk(s, p) && cfg.budget.None? && !s.session.gotData && s.session.resumeFrom.Some? {
      GiveUpKeepsInv(cfg, s1, s.session.resumeFrom.value, gap);
    }
  }

  lemma SubscribeKeepsInv(cfg: Cfg, s: State, gap: Outcome)
    requires Inv(cfg, s) && s.phase.Connecting?
    ensures Inv(cfg, Open(s)) && Inv(cfg, Refuse(cfg, s, gap))
  {
    DurableIsCovered(cfg, s);
    var from := ResumeFrom(s);
    if from.Some? {
      GiveUpKeepsInv(cfg, Attempt(s), from.value, gap);
    }
  }

  // An insert the program has given up on does no harm when it lands after all.

  lemma LateRawKeepsInv(cfg: Cfg, s: State, i: nat, at: nat)
    requires Inv(cfg, s)
    ensures Inv(cfg, s.(db := LateRawLanding(s.db, i, at)))
  {
    hide Sound, Covered, Opened, StreamInv;
    LateRawSound(cfg, s.db, i, at);
    GrowKeepsInv(cfg, s, LateRawLanding(s.db, i, at));
  }

  lemma LateDerivedKeepsInv(cfg: Cfg, s: State, t: Table, i: nat, at: nat)
    requires Inv(cfg, s)
    ensures Inv(cfg, s.(db := LateDerivedLanding(s.db, t, i, at)))
  {
    hide Sound, Covered, Opened, StreamInv;
    LateDerivedSound(cfg, s.db, t, i, at);
    GrowKeepsInv(cfg, s, LateDerivedLanding(s.db, t, i, at));
  }

  lemma LateNoteKeepsInv(cfg: Cfg, s: State, i: nat, at: nat)
    requires Inv(cfg, s)
    ensures Inv(cfg, s.(db := LateNoteLanding(s.db, i, at)))
  {
    hide Sound, Covered, Opened, StreamInv;
    LateNoteSound(cfg, s.db, i, at);
    GrowKeepsInv(cfg, s, LateNoteLanding(s.db, i, at));
  }

  lemma StepKeepsInv(cfg: Cfg, s: State, e: Event)
    requires SlotOrdered(cfg.chain) && Inv(cfg, s) && Served(s, e)
    ensures Inv(cfg, Step(cfg, s, e))
  {
    hide Sound, JournalCovered, Covered, Opened, OnDeliver, Judge, OnStreamEnd, Refuse, Open, FlushDb, LateRawLanding, LateDerivedLanding, LateNoteLanding;
    match e
    case Start =>
    case Kill =>
    case ConnectFailed =>
    case Accepted => if s.phase.Connecting? { SubscribeKeepsInv(cfg, s, Acked(0)); }
    case Refused(gap) => if s.phase.Connecting? { SubscribeKeepsInv(cfg, s, gap); }
    case Deliver(k, cap, fin, gap) => if s.phase.Streaming? && k < |cfg.chain| { DeliverKeepsInv(cfg, s, k, cap, fin, gap); }
    case OtherMessage(gap) => if s.phase.Streaming? { JudgeKeepsInv(cfg, s, gap); }
    case FlushTick(p) => if s.phase.Streaming? { FlushKeepsInv(cfg, s, p); }
    case Signal(p) => if s.phase.Streaming? { FlushKeepsInv(cfg, s, p); }
    case StreamEnd(p, gap) => if s.phase.Streaming? { StreamEndKeepsInv(cfg, s, p, gap); }
    case LateRaw(i, at) => LateRawKeepsInv(cfg, s, i, at);
    case LateDerived(t, i, at) => LateDerivedKeepsInv(cfg, s, t, i, at);
    case LateNote(i, at) => LateNoteKeepsInv(cfg, s, i, at);
  }

  lemma {:induction false} RunKeepsInv(cfg: Cfg, events: seq<Event>)
    requires SlotOrdered(cfg.chain) && ServedRun(cfg, events)
    ensures Inv(cfg, Run(cfg, events))
  {
    hide Step;
    if events != [] {
      RunKeepsInv(cfg, events[..|events| - 1]);
      StepKeepsInv(cfg, Run(cfg, events[..|events| - 1]), events[|events| - 1]);
    }
  }
}
