/**
What no step of the ingest protocol ever undoes, and where recorded gaps start:
always at a slot some flush had committed (src/main.rs).
 */
module Monotone {
  import opened Wrappers
  import opened MergeTree
  import opened Protocol
  import opened Resume
  import opened Coverage
  import opened Safety
  import opened GapQuery

  /** Raw and gap rows that landed stay, control inserts that were issued stay. */
  ghost predicate Extends(a: Db, b: Db) {
    a.raw.landed <= b.raw.landed && a.journal <= b.journal && a.gaps <= b.gaps
  }

  lemma FlushExtends(b: Buffers, db: Db, p: FlushPlan)
    ensures Extends(db, FlushDb(b, db, p).db)
  {
    hide HighWater, Landing, Through, DataThrough;
  }

  lemma JudgeExtends(s: State, o: Outcome)
    ensures Extends(s.db, Judge(s, o).db)
  {
    hide Landing;
  }

  lemma DeliverExtends(cfg: Cfg, s: State, k: nat, cap: FlushPlan, fin: FlushPlan, gap: Outcome)
    requires k < |cfg.chain|
    ensures Extends(s.db, OnDeliver(cfg, s, k, cap, fin, gap).db)
  {
    hide FlushDb, Push, Judge, Full, BudgetReached, FlushOk;
    var s1 := Receive(cfg, s, k);
    FlushExtends(s1.bufs, s1.db, cap);
    var s2 := if Full(s1.bufs) then Flush(s1, cap) else s1;
    FlushExtends(s2.bufs, s2.db, fin);
    JudgeExtends(s2, gap);
  }

  lemma StepExtends(cfg: Cfg, s: State, e: Event)
    ensures Extends(s.db, Step(cfg, s, e).db)
  {
    hide FlushDb, Judge, OnDeliver, Landing, FlushOk, ReadResumeSlot, TableLog;
    match e
    case Deliver(k, cap, fin, gap) => if k < |cfg.chain| { DeliverExtends(cfg, s, k, cap, fin, gap); }
    case OtherMessage(gap) => JudgeExtends(s, gap);
    case FlushTick(p) => FlushExtends(s.bufs, s.db, p);
    case Signal(p) => FlushExtends(s.bufs, s.db, p);
    case StreamEnd(p, gap) => FlushExtends(s.bufs, s.db, p);
    case _ =>
  }

  /** A run keeps everything a shorter run had. */
  lemma {:induction false} RunExtends(cfg: Cfg, events: seq<Event>, later: seq<Event>)
    requires events <= later
    ensures Extends(Run(cfg, events).db, Run(cfg, later).db)
    decreases |later|
  {
    hide Step;
    if |events| < |later| {
      var before := later[..|later| - 1];
      RunExtends(cfg, events, before);
      StepExtends(cfg, Run(cfg, before), later[|later| - 1]);
    } else {
      assert later == events;
    }
  }

  /** A gap row that landed keeps its key in `slot_gaps FINAL` for ever: the table is keyed by the start slot. */
  lemma GapRowStays(cfg: Cfg, events: seq<Event>, later: seq<Event>, i: nat)
    requires events <= later && i < |Run(cfg, events).db.gaps|
    ensures Run(cfg, events).db.gaps[i].row.startSlot in Final(Run(cfg, later).db.gaps, GapKey)
  {
    hide Run;
    var a, b := Run(cfg, events).db.gaps, Run(cfg, later).db.gaps;
    RunExtends(cfg, events, later);
    FinalIsNewest(a, GapKey);
    FinalKeepsKeys(a, b[|a|..], GapKey);
    assert a + b[|a|..] == b;
  }

  /** The end slot shown for a start slot is that of the newest row recorded there, whichever site recorded it. */
  lemma GapEndShown(cfg: Cfg, events: seq<Event>, start: nat, end: nat)
    ensures var gaps := Run(cfg, events).db.gaps;
      (start in Final(gaps, GapKey) && Final(gaps, GapKey)[start].row == GapRow(start, end)) <==>
      (exists w: nat :: IsNewest(gaps, GapKey, w) && gaps[w].row == GapRow(start, end))
  {
    hide Run, Final;
    var gaps := Run(cfg, events).db.gaps;
    forall w: nat | IsNewest(gaps, GapKey, w) && gaps[w].row == GapRow(start, end)
      ensures start in Final(gaps, GapKey) && Final(gaps, GapKey)[start].row == GapRow(start, end)
    {
      FinalShows(gaps, GapKey, w);
    }
    if start in Final(gaps, GapKey) {
      NewestExists(gaps, GapKey, start);
      var w: nat :| IsNewest(gaps, GapKey, w) && GapKey(gaps[w].row) == start;
      FinalShows(gaps, GapKey, w);
    }
  }

  // --------------------------------------------------- where gaps start

  /** Some flush has committed this slot as its checkpoint. */
  ghost predicate Noted(journal: seq<Note>, slot: nat) {
    exists q :: 0 <= q < |journal| && journal[q].CheckpointNote? && journal[q].checkpoint.slot == slot
  }

  ghost predicate GapsNoted(journal: seq<Note>) {
    forall p :: 0 <= p < |journal| && journal[p].GapNote? ==> Noted(journal, journal[p].gap.startSlot)
  }

  /** Every recorded gap, and the gap the session may still record, starts at a committed slot. */
  ghost predicate StartsInv(s: State) {
    GapsNoted(s.db.journal) && (s.phase.Streaming? && s.session.resumeFrom.Some? ==> Noted(s.db.journal, s.session.resumeFrom.value))
  }

  lemma NoteKeepsNoted(journal: seq<Note>, note: Note)
    requires GapsNoted(journal)
    requires note.GapNote? ==> Noted(journal, note.gap.startSlot)
    ensures GapsNoted(journal + [note])
    ensures forall slot: nat :: Noted(journal, slot) ==> Noted(journal + [note], slot)
  {
    var more := journal + [note];
    forall slot: nat | Noted(journal, slot)
      ensures Noted(more, slot)
    {
      var q :| 0 <= q < |journal| && journal[q].CheckpointNote? && journal[q].checkpoint.slot == slot;
      assert more[q] == journal[q];
    }
    forall p | 0 <= p < |more| && more[p].GapNote?
      ensures Noted(more, more[p].gap.startSlot)
    {
      if p < |journal| { assert more[p] == journal[p]; }
    }
  }

  lemma DurableIsNoted(cfg: Cfg, s: State)
    requires TablesInv(cfg, s)
    ensures ReadResumeSlot(s.db).Some? ==> Noted(s.db.journal, ReadResumeSlot(s.db).value)
  {
    hide JournalCovered;
    var key := (c: Checkpoint) => ();
    FinalIsNewest(s.db.checkpoints, key);
    if ReadResumeSlot(s.db).Some? {
      var i :| 0 <= i < |s.db.checkpoints| && s.db.checkpoints[i] == Final(s.db.checkpoints, key)[()];
      var p :| 0 <= p < |s.db.journal| && s.db.journal[p] == CheckpointNote(s.db.checkpoints[i].row);
    }
  }

  lemma FlushJournal(b: Buffers, db: Db, p: FlushPlan)
    ensures var f := FlushDb(b, db, p).db;
      f.journal == db.journal || (!IsEmpty(b) && f.journal == db.journal + [CheckpointNote(HighWater(b))])
  {
    hide HighWater, Landing, Through, DataThrough, IsEmpty;
  }

  lemma FlushKeepsStarts(s: State, p: FlushPlan)
    requires StartsInv(s)
    ensures StartsInv(Flush(s, p))
  {
    hide FlushDb, GapsNoted, Noted, HighWater, IsEmpty;
    FlushJournal(s.bufs, s.db, p);
    if !IsEmpty(s.bufs) { NoteKeepsNoted(s.db.journal, CheckpointNote(HighWater(s.bufs))); }
  }

  lemma AddGapKeepsStarts(s: State, start: nat, end: nat, o: Outcome)
    requires StartsInv(s) && Noted(s.db.journal, start)
    ensures StartsInv(AddGap(s, start, end, o))
  {
    hide GapsNoted, Noted, Landing;
    NoteKeepsNoted(s.db.journal, GapNote(GapRow(start, end)));
  }

  lemma JudgeKeepsStarts(s: State, o: Outcome)
    requires StartsInv(s) && s.phase.Streaming?
    ensures StartsInv(Judge(s, o))
  {
    hide GapsNoted, Noted, AddGap;
    if !s.session.judged && s.session.firstSlot.Some? {
      var v := ClassifyResume(s.session.resumeFrom, s.session.firstSlot.value);
      var s1 := s.(session := s.session.(judged := true));
      if v.Gap? { AddGapKeepsStarts(s1, v.startSlot, v.endSlot, o); }
    }
  }

  lemma DeliverKeepsStarts(cfg: Cfg, s: State, k: nat, cap: FlushPlan, fin: FlushPlan, gap: Outcome)
    requires StartsInv(s) && s.phase.Streaming? && k < |cfg.chain|
    ensures StartsInv(OnDeliver(cfg, s, k, cap, fin, gap))
  {
    hide GapsNoted, Noted, Flush, Judge, Full, BudgetReached, FlushOk, Push;
    var s1 := Receive(cfg, s, k);
    FlushKeepsStarts(s1, cap);
    var s2 := if Full(s1.bufs) then Flush(s1, cap) else s1;
    FlushStreams(s1, cap);
    FlushKeepsStarts(s2, fin);
    JudgeKeepsStarts(s2, gap);
  }

  lemma FlushStreams(s: State, p: FlushPlan)
    ensures Flush(s, p).phase == s.phase && Flush(s, p).session == s.session
  {
  }

  lemma GiveUpKeepsStarts(s: State, from: nat, o: Outcome)
    requires StartsInv(s) && Noted(s.db.journal, from)
    ensures StartsInv(GiveUp(s, from, o))
  {
    hide GapsNoted, Noted;
    AddGapKeepsStarts(s, from, s.proc.lastSlot, o);
  }

  lemma SubscribeKeepsStarts(cfg: Cfg, s: State, gap: Outcome)
    requires StartsInv(s) && Inv(cfg, s) && s.phase.Connecting?
    ensures StartsInv(Open(s)) && StartsInv(Refuse(cfg, s, gap))
  {
    hide GapsNoted, Noted, ReadResumeSlot, GiveUp, TablesInv, StreamInv;
    DurableIsNoted(cfg, s);
    if ResumeFrom(s).Some? { GiveUpKeepsStarts(Attempt(s), ResumeFrom(s).value, gap); }
  }

  lemma StreamEndKeepsStarts(cfg: Cfg, s: State, p: FlushPlan, gap: Outcome)
    requires StartsInv(s) && s.phase.Streaming?
    ensures StartsInv(OnStreamEnd(cfg, s, p, gap))
  {
    hide GapsNoted, Noted, Flush, FlushOk, GiveUp;
    FlushKeepsStarts(s, p);
    FlushStreams(s, p);
    if s.session.resumeFrom.Some? { GiveUpKeepsStarts(Flush(s, p), s.session.resumeFrom.value, gap); }
  }

  lemma LateKeepsJournal(s: State, t: Table, i: nat, at: nat)
    ensures LateRawLanding(s.db, i, at).journal == s.db.journal
    ensures LateDerivedLanding(s.db, t, i, at).journal == s.db.journal
    ensures LateNoteLanding(s.db, i, at).journal == s.db.journal
  {
  }

  lemma StepKeepsStarts(cfg: Cfg, s: State, e: Event)
    requires StartsInv(s) && Inv(cfg, s)
    ensures StartsInv(Step(cfg, s, e))
  {
    hide GapsNoted, Noted, Flush, FlushOk, Judge, OnDeliver, OnStreamEnd, Refuse, Open, Inv, LateRawLanding, LateDerivedLanding, LateNoteLanding;
    match e
    case Accepted => if s.phase.Connecting? { SubscribeKeepsStarts(cfg, s, Acked(0)); }
    case Refused(gap) => if s.phase.Connecting? { SubscribeKeepsStarts(cfg, s, gap); }
    case Deliver(k, cap, fin, gap) => if s.phase.Streaming? && k < |cfg.chain| { DeliverKeepsStarts(cfg, s, k, cap, fin, gap); }
    case OtherMessage(gap) => if s.phase.Streaming? { JudgeKeepsStarts(s, gap); }
    case FlushTick(p) => FlushKeepsStarts(s, p);
    case Signal(p) => FlushKeepsStarts(s, p);
    case StreamEnd(p, gap) => if s.phase.Streaming? { StreamEndKeepsStarts(cfg, s, p, gap); }
    case LateRaw(i, at) => LateKeepsJournal(s, Obligations, i, at);
    case LateDerived(t, i, at) => LateKeepsJournal(s, t, i, at);
    case LateNote(i, at) => LateKeepsJournal(s, Obligations, i, at);
    case _ =>
  }

  lemma {:induction false} RunKeepsStarts(cfg: Cfg, events: seq<Event>)
    requires SlotOrdered(cfg.chain) && ServedRun(cfg, events)
    ensures StartsInv(Run(cfg, events))
  {
    hide Step, Inv;
    if events != [] {
      var before := events[..|events| - 1];
      RunKeepsInv(cfg, before);
      RunKeepsStarts(cfg, before);
      StepKeepsStarts(cfg, Run(cfg, before), events[|events| - 1]);
    }
  }

  // ----------------------------------------- the live row against the data

  /** The slots of the stored raw rows. */
  function StoredSlots(landed: seq<Stamped<RawRow>>): (r: seq<nat>)
    ensures forall x :: x in r <==> exists i :: 0 <= i < |landed| && landed[i].row.slot == x
  {
    if landed == [] then []
    else
      var rest := StoredSlots(landed[..|landed| - 1]);
      assert landed == landed[..|landed| - 1] + [landed[|landed| - 1]];
      rest + [landed[|landed| - 1].row.slot]
  }

  /** A recorded gap starts at a slot that is stored: the checkpoint it was measured from. */
  lemma RecordedStartIsStored(cfg: Cfg, events: seq<Event>, g: GapRow)
    requires SlotOrdered(cfg.chain) && ServedRun(cfg, events)
    requires GapNote(g) in Run(cfg, events).db.journal
    ensures g.startSlot in StoredSlots(Run(cfg, events).db.raw.landed)
  {
    hide Run, StreamInv, Sound, Covered;
    var s := Run(cfg, events);
    RunKeepsInv(cfg, events);
    RunKeepsStarts(cfg, events);
    var p :| 0 <= p < |s.db.journal| && s.db.journal[p] == GapNote(g);
    var q :| 0 <= q < |s.db.journal| && s.db.journal[q].CheckpointNote? && s.db.journal[q].checkpoint.slot == g.startSlot;
    DeliveredIsStored(cfg, s.db, s.db.journal[q].checkpoint);
  }

  lemma DeliveredIsStored(cfg: Cfg, db: Db, c: Checkpoint)
    requires Delivered(cfg, db, c)
    ensures c.slot in StoredSlots(db.raw.landed)
  {
    hide RowOf, DerivedOf;
    var k :| 0 <= k < |cfg.chain| && Stored(cfg, db, cfg.chain[k]) && c == Checkpoint(cfg.chain[k].slot, cfg.chain[k].writeVersion);
    var i :| 0 <= i < |db.raw.landed| && db.raw.landed[i].row == RowOf(cfg, cfg.chain[k]);
    RowOfSlot(cfg, cfg.chain[k]);
  }

  lemma RowOfSlot(cfg: Cfg, u: Update)
    ensures RowOf(cfg, u).slot == u.slot
  {
  }
}
