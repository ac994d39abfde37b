/**
What the rows of `slot_gaps` say (src/main.rs): which missing update each accounts
for, which holes of the data each contains, and when its end slot can be believed.
 */
module GapRows {
  import opened Wrappers
  import opened MergeTree
  import opened Protocol
  import opened Resume
  import opened Coverage
  import opened Safety
  import opened Announce
  import opened IngestTheorems
  import opened Monotone
  import opened GapQuery

  // ------------------------------------------------- every miss, accounted for

  /** A position is missing before a cold start, within the tolerance, or in a hole that has its gap row. */
  ghost predicate AccountedFor(cfg: Cfg, s: State, k: nat)
    requires k < |cfg.chain|
  {
    exists i :: 0 <= i < |s.hist.seams| && Lost(cfg, s.hist.seams[i], k) && (
                  var seam := s.hist.seams[i];
                  || seam.base.None?
                  || (!seam.forced && seam.start < |cfg.chain| && cfg.chain[seam.start].slot <= seam.base.value + RESUME_TOLERANCE_SLOTS)
                  || Announced(s.db.journal, |s.db.journal|, seam.base.value, EndOf(cfg, seam)))
  }

  /**
  No silent hole: an update missing below the durable checkpoint precedes a start
  that had no checkpoint, or falls in a seam within tolerance, or in a seam for
  which a gap row was issued.
   */
  lemma EveryMissIsAccountedFor(cfg: Cfg, events: seq<Event>, k: nat)
    requires cfg.budget != Some(0)
    requires SlotOrdered(cfg.chain) && ServedRun(cfg, events) && k < |cfg.chain|
    requires ReadResumeSlot(Run(cfg, events).db).Some? && cfg.chain[k].slot < ReadResumeSlot(Run(cfg, events).db).value
    ensures Stored(cfg, Run(cfg, events).db, cfg.chain[k]) || AccountedFor(cfg, Run(cfg, events), k)
  {
    hide Run, ReadResumeSlot, Stored, StreamInv, TablesInv, Announced;
    var s := Run(cfg, events);
    NoSilentHole(cfg, events, k);
    RunKeepsGaps(cfg, events);
    RunKeepsInv(cfg, events);
    if !Stored(cfg, s.db, cfg.chain[k]) {
      var i :| 0 <= i < |s.hist.seams| && Lost(cfg, s.hist.seams[i], k);
      assert SeamAnnounced(cfg, s.db.journal, s.hist.seams[i]);
      assert s.hist.seams[i].start < |cfg.chain|;
    }
  }

  // ------------------------------------------- recorded gaps against the data

  /**
  A hole the data shows that touches a recorded seam lies inside the recorded
  interval, whatever a crashed process left past the checkpoint and whatever other
  writers added: `slots` may be any slots that include the stored ones and the
  first the session received.
   */
  lemma RecordedIntervalHoldsHole(cfg: Cfg, events: seq<Event>, i: nat, slots: seq<nat>, threshold: nat, h: Hole)
    requires cfg.budget != Some(0) && SlotOrdered(cfg.chain) && ServedRun(cfg, events)
    requires i < |Run(cfg, events).hist.seams|
    requires !Run(cfg, events).hist.seams[i].forced && NeedsRow(cfg, Run(cfg, events).hist.seams[i])
    requires forall x :: x in StoredSlots(Run(cfg, events).db.raw.landed) ==> x in slots
    requires cfg.chain[Run(cfg, events).hist.seams[i].start].slot in slots
    requires h in Gaps(slots, threshold)
    requires h.startSlot < cfg.chain[Run(cfg, events).hist.seams[i].start].slot && Run(cfg, events).hist.seams[i].base.value < h.endSlot
    ensures var s := Run(cfg, events); var from := s.hist.seams[i].base.value; var first := cfg.chain[s.hist.seams[i].start].slot;
      GapNote(GapRow(from, first)) in s.db.journal && from <= h.startSlot && h.endSlot <= first
  {
    hide Run, Gaps, StoredSlots;
    var s := Run(cfg, events);
    var from, first := s.hist.seams[i].base.value, cfg.chain[s.hist.seams[i].start].slot;
    RunKeepsGaps(cfg, events);
    assert SeamAnnounced(cfg, s.db.journal, s.hist.seams[i]);
    var q :| 0 <= q < |s.db.journal| && s.db.journal[q].GapNote? && s.db.journal[q].gap.startSlot == from && s.db.journal[q].gap.endSlot == first;
    assert s.db.journal[q] == GapNote(GapRow(from, first));
    RecordedStartIsStored(cfg, events, GapRow(from, first));
    GapsExact(slots, threshold, h);
  }

  /** While the session lives, its first flush is all that takes. */
  lemma FlushedSessionHoldsHole(cfg: Cfg, events: seq<Event>, threshold: nat, h: Hole)
    requires cfg.budget != Some(0) && SlotOrdered(cfg.chain) && ServedRun(cfg, events)
    requires Run(cfg, events).phase.Streaming? && Run(cfg, events).hist.start.Some?
    requires Run(cfg, events).hist.start.value < Run(cfg, events).hist.flushed && Run(cfg, events).hist.start.value < |cfg.chain|
    requires !Run(cfg, events).hist.forced && Run(cfg, events).hist.base.Some?
    requires cfg.chain[Run(cfg, events).hist.start.value].slot > Run(cfg, events).hist.base.value + RESUME_TOLERANCE_SLOTS
    requires h in Gaps(StoredSlots(Run(cfg, events).db.raw.landed), threshold)
    requires h.startSlot < cfg.chain[Run(cfg, events).hist.start.value].slot && Run(cfg, events).hist.base.value < h.endSlot
    ensures var s := Run(cfg, events); var from := s.hist.base.value; var first := cfg.chain[s.hist.start.value].slot;
      GapNote(GapRow(from, first)) in s.db.journal && from <= h.startSlot && h.endSlot <= first
  {
    hide Run, Gaps, StoredSlots, TablesInv, Covered;
    var s := Run(cfg, events);
    var start := s.hist.start.value;
    RunKeepsInv(cfg, events);
    RunKeepsCurrent(cfg, events);
    assert Opened(cfg, s, start);
    assert Stored(cfg, s.db, cfg.chain[start]);
    StoredSlotListed(cfg, s.db, start);
    RecordedIntervalHoldsHole(cfg, events, |s.hist.seams| - 1, StoredSlots(s.db.raw.landed), threshold, h);
  }

  lemma StoredSlotListed(cfg: Cfg, db: Db, k: nat)
    requires k < |cfg.chain| && Stored(cfg, db, cfg.chain[k])
    ensures cfg.chain[k].slot in StoredSlots(db.raw.landed)
  {
    hide RowOf, DerivedOf;
    var i :| 0 <= i < |db.raw.landed| && db.raw.landed[i].row == RowOf(cfg, cfg.chain[k]);
    RowOfSlot(cfg, cfg.chain[k]);
  }

  /** The last seam on record is the current session's. */
  ghost predicate Current(s: State) {
    s.phase.Streaming? && s.hist.start.Some? ==>
      |s.hist.seams| > 0 && (var seam := s.hist.seams[|s.hist.seams| - 1];
        seam.base == s.hist.base && seam.forced == s.hist.forced && seam.start == s.hist.start.value)
  }

  lemma DeliverSeams(cfg: Cfg, s: State, k: nat, cap: FlushPlan, fin: FlushPlan, gap: Outcome)
    requires k < |cfg.chain|
    ensures var t := OnDeliver(cfg, s, k, cap, fin, gap); var r := Receive(cfg, s, k);
      t.hist.seams == r.hist.seams && t.hist.base == r.hist.base && t.hist.forced == r.hist.forced && t.hist.start == r.hist.start
  {
    hide Receive, FlushDb, Full, BudgetReached;
  }

  lemma StepSeams(cfg: Cfg, s: State, e: Event)
    requires Current(s)
    ensures Current(Step(cfg, s, e)) && s.hist.seams <= Step(cfg, s, e).hist.seams
  {
    hide FlushDb, OnDeliver, Judge, ReadResumeSlot, LateRawLanding, LateDerivedLanding, LateNoteLanding;
    match e
    case Deliver(k, cap, fin, gap) => if k < |cfg.chain| { DeliverSeams(cfg, s, k, cap, fin, gap); }
    case OtherMessage(gap) => JudgeHist(s, gap);
    case _ =>
  }

  lemma JudgeHist(s: State, gap: Outcome)
    ensures var t := Judge(s, gap);
      t.hist.seams == s.hist.seams && t.hist.base == s.hist.base && t.hist.forced == s.hist.forced && t.hist.start == s.hist.start
  {
  }

  lemma {:induction false} RunKeepsCurrent(cfg: Cfg, events: seq<Event>)
    ensures Current(Run(cfg, events))
  {
    hide Step, Current;
    if events == [] {
      NothingCurrent();
    } else {
      RunKeepsCurrent(cfg, events[..|events| - 1]);
      StepSeams(cfg, Run(cfg, events[..|events| - 1]), events[|events| - 1]);
    }
  }

  lemma NothingCurrent()
    ensures Current(INIT)
  {
  }

  lemma {:induction false} SeamsStay(cfg: Cfg, events: seq<Event>, later: seq<Event>)
    requires events <= later
    ensures Run(cfg, events).hist.seams <= Run(cfg, later).hist.seams
    decreases |later|
  {
    hide Step, Current;
    if |events| < |later| {
      var before := later[..|later| - 1];
      SeamsStay(cfg, events, before);
      RunKeepsCurrent(cfg, before);
      StepSeams(cfg, Run(cfg, before), later[|later| - 1]);
    } else {
      assert later == events;
    }
  }

  // --------------------------------------------- which end slots to believe

  /** The slot of the last update delivered to the process now running, 0 if there is none. */
  ghost function LastDelivered(cfg: Cfg, events: seq<Event>): nat {
    if events == [] then 0
    else
      var front := events[..|events| - 1];
      var s := Run(cfg, front);
      match events[|events| - 1]
      case Start => if s.phase.Down? then 0 else LastDelivered(cfg, front)
      case Deliver(k, _, _, _) => if s.phase.Streaming? && k < |cfg.chain| then cfg.chain[k].slot else LastDelivered(cfg, front)
      case _ => LastDelivered(cfg, front)
  }

  lemma {:induction false} LastSlotIsLastDelivered(cfg: Cfg, events: seq<Event>)
    ensures Run(cfg, events).proc.lastSlot == LastDelivered(cfg, events)
  {
    hide Step;
    if events != [] {
      var front, e := events[..|events| - 1], events[|events| - 1];
      LastSlotIsLastDelivered(cfg, front);
      StepLastSlot(cfg, Run(cfg, front), e);
    }
  }

  lemma StepLastSlot(cfg: Cfg, s: State, e: Event)
    ensures Step(cfg, s, e).proc.lastSlot ==
      if e.Start? && s.phase.Down? then 0
      else if e.Deliver? && s.phase.Streaming? && e.k < |cfg.chain| then cfg.chain[e.k].slot
      else s.proc.lastSlot
  {
    hide FlushDb, OnDeliver, ReadResumeSlot, LateRawLanding, LateDerivedLanding, LateNoteLanding;
    match e
    case Deliver(k, cap, fin, gap) => if k < |cfg.chain| { DeliverLastSlot(cfg, s, k, cap, fin, gap); }
    case _ =>
  }

  lemma DeliverLastSlot(cfg: Cfg, s: State, k: nat, cap: FlushPlan, fin: FlushPlan, gap: Outcome)
    requires k < |cfg.chain|
    ensures OnDeliver(cfg, s, k, cap, fin, gap).proc.lastSlot == cfg.chain[k].slot
  {
    hide FlushDb, Full, BudgetReached;
  }

  /** The verdict of a session on its own first update, as against the two sites that only know something failed. */
  predicate Verdict(e: Event) {
    e.Deliver? || e.OtherMessage?
  }

  ghost predicate AddsRow(s: State, t: State, q: nat, g: GapRow) {
    |s.db.journal| <= q < |t.db.journal| && t.db.journal[q] == GapNote(g)
  }

  lemma JudgeRow(s: State, o: Outcome, q: nat, g: GapRow)
    ensures s.db.journal <= Judge(s, o).db.journal
    ensures Judge(s, o).phase == s.phase && Judge(s, o).session.resumeFrom == s.session.resumeFrom && Judge(s, o).session.firstSlot == s.session.firstSlot
    ensures AddsRow(s, Judge(s, o), q, g) ==>
      s.session.resumeFrom.Some? && s.session.firstSlot.Some? && g == GapRow(s.session.resumeFrom.value, s.session.firstSlot.value)
  {
  }

  lemma FlushAddsNoRow(s: State, p: FlushPlan, q: nat, g: GapRow)
    ensures !AddsRow(s, Flush(s, p), q, g) && |s.db.journal| <= |Flush(s, p).db.journal| && s.db.journal <= Flush(s, p).db.journal
    ensures Flush(s, p).session == s.session && Flush(s, p).phase == s.phase
  {
    hide FlushDb, IsEmpty, HighWater;
    FlushJournal(s.bufs, s.db, p);
  }

  ghost predicate FromVerdict(t: State, g: GapRow) {
    t.phase.Streaming? && t.session.resumeFrom.Some? && t.session.firstSlot.Some? && g == GapRow(t.session.resumeFrom.value, t.session.firstSlot.value)
  }

  /** Handling an update writes a gap row only through the verdict; the flushes on the way write none. */
  lemma DeliverRow(cfg: Cfg, s: State, k: nat, cap: FlushPlan, fin: FlushPlan, gap: Outcome, q: nat, g: GapRow)
    requires s.phase.Streaming? && k < |cfg.chain| && AddsRow(s, OnDeliver(cfg, s, k, cap, fin, gap), q, g)
    ensures FromVerdict(OnDeliver(cfg, s, k, cap, fin, gap), g)
  {
    hide Flush, Judge, Full, BudgetReached, FlushOk, Push;
    var s1 := Receive(cfg, s, k);
    FlushAddsNoRow(s1, cap, q, g);
    var s2 := if Full(s1.bufs) then Flush(s1, cap) else s1;
    FlushAddsNoRow(s2, fin, q, g);
    JudgeRow(s2, gap, q, g);
  }

  /** A verdict's row runs from the session's checkpoint to the first slot it received. */
  lemma VerdictRow(cfg: Cfg, s: State, e: Event, q: nat, g: GapRow)
    requires SlotOrdered(cfg.chain) && Inv(cfg, s) && Served(s, e) && Verdict(e) && AddsRow(s, Step(cfg, s, e), q, g)
    ensures var h := Step(cfg, s, e).hist;
      && Step(cfg, s, e).phase.Streaming? && h.start.Some? && h.start.value < |cfg.chain|
      && h.base == Some(g.startSlot) && !h.forced && g.endSlot == cfg.chain[h.start.value].slot
  {
    hide OnDeliver, Judge, TablesInv, StreamInv;
    StepKeepsInv(cfg, s, e);
    match e {
      case Deliver(k, cap, fin, gap) => DeliverRow(cfg, s, k, cap, fin, gap, q, g);
      case OtherMessage(gap) => JudgeRow(s, gap, q, g);
    }
    VerdictSession(cfg, Step(cfg, s, e), g);
  }

  lemma VerdictSession(cfg: Cfg, t: State, g: GapRow)
    requires StreamInv(cfg, t) && FromVerdict(t, g)
    ensures var h := t.hist; h.start.Some? && h.start.value < |cfg.chain| && h.base == Some(g.startSlot) && !h.forced && g.endSlot == cfg.chain[h.start.value].slot
  {
    hide Covered, SegmentStored, BuffersOf;
  }

  /** The two failure sites write down where the process had got to. */
  lemma FailureRow(cfg: Cfg, s: State, e: Event, q: nat, g: GapRow)
    requires !Verdict(e) && AddsRow(s, Step(cfg, s, e), q, g)
    ensures (e.Refused? || e.StreamEnd?) && g.endSlot == s.proc.lastSlot
  {
    hide FlushDb, FlushOk, ReadResumeSlot, LateRawLanding, LateDerivedLanding, LateNoteLanding, IsEmpty, HighWater;
    match e
    case FlushTick(p) => FlushJournal(s.bufs, s.db, p);
    case Signal(p) => FlushJournal(s.bufs, s.db, p);
    case StreamEnd(p, gap) => FlushJournal(s.bufs, s.db, p);
    case LateRaw(i, at) => LateKeepsJournal(s, Obligations, i, at);
    case LateDerived(t, i, at) => LateKeepsJournal(s, t, i, at);
    case LateNote(i, at) => LateKeepsJournal(s, Obligations, i, at);
    case _ =>
  }

  lemma {:induction false} ServedPrefix(cfg: Cfg, events: seq<Event>, later: seq<Event>)
    requires events <= later && ServedRun(cfg, later)
    ensures ServedRun(cfg, events)
    decreases |later|
  {
    hide Run, Served;
    if |events| < |later| {
      ServedPrefix(cfg, events, later[..|later| - 1]);
    } else {
      assert later == events;
    }
  }

  lemma ServedLast(cfg: Cfg, events: seq<Event>, e: Event)
    requires ServedRun(cfg, events + [e])
    ensures ServedRun(cfg, events) && Served(Run(cfg, events), e) && Run(cfg, events + [e]) == Step(cfg, Run(cfg, events), e)
  {
    assert (events + [e])[..|events|] == events;
  }

  /** The seam a row is about: the session that passed the verdict, or the next one to receive anything. */
  ghost function SeamOf(t: State, e: Event): int {
    if Verdict(e) then |t.hist.seams| - 1 else |t.hist.seams|
  }

  /**
  When the end of a gap row is the first slot received after the gap: for every row
  a session's own verdict writes, and for a row of the two failure sites only if the
  process had last been delivered that very slot. A fresh process has 0 there.
   */
  lemma EndSlotExact(cfg: Cfg, events: seq<Event>, e: Event, later: seq<Event>, q: nat, g: GapRow)
    requires SlotOrdered(cfg.chain) && ServedRun(cfg, later) && events + [e] <= later
    requires AddsRow(Run(cfg, events), Run(cfg, events + [e]), q, g)
    ensures var i := SeamOf(Run(cfg, events + [e]), e); var seams := Run(cfg, later).hist.seams;
      && i >= 0 && (Verdict(e) ==> i < |seams|)
      && (i < |seams| ==>
            && seams[i].start < |cfg.chain|
            && (g.endSlot == cfg.chain[seams[i].start].slot <==> Verdict(e) || LastDelivered(cfg, events) == cfg.chain[seams[i].start].slot))
  {
    hide Run, ServedRun, Step, TablesInv, StreamInv, LastDelivered, AddsRow, Served;
    ServedPrefix(cfg, events + [e], later);
    ServedLast(cfg, events, e);
    var s, t := Run(cfg, events), Run(cfg, events + [e]);
    RunKeepsInv(cfg, events);
    RunKeepsInv(cfg, later);
    SeamsStay(cfg, events + [e], later);
    if Verdict(e) {
      VerdictRow(cfg, s, e, q, g);
      RunKeepsCurrent(cfg, events + [e]);
    } else {
      FailureRow(cfg, s, e, q, g);
      LastSlotIsLastDelivered(cfg, events);
    }
  }

  // --------------------------------------------- one key, two processes

  /**
  A fresh process that is refused at a checkpoint overwrites what `FINAL` showed for
  a gap already recorded there: the row is keyed by the start slot, and its end is 0.
   */
  lemma RefusalOverwritesEnd(cfg: Cfg, s: State, gap: Outcome)
    requires s.phase.Down? && cfg.budget.None? && ReadResumeSlot(s.db).Some?
    ensures var from := ReadResumeSlot(s.db).value; var t := Step(cfg, Step(cfg, s, Start), Refused(gap));
      && t.db.journal == s.db.journal + [GapNote(GapRow(from, 0))] && t.proc.forceTip
      && (gap.Acked? && (forall i :: 0 <= i < |s.db.gaps| ==> s.db.gaps[i].at <= gap.at) ==>
            from in Final(t.db.gaps, GapKey) && Final(t.db.gaps, GapKey)[from].row == GapRow(from, 0))
  {
    hide ReadResumeSlot, Final;
    var t := Step(cfg, Step(cfg, s, Start), Refused(gap));
    if gap.Acked? && forall i :: 0 <= i < |s.db.gaps| ==> s.db.gaps[i].at <= gap.at {
      assert t.db.gaps == s.db.gaps + [Stamped(GapRow(ReadResumeSlot(s.db).value, 0), gap.at)];
      assert IsNewest(t.db.gaps, GapKey, |s.db.gaps|);
      FinalShows(t.db.gaps, GapKey, |s.db.gaps|);
    }
  }
}
