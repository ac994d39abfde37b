/**
Gap rows over every run: a seam that loses history is announced in `slot_gaps`
before any checkpoint written after it, and each pass of the reconnect loop
announces at most one (src/main.rs, src/resume.rs).
 */
module Announce {
  import opened Wrappers
  import opened MergeTree
  import opened Protocol
  import opened Resume
  import opened Coverage
  import opened Safety

  /** Among the first `upto` control inserts there is a gap row from `slot`, to `end` where that is known. */
  ghost predicate Announced(journal: seq<Note>, upto: nat, slot: nat, end: Option<nat>) {
    exists q :: 0 <= q < upto && q < |journal| && journal[q].GapNote? && journal[q].gap.startSlot == slot
      && (end.Some? ==> journal[q].gap.endSlot == end.value)
  }

  /** A resumed session brackets its hole with the first slot it got; a forced tip restart cannot know the end yet. */
  function EndOf(cfg: Cfg, seam: Seam): Option<nat> {
    if seam.forced || seam.start >= |cfg.chain| then None else Some(cfg.chain[seam.start].slot)
  }

  /** A forced tip restart, or a resume that opened more than the tolerance past its checkpoint. */
  predicate NeedsRow(cfg: Cfg, seam: Seam) {
    seam.base.Some? && seam.start < |cfg.chain| && (seam.forced || cfg.chain[seam.start].slot > seam.base.value + RESUME_TOLERANCE_SLOTS)
  }

  ghost predicate SeamAnnounced(cfg: Cfg, journal: seq<Note>, seam: Seam) {
    NeedsRow(cfg, seam) ==> Announced(journal, |journal|, seam.base.value, EndOf(cfg, seam))
  }

  /** Every checkpoint issued since the seam opened came after its gap row. */
  ghost predicate InTime(cfg: Cfg, journal: seq<Note>, seam: Seam) {
    NeedsRow(cfg, seam) ==>
      forall p :: seam.at <= p < |journal| && journal[p].CheckpointNote? ==> Announced(journal, p, seam.base.value, EndOf(cfg, seam))
  }

  ghost predicate AllInTime(cfg: Cfg, s: State) {
    forall i :: 0 <= i < |s.hist.seams| ==> InTime(cfg, s.db.journal, s.hist.seams[i])
  }

  ghost predicate AllAnnounced(cfg: Cfg, s: State) {
    forall i :: 0 <= i < |s.hist.seams| ==> SeamAnnounced(cfg, s.db.journal, s.hist.seams[i])
  }

  /** What has been promised for seams that are not open yet. */
  ghost predicate Pending(cfg: Cfg, s: State) {
    && (s.phase.Connecting? && s.proc.forceTip ==> Announced(s.db.journal, |s.db.journal|, s.hist.givenUp, None))
    && (s.phase.Streaming? && s.hist.forced && s.hist.base.Some? ==> Announced(s.db.journal, |s.db.journal|, s.hist.base.value, None))
  }

  /** A sampling run opens at most one session per process, and has seen nothing before it delivers. */
  ghost predicate OneSession(cfg: Cfg, s: State) {
    cfg.budget.Some? ==>
      && s.hist.subscribes <= 1
      && (s.phase.Connecting? ==> s.hist.subscribes == 0 && s.proc.firstSlot.None?)
      && (s.phase.Streaming? && s.hist.start.None? ==> s.proc.firstSlot.None?)
  }

  /** At most one gap row a pass; one while streaming only after the session delivered something. */
  ghost predicate OneGap(s: State) {
    && s.hist.passGaps <= 1
    && (s.phase.Streaming? ==>
          && (s.session.gotData <==> s.session.firstSlot.Some?)
          && (s.hist.passGaps == 1 ==> s.session.judged)
          && (s.session.judged ==> s.session.gotData))
  }

  ghost predicate GapInv(cfg: Cfg, s: State) {
    AllInTime(cfg, s) && AllAnnounced(cfg, s) && Pending(cfg, s)
  }

  // ------------------------------------------------- counting, in every mode

  ghost predicate ControlInv(cfg: Cfg, s: State) {
    OneSession(cfg, s) && OneGap(s)
  }

  /** Neither count depends on the tables or the buffers. */
  lemma ControlIgnoresTables(cfg: Cfg, s: State, db: Db, bufs: Buffers, flushed: nat)
    requires ControlInv(cfg, s)
    ensures ControlInv(cfg, s.(db := db, bufs := bufs, hist := s.hist.(flushed := flushed)))
    ensures ControlInv(cfg, s.(db := db, phase := Down, bufs := bufs, hist := s.hist.(flushed := flushed)))
  {
  }

  lemma FlushKeepsControl(cfg: Cfg, s: State, p: FlushPlan)
    requires ControlInv(cfg, s)
    ensures ControlInv(cfg, Flush(s, p)) && ControlInv(cfg, Exit(Flush(s, p)))
  {
    ControlIgnoresTables(cfg, s, Flush(s, p).db, NO_ROWS, s.hist.next);
  }

  lemma ReceiveKeepsControl(cfg: Cfg, s: State, k: nat)
    requires ControlInv(cfg, s) && s.phase.Streaming? && k < |cfg.chain|
    ensures ControlInv(cfg, Receive(cfg, s, k))
  {
  }

  lemma JudgeKeepsControl(cfg: Cfg, s: State, gap: Outcome)
    requires ControlInv(cfg, s) && s.phase.Streaming?
    ensures ControlInv(cfg, Judge(s, gap))
  {
  }

  lemma DeliverKeepsControl(cfg: Cfg, s: State, k: nat, cap: FlushPlan, fin: FlushPlan, gap: Outcome)
    requires ControlInv(cfg, s) && s.phase.Streaming? && k < |cfg.chain|
    ensures ControlInv(cfg, OnDeliver(cfg, s, k, cap, fin, gap))
  {
    var s1 := Receive(cfg, s, k);
    ReceiveKeepsControl(cfg, s, k);
    FlushKeepsControl(cfg, s1, cap);
    var s2 := if Full(s1.bufs) then Flush(s1, cap) else s1;
    FlushKeepsControl(cfg, s2, fin);
    JudgeKeepsControl(cfg, s2, gap);
  }

  /** A session that ends empty-handed was never judged: the two gap sites exclude each other. */
  lemma StreamEndKeepsControl(cfg: Cfg, s: State, p: FlushPlan, gap: Outcome)
    requires ControlInv(cfg, s) && s.phase.Streaming?
    ensures ControlInv(cfg, OnStreamEnd(cfg, s, p, gap))
  {
    FlushKeepsControl(cfg, s, p);
  }

  lemma StepKeepsControl(cfg: Cfg, s: State, e: Event)
    requires ControlInv(cfg, s)
    ensures ControlInv(cfg, Step(cfg, s, e))
  {
    match e
    case Deliver(k, cap, fin, gap) => if s.phase.Streaming? && k < |cfg.chain| { DeliverKeepsControl(cfg, s, k, cap, fin, gap); }
    case FlushTick(p) => FlushKeepsControl(cfg, s, p);
    case Signal(p) => FlushKeepsControl(cfg, s, p);
    case StreamEnd(p, gap) => if s.phase.Streaming? { StreamEndKeepsControl(cfg, s, p, gap); }
    case LateRaw(i, at) => ControlIgnoresTables(cfg, s, LateRawLanding(s.db, i, at), s.bufs, s.hist.flushed);
    case LateDerived(t, i, at) => ControlIgnoresTables(cfg, s, LateDerivedLanding(s.db, t, i, at), s.bufs, s.hist.flushed);
    case LateNote(i, at) => ControlIgnoresTables(cfg, s, LateNoteLanding(s.db, i, at), s.bufs, s.hist.flushed);
    case _ =>
  }

  // ------------------------------------------------------ gap rows, in time

  /** Appending to the journal: a checkpoint only once every seam is announced. */
  lemma NoteKeepsGaps(cfg: Cfg, seams: seq<Seam>, journal: seq<Note>, note: Note)
    requires forall i :: 0 <= i < |seams| ==> InTime(cfg, journal, seams[i])
    requires note.CheckpointNote? ==> forall i :: 0 <= i < |seams| ==> SeamAnnounced(cfg, journal, seams[i])
    ensures forall i :: 0 <= i < |seams| ==> InTime(cfg, journal + [note], seams[i])
    ensures forall slot: nat, end: Option<nat> :: Announced(journal, |journal|, slot, end) ==> Announced(journal + [note], |journal + [note]|, slot, end)
    ensures note.GapNote? ==>
      Announced(journal + [note], |journal + [note]|, note.gap.startSlot, Some(note.gap.endSlot))
      && Announced(journal + [note], |journal + [note]|, note.gap.startSlot, None)
  {
    var more := journal + [note];
    forall slot: nat, end: Option<nat>, p: nat | p <= |journal| && Announced(journal, p, slot, end)
      ensures Announced(more, p, slot, end) && Announced(more, |more|, slot, end)
    {
      var q :| 0 <= q < p && q < |journal| && journal[q].GapNote? && journal[q].gap.startSlot == slot
        && (end.Some? ==> journal[q].gap.endSlot == end.value);
      assert more[q] == journal[q];
    }
    forall i | 0 <= i < |seams| && NeedsRow(cfg, seams[i])
      ensures InTime(cfg, more, seams[i])
    {
      forall p | seams[i].at <= p < |more| && more[p].CheckpointNote?
        ensures Announced(more, p, seams[i].base.value, EndOf(cfg, seams[i]))
      {
        if p < |journal| { assert more[p] == journal[p]; }
      }
    }
    assert more[|journal|] == note;
  }

  lemma FlushKeepsGaps(cfg: Cfg, s: State, p: FlushPlan)
    requires GapInv(cfg, s)
    ensures GapInv(cfg, Flush(s, p))
  {
    FlushHasEffect(s.bufs, s.db, p);
    var f := FlushDb(s.bufs, s.db, p).db;
    if f.journal != s.db.journal {
      NoteKeepsGaps(cfg, s.hist.seams, s.db.journal, CheckpointNote(HighWater(s.bufs)));
    }
  }

  lemma AddGapKeepsGaps(cfg: Cfg, s: State, start: nat, end: nat, o: Outcome)
    requires AllInTime(cfg, s) && Pending(cfg, s)
    ensures AllInTime(cfg, AddGap(s, start, end, o)) && Pending(cfg, AddGap(s, start, end, o))
    ensures Announced(AddGap(s, start, end, o).db.journal, |AddGap(s, start, end, o).db.journal|, start, Some(end))
    ensures Announced(AddGap(s, start, end, o).db.journal, |AddGap(s, start, end, o).db.journal|, start, None)
    ensures forall i :: 0 <= i < |s.hist.seams| && SeamAnnounced(cfg, s.db.journal, s.hist.seams[i]) ==>
                SeamAnnounced(cfg, AddGap(s, start, end, o).db.journal, s.hist.seams[i])
  {
    NoteKeepsGaps(cfg, s.hist.seams, s.db.journal, GapNote(GapRow(start, end)));
  }

  lemma GiveUpKeepsGaps(cfg: Cfg, s: State, from: nat, o: Outcome)
    requires GapInv(cfg, s)
    ensures GapInv(cfg, GiveUp(s, from, o))
  {
    AddGapKeepsGaps(cfg, s.(phase := Down), from, s.proc.lastSlot, o);
  }

  lemma JudgeKeepsGaps(cfg: Cfg, s: State, o: Outcome)
    requires GapInv(cfg, s) && s.phase.Streaming?
    ensures GapInv(cfg, Judge(s, o))
  {
    if !s.session.judged && s.session.firstSlot.Some? {
      var v := ClassifyResume(s.session.resumeFrom, s.session.firstSlot.value);
      var s1 := s.(session := s.session.(judged := true));
      if v.Gap? {
        AddGapKeepsGaps(cfg, s1, v.startSlot, v.endSlot, o);
      }
    }
  }

  /**
  The first update of a session: it alone is buffered, so no flush comes before
  the seam is judged, unless a zero budget stops the run on the spot.
   */
  lemma FirstDeliverJudges(cfg: Cfg, s: State, k: nat, cap: FlushPlan, fin: FlushPlan, gap: Outcome)
    requires cfg.budget != Some(0)
    requires Inv(cfg, s) && OneSession(cfg, s)
    requires s.phase.Streaming? && s.hist.start.None? && k < |cfg.chain|
    ensures OnDeliver(cfg, s, k, cap, fin, gap) == Judge(Receive(cfg, s, k), gap)
    ensures Receive(cfg, s, k).hist.seams == s.hist.seams + [Seam(s.hist.base, s.hist.forced, k, |s.db.journal|)]
  {
    hide Flush, Push, ReadResumeSlot, Judge, Full, FlushOk, TablesInv;
    var s1 := Receive(cfg, s, k);
    ReceiveKeepsInv(cfg, s, k);
    FullIsBatch(cfg, s1);
    assert !BudgetReached(cfg, s1.proc);
  }

  lemma FirstDeliverKeepsGaps(cfg: Cfg, s: State, k: nat, cap: FlushPlan, fin: FlushPlan, gap: Outcome)
    requires cfg.budget != Some(0)
    requires Inv(cfg, s) && GapInv(cfg, s) && OneSession(cfg, s)
    requires s.phase.Streaming? && s.hist.start.None? && k < |cfg.chain|
    ensures GapInv(cfg, OnDeliver(cfg, s, k, cap, fin, gap))
  {
    hide OnDeliver, Push, ReadResumeSlot, TablesInv, AddGap;
    var s1 := Receive(cfg, s, k);
    FirstDeliverJudges(cfg, s, k, cap, fin, gap);
    assert AllInTime(cfg, s1);
    var v := ClassifyResume(s.session.resumeFrom, cfg.chain[k].slot);
    var s2 := s1.(session := s1.session.(judged := true));
    assert Judge(s1, gap) == if v.Gap? then AddGap(s2, v.startSlot, v.endSlot, gap) else s2;
    if v.Gap? {
      AddGapKeepsGaps(cfg, s2, v.startSlot, v.endSlot, gap);
      AddGapSeams(s2, v.startSlot, v.endSlot, gap);
    }
  }

  lemma AddGapSeams(s: State, start: nat, end: nat, o: Outcome)
    ensures AddGap(s, start, end, o).hist.seams == s.hist.seams
  {
  }

  lemma ReceiveKeepsGaps(cfg: Cfg, s: State, k: nat)
    requires GapInv(cfg, s) && s.phase.Streaming? && s.hist.start.Some? && k < |cfg.chain|
    ensures GapInv(cfg, Receive(cfg, s, k)) && Receive(cfg, s, k).phase.Streaming?
  {
    hide Push, InTime, SeamAnnounced;
  }

  lemma LaterDeliverKeepsGaps(cfg: Cfg, s: State, k: nat, cap: FlushPlan, fin: FlushPlan, gap: Outcome)
    requires GapInv(cfg, s)
    requires s.phase.Streaming? && s.hist.start.Some? && k < |cfg.chain|
    ensures GapInv(cfg, OnDeliver(cfg, s, k, cap, fin, gap))
  {
    hide InTime, SeamAnnounced, Announced, FlushDb, Judge, Full, Push, FlushOk, BudgetReached;
    var s1 := Receive(cfg, s, k);
    ReceiveKeepsGaps(cfg, s, k);
    FlushKeepsGaps(cfg, s1, cap);
    var s2 := if Full(s1.bufs) then Flush(s1, cap) else s1;
    FlushKeepsGaps(cfg, s2, fin);
    JudgeKeepsGaps(cfg, s2, gap);
  }

  lemma SubscribeKeepsGaps(cfg: Cfg, s: State, gap: Outcome)
    requires GapInv(cfg, s) && s.phase.Connecting?
    ensures GapInv(cfg, Open(s)) && GapInv(cfg, Refuse(cfg, s, gap))
  {
    if ResumeFrom(s).Some? {
      GiveUpKeepsGaps(cfg, Attempt(s), ResumeFrom(s).value, gap);
    }
  }

  /** Late landings change no control insert and no seam. */
  lemma GapsIgnoreData(cfg: Cfg, s: State, db: Db)
    requires GapInv(cfg, s) && db.journal == s.db.journal
    ensures GapInv(cfg, s.(db := db))
  {
  }

  lemma DeliverKeepsGaps(cfg: Cfg, s: State, k: nat, cap: FlushPlan, fin: FlushPlan, gap: Outcome)
    requires cfg.budget != Some(0)
    requires Inv(cfg, s) && GapInv(cfg, s) && OneSession(cfg, s)
    requires s.phase.Streaming? && k < |cfg.chain|
    ensures GapInv(cfg, OnDeliver(cfg, s, k, cap, fin, gap))
  {
    if s.hist.start.None? {
      FirstDeliverKeepsGaps(cfg, s, k, cap, fin, gap);
    } else {
      LaterDeliverKeepsGaps(cfg, s, k, cap, fin, gap);
    }
  }

  lemma StreamEndKeepsGaps(cfg: Cfg, s: State, p: FlushPlan, gap: Outcome)
    requires GapInv(cfg, s) && s.phase.Streaming? && !s.proc.forceTip
    ensures GapInv(cfg, OnStreamEnd(cfg, s, p, gap))
  {
    FlushKeepsGaps(cfg, s, p);
    if s.session.resumeFrom.Some? {
      GiveUpKeepsGaps(cfg, Flush(s, p), s.session.resumeFrom.value, gap);
    }
  }

  lemma StepKeepsGaps(cfg: Cfg, s: State, e: Event)
    requires cfg.budget != Some(0)
    requires Inv(cfg, s) && GapInv(cfg, s) && OneSession(cfg, s)
    ensures GapInv(cfg, Step(cfg, s, e))
  {
    hide InTime, SeamAnnounced, Announced, FlushDb, OnDeliver, Judge, OnStreamEnd, Refuse, StreamInv, TablesInv, ReadResumeSlot;
    match e
    case Start =>
    case Kill =>
    case ConnectFailed =>
    case Accepted => if s.phase.Connecting? { SubscribeKeepsGaps(cfg, s, Acked(0)); }
    case Refused(gap) => if s.phase.Connecting? { SubscribeKeepsGaps(cfg, s, gap); }
    case Deliver(k, cap, fin, gap) => if s.phase.Streaming? && k < |cfg.chain| { DeliverKeepsGaps(cfg, s, k, cap, fin, gap); }
    case OtherMessage(gap) => if s.phase.Streaming? { JudgeKeepsGaps(cfg, s, gap); }
    case FlushTick(p) => FlushKeepsGaps(cfg, s, p);
    case Signal(p) => FlushKeepsGaps(cfg, s, p);
    case StreamEnd(p, gap) => if s.phase.Streaming? { StreamEndKeepsGaps(cfg, s, p, gap); }
    case LateRaw(i, at) => GapsIgnoreData(cfg, s, LateRawLanding(s.db, i, at));
    case LateDerived(t, i, at) => GapsIgnoreData(cfg, s, LateDerivedLanding(s.db, t, i, at));
    case LateNote(i, at) => GapsIgnoreData(cfg, s, LateNoteLanding(s.db, i, at));
  }

  lemma {:induction false} RunKeepsGaps(cfg: Cfg, events: seq<Event>)
    requires cfg.budget != Some(0)
    requires SlotOrdered(cfg.chain) && ServedRun(cfg, events)
    ensures GapInv(cfg, Run(cfg, events))
  {
    if events != [] {
      var before := events[..|events| - 1];
      RunKeepsInv(cfg, before);
      RunKeepsGaps(cfg, before);
      RunKeepsControl(cfg, before);
      StepKeepsGaps(cfg, Run(cfg, before), events[|events| - 1]);
    }
  }

  lemma {:induction false} RunKeepsControl(cfg: Cfg, events: seq<Event>)
    ensures ControlInv(cfg, Run(cfg, events))
  {
    if events != [] {
      RunKeepsControl(cfg, events[..|events| - 1]);
      StepKeepsControl(cfg, Run(cfg, events[..|events| - 1]), events[|events| - 1]);
    }
  }
}
