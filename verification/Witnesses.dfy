/**
Concrete runs of the ingest protocol that show which clauses of its guarantees
cannot be dropped.
 */
module Witnesses {
  import opened Wrappers
  import opened MergeTree
  import opened Protocol
  import opened Resume
  import opened Coverage
  import opened Announce
  import opened IngestTheorems
  import opened GapRows

  function Empty(slot: nat): Update {
    Update(slot, 1, [], [], 1, [])
  }

  /** A chain of undecodable updates, one at each of the given slots. */
  function Quiet(slots: seq<nat>, budget: Option<nat>): (cfg: Cfg)
    ensures |cfg.chain| == |slots| && forall i :: 0 <= i < |slots| ==> cfg.chain[i] == Empty(slots[i])
    ensures cfg.budget == budget
  {
    Cfg(seq(|slots|, i requires 0 <= i < |slots| => Empty(slots[i])), map[], (t: Table, data: seq<Byte>) => None, budget)
  }

  function Works(at: nat): FlushPlan {
    FlushPlan(Acked(at), Acked(at), Acked(at), Acked(at), Acked(at))
  }

  /** The data lands, the checkpoint does not. */
  function LosesCheckpoint(at: nat): FlushPlan {
    Works(at).(checkpoint := Failed({}, at))
  }

  lemma RunSnoc(cfg: Cfg, events: seq<Event>, e: Event)
    requires ServedRun(cfg, events) && Served(Run(cfg, events), e)
    ensures Run(cfg, events + [e]) == Step(cfg, Run(cfg, events), e)
    ensures ServedRun(cfg, events + [e])
  {
    assert (events + [e])[..|events|] == events;
  }

  /** Undecodable updates fill the raw buffer only. */
  lemma QuietPush(slots: seq<nat>, budget: Option<nat>, b: Buffers, k: nat)
    requires k < |slots|
    ensures var cfg := Quiet(slots, budget); Push(cfg, b, cfg.chain[k]) == b.(raw := b.raw + [RowOf(cfg, cfg.chain[k])])
  {
  }

  /** One delivery and one flush, from a state with empty buffers. */
  function OneRow(cfg: Cfg, k: nat): Buffers
    requires k < |cfg.chain|
  {
    NO_ROWS.(raw := [RowOf(cfg, cfg.chain[k])])
  }

  lemma FlushOneRow(cfg: Cfg, k: nat, db: Db, p: FlushPlan)
    requires k < |cfg.chain| && p.raw.Acked?
    ensures var f := FlushDb(OneRow(cfg, k), db, p); var c := Checkpoint(cfg.chain[k].slot, cfg.chain[k].writeVersion);
      && f.ok == p.checkpoint.Acked?
      && f.db.raw == Insert(db.raw, [RowOf(cfg, cfg.chain[k])], p.raw)
      && f.db.journal == db.journal + [CheckpointNote(c)]
      && f.db.checkpoints == db.checkpoints + Landing([c], p.checkpoint)
  {
  }

  // ------------------------------------------------- one short process life

  /** A fresh process that has just subscribed. */
  predicate JustOpened(s: State) {
    && s.phase.Streaming? && s.bufs == NO_ROWS && s.proc == FRESH
    && s.session == Session(ReadResumeSlot(s.db), false, None, false)
    && s.hist.base == ReadResumeSlot(s.db) && !s.hist.forced && s.hist.start.None?
  }

  lemma Opening(cfg: Cfg, events: seq<Event>)
    requires ServedRun(cfg, events) && Run(cfg, events).phase.Down?
    ensures ServedRun(cfg, events + [Start] + [Accepted])
    ensures var s, s2 := Run(cfg, events), Run(cfg, events + [Start] + [Accepted]);
      JustOpened(s2) && s2.db == s.db && s2.hist.seams == s.hist.seams
  {
    RunSnoc(cfg, events, Start);
    RunSnoc(cfg, events + [Start], Accepted);
  }

  /** An outcome-free delivery of the first update of a session. */
  function Delivery(k: nat, fin: FlushPlan): Event {
    Deliver(k, fin, fin, Acked(0))
  }

  lemma Delivering(slots: seq<nat>, budget: Option<nat>, s: State, k: nat)
    requires JustOpened(s) && k < |slots|
    ensures var cfg := Quiet(slots, budget); var r := Receive(cfg, s, k);
      && r.bufs == OneRow(cfg, k) && !Full(r.bufs) && r.phase.Streaming? && r.db == s.db
      && r.hist.seams == s.hist.seams + [Seam(ReadResumeSlot(s.db), false, k, |s.db.journal|)]
      && r.session == Session(ReadResumeSlot(s.db), true, Some(slots[k]), false)
      && r.proc == Proc(false, Some(slots[k]), slots[k])
  {
    QuietPush(slots, budget, NO_ROWS, k);
  }

  /** Start, subscribe, receive one update, flush: what an unattended process that opens cleanly leaves. */
  function ShortLife(k: nat, p: FlushPlan): seq<Event> {
    [Start] + [Accepted] + [Delivery(k, p)] + [FlushTick(p)]
  }

  lemma LivesShortly(slots: seq<nat>, events: seq<Event>, k: nat, p: FlushPlan)
    requires k < |slots| && p.raw.Acked?
    requires ServedRun(Quiet(slots, None), events) && Run(Quiet(slots, None), events).phase.Down?
    requires !ClassifyResume(ReadResumeSlot(Run(Quiet(slots, None), events).db), slots[k]).Gap?
    ensures var cfg := Quiet(slots, None); var s, t := Run(cfg, events), Run(cfg, events + ShortLife(k, p));
      && ServedRun(cfg, events + ShortLife(k, p))
      && t.db == FlushDb(OneRow(cfg, k), s.db, p).db
      && t.hist.seams == s.hist.seams + [Seam(ReadResumeSlot(s.db), false, k, |s.db.journal|)]
      && t.phase == if p.checkpoint.Acked? then Streaming else Down
  {
    hide Receive, FlushDb, Push, Full, ReadResumeSlot, ClassifyResume, Run, RowOf;
    var cfg := Quiet(slots, None);
    Opening(cfg, events);
    var e2 := events + [Start] + [Accepted];
    Delivering(slots, None, Run(cfg, e2), k);
    RunSnoc(cfg, e2, Delivery(k, p));
    var e3 := e2 + [Delivery(k, p)];
    FlushOneRow(cfg, k, Run(cfg, e3).db, p);
    RunSnoc(cfg, e3, FlushTick(p));
    assert events + ShortLife(k, p) == e3 + [FlushTick(p)];
  }

  // ---------------------------------------------------- cold starts can lose

  const THREE: seq<nat> := [1, 2, 3]

  /**
  "Everything from the first stored slot on" is too strong. A first process
  stores slot 1 and dies before its checkpoint lands; the next finds no checkpoint,
  starts at the tip, at slot 3, and commits. Slot 2 is past the first stored slot,
  below the durable checkpoint, lost, and in no seam that started at a checkpoint.
   */
  lemma ColdStartLosesHistory()
    ensures var cfg := Quiet(THREE, None);
      var events := ShortLife(0, LosesCheckpoint(0)) + ShortLife(2, Works(1));
      var s := Run(cfg, events);
      && SlotOrdered(cfg.chain) && KeysDistinct(cfg.chain) && ServedRun(cfg, events)
      && Stored(cfg, s.db, cfg.chain[0]) && cfg.chain[0].slot < cfg.chain[1].slot
      && ReadResumeSlot(s.db) == Some(3) && cfg.chain[1].slot < 3
      && !Stored(cfg, s.db, cfg.chain[1])
      && forall i :: 0 <= i < |s.hist.seams| ==> s.hist.seams[i].base.None?
  {
    hide ReadResumeSlot, ShortLife, Stored, RowOf, Quiet, FlushDb, Run, ServedRun, OneRow;
    var cfg := Quiet(THREE, None);
    var p, q := LosesCheckpoint(0), Works(1);
    ThreeIsAChain();
    DiesBeforeCheckpoint();
    var s4 := Run(cfg, ShortLife(0, p));
    LivesShortly(THREE, ShortLife(0, p), 2, q);
    FlushOneRow(cfg, 2, s4.db, q);
    var s8 := Run(cfg, ShortLife(0, p) + ShortLife(2, q));
    OnlyLanded(cfg, s4.db, s8.db);
    NewestCheckpointRead(s8.db, [], Stamped(Checkpoint(3, 1), 1));
  }

  lemma DiesBeforeCheckpoint()
    ensures var cfg := Quiet(THREE, None); var s := Run(cfg, ShortLife(0, LosesCheckpoint(0)));
      && ServedRun(cfg, ShortLife(0, LosesCheckpoint(0))) && s.phase.Down?
      && s.db.raw == Insert(Log([], []), [RowOf(cfg, cfg.chain[0])], Acked(0))
      && s.db.checkpoints == [] && ReadResumeSlot(s.db) == None
      && forall i :: 0 <= i < |s.hist.seams| ==> s.hist.seams[i].base.None?
  {
    hide ShortLife, RowOf, Quiet, FlushDb, Run, ServedRun, OneRow;
    var cfg, p := Quiet(THREE, None), LosesCheckpoint(0);
    StartsDown(cfg);
    assert [] + ShortLife(0, p) == ShortLife(0, p);
    LivesShortly(THREE, [], 0, p);
    FlushOneRow(cfg, 0, EMPTY_DB, p);
  }

  lemma ThreeIsAChain()
    ensures var cfg := Quiet(THREE, None);
      SlotOrdered(cfg.chain) && KeysDistinct(cfg.chain) && cfg.chain[0].slot == 1 && cfg.chain[1].slot == 2 && cfg.chain[2].slot == 3
  {
  }

  lemma StartsDown(cfg: Cfg)
    ensures Run(cfg, []) == INIT && ServedRun(cfg, []) && ReadResumeSlot(EMPTY_DB) == None
  {
  }

  lemma OnlyLanded(cfg: Cfg, a: Db, b: Db)
    requires cfg == Quiet(THREE, None)
    requires a.raw == Insert(Log([], []), [RowOf(cfg, cfg.chain[0])], Acked(0))
    requires b.raw == Insert(a.raw, [RowOf(cfg, cfg.chain[2])], Acked(1))
    ensures Stored(cfg, b, cfg.chain[0]) && !Stored(cfg, b, cfg.chain[1])
  {
    var r0, r2 := RowOf(cfg, cfg.chain[0]), RowOf(cfg, cfg.chain[2]);
    assert b.raw.landed == [Stamped(r0, 0), Stamped(r2, 1)];
    assert b.raw.landed[0].row == r0;
  }

  // --------------------------------------- over-replay can uncover the loss

  /** A first process that opened at slot 3, committed it, and died. */
  function CommittedThree(): seq<Event> {
    ShortLife(2, Works(0)) + [Kill]
  }

  lemma CommitsThree()
    ensures var cfg := Quiet(THREE, None); var s := Run(cfg, CommittedThree());
      && ServedRun(cfg, CommittedThree()) && s.phase.Down?
      && s.db.raw == Insert(Log([], []), [RowOf(cfg, cfg.chain[2])], Acked(0))
      && s.db.checkpoints == [Stamped(Checkpoint(3, 1), 0)] && ReadResumeSlot(s.db) == Some(3)
      && s.hist.seams == [Seam(None, false, 2, 0)] && |s.db.journal| == 1
  {
    hide ShortLife, RowOf, Quiet, FlushDb, Run, ServedRun, OneRow, ReadResumeSlot;
    var cfg, p := Quiet(THREE, None), Works(0);
    ThreeIsAChain();
    StartsDown(cfg);
    assert [] + ShortLife(2, p) == ShortLife(2, p);
    LivesShortly(THREE, [], 2, p);
    FlushOneRow(cfg, 2, EMPTY_DB, p);
    RunSnoc(cfg, ShortLife(2, p), Kill);
    NewestCheckpointRead(Run(cfg, CommittedThree()).db, [], Stamped(Checkpoint(3, 1), 0));
  }

  /**
  One start without a checkpoint, the very first, is enough. It opens at slot 3
  and commits; the next process resumes at 3, is replayed slot 1, stores it, and
  dies before its checkpoint lands. The first stored slot is now 1, the checkpoint
  3, slot 2 is missing, and the one seam that had a checkpoint did not lose it.
   */
  lemma OverReplayUncoversLoss()
    ensures var cfg := Quiet(THREE, None);
      var events := CommittedThree() + ShortLife(0, LosesCheckpoint(1));
      var s := Run(cfg, events);
      && SlotOrdered(cfg.chain) && KeysDistinct(cfg.chain) && ServedRun(cfg, events)
      && Stored(cfg, s.db, cfg.chain[0]) && cfg.chain[0].slot < cfg.chain[1].slot
      && ReadResumeSlot(s.db) == Some(3) && cfg.chain[1].slot < 3
      && !Stored(cfg, s.db, cfg.chain[1])
      && s.hist.seams == [Seam(None, false, 2, 0), Seam(Some(3), false, 0, 1)]
      && !Lost(cfg, s.hist.seams[1], 1)
  {
    hide ShortLife, RowOf, Quiet, FlushDb, Run, ServedRun, OneRow, ReadResumeSlot, Stored;
    var cfg, p := Quiet(THREE, None), LosesCheckpoint(1);
    ThreeIsAChain();
    CommitsThree();
    var s4 := Run(cfg, CommittedThree());
    LivesShortly(THREE, CommittedThree(), 0, p);
    FlushOneRow(cfg, 0, s4.db, p);
    var s8 := Run(cfg, CommittedThree() + ShortLife(0, p));
    BothEndsLanded(cfg, s4.db, s8.db);
    NewestCheckpointRead(s8.db, [], Stamped(Checkpoint(3, 1), 0));
  }

  lemma BothEndsLanded(cfg: Cfg, a: Db, b: Db)
    requires cfg == Quiet(THREE, None)
    requires a.raw == Insert(Log([], []), [RowOf(cfg, cfg.chain[2])], Acked(0))
    requires b.raw == Insert(a.raw, [RowOf(cfg, cfg.chain[0])], Acked(1))
    ensures Stored(cfg, b, cfg.chain[0]) && !Stored(cfg, b, cfg.chain[1])
  {
    var r0, r2 := RowOf(cfg, cfg.chain[0]), RowOf(cfg, cfg.chain[2]);
    assert b.raw.landed == [Stamped(r2, 0), Stamped(r0, 1)];
    assert b.raw.landed[1].row == r0;
  }

  // ------------------------------------------- the checkpoint may move back

  /**
  The checkpoint is never ahead of the data, but it is not monotone: a server
  that replays from before the requested slot takes it back.
   */
  lemma OverReplayMovesCheckpointBack()
    ensures var cfg := Quiet(THREE, None);
      var events := CommittedThree() + ShortLife(0, Works(1));
      && ServedRun(cfg, events)
      && ReadResumeSlot(Run(cfg, CommittedThree()).db) == Some(3)
      && ReadResumeSlot(Run(cfg, events).db) == Some(1)
  {
    hide ShortLife, RowOf, Quiet, FlushDb, Run, ServedRun, OneRow, ReadResumeSlot;
    var cfg, p := Quiet(THREE, None), Works(1);
    ThreeIsAChain();
    CommitsThree();
    LivesShortly(THREE, CommittedThree(), 0, p);
    FlushOneRow(cfg, 0, Run(cfg, CommittedThree()).db, p);
    NewestCheckpointRead(Run(cfg, CommittedThree() + ShortLife(0, p)).db, [Stamped(Checkpoint(3, 1), 0)], Stamped(Checkpoint(1, 1), 1));
  }

  // ------------------------------------------- a recorded end, overwritten

  const WIDE: seq<nat> := [0, 1000]

  /** A process commits slot 0; the next opens at slot 1000, records the gap, and dies before its first flush. */
  function RecordedThenDied(): seq<Event> {
    ShortLife(0, Works(0)) + [Kill] + [Start] + [Accepted] + [Deliver(1, Works(1), Works(1), Acked(1))] + [Kill]
  }

  lemma RecordsTheGap()
    ensures var cfg := Quiet(WIDE, None); var s := Run(cfg, RecordedThenDied());
      && SlotOrdered(cfg.chain) && ServedRun(cfg, RecordedThenDied()) && s.phase.Down?
      && s.db.gaps == [Stamped(GapRow(0, 1000), 1)] && ReadResumeSlot(s.db) == Some(0)
  {
    hide ShortLife, RowOf, FlushDb, Run, ServedRun, OneRow, ReadResumeSlot, Receive, Full;
    var cfg, p := Quiet(WIDE, None), Works(0);
    StartsDown(cfg);
    assert [] + ShortLife(0, p) == ShortLife(0, p);
    LivesShortly(WIDE, [], 0, p);
    FlushOneRow(cfg, 0, EMPTY_DB, p);
    var e1 := ShortLife(0, p) + [Kill];
    RunSnoc(cfg, ShortLife(0, p), Kill);
    NewestCheckpointRead(Run(cfg, e1).db, [], Stamped(Checkpoint(0, 1), 0));
    NoGapsYet(cfg, p);
    Opening(cfg, e1);
    var e2 := e1 + [Start] + [Accepted];
    var delivery := Deliver(1, Works(1), Works(1), Acked(1));
    Delivering(WIDE, None, Run(cfg, e2), 1);
    RunSnoc(cfg, e2, delivery);
    var s3 := Run(cfg, e2 + [delivery]);
    assert s3.db == Protocol.RecordGap(Run(cfg, e2).db, GapRow(0, 1000), Acked(1));
    RunSnoc(cfg, e2 + [delivery], Kill);
    NewestCheckpointRead(s3.db, [], Stamped(Checkpoint(0, 1), 0));
  }

  lemma NoGapsYet(cfg: Cfg, p: FlushPlan)
    requires |cfg.chain| > 0
    ensures FlushDb(OneRow(cfg, 0), EMPTY_DB, p).db.gaps == []
  {
  }

  /**
  `FINAL` first shows that the hole ends at slot 1000. A third process, refused at
  the same checkpoint, records the same key, and then it shows 0.
   */
  lemma RecordedEndIsOverwritten()
    ensures var cfg := Quiet(WIDE, None); var s := Run(cfg, RecordedThenDied());
      var t := Run(cfg, RecordedThenDied() + [Start] + [Refused(Acked(2))]);
      && ServedRun(cfg, RecordedThenDied() + [Start] + [Refused(Acked(2))])
      && 0 in Final(s.db.gaps, GapKey) && Final(s.db.gaps, GapKey)[0].row == GapRow(0, 1000)
      && 0 in Final(t.db.gaps, GapKey) && Final(t.db.gaps, GapKey)[0].row == GapRow(0, 0)
  {
    hide Run, ServedRun, ReadResumeSlot, RecordedThenDied, Final;
    var cfg := Quiet(WIDE, None);
    RecordsTheGap();
    var s := Run(cfg, RecordedThenDied());
    assert IsNewest(s.db.gaps, GapKey, 0);
    FinalShows(s.db.gaps, GapKey, 0);
    RunSnoc(cfg, RecordedThenDied(), Start);
    RunSnoc(cfg, RecordedThenDied() + [Start], Refused(Acked(2)));
    RefusalOverwritesEnd(cfg, s, Acked(2));
  }

  // ----------------------------------------- a zero budget skips the verdict

  /** One life of a process sampling with budget zero: it stops at its first update. */
  lemma ZeroBudgetLife(events: seq<Event>, k: nat, p: FlushPlan)
    requires k < |WIDE| && p.raw.Acked?
    requires ServedRun(Quiet(WIDE, Some(0)), events) && Run(Quiet(WIDE, Some(0)), events).phase.Down?
    ensures var cfg := Quiet(WIDE, Some(0)); var s := Run(cfg, events); var t := Run(cfg, events + [Start] + [Accepted] + [Delivery(k, p)]);
      && ServedRun(cfg, events + [Start] + [Accepted] + [Delivery(k, p)])
      && t.phase.Down? && t.db == FlushDb(OneRow(cfg, k), s.db, p).db
      && t.hist.seams == s.hist.seams + [Seam(ReadResumeSlot(s.db), false, k, |s.db.journal|)]
  {
    var cfg := Quiet(WIDE, Some(0));
    Opening(cfg, events);
    var e2 := events + [Start] + [Accepted];
    Delivering(WIDE, Some(0), Run(cfg, e2), k);
    RunSnoc(cfg, e2, Delivery(k, p));
  }

  function ZeroBudgetRun(): seq<Event> {
    [] + [Start] + [Accepted] + [Delivery(0, Works(0))] + [Start] + [Accepted] + [Delivery(1, Works(1))]
  }

  /**
  With `KLEND_SAMPLE_SLOTS=0` the run stops before the seam is judged: the second
  process resumes at slot 0, opens at slot 1000 and commits a checkpoint past the
  hole with no gap row at all.
   */
  lemma ZeroBudgetSkipsTheGapRow()
    ensures var cfg := Quiet(WIDE, Some(0)); var s := Run(cfg, ZeroBudgetRun());
      && SlotOrdered(cfg.chain) && ServedRun(cfg, ZeroBudgetRun()) && |s.hist.seams| == 2
      && NeedsRow(cfg, s.hist.seams[1]) && s.hist.seams[1].at == 1 < |s.db.journal| && s.db.journal[1].CheckpointNote?
      && !Announced(s.db.journal, |s.db.journal|, s.hist.seams[1].base.value, None)
  {
    var cfg := Quiet(WIDE, Some(0));
    ZeroBudgetLife([], 0, Works(0));
    FlushOneRow(cfg, 0, EMPTY_DB, Works(0));
    var first := [] + [Start] + [Accepted] + [Delivery(0, Works(0))];
    var s := Run(cfg, first);
    var e := Stamped(Checkpoint(0, 1), 0);
    assert s.db.checkpoints == [e];
    NewestCheckpointRead(s.db, [], e);
    ZeroBudgetLife(first, 1, Works(1));
    FlushOneRow(cfg, 1, s.db, Works(1));
    assert Run(cfg, ZeroBudgetRun()).db.journal == [CheckpointNote(Checkpoint(0, 1)), CheckpointNote(Checkpoint(1000, 1))];
  }

  /** Gap rows always precede the checkpoints past their seam exactly when the budget is not zero. */
  lemma GapRowGuaranteeExact(budget: Option<nat>)
    ensures (forall cfg: Cfg, events: seq<Event> :: cfg.budget == budget && SlotOrdered(cfg.chain) && ServedRun(cfg, events) ==>
               AllInTime(cfg, Run(cfg, events)))
      <==> budget != Some(0)
  {
    if budget == Some(0) {
      ZeroBudgetSkipsTheGapRow();
      var cfg := Quiet(WIDE, Some(0));
      var s := Run(cfg, ZeroBudgetRun());
      assert !Announced(s.db.journal, 1, s.hist.seams[1].base.value, EndOf(cfg, s.hist.seams[1]));
      assert !InTime(cfg, s.db.journal, s.hist.seams[1]);
      assert !AllInTime(cfg, s);
    } else {
      forall cfg: Cfg, events: seq<Event> | cfg.budget == budget && SlotOrdered(cfg.chain) && ServedRun(cfg, events)
        ensures AllInTime(cfg, Run(cfg, events))
      {
        RunKeepsGaps(cfg, events);
      }
    }
  }
}
