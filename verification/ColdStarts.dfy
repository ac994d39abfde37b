/**
What a start without a checkpoint costs (src/main.rs, `read_resume_slot`): from
which chain position on the ingest protocol keeps its promise.
 */
module ColdStarts {
  import opened Wrappers
  import opened MergeTree
  import opened Schema
  import opened Protocol
  import opened Resume
  import opened Coverage
  import opened Safety
  import opened IngestTheorems
  import opened Witnesses

  // ------------------------------------------------------------- the promise

  /** No update occurs twice. */
  ghost predicate NoRepeats(chain: seq<Update>) {
    forall i, j :: 0 <= i < |chain| && 0 <= j < |chain| && chain[i] == chain[j] ==> i == j
  }

  /** Every session started without a checkpoint opened at position `m` or before it. */
  ghost predicate ColdBy(seams: seq<Seam>, m: nat) {
    forall i :: 0 <= i < |seams| && seams[i].base.None? ==> seams[i].start <= m
  }

  ghost predicate LostPastCheckpoint(cfg: Cfg, seams: seq<Seam>, k: nat)
    requires k < |cfg.chain|
  {
    exists i :: 0 <= i < |seams| && seams[i].base.Some? && Lost(cfg, seams[i], k)
  }

  /** Once it is below the checkpoint, an update is stored or was lost at a seam that had a checkpoint. */
  ghost predicate Kept(cfg: Cfg, s: State, k: nat)
    requires k < |cfg.chain|
  {
    ReadResumeSlot(s.db).Some? && cfg.chain[k].slot < ReadResumeSlot(s.db).value ==>
      Stored(cfg, s.db, cfg.chain[k]) || LostPastCheckpoint(cfg, s.hist.seams, k)
  }

  /** Where the promise holds: from the cold opening on, and in the newest slot, which no checkpoint can pass. */
  lemma KeptFrom(cfg: Cfg, events: seq<Event>, m: nat, k: nat)
    requires SlotOrdered(cfg.chain) && ServedRun(cfg, events) && m < |cfg.chain| && k < |cfg.chain|
    requires ColdBy(Run(cfg, events).hist.seams, m)
    requires m <= k || cfg.chain[k].slot == cfg.chain[|cfg.chain| - 1].slot
    ensures Kept(cfg, Run(cfg, events), k)
  {
    hide Run, ReadResumeSlot, Stored, Inv, ServedRun;
    var s := Run(cfg, events);
    if ReadResumeSlot(s.db).Some? && cfg.chain[k].slot < ReadResumeSlot(s.db).value {
      CheckpointWithinChain(cfg, events);
      NoSilentHole(cfg, events, k);
    }
  }

  lemma CheckpointWithinChain(cfg: Cfg, events: seq<Event>)
    requires SlotOrdered(cfg.chain) && ServedRun(cfg, events)
    requires ReadResumeSlot(Run(cfg, events).db).Some?
    ensures |cfg.chain| > 0 && ReadResumeSlot(Run(cfg, events).db).value <= cfg.chain[|cfg.chain| - 1].slot
  {
    hide Run, Stored, StreamInv, Covered;
    var s := Run(cfg, events);
    RunKeepsInv(cfg, events);
    var key := (c: Checkpoint) => ();
    FinalIsNewest(s.db.checkpoints, key);
    var i :| 0 <= i < |s.db.checkpoints| && s.db.checkpoints[i] == Final(s.db.checkpoints, key)[()];
    var p :| 0 <= p < |s.db.journal| && s.db.journal[p] == CheckpointNote(s.db.checkpoints[i].row);
    var k :| 0 <= k < |cfg.chain| && Stored(cfg, s.db, cfg.chain[k])
      && s.db.journal[p].checkpoint == Checkpoint(cfg.chain[k].slot, cfg.chain[k].writeVersion);
  }

  // ---------------------------------------------- a cold start that loses

  /** A first process that opens at `m` and commits each update as it comes, up to position `j`. */
  function Follow(m: nat, j: nat): seq<Event>
    requires m <= j
  {
    if j == m then [] + [Start] + [Accepted] else Follow(m, j - 1) + [Delivery(j - 1, Works(0))] + [FlushTick(Works(0))]
  }

  ghost predicate FromTail(cfg: Cfg, row: RawRow, m: nat) {
    exists l :: m <= l < |cfg.chain| && row == RowOf(cfg, cfg.chain[l])
  }

  /** Only rows of positions from `m` on have landed. */
  ghost predicate LandedFrom(cfg: Cfg, landed: seq<Stamped<RawRow>>, m: nat) {
    forall i :: 0 <= i < |landed| ==> FromTail(cfg, landed[i].row, m)
  }

  ghost predicate Following(cfg: Cfg, s: State, m: nat, j: nat)
    requires m <= j <= |cfg.chain|
  {
    && s.phase.Streaming? && s.bufs == NO_ROWS && s.session.resumeFrom.None? && s.hist.base.None? && !s.hist.forced
    && LandedFrom(cfg, s.db.raw.landed, m)
    && (forall i :: 0 <= i < |s.db.checkpoints| ==> s.db.checkpoints[i].at == 0)
    && (j == m ==> s.hist.start.None? && s.hist.seams == [] && s.db.journal == [])
    && (j > m ==>
          && s.hist.start == Some(m) && s.hist.next == j && s.hist.seams == [Seam(None, false, m, 0)]
          && ReadResumeSlot(s.db) == Some(cfg.chain[j - 1].slot))
  }

  lemma OneUpdate(cfg: Cfg, u: Update)
    ensures var b := Push(cfg, NO_ROWS, u);
      b.raw == [RowOf(cfg, u)] && !Full(b) && !IsEmpty(b) && HighWater(b) == Checkpoint(u.slot, u.writeVersion)
  {
    hide DerivedOf, Label, Classify;
  }

  /** One update to a process with empty buffers and no checkpoint to judge against. */
  lemma DeliverOne(cfg: Cfg, s: State, j: nat, p: FlushPlan)
    requires s.phase.Streaming? && s.bufs == NO_ROWS && s.session.resumeFrom.None? && cfg.budget.None? && j < |cfg.chain|
    ensures var t := Step(cfg, s, Delivery(j, p));
      && t.phase.Streaming? && t.db == s.db && t.bufs == Push(cfg, NO_ROWS, cfg.chain[j])
      && t.session.resumeFrom.None? && t.hist == Receive(cfg, s, j).hist
  {
    hide Push, Full, FlushDb;
    OneUpdate(cfg, cfg.chain[j]);
  }

  lemma CommitOne(cfg: Cfg, s: State, u: Update)
    requires s.phase.Streaming? && s.bufs == Push(cfg, NO_ROWS, u)
    requires forall i :: 0 <= i < |s.db.checkpoints| ==> s.db.checkpoints[i].at == 0
    ensures var t := Step(cfg, s, FlushTick(Works(0)));
      && t.phase.Streaming? && t.bufs == NO_ROWS && t.session == s.session && t.hist == s.hist.(flushed := s.hist.next)
      && t.db.raw.landed == s.db.raw.landed + [Stamped(RowOf(cfg, u), 0)]
      && (forall i :: 0 <= i < |t.db.checkpoints| ==> t.db.checkpoints[i].at == 0)
      && ReadResumeSlot(t.db) == Some(u.slot)
  {
    hide Push, FlushDb, HighWater, IsEmpty, RowOf, ReadResumeSlot;
    OneUpdate(cfg, u);
    AckedFlushDb(s.bufs, s.db, Works(0));
    NewestCheckpointRead(FlushDb(s.bufs, s.db, Works(0)).db, s.db.checkpoints, Stamped(Checkpoint(u.slot, u.writeVersion), 0));
  }

  lemma FollowStep(cfg: Cfg, s: State, m: nat, j: nat)
    requires m <= j < |cfg.chain| && cfg.budget.None? && Following(cfg, s, m, j)
    ensures Following(cfg, Step(cfg, Step(cfg, s, Delivery(j, Works(0))), FlushTick(Works(0))), m, j + 1)
    ensures Served(s, Delivery(j, Works(0)))
  {
    hide Push, Step, RowOf, ReadResumeSlot;
    DeliverOne(cfg, s, j, Works(0));
    CommitOne(cfg, Step(cfg, s, Delivery(j, Works(0))), cfg.chain[j]);
  }

  lemma {:induction false} FollowRuns(cfg: Cfg, m: nat, j: nat)
    requires m <= j <= |cfg.chain| && cfg.budget.None?
    ensures ServedRun(cfg, Follow(m, j)) && Following(cfg, Run(cfg, Follow(m, j)), m, j)
    decreases j - m
  {
    hide Step, Following, Run, ServedRun, Served;
    if j == m {
      FollowStart(cfg, m);
    } else {
      FollowRuns(cfg, m, j - 1);
      var e := Follow(m, j - 1);
      FollowStep(cfg, Run(cfg, e), m, j - 1);
      RunSnoc(cfg, e, Delivery(j - 1, Works(0)));
      TickServed(Run(cfg, e + [Delivery(j - 1, Works(0))]));
      RunSnoc(cfg, e + [Delivery(j - 1, Works(0))], FlushTick(Works(0)));
    }
  }

  lemma TickServed(s: State)
    ensures Served(s, FlushTick(Works(0)))
  {
  }

  lemma FollowStart(cfg: Cfg, m: nat)
    requires m <= |cfg.chain|
    ensures ServedRun(cfg, Follow(m, m)) && Following(cfg, Run(cfg, Follow(m, m)), m, m)
  {
    hide Run, ServedRun, ReadResumeSlot;
    StartsDown(cfg);
    Opening(cfg, []);
  }

  lemma RowsDiffer(cfg: Cfg, u: Update, v: Update)
    requires u != v
    ensures RowOf(cfg, u) != RowOf(cfg, v)
  {
    hide Label, Classify;
  }

  lemma NoRepeatsNoRow(cfg: Cfg, landed: seq<Stamped<RawRow>>, m: nat, k: nat)
    requires NoRepeats(cfg.chain) && k < m <= |cfg.chain| && LandedFrom(cfg, landed, m)
    ensures !Has(landed, RowOf(cfg, cfg.chain[k]))
  {
    hide RowOf;
    forall l | m <= l < |cfg.chain|
      ensures RowOf(cfg, cfg.chain[l]) != RowOf(cfg, cfg.chain[k])
    {
      RowsDiffer(cfg, cfg.chain[l], cfg.chain[k]);
    }
    assert !FromTail(cfg, RowOf(cfg, cfg.chain[k]), m);
  }

  /** A cold opening past `k`, followed to the end of the chain, breaks the promise for `k`. */
  lemma ColdOpeningLoses(cfg: Cfg, m: nat, k: nat)
    requires cfg.budget.None? && SlotOrdered(cfg.chain) && NoRepeats(cfg.chain)
    requires k < m < |cfg.chain| && cfg.chain[k].slot < cfg.chain[|cfg.chain| - 1].slot
    ensures ServedRun(cfg, Follow(m, |cfg.chain|)) && ColdBy(Run(cfg, Follow(m, |cfg.chain|)).hist.seams, m)
    ensures !Kept(cfg, Run(cfg, Follow(m, |cfg.chain|)), k)
  {
    hide Run, ServedRun, Follow, ReadResumeSlot, RowOf, Has;
    FollowRuns(cfg, m, |cfg.chain|);
    NoRepeatsNoRow(cfg, Run(cfg, Follow(m, |cfg.chain|)).db.raw.landed, m, k);
  }

  /**
  The cutoff, exactly. Suppose sessions without a checkpoint open at position `m`
  at the latest. Then an update once below the checkpoint is always stored, or lost
  at a seam that had a checkpoint, if and only if it is not before `m` or sits in
  the newest slot.
   */
  lemma ColdCutoffExact(cfg: Cfg, m: nat, k: nat)
    requires cfg.budget.None? && SlotOrdered(cfg.chain) && NoRepeats(cfg.chain) && m < |cfg.chain| && k < |cfg.chain|
    ensures (forall events :: ServedRun(cfg, events) && ColdBy(Run(cfg, events).hist.seams, m) ==> Kept(cfg, Run(cfg, events), k))
      <==> m <= k || cfg.chain[k].slot == cfg.chain[|cfg.chain| - 1].slot
  {
    hide Run, ServedRun, Kept, ColdBy;
    if m <= k || cfg.chain[k].slot == cfg.chain[|cfg.chain| - 1].slot {
      forall events | ServedRun(cfg, events) && ColdBy(Run(cfg, events).hist.seams, m)
        ensures Kept(cfg, Run(cfg, events), k)
      {
        KeptFrom(cfg, events, m, k);
      }
    } else {
      ColdOpeningLoses(cfg, m, k);
    }
  }
}
