/** When the durable checkpoint moves back, and when it cannot (src/main.rs). */
module Checkpoints {
  import opened Wrappers
  import opened MergeTree
  import opened Protocol
  import opened Resume
  import opened Coverage
  import opened Safety
  import opened IngestTheorems

  /** The stamp of an insert is no older than those of the checkpoints that have landed. */
  ghost predicate Timely(db: Db, o: Outcome) {
    forall i :: 0 <= i < |db.checkpoints| ==> db.checkpoints[i].at <= o.at
  }

  /** An acknowledged flush takes the checkpoint back exactly when the last update it commits is behind it. */
  lemma CheckpointFallsExact(cfg: Cfg, events: seq<Event>, p: FlushPlan)
    requires SlotOrdered(cfg.chain) && ServedRun(cfg, events)
    requires Run(cfg, events).phase.Streaming? && Run(cfg, events).hist.flushed < Run(cfg, events).hist.next
    requires AllAcked(p) && Timely(Run(cfg, events).db, p.checkpoint)
    requires ReadResumeSlot(Run(cfg, events).db).Some?
    ensures var s := Run(cfg, events); var f := Flush(s, p);
      && 0 < s.hist.next <= |cfg.chain| && ReadResumeSlot(f.db).Some?
      && (ReadResumeSlot(f.db).value < ReadResumeSlot(s.db).value <==> cfg.chain[s.hist.next - 1].slot < ReadResumeSlot(s.db).value)
  {
    hide Run, Flush, ReadResumeSlot, FlushOk, SegmentStored;
    AckedFlushCommits(cfg, events, p);
  }

  /** A checkpoint insert that was given up on and lands late, newest, becomes the durable checkpoint, wherever it points. */
  lemma LateCheckpointWins(db: Db, i: nat, at: nat)
    requires i < |db.journal| && db.journal[i].CheckpointNote? && Timely(db, Acked(at))
    ensures ReadResumeSlot(LateNoteLanding(db, i, at)) == Some(db.journal[i].checkpoint.slot)
  {
    hide ReadResumeSlot;
    NewestCheckpointRead(LateNoteLanding(db, i, at), db.checkpoints, Stamped(db.journal[i].checkpoint, at));
  }

  // ------------------------------------------------- runs that never go back

  predicate NotBelow(a: Option<nat>, b: Option<nat>) {
    a.Some? ==> b.Some? && a.value <= b.value
  }

  /**
  One event of a well-behaved world: stamps grow, no checkpoint lands after it was
  given up on, and a session opens at the slot it asked for or past it.
   */
  ghost predicate Orderly(cfg: Cfg, s: State, e: Event) {
    && Served(s, e)
    && match e
       case Deliver(k, cap, fin, _) =>
         && Timely(s.db, cap.checkpoint) && Timely(s.db, fin.checkpoint) && cap.checkpoint.at <= fin.checkpoint.at
         && (s.phase.Streaming? && k < |cfg.chain| && s.hist.start.None? && s.hist.base.Some? ==> s.hist.base.value <= cfg.chain[k].slot)
       case FlushTick(p) => Timely(s.db, p.checkpoint)
       case Signal(p) => Timely(s.db, p.checkpoint)
       case StreamEnd(p, _) => Timely(s.db, p.checkpoint)
       case LateNote(i, _) => i < |s.db.journal| ==> s.db.journal[i].GapNote?
       case _ => true
  }

  ghost predicate OrderlyRun(cfg: Cfg, events: seq<Event>) {
    events == [] ||
    (OrderlyRun(cfg, events[..|events| - 1]) && Orderly(cfg, Run(cfg, events[..|events| - 1]), events[|events| - 1]))
  }

  /** What has been delivered and not yet committed is not behind the checkpoint. */
  ghost predicate Caught(cfg: Cfg, s: State) {
    var durable := ReadResumeSlot(s.db);
    && (s.phase.Connecting? && s.proc.forceTip ==> durable == Some(s.hist.givenUp))
    && (s.phase.Streaming? && s.hist.start.None? ==> durable == s.hist.base)
    && (s.phase.Streaming? && s.hist.start.Some? ==>
          0 < s.hist.next <= |cfg.chain| && NotBelow(durable, Some(cfg.chain[s.hist.next - 1].slot)))
  }

  lemma LandingOne(c: Checkpoint, o: Outcome)
    ensures Landing([c], o) == [] || Landing([c], o) == [Stamped(c, o.at)]
    ensures o.Acked? ==> Landing([c], o) == [Stamped(c, o.at)]
  {
  }

  lemma FlushCheckpoints(b: Buffers, db: Db, p: FlushPlan)
    ensures var f := FlushDb(b, db, p);
      f.db.checkpoints == db.checkpoints || (!IsEmpty(b) && f.db.checkpoints == db.checkpoints + Landing([HighWater(b)], p.checkpoint))
  {
    hide HighWater, Landing, Through, DataThrough, IsEmpty, Insert;
  }

  /** A flush leaves the checkpoint where it was, or at the last update it committed. */
  lemma FlushMoves(b: Buffers, db: Db, p: FlushPlan)
    requires Timely(db, p.checkpoint)
    ensures var d := ReadResumeSlot(FlushDb(b, db, p).db);
      d == ReadResumeSlot(db) || (!IsEmpty(b) && d == Some(HighWater(b).slot))
    ensures forall i :: 0 <= i < |FlushDb(b, db, p).db.checkpoints| ==> FlushDb(b, db, p).db.checkpoints[i].at <= p.checkpoint.at
  {
    hide FlushDb, HighWater, IsEmpty, ReadResumeSlot, Landing;
    var f := FlushDb(b, db, p).db;
    FlushCheckpoints(b, db, p);
    assert db.checkpoints + [] == db.checkpoints;
    if f.checkpoints == db.checkpoints {
      SameCheckpoints(db, f);
    } else {
      LandingOne(HighWater(b), p.checkpoint);
      NewestCheckpointRead(f, db.checkpoints, Stamped(HighWater(b), p.checkpoint.at));
    }
  }

  lemma SameCheckpoints(a: Db, b: Db)
    requires a.checkpoints == b.checkpoints
    ensures ReadResumeSlot(a) == ReadResumeSlot(b)
  {
  }

  /** In a session that has delivered something, the mark a flush commits is the last update delivered. */
  lemma MarkIsLast(cfg: Cfg, s: State)
    requires StreamInv(cfg, s) && s.hist.start.Some?
    ensures 0 < s.hist.next <= |cfg.chain|
    ensures !IsEmpty(s.bufs) ==> HighWater(s.bufs).slot == cfg.chain[s.hist.next - 1].slot
  {
    hide SegmentStored, Covered, IsEmpty, HighWater;
    assert Opened(cfg, s, s.hist.start.value);
    var us := cfg.chain[s.hist.flushed..s.hist.next];
    BufferMarks(cfg, us);
    if us != [] { assert us[|us| - 1] == cfg.chain[s.hist.next - 1]; }
  }

  /** A flush while streaming neither loses ground nor overtakes what was delivered. */
  lemma FlushKeepsCaught(cfg: Cfg, s: State, p: FlushPlan)
    requires StreamInv(cfg, s) && Caught(cfg, s) && s.phase.Streaming? && Timely(s.db, p.checkpoint)
    ensures Caught(cfg, Flush(s, p)) && NotBelow(ReadResumeSlot(s.db), ReadResumeSlot(Flush(s, p).db))
    ensures forall i :: 0 <= i < |Flush(s, p).db.checkpoints| ==> Flush(s, p).db.checkpoints[i].at <= p.checkpoint.at
  {
    hide FlushDb, HighWater, ReadResumeSlot, Covered, SegmentStored;
    FlushMoves(s.bufs, s.db, p);
    if s.hist.start.Some? {
      MarkIsLast(cfg, s);
    } else {
      EmptyFlush(s, p);
    }
  }

  lemma EmptyFlush(s: State, p: FlushPlan)
    requires s.bufs == NO_ROWS
    ensures Flush(s, p).db == s.db && FlushOk(s, p)
  {
  }

  lemma JudgeKeepsCaught(cfg: Cfg, s: State, o: Outcome)
    requires Caught(cfg, s) && s.phase.Streaming?
    ensures Caught(cfg, Judge(s, o)) && ReadResumeSlot(Judge(s, o).db) == ReadResumeSlot(s.db)
  {
    hide ReadResumeSlot;
    SameCheckpoints(s.db, Judge(s, o).db);
  }

  lemma ReceiveKeepsCaught(cfg: Cfg, s: State, k: nat)
    requires SlotOrdered(cfg.chain) && Caught(cfg, s) && s.phase.Streaming? && k < |cfg.chain|
    requires if s.hist.start.Some? then k == s.hist.next else s.hist.base.Some? ==> s.hist.base.value <= cfg.chain[k].slot
    ensures Caught(cfg, Receive(cfg, s, k)) && Receive(cfg, s, k).db == s.db && Receive(cfg, s, k).phase.Streaming?
  {
    hide ReadResumeSlot, Push;
  }

  lemma DeliverKeepsCaught(cfg: Cfg, s: State, k: nat, cap: FlushPlan, fin: FlushPlan, gap: Outcome)
    requires SlotOrdered(cfg.chain) && Inv(cfg, s) && Caught(cfg, s) && s.phase.Streaming? && k < |cfg.chain|
    requires Orderly(cfg, s, Deliver(k, cap, fin, gap))
    ensures var t := OnDeliver(cfg, s, k, cap, fin, gap); Caught(cfg, t) && NotBelow(ReadResumeSlot(s.db), ReadResumeSlot(t.db))
  {
    hide Flush, FlushOk, Judge, Full, Push, ReadResumeSlot, BudgetReached, TablesInv, StreamInv, Receive;
    var s1 := Receive(cfg, s, k);
    ReceiveKeepsInv(cfg, s, k);
    ReceiveKeepsCaught(cfg, s, k);
    FlushKeepsCaught(cfg, s1, cap);
    FlushKeepsInv(cfg, s1, cap);
    FlushStays(s1, cap);
    if !Full(s1.bufs) || FlushOk(s1, cap) {
      var s2 := if Full(s1.bufs) then Flush(s1, cap) else s1;
      FlushKeepsCaught(cfg, s2, fin);
      FlushStays(s2, fin);
      JudgeKeepsCaught(cfg, s2, gap);
    }
  }

  lemma FlushStays(s: State, p: FlushPlan)
    ensures Flush(s, p).phase == s.phase && Flush(s, p).session == s.session
    ensures Flush(s, p).hist == s.hist.(flushed := s.hist.next) && Flush(s, p).proc == s.proc && Flush(s, p).bufs == NO_ROWS
  {
  }

  lemma GiveUpKeepsCaught(cfg: Cfg, s: State, from: nat, o: Outcome)
    requires ReadResumeSlot(s.db) == Some(from)
    ensures Caught(cfg, GiveUp(s, from, o)) && ReadResumeSlot(GiveUp(s, from, o).db) == Some(from)
  {
    hide ReadResumeSlot;
    SameCheckpoints(s.db, GiveUp(s, from, o).db);
  }

  lemma StreamEndKeepsCaught(cfg: Cfg, s: State, p: FlushPlan, gap: Outcome)
    requires Inv(cfg, s) && Caught(cfg, s) && s.phase.Streaming? && Timely(s.db, p.checkpoint)
    ensures var t := OnStreamEnd(cfg, s, p, gap); Caught(cfg, t) && NotBelow(ReadResumeSlot(s.db), ReadResumeSlot(t.db))
  {
    hide Flush, FlushOk, GiveUp, ReadResumeSlot, TablesInv, SegmentStored, Covered;
    FlushKeepsCaught(cfg, s, p);
    FlushStays(s, p);
    if !s.session.gotData && s.session.resumeFrom.Some? {
      assert s.hist.start.None?;
      EmptyFlush(s, p);
      GiveUpKeepsCaught(cfg, Flush(s, p), s.session.resumeFrom.value, gap);
    }
  }

  lemma RefuseKeepsCaught(cfg: Cfg, s: State, gap: Outcome)
    requires s.phase.Connecting?
    ensures Caught(cfg, Refuse(cfg, s, gap)) && ReadResumeSlot(Refuse(cfg, s, gap).db) == ReadResumeSlot(s.db)
  {
    hide GiveUp, ReadResumeSlot;
    if ResumeFrom(s).Some? { GiveUpKeepsCaught(cfg, Attempt(s), ResumeFrom(s).value, gap); }
  }

  lemma LateKeepsCheckpoints(s: State, t: Table, i: nat, at: nat)
    ensures LateRawLanding(s.db, i, at).checkpoints == s.db.checkpoints
    ensures LateDerivedLanding(s.db, t, i, at).checkpoints == s.db.checkpoints
    ensures (i < |s.db.journal| ==> s.db.journal[i].GapNote?) ==> LateNoteLanding(s.db, i, at).checkpoints == s.db.checkpoints
  {
  }

  lemma DbKeepsCaught(cfg: Cfg, s: State, db: Db)
    requires Caught(cfg, s) && db.checkpoints == s.db.checkpoints
    ensures Caught(cfg, s.(db := db)) && ReadResumeSlot(db) == ReadResumeSlot(s.db)
  {
    hide ReadResumeSlot;
    SameCheckpoints(s.db, db);
  }

  lemma StepKeepsCaught(cfg: Cfg, s: State, e: Event)
    requires SlotOrdered(cfg.chain) && Inv(cfg, s) && Caught(cfg, s) && Orderly(cfg, s, e)
    ensures Caught(cfg, Step(cfg, s, e)) && NotBelow(ReadResumeSlot(s.db), ReadResumeSlot(Step(cfg, s, e).db))
  {
    hide Flush, FlushOk, Judge, OnDeliver, OnStreamEnd, Refuse, ReadResumeSlot, LateRawLanding, LateDerivedLanding, LateNoteLanding, TablesInv, StreamInv;
    match e
    case Refused(gap) => if s.phase.Connecting? { RefuseKeepsCaught(cfg, s, gap); }
    case Deliver(k, cap, fin, gap) => if s.phase.Streaming? && k < |cfg.chain| { DeliverKeepsCaught(cfg, s, k, cap, fin, gap); }
    case OtherMessage(gap) => if s.phase.Streaming? { JudgeKeepsCaught(cfg, s, gap); }
    case FlushTick(p) => if s.phase.Streaming? { FlushKeepsCaught(cfg, s, p); FlushStays(s, p); }
    case Signal(p) => if s.phase.Streaming? { FlushKeepsCaught(cfg, s, p); FlushStays(s, p); }
    case StreamEnd(p, gap) => if s.phase.Streaming? { StreamEndKeepsCaught(cfg, s, p, gap); }
    case LateRaw(i, at) =>
      LateKeepsCheckpoints(s, Obligations, i, at);
      DbKeepsCaught(cfg, s, LateRawLanding(s.db, i, at));
    case LateDerived(t, i, at) =>
      LateKeepsCheckpoints(s, t, i, at);
      DbKeepsCaught(cfg, s, LateDerivedLanding(s.db, t, i, at));
    case LateNote(i, at) =>
      LateKeepsCheckpoints(s, Obligations, i, at);
      DbKeepsCaught(cfg, s, LateNoteLanding(s.db, i, at));
    case _ =>
  }

  lemma {:induction false} OrderlyIsServed(cfg: Cfg, events: seq<Event>)
    requires OrderlyRun(cfg, events)
    ensures ServedRun(cfg, events)
  {
    hide Run, Served;
    if events != [] { OrderlyIsServed(cfg, events[..|events| - 1]); }
  }

  lemma {:induction false} RunKeepsCaught(cfg: Cfg, events: seq<Event>)
    requires SlotOrdered(cfg.chain) && OrderlyRun(cfg, events)
    ensures Caught(cfg, Run(cfg, events))
  {
    hide Step, Inv, Orderly;
    if events == [] {
      NothingCaught(cfg);
    } else {
      var before := events[..|events| - 1];
      RunKeepsCaught(cfg, before);
      OrderlyIsServed(cfg, before);
      RunKeepsInv(cfg, before);
      StepKeepsCaught(cfg, Run(cfg, before), events[|events| - 1]);
    }
  }

  lemma NothingCaught(cfg: Cfg)
    ensures Caught(cfg, INIT)
  {
  }

  /** In a well-behaved world the durable checkpoint never falls, however often the process dies and whatever its inserts meet. */
  lemma {:induction false} CheckpointNeverFalls(cfg: Cfg, events: seq<Event>, later: seq<Event>)
    requires SlotOrdered(cfg.chain) && OrderlyRun(cfg, later) && events <= later
    ensures NotBelow(ReadResumeSlot(Run(cfg, events).db), ReadResumeSlot(Run(cfg, later).db))
    decreases |later|
  {
    hide Step, Inv, Caught, Orderly, ReadResumeSlot;
    if |events| < |later| {
      var before := later[..|later| - 1];
      CheckpointNeverFalls(cfg, events, before);
      RunKeepsCaught(cfg, before);
      OrderlyIsServed(cfg, before);
      RunKeepsInv(cfg, before);
      StepKeepsCaught(cfg, Run(cfg, before), later[|later| - 1]);
    } else {
      assert later == events;
    }
  }
}
