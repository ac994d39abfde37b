/**
What the reconnect loop does with each thing that happens to it (src/main.rs),
told from the history of events alone: what was delivered to the process, what the
session asked for, which resume point was given up.
 */
module Sessions {
  import opened Wrappers
  import opened MergeTree
  import opened Protocol
  import opened Resume
  import opened Coverage
  import opened Safety
  import opened Announce
  import opened IngestTheorems
  import opened Monotone
  import opened GapRows

  // ------------------------------------------------------------ the history

  /**
  The past of the process now running: the slots of the first and the last update
  delivered to it, whether the current session received any and which slot it asked
  for, the resume point given up for the next session, and the subscribe attempts.
   */
  datatype Past = Past(first: Option<nat>, last: nat, received: bool, asked: Option<nat>, tip: Option<nat>, attempts: nat)

  const NO_PAST := Past(None, 0, false, None, None, 0)

  ghost function Then(cfg: Cfg, s: State, past: Past, e: Event): Past {
    match e
    case Start => if s.phase.Down? then NO_PAST else past
    case Accepted =>
      if !s.phase.Connecting? then past
      else past.(received := false, asked := if past.tip.Some? then None else ReadResumeSlot(s.db), tip := None, attempts := past.attempts + 1)
    case Refused(_) =>
      if !s.phase.Connecting? then past
      else past.(tip := if past.tip.None? && cfg.budget.None? then ReadResumeSlot(s.db) else past.tip, attempts := past.attempts + 1)
    case Deliver(k, _, _, _) =>
      if !s.phase.Streaming? || k >= |cfg.chain| then past
      else past.(first := if past.first.None? then Some(cfg.chain[k].slot) else past.first, last := cfg.chain[k].slot, received := true)
    case StreamEnd(_, _) =>
      if !s.phase.Streaming? then past
      else past.(tip := if cfg.budget.None? && !past.received then past.asked else None)
    case _ => past
  }

  /** Nothing of the program is consulted but whether it is down, connecting or streaming, and the durable checkpoint. */
  ghost function PastOf(cfg: Cfg, events: seq<Event>): Past {
    if events == [] then NO_PAST
    else Then(cfg, Run(cfg, events[..|events| - 1]), PastOf(cfg, events[..|events| - 1]), events[|events| - 1])
  }

  /** The program's own variables say the same. */
  ghost predicate Tracks(s: State, past: Past) {
    && s.proc.firstSlot == past.first && s.proc.lastSlot == past.last && s.hist.subscribes == past.attempts
    && (!s.phase.Down? ==> s.proc.forceTip == past.tip.Some? && (past.tip.Some? ==> s.hist.givenUp == past.tip.value))
    && (s.phase.Streaming? ==> s.session.gotData == past.received && s.session.resumeFrom == past.asked)
  }

  lemma DeliverTracks(cfg: Cfg, s: State, past: Past, k: nat, cap: FlushPlan, fin: FlushPlan, gap: Outcome)
    requires Tracks(s, past) && s.phase.Streaming? && k < |cfg.chain|
    ensures Tracks(OnDeliver(cfg, s, k, cap, fin, gap), Then(cfg, s, past, Deliver(k, cap, fin, gap)))
  {
    hide FlushDb, Full, BudgetReached, Push, ReadResumeSlot, Landing;
  }

  lemma StreamEndTracks(cfg: Cfg, s: State, past: Past, p: FlushPlan, gap: Outcome)
    requires Inv(cfg, s) && Tracks(s, past) && s.phase.Streaming?
    ensures Tracks(OnStreamEnd(cfg, s, p, gap), Then(cfg, s, past, StreamEnd(p, gap)))
  {
    hide FlushDb, ReadResumeSlot, Landing, TablesInv, Covered, SegmentStored;
  }

  lemma StepTracks(cfg: Cfg, s: State, past: Past, e: Event)
    requires Inv(cfg, s) && Tracks(s, past)
    ensures Tracks(Step(cfg, s, e), Then(cfg, s, past, e))
  {
    hide FlushDb, OnDeliver, OnStreamEnd, ReadResumeSlot, LateRawLanding, LateDerivedLanding, LateNoteLanding, Landing, TablesInv, Covered, SegmentStored;
    match e
    case Deliver(k, cap, fin, gap) => if s.phase.Streaming? && k < |cfg.chain| { DeliverTracks(cfg, s, past, k, cap, fin, gap); }
    case StreamEnd(p, gap) => if s.phase.Streaming? { StreamEndTracks(cfg, s, past, p, gap); }
    case _ =>
  }

  lemma {:induction false} RunTracks(cfg: Cfg, events: seq<Event>)
    requires SlotOrdered(cfg.chain) && ServedRun(cfg, events)
    ensures Tracks(Run(cfg, events), PastOf(cfg, events))
  {
    hide Step, Inv, Then;
    if events != [] {
      var front := events[..|events| - 1];
      RunTracks(cfg, front);
      RunKeepsInv(cfg, front);
      StepTracks(cfg, Run(cfg, front), PastOf(cfg, front), events[|events| - 1]);
    }
  }

  lemma RunNext(cfg: Cfg, events: seq<Event>, e: Event)
    ensures Run(cfg, events + [e]) == Step(cfg, Run(cfg, events), e)
    ensures PastOf(cfg, events + [e]) == Then(cfg, Run(cfg, events), PastOf(cfg, events), e)
  {
    hide Step, Then;
    assert (events + [e])[..|events|] == events;
  }

  // ------------------------------------------------------------- one flush

  /** Every insert of a flush that has something to send is acknowledged. */
  predicate GoesThrough(b: Buffers, p: FlushPlan) {
    b.raw == [] ||
    (p.raw.Acked? && (b.snap == [] || p.snap.Acked?) && (b.lm == [] || p.lm.Acked?) && (b.reserve == [] || p.reserve.Acked?) && p.checkpoint.Acked?)
  }

  /**
  What one flush sends, in order: the raw rows; obligations if those were
  acknowledged; markets if so far all was; then reserves; then, and only then, one
  checkpoint at the last raw row. It never touches the gap rows.
   */
  ghost predicate Sends(b: Buffers, p: FlushPlan, a: Db, f: Db) {
    var toSnap := p.raw.Acked?;
    var toLm := toSnap && (b.snap == [] || p.snap.Acked?);
    var toReserve := toLm && (b.lm == [] || p.lm.Acked?);
    var toCheckpoint := toReserve && (b.reserve == [] || p.reserve.Acked?);
    && f.raw.issued == a.raw.issued + b.raw
    && f.snap.issued == a.snap.issued + (if toSnap then b.snap else [])
    && f.lm.issued == a.lm.issued + (if toLm then b.lm else [])
    && f.reserve.issued == a.reserve.issued + (if toReserve then b.reserve else [])
    && f.journal == a.journal + (if b.raw != [] && toCheckpoint then [CheckpointNote(Checkpoint(b.raw[|b.raw| - 1].slot, b.raw[|b.raw| - 1].writeVersion))] else [])
    && f.gaps == a.gaps
  }

  /** Rows wait only beside raw rows. */
  predicate RawFirst(b: Buffers) {
    b.raw == [] ==> b == NO_ROWS
  }

  lemma FlushSends(b: Buffers, db: Db, p: FlushPlan)
    requires RawFirst(b)
    ensures Sends(b, p, db, FlushDb(b, db, p).db)
    ensures FlushDb(b, db, p).ok <==> GoesThrough(b, p)
  {
    hide Landing;
  }

  /** In every reachable state, and after one more update. */
  lemma BuffersRawFirst(cfg: Cfg, events: seq<Event>, k: nat)
    requires SlotOrdered(cfg.chain) && ServedRun(cfg, events)
    ensures RawFirst(Run(cfg, events).bufs)
    ensures var s := Run(cfg, events);
      s.phase.Streaming? && k < |cfg.chain| && (s.hist.start.Some? ==> k == s.hist.next) ==>
      var b := Receive(cfg, s, k).bufs; RawFirst(b) && (Full(b) <==> |b.raw| >= BATCH_MAX_ROWS)
  {
    hide Run, Push, DerivedKeys, RawKeys, HighWater;
    BuffersStayPaired(cfg, events, k);
  }

  // -------------------------------------------------------- the session's end

  /**
  The tail of a pass. What is buffered is sent. The process stops if the mode is
  sampling or that flush fails. Unattended, a session that asked for a slot and
  received nothing gives the slot up: one gap row, from it to the last slot
  delivered to the process. No other ending writes a gap row.
   */
  lemma StreamEndExact(cfg: Cfg, events: seq<Event>, p: FlushPlan, gap: Outcome)
    requires SlotOrdered(cfg.chain) && ServedRun(cfg, events) && Run(cfg, events).phase.Streaming?
    ensures var s, t, past := Run(cfg, events), Run(cfg, events + [StreamEnd(p, gap)]), PastOf(cfg, events);
      && t.phase == (if cfg.budget.Some? || !GoesThrough(s.bufs, p) then Down else Connecting)
      && t.db.raw.issued == s.db.raw.issued + s.bufs.raw && t.bufs == NO_ROWS
      && (if cfg.budget.None? && past.asked.Some? && !past.received
          then t.db.journal == s.db.journal + [GapNote(GapRow(past.asked.value, past.last))] && t.phase.Connecting?
          else Sends(s.bufs, p, s.db, t.db) && forall q, g :: !AddsRow(s, t, q, g))
  {
    hide Run, FlushDb, ReadResumeSlot, Landing, TablesInv, Covered, SegmentStored, Sends, GoesThrough, RawFirst, ServedRun;
    var s, past := Run(cfg, events), PastOf(cfg, events);
    RunNext(cfg, events, StreamEnd(p, gap));
    RunKeepsInv(cfg, events);
    RunTracks(cfg, events);
    BuffersRawFirst(cfg, events, 0);
    StreamEndDoes(cfg, s, past, p, gap);
  }

  lemma StreamEndDoes(cfg: Cfg, s: State, past: Past, p: FlushPlan, gap: Outcome)
    requires Inv(cfg, s) && Tracks(s, past) && s.phase.Streaming? && RawFirst(s.bufs)
    ensures var t := OnStreamEnd(cfg, s, p, gap);
      && t.phase == (if cfg.budget.Some? || !GoesThrough(s.bufs, p) then Down else Connecting)
      && t.db.raw.issued == s.db.raw.issued + s.bufs.raw && t.bufs == NO_ROWS
      && (if cfg.budget.None? && past.asked.Some? && !past.received
          then t.db.journal == s.db.journal + [GapNote(GapRow(past.asked.value, past.last))] && t.phase.Connecting?
          else Sends(s.bufs, p, s.db, t.db) && forall q, g :: !AddsRow(s, t, q, g))
  {
    hide FlushDb, ReadResumeSlot, Landing, TablesInv, Covered, SegmentStored;
    FlushSends(s.bufs, s.db, p);
  }

  /** What a subscribe asks for: the durable checkpoint, unless the resume point was given up; then the tip, and the seam is on record. */
  lemma AcceptedExact(cfg: Cfg, events: seq<Event>)
    requires SlotOrdered(cfg.chain) && ServedRun(cfg, events) && Run(cfg, events).phase.Connecting?
    ensures var s, t, past := Run(cfg, events), Run(cfg, events + [Accepted]), PastOf(cfg, events);
      && t.phase.Streaming? && t.db == s.db && !t.proc.forceTip
      && t.session.resumeFrom == (if past.tip.Some? then None else ReadResumeSlot(s.db))
      && t.hist.forced == past.tip.Some?
      && t.hist.base == (if past.tip.Some? then past.tip else ReadResumeSlot(s.db))
  {
    hide Run, ReadResumeSlot, ServedRun;
    RunNext(cfg, events, Accepted);
    RunTracks(cfg, events);
  }

  /** A session that came to nothing makes the next one start at the tip, however long the next subscribe takes. */
  lemma GivenUpMeansTip(cfg: Cfg, events: seq<Event>, p: FlushPlan, gap: Outcome, more: seq<Event>)
    requires SlotOrdered(cfg.chain) && ServedRun(cfg, events + [StreamEnd(p, gap)] + more) && Run(cfg, events).phase.Streaming?
    requires cfg.budget.None? && PastOf(cfg, events).asked.Some? && !PastOf(cfg, events).received
    requires Run(cfg, events + [StreamEnd(p, gap)] + more).phase.Connecting?
    requires forall i :: 0 <= i < |more| ==> !more[i].Start? && !more[i].Accepted?
    ensures var t := Run(cfg, events + [StreamEnd(p, gap)] + more + [Accepted]);
      t.session.resumeFrom == None && t.hist.forced && t.hist.base == PastOf(cfg, events).asked
  {
    hide Run, ServedRun, PastOf, ReadResumeSlot;
    var e1 := events + [StreamEnd(p, gap)];
    RunNext(cfg, events, StreamEnd(p, gap));
    assert e1 + [] == e1;
    ServedPrefix(cfg, e1, e1 + more);
    ServedLast(cfg, events, StreamEnd(p, gap));
    StreamEndExact(cfg, events, p, gap);
    TipStays(cfg, e1, more, PastOf(cfg, events).asked.value);
    AcceptedExact(cfg, e1 + more);
  }

  /** A given-up slot is forgotten only by a new process, a subscribe that is accepted, or a session's end. */
  lemma {:induction false} TipStays(cfg: Cfg, events: seq<Event>, more: seq<Event>, tip: nat)
    requires PastOf(cfg, events).tip == Some(tip) && !Run(cfg, events).phase.Streaming?
    requires forall i :: 0 <= i < |more| ==> !more[i].Start? && !more[i].Accepted?
    ensures PastOf(cfg, events + more).tip == Some(tip) && !Run(cfg, events + more).phase.Streaming?
    decreases |more|
  {
    hide Run, PastOf, Step, ReadResumeSlot;
    if more == [] {
      assert events + more == events;
    } else {
      var front, e := more[..|more| - 1], more[|more| - 1];
      TipStays(cfg, events, front, tip);
      assert events + more == (events + front) + [e];
      RunNext(cfg, events + front, e);
      OnlyAcceptedStreams(cfg, Run(cfg, events + front), e);
    }
  }

  lemma OnlyAcceptedStreams(cfg: Cfg, s: State, e: Event)
    requires !s.phase.Streaming? && !e.Accepted?
    ensures !Step(cfg, s, e).phase.Streaming?
  {
    hide FlushDb, OnDeliver, OnStreamEnd, Judge, ReadResumeSlot, LateRawLanding, LateDerivedLanding, LateNoteLanding, Landing;
  }

  /**
  A refused subscribe. Unattended, with a slot to resume from that was not given up
  already: the slot is given up with a gap row, and the tip comes next. In every
  other case the process stops and nothing is written.
   */
  lemma RefusedExact(cfg: Cfg, events: seq<Event>, gap: Outcome)
    requires SlotOrdered(cfg.chain) && ServedRun(cfg, events) && Run(cfg, events).phase.Connecting?
    ensures var s, t, past := Run(cfg, events), Run(cfg, events + [Refused(gap)]), PastOf(cfg, events);
      var from := if past.tip.Some? then None else ReadResumeSlot(s.db);
      && t.db.raw == s.db.raw && t.db.checkpoints == s.db.checkpoints
      && (if cfg.budget.None? && from.Some?
          then t.phase.Connecting? && t.db.journal == s.db.journal + [GapNote(GapRow(from.value, past.last))] && PastOf(cfg, events + [Refused(gap)]).tip == from
          else t.phase.Down? && t.db == s.db)
  {
    hide Run, ReadResumeSlot, ServedRun, Landing, PastOf;
    RunNext(cfg, events, Refused(gap));
    RunTracks(cfg, events);
  }

  // ------------------------------------------------------------ one update

  /** A sampling process has one session, so what it counts from is that session's first update. */
  ghost predicate SamplesOneSession(cfg: Cfg, s: State) {
    cfg.budget.Some? && s.phase.Streaming? && s.hist.start.Some? ==>
      s.hist.start.value < |cfg.chain| && s.proc.firstSlot == Some(cfg.chain[s.hist.start.value].slot)
  }

  /** A session that received something has been judged, unless the budget stopped it there. */
  ghost predicate JudgedAtOnce(s: State) {
    s.phase.Streaming? && s.hist.start.Some? ==> s.session.judged
  }

  lemma DeliverKeepsOnce(cfg: Cfg, s: State, k: nat, cap: FlushPlan, fin: FlushPlan, gap: Outcome)
    requires SamplesOneSession(cfg, s) && JudgedAtOnce(s) && OneSession(cfg, s) && s.phase.Streaming? && k < |cfg.chain|
    ensures var t := OnDeliver(cfg, s, k, cap, fin, gap); SamplesOneSession(cfg, t) && JudgedAtOnce(t)
  {
    hide FlushDb, Full, BudgetReached, Push, ReadResumeSlot, Landing;
  }

  lemma StepKeepsOnce(cfg: Cfg, s: State, e: Event)
    requires SamplesOneSession(cfg, s) && JudgedAtOnce(s) && OneSession(cfg, s)
    ensures SamplesOneSession(cfg, Step(cfg, s, e)) && JudgedAtOnce(Step(cfg, s, e))
  {
    hide FlushDb, OnDeliver, ReadResumeSlot, LateRawLanding, LateDerivedLanding, LateNoteLanding, Landing;
    match e
    case Deliver(k, cap, fin, gap) => if s.phase.Streaming? && k < |cfg.chain| { DeliverKeepsOnce(cfg, s, k, cap, fin, gap); }
    case _ =>
  }

  lemma {:induction false} RunKeepsOnce(cfg: Cfg, events: seq<Event>)
    ensures SamplesOneSession(cfg, Run(cfg, events)) && JudgedAtOnce(Run(cfg, events))
  {
    hide Step;
    if events != [] {
      var front := events[..|events| - 1];
      RunKeepsOnce(cfg, front);
      RunKeepsControl(cfg, front);
      StepKeepsOnce(cfg, Run(cfg, front), events[|events| - 1]);
    }
  }

  /** Slots between the first and the last update delivered to the process, this one included. */
  ghost function Sampled(past: Past, slot: nat): int {
    slot - (if past.first.Some? then past.first.value else slot)
  }

  /** Whether an update ends the process: its full buffer could not be flushed, or the sample is long enough. */
  ghost predicate Ends(cfg: Cfg, past: Past, b: Buffers, slot: nat, cap: FlushPlan) {
    (|b.raw| >= BATCH_MAX_ROWS && !GoesThrough(b, cap)) || (cfg.budget.Some? && Sampled(past, slot) >= cfg.budget.value)
  }

  /** The row an update makes the program record: only the session's first, only if it asked for a slot more than 600 behind. */
  ghost function RowDue(cfg: Cfg, past: Past, b: Buffers, slot: nat, cap: FlushPlan): Option<GapRow> {
    if !Ends(cfg, past, b, slot, cap) && !past.received && past.asked.Some? && slot > past.asked.value + 600
    then Some(GapRow(past.asked.value, slot)) else None
  }

  /**
  One delivered update. The process ends on it if and only if the full buffer could
  not be flushed or the sampled span reaches the budget; in the second case what
  was still buffered is sent first. A gap row is added if and only if one is due,
  and it is that row.
   */
  lemma DeliverExact(cfg: Cfg, events: seq<Event>, k: nat, cap: FlushPlan, fin: FlushPlan, gap: Outcome)
    requires SlotOrdered(cfg.chain) && ServedRun(cfg, events + [Deliver(k, cap, fin, gap)])
    requires Run(cfg, events).phase.Streaming? && k < |cfg.chain|
    ensures var s, t, past := Run(cfg, events), Run(cfg, events + [Deliver(k, cap, fin, gap)]), PastOf(cfg, events);
      var b := Push(cfg, s.bufs, cfg.chain[k]); var slot := cfg.chain[k].slot;
      && t.phase == (if Ends(cfg, past, b, slot, cap) then Down else Streaming)
      && (if |b.raw| >= BATCH_MAX_ROWS then Sends(b, cap, s.db, t.db) && t.bufs == NO_ROWS
          else if t.phase.Down? then Sends(b, fin, s.db, t.db) && t.bufs == NO_ROWS
          else t.db.raw == s.db.raw && t.bufs == b)
      && (forall q, g :: AddsRow(s, t, q, g) ==> q == |s.db.journal| && RowDue(cfg, past, b, slot, cap) == Some(g))
      && (RowDue(cfg, past, b, slot, cap).Some? ==> t.db.journal == s.db.journal + [GapNote(RowDue(cfg, past, b, slot, cap).value)])
  {
    hide Run, Push, ServedRun, TablesInv, StreamInv, OnDeliver, Then, RowDue, Ends, RawFirst, OneGap;
    var s, past := Run(cfg, events), PastOf(cfg, events);
    ServedLast(cfg, events, Deliver(k, cap, fin, gap));
    RunKeepsInv(cfg, events);
    RunTracks(cfg, events);
    RunKeepsOnce(cfg, events);
    RunKeepsControl(cfg, events);
    BuffersRawFirst(cfg, events, k);
    DeliverDoes(cfg, s, past, k, cap, fin, gap);
  }

  lemma BudgetIsSampled(cfg: Cfg, s: State, past: Past, k: nat)
    requires SlotOrdered(cfg.chain) && StreamInv(cfg, s) && Tracks(s, past) && s.phase.Streaming? && k < |cfg.chain|
    requires SamplesOneSession(cfg, s) && OneSession(cfg, s) && (s.hist.start.Some? ==> k == s.hist.next)
    ensures BudgetReached(cfg, Receive(cfg, s, k).proc) <==> cfg.budget.Some? && Sampled(past, cfg.chain[k].slot) >= cfg.budget.value
  {
    hide Push, Covered, SegmentStored, BuffersOf;
    if cfg.budget.Some? && s.hist.start.Some? {
      assert Opened(cfg, s, s.hist.start.value);
      assert s.hist.start.value < k;
    }
  }

  lemma OneMoreRaw(cfg: Cfg, b: Buffers, u: Update)
    ensures |Push(cfg, b, u).raw| == |b.raw| + 1
  {
  }

  lemma NothingSent(p: FlushPlan, db: Db)
    ensures FlushDb(NO_ROWS, db, p) == Flushed(db, true)
  {
  }

  /** A full buffer is never a session's first update, so the seam has been judged. */
  lemma FullIsJudged(cfg: Cfg, s: State, k: nat)
    requires Inv(cfg, s) && JudgedAtOnce(s) && s.phase.Streaming? && k < |cfg.chain|
    requires |Receive(cfg, s, k).bufs.raw| >= BATCH_MAX_ROWS
    ensures s.hist.start.Some? && s.session.judged
  {
    hide Push, TablesInv, Covered, SegmentStored;
    OneMoreRaw(cfg, s.bufs, cfg.chain[k]);
  }

  lemma JudgedStays(s: State, o: Outcome)
    requires s.session.judged
    ensures Judge(s, o) == s
  {
  }

  lemma DeliverSends(cfg: Cfg, s: State, past: Past, k: nat, cap: FlushPlan, fin: FlushPlan, gap: Outcome)
    requires SlotOrdered(cfg.chain) && Inv(cfg, s) && Tracks(s, past) && s.phase.Streaming? && k < |cfg.chain|
    requires SamplesOneSession(cfg, s) && JudgedAtOnce(s) && OneSession(cfg, s) && (s.hist.start.Some? ==> k == s.hist.next)
    requires var b := Receive(cfg, s, k).bufs; RawFirst(b) && (Full(b) <==> |b.raw| >= BATCH_MAX_ROWS)
    ensures var t := OnDeliver(cfg, s, k, cap, fin, gap);
      var b := Push(cfg, s.bufs, cfg.chain[k]); var slot := cfg.chain[k].slot;
      && t.phase == (if Ends(cfg, past, b, slot, cap) then Down else Streaming)
      && (if |b.raw| >= BATCH_MAX_ROWS then Sends(b, cap, s.db, t.db) && t.bufs == NO_ROWS
          else if t.phase.Down? then Sends(b, fin, s.db, t.db) && t.bufs == NO_ROWS
          else t.db.raw == s.db.raw && t.bufs == b)
  {
    hide FlushDb, BudgetReached, Full, Push, TablesInv, StreamInv, Sends, RawFirst, GoesThrough;
    var r := Receive(cfg, s, k);
    BudgetIsSampled(cfg, s, past, k);
    if |r.bufs.raw| >= BATCH_MAX_ROWS {
      FlushSends(r.bufs, r.db, cap);
      FullIsJudged(cfg, s, k);
      NothingSent(fin, Flush(r, cap).db);
      JudgedStays(Flush(r, cap), gap);
    } else {
      FlushSends(r.bufs, r.db, fin);
      JudgeLeavesRows(r, gap);
    }
  }

  lemma JudgeLeavesRows(s: State, o: Outcome)
    ensures var t := Judge(s, o); t.phase == s.phase && t.bufs == s.bufs && t.db.raw == s.db.raw
  {
  }

  /** The first update of a session: nothing else is buffered, and the verdict falls unless the budget stops the process. */
  lemma FirstRow(cfg: Cfg, s: State, past: Past, k: nat, cap: FlushPlan, fin: FlushPlan, gap: Outcome)
    requires SlotOrdered(cfg.chain) && Inv(cfg, s) && Tracks(s, past) && s.phase.Streaming? && k < |cfg.chain| && s.hist.start.None?
    requires SamplesOneSession(cfg, s) && OneSession(cfg, s)
    requires var b := Receive(cfg, s, k).bufs; RawFirst(b) && (Full(b) <==> |b.raw| >= BATCH_MAX_ROWS)
    ensures var t := OnDeliver(cfg, s, k, cap, fin, gap); var due := RowDue(cfg, past, Push(cfg, s.bufs, cfg.chain[k]), cfg.chain[k].slot, cap);
      && (forall q, g :: AddsRow(s, t, q, g) ==> q == |s.db.journal| && due == Some(g))
      && (due.Some? ==> t.db.journal == s.db.journal + [GapNote(due.value)])
  {
    hide FlushDb, BudgetReached, Full, Push, TablesInv, Covered, SegmentStored, Landing, GoesThrough, RawFirst;
    var r := Receive(cfg, s, k);
    OneMoreRaw(cfg, s.bufs, cfg.chain[k]);
    BudgetIsSampled(cfg, s, past, k);
    FlushSends(r.bufs, r.db, fin);
    forall q, g
      ensures !AddsRow(r, Flush(r, fin), q, g)
    {
      FlushAddsNoRow(r, fin, q, g);
    }
  }

  /** A later update: the seam was judged on the first. */
  lemma LaterRow(cfg: Cfg, s: State, past: Past, k: nat, cap: FlushPlan, fin: FlushPlan, gap: Outcome)
    requires Inv(cfg, s) && Tracks(s, past) && s.phase.Streaming? && k < |cfg.chain| && s.hist.start.Some? && JudgedAtOnce(s)
    ensures var t := OnDeliver(cfg, s, k, cap, fin, gap);
      past.received && forall q, g :: !AddsRow(s, t, q, g)
  {
    hide Flush, BudgetReached, Full, FlushOk, Push, TablesInv, Covered, SegmentStored;
    var r := Receive(cfg, s, k);
    var s2 := if Full(r.bufs) then Flush(r, cap) else r;
    forall q, g
      ensures !AddsRow(s, OnDeliver(cfg, s, k, cap, fin, gap), q, g)
    {
      FlushAddsNoRow(r, cap, q, g);
      FlushAddsNoRow(s2, fin, q, g);
    }
  }

  lemma DeliverDoes(cfg: Cfg, s: State, past: Past, k: nat, cap: FlushPlan, fin: FlushPlan, gap: Outcome)
    requires SlotOrdered(cfg.chain) && Inv(cfg, s) && Tracks(s, past) && s.phase.Streaming? && k < |cfg.chain|
    requires SamplesOneSession(cfg, s) && JudgedAtOnce(s) && OneSession(cfg, s) && (s.hist.start.Some? ==> k == s.hist.next)
    requires var b := Receive(cfg, s, k).bufs; RawFirst(b) && (Full(b) <==> |b.raw| >= BATCH_MAX_ROWS)
    ensures var t := OnDeliver(cfg, s, k, cap, fin, gap);
      var b := Push(cfg, s.bufs, cfg.chain[k]); var slot := cfg.chain[k].slot;
      && t.phase == (if Ends(cfg, past, b, slot, cap) then Down else Streaming)
      && (if |b.raw| >= BATCH_MAX_ROWS then Sends(b, cap, s.db, t.db) && t.bufs == NO_ROWS
          else if t.phase.Down? then Sends(b, fin, s.db, t.db) && t.bufs == NO_ROWS
          else t.db.raw == s.db.raw && t.bufs == b)
      && (forall q, g :: AddsRow(s, t, q, g) ==> q == |s.db.journal| && RowDue(cfg, past, b, slot, cap) == Some(g))
      && (RowDue(cfg, past, b, slot, cap).Some? ==> t.db.journal == s.db.journal + [GapNote(RowDue(cfg, past, b, slot, cap).value)])
  {
    hide OnDeliver, Push, TablesInv, StreamInv, RowDue, Ends, AddsRow, RawFirst, Full;
    DeliverSends(cfg, s, past, k, cap, fin, gap);
    if s.hist.start.None? {
      FirstRow(cfg, s, past, k, cap, fin, gap);
    } else {
      LaterRow(cfg, s, past, k, cap, fin, gap);
      NoRowDue(cfg, past, Push(cfg, s.bufs, cfg.chain[k]), cfg.chain[k].slot, cap);
    }
  }

  lemma NoRowDue(cfg: Cfg, past: Past, b: Buffers, slot: nat, cap: FlushPlan)
    requires past.received
    ensures RowDue(cfg, past, b, slot, cap) == None
  {
  }

  // ------------------------------------------------------ everything else

  /** A signal: what is buffered is sent, no gap row is written, and the process is gone. */
  lemma SignalExact(cfg: Cfg, events: seq<Event>, p: FlushPlan)
    requires SlotOrdered(cfg.chain) && ServedRun(cfg, events) && Run(cfg, events).phase.Streaming?
    ensures var s, t := Run(cfg, events), Run(cfg, events + [Signal(p)]);
      t.phase.Down? && Sends(s.bufs, p, s.db, t.db) && t.bufs == NO_ROWS
  {
    hide Run, FlushDb, RawFirst, Sends, ServedRun, GoesThrough;
    RunNext(cfg, events, Signal(p));
    BuffersRawFirst(cfg, events, 0);
    FlushSends(Run(cfg, events).bufs, Run(cfg, events).db, p);
  }

  /** A tick: what is buffered is sent, and the process ends if and only if that fails. */
  lemma FlushTickExact(cfg: Cfg, events: seq<Event>, p: FlushPlan)
    requires SlotOrdered(cfg.chain) && ServedRun(cfg, events) && Run(cfg, events).phase.Streaming?
    ensures var s, t := Run(cfg, events), Run(cfg, events + [FlushTick(p)]);
      t.phase == (if GoesThrough(s.bufs, p) then Streaming else Down) && Sends(s.bufs, p, s.db, t.db) && t.bufs == NO_ROWS
  {
    hide Run, FlushDb, RawFirst, Sends, ServedRun, GoesThrough;
    RunNext(cfg, events, FlushTick(p));
    BuffersRawFirst(cfg, events, 0);
    FlushSends(Run(cfg, events).bufs, Run(cfg, events).db, p);
  }

  /** A message that is no account update changes nothing the program keeps. */
  lemma OtherMessageExact(cfg: Cfg, events: seq<Event>, gap: Outcome)
    requires SlotOrdered(cfg.chain) && ServedRun(cfg, events)
    ensures Run(cfg, events + [OtherMessage(gap)]) == Run(cfg, events)
  {
    hide Run, TablesInv, ServedRun, Covered, SegmentStored;
    RunNext(cfg, events, OtherMessage(gap));
    RunKeepsInv(cfg, events);
    RunKeepsOnce(cfg, events);
    var s := Run(cfg, events);
    if s.phase.Streaming? && s.hist.start.Some? { JudgedStays(s, gap); }
  }

  /** A process that dies, or cannot connect, writes nothing; what it had buffered is gone. A new one starts by connecting. */
  lemma DeathAndStart(cfg: Cfg, events: seq<Event>)
    ensures var s, t := Run(cfg, events), Run(cfg, events + [Kill]); t.phase.Down? && t.db == s.db && t.bufs == NO_ROWS
    ensures var s, t := Run(cfg, events), Run(cfg, events + [ConnectFailed]);
      t.db == s.db && t.phase == if s.phase.Connecting? then Down else s.phase
    ensures var s, t := Run(cfg, events), Run(cfg, events + [Start]);
      t.db == s.db && t.phase == if s.phase.Down? then Connecting else s.phase
  {
    hide Run;
    RunNext(cfg, events, Kill);
    RunNext(cfg, events, ConnectFailed);
    RunNext(cfg, events, Start);
  }

  // -------------------------------------------------------------- counting

  function GapCount(journal: seq<Note>): nat {
    if journal == [] then 0
    else GapCount(journal[..|journal| - 1]) + (if journal[|journal| - 1].GapNote? then 1 else 0)
  }

  lemma CountNote(journal: seq<Note>, note: Note)
    ensures GapCount(journal + [note]) == GapCount(journal) + (if note.GapNote? then 1 else 0)
  {
    assert (journal + [note])[..|journal|] == journal;
  }

  /** Gap rows issued in the current pass of the reconnect loop: since the subscribe that opened it, that one included. */
  ghost function PassRows(cfg: Cfg, events: seq<Event>): int {
    if events == [] then 0
    else
      var front, e := events[..|events| - 1], events[|events| - 1];
      var s, t := Run(cfg, front), Run(cfg, events);
      var added := GapCount(t.db.journal) - GapCount(s.db.journal);
      if s.phase.Connecting? && (e.Accepted? || e.Refused?) then added else PassRows(cfg, front) + added
  }

  /** Rows the program counts against the pass are rows in the journal. */
  ghost predicate Counts(s: State, t: State, anew: bool) {
    t.hist.passGaps == (if anew then 0 else s.hist.passGaps) + GapCount(t.db.journal) - GapCount(s.db.journal)
  }

  lemma FlushCounts(s: State, p: FlushPlan)
    ensures Counts(s, Flush(s, p), false)
  {
    hide FlushDb, IsEmpty, HighWater, GapCount;
    FlushJournal(s.bufs, s.db, p);
    if !IsEmpty(s.bufs) { CountNote(s.db.journal, CheckpointNote(HighWater(s.bufs))); }
  }

  lemma AddGapCounts(s: State, start: nat, end: nat, o: Outcome)
    ensures Counts(s, AddGap(s, start, end, o), false)
  {
    hide GapCount, Landing;
    CountNote(s.db.journal, GapNote(GapRow(start, end)));
  }

  lemma JudgeCounts(s: State, o: Outcome)
    ensures Counts(s, Judge(s, o), false)
  {
    hide GapCount, AddGap;
    if !s.session.judged && s.session.firstSlot.Some? {
      var v := ClassifyResume(s.session.resumeFrom, s.session.firstSlot.value);
      if v.Gap? { AddGapCounts(s.(session := s.session.(judged := true)), v.startSlot, v.endSlot, o); }
    }
  }

  lemma DeliverCounts(cfg: Cfg, s: State, k: nat, cap: FlushPlan, fin: FlushPlan, gap: Outcome)
    requires k < |cfg.chain|
    ensures Counts(s, OnDeliver(cfg, s, k, cap, fin, gap), false)
  {
    hide GapCount, Flush, Judge, Full, FlushOk, BudgetReached, Push;
    var r := Receive(cfg, s, k);
    FlushCounts(r, cap);
    var s2 := if Full(r.bufs) then Flush(r, cap) else r;
    FlushCounts(s2, fin);
    JudgeCounts(s2, gap);
  }

  lemma StepCounts(cfg: Cfg, s: State, e: Event)
    ensures Counts(s, Step(cfg, s, e), s.phase.Connecting? && (e.Accepted? || e.Refused?))
  {
    hide GapCount, Flush, FlushOk, OnDeliver, Judge, AddGap, ReadResumeSlot, LateRawLanding, LateDerivedLanding, LateNoteLanding;
    match e
    case Refused(gap) => if ResumeFrom(s).Some? { AddGapCounts(Attempt(s), ResumeFrom(s).value, s.proc.lastSlot, gap); }
    case Deliver(k, cap, fin, gap) => if k < |cfg.chain| { DeliverCounts(cfg, s, k, cap, fin, gap); }
    case OtherMessage(gap) => JudgeCounts(s, gap);
    case FlushTick(p) => FlushCounts(s, p);
    case Signal(p) => FlushCounts(s, p);
    case StreamEnd(p, gap) =>
      FlushCounts(s, p);
      if s.session.resumeFrom.Some? { AddGapCounts(Flush(s, p), s.session.resumeFrom.value, Flush(s, p).proc.lastSlot, gap); }
    case LateRaw(i, at) => LateKeepsJournal(s, Obligations, i, at);
    case LateDerived(t, i, at) => LateKeepsJournal(s, t, i, at);
    case LateNote(i, at) => LateKeepsJournal(s, Obligations, i, at);
    case _ =>
  }

  lemma {:induction false} RunCounts(cfg: Cfg, events: seq<Event>)
    ensures Run(cfg, events).hist.passGaps == PassRows(cfg, events)
  {
    hide Step, GapCount;
    if events == [] {
    } else {
      var front := events[..|events| - 1];
      RunCounts(cfg, front);
      StepCounts(cfg, Run(cfg, front), events[|events| - 1]);
    }
  }

  /** A sampling process subscribes at most once; a pass of the reconnect loop issues at most one gap row. */
  lemma OneAttemptOneRow(cfg: Cfg, events: seq<Event>)
    requires SlotOrdered(cfg.chain) && ServedRun(cfg, events)
    ensures cfg.budget.Some? ==> PastOf(cfg, events).attempts <= 1
    ensures PassRows(cfg, events) <= 1
  {
    hide Run, PassRows, PastOf, ServedRun;
    RunTracks(cfg, events);
    RunCounts(cfg, events);
    RunKeepsControl(cfg, events);
  }
}
