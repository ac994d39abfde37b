/**
The indexer as the program is written (src/main.rs): the buffered writer, and the
reconnect and stream loops. Every method is proved against the state machine of
`Protocol`, so what is proved of its runs holds of this code.
 */
module Indexer {
  import opened Wrappers
  import opened MergeTree
  import opened Schema
  import opened Resume
  import opened Protocol

  /** The ClickHouse client. Each insert is told its outcome. */
  class Store {
    var db: Db

    constructor ()
      ensures db == EMPTY_DB
    {
      db := EMPTY_DB;
    }

    method InsertUpdates(rows: seq<RawRow>, o: Outcome) returns (ok: bool)
      modifies this
      ensures db == old(db).(raw := Insert(old(db).raw, rows, o)) && ok == o.Acked?
    {
      db := db.(raw := Insert(db.raw, rows, o));
      ok := o.Acked?;
    }

    method InsertSnapshots(rows: seq<DerivedRow>, o: Outcome) returns (ok: bool)
      modifies this
      ensures db == old(db).(snap := Insert(old(db).snap, rows, o)) && ok == o.Acked?
    {
      db := db.(snap := Insert(db.snap, rows, o));
      ok := o.Acked?;
    }

    method InsertMarkets(rows: seq<DerivedRow>, o: Outcome) returns (ok: bool)
      modifies this
      ensures db == old(db).(lm := Insert(old(db).lm, rows, o)) && ok == o.Acked?
    {
      db := db.(lm := Insert(db.lm, rows, o));
      ok := o.Acked?;
    }

    method InsertReserves(rows: seq<DerivedRow>, o: Outcome) returns (ok: bool)
      modifies this
      ensures db == old(db).(reserve := Insert(old(db).reserve, rows, o)) && ok == o.Acked?
    {
      db := db.(reserve := Insert(db.reserve, rows, o));
      ok := o.Acked?;
    }

    method InsertCheckpoint(c: Checkpoint, o: Outcome) returns (ok: bool)
      modifies this
      ensures db == WriteCheckpoint(old(db), c, o) && ok == o.Acked?
    {
      db := WriteCheckpoint(db, c, o);
      ok := o.Acked?;
    }

    method InsertGap(g: GapRow, o: Outcome) returns (ok: bool)
      modifies this
      ensures db == Protocol.RecordGap(old(db), g, o) && ok == o.Acked?
    {
      db := Protocol.RecordGap(db, g, o);
      ok := o.Acked?;
    }

    method Replace(next: Db)
      modifies this
      ensures db == next
    {
      db := next;
    }
  }

  /** Four buffers, committed together. */
  class Writer {
    const client: Store
    var buf: seq<RawRow>
    var snapBuf: seq<DerivedRow>
    var reserveBuf: seq<DerivedRow>
    var lmBuf: seq<DerivedRow>

    constructor (client: Store)
      ensures this.client == client && Held() == NO_ROWS
    {
      this.client := client;
      buf, snapBuf, reserveBuf, lmBuf := [], [], [], [];
    }

    function Held(): Buffers
      reads this
    {
      Buffers(buf, snapBuf, reserveBuf, lmBuf)
    }

    /** Buffer one update: its decoded row, if its kind has a decoder that accepts it, then its raw row. */
    method PushUpdate(cfg: Cfg, u: Update)
      modifies this
      ensures Held() == Push(cfg, old(Held()), u)
    {
      var kind := Classify(cfg.discs, u.data);
      if kind == Known("Obligation") {
        var decoded := cfg.decode(Obligations, u.data);
        if decoded.Some? {
          snapBuf := snapBuf + [DerivedRow(u.slot, u.writeVersion, u.pubkey, decoded.value)];
        }
      }
      if kind == Known("Reserve") {
        var decoded := cfg.decode(Reserves, u.data);
        if decoded.Some? {
          reserveBuf := reserveBuf + [DerivedRow(u.slot, u.writeVersion, u.pubkey, decoded.value)];
        }
      }
      if kind == Known("LendingMarket") {
        var decoded := cfg.decode(Markets, u.data);
        if decoded.Some? {
          lmBuf := lmBuf + [DerivedRow(u.slot, u.writeVersion, u.pubkey, decoded.value)];
        }
      }
      buf := buf + [RawRow(u.slot, u.writeVersion, u.pubkey, Label(kind), u.owner, u.lamports, u.data)];
    }

    /** Fire and forget: the caller logs a failure and goes on. */
    method RecordGap(startSlot: nat, endSlot: nat, o: Outcome) returns (ok: bool)
      modifies client
      ensures client.db == Protocol.RecordGap(old(client.db), GapRow(startSlot, endSlot), o) && ok == o.Acked?
    {
      ok := client.InsertGap(GapRow(startSlot, endSlot), o);
    }

    /** Data first, checkpoint last; the first failed insert ends the flush. */
    method Flush(p: FlushPlan) returns (ok: bool)
      modifies this, client
      ensures Held() == NO_ROWS
      ensures client.db == FlushDb(old(Held()), old(client.db), p).db
      ensures ok == FlushDb(old(Held()), old(client.db), p).ok
    {
      if buf == [] && snapBuf == [] && reserveBuf == [] && lmBuf == [] {
        return true;
      }
      var mark: Checkpoint;
      if buf != [] {
        mark := Checkpoint(buf[|buf| - 1].slot, buf[|buf| - 1].writeVersion);
      } else if snapBuf != [] {
        mark := Checkpoint(snapBuf[|snapBuf| - 1].slot, snapBuf[|snapBuf| - 1].writeVersion);
      } else if reserveBuf != [] {
        mark := Checkpoint(reserveBuf[|reserveBuf| - 1].slot, reserveBuf[|reserveBuf| - 1].writeVersion);
      } else {
        mark := Checkpoint(lmBuf[|lmBuf| - 1].slot, lmBuf[|lmBuf| - 1].writeVersion);
      }
      var rows, snapRows, reserveRows, lmRows := buf, snapBuf, reserveBuf, lmBuf;
      buf, snapBuf, reserveBuf, lmBuf := [], [], [], [];

      ok := client.InsertUpdates(rows, p.raw);
      if !ok { return; }
      if snapRows != [] {
        ok := client.InsertSnapshots(snapRows, p.snap);
        if !ok { return; }
      }
      if lmRows != [] {
        ok := client.InsertMarkets(lmRows, p.lm);
        if !ok { return; }
      }
      if reserveRows != [] {
        ok := client.InsertReserves(reserveRows, p.reserve);
        if !ok { return; }
      }
      ok := client.InsertCheckpoint(mark, p.checkpoint);
    }
  }

  /** One process: the locals of `main`, and those of one pass of its reconnect loop. */
  class Process {
    const cfg: Cfg
    const writer: Writer
    var forceTip: bool
    var firstSlot: Option<nat>
    var lastSlot: nat
    var resumeFrom: Option<nat>
    var gotData: bool
    var sessionFirstSlot: Option<nat>
    var resumeJudged: bool

    constructor (cfg: Cfg, writer: Writer)
      ensures this.cfg == cfg && this.writer == writer
      ensures Locals() == FRESH && Pass() == NO_SESSION
    {
      this.cfg := cfg;
      this.writer := writer;
      forceTip, firstSlot, lastSlot := false, None, 0;
      resumeFrom, gotData, sessionFirstSlot, resumeJudged := None, false, None, false;
    }

    function Locals(): Proc
      reads this
    {
      Proc(forceTip, firstSlot, lastSlot)
    }

    function Pass(): Session
      reads this
    {
      Session(resumeFrom, gotData, sessionFirstSlot, resumeJudged)
    }

    /** The process is in state `s` of the machine, its bookkeeping aside. */
    ghost predicate Shows(s: State)
      reads this, writer, writer.client
    {
      && writer.client.db == s.db
      && writer.Held() == s.bufs
      && Locals() == s.proc
      && (s.phase.Streaming? ==> Pass() == s.session)
    }

    /** The process runs on in state `s`, or has exited and left the tables of `s`. */
    ghost predicate Went(running: bool, s: State)
      reads this, writer, writer.client
    {
      if running then Shows(s) && !s.phase.Down? else s.phase.Down? && s.bufs == NO_ROWS && writer.client.db == s.db
    }

    function Span(): nat
      reads this
    {
      var first := if firstSlot.Some? then firstSlot.value else lastSlot;
      if lastSlot > first then lastSlot - first else 0
    }

    /** The head of a pass: the durable seam, unless a forced tip restart overrides it. */
    method ResumePoint() returns (from: Option<nat>)
      ensures from == if forceTip then None else ReadResumeSlot(writer.client.db)
    {
      if forceTip {
        from := None;
      } else {
        from := ReadResumeSlot(writer.client.db);
      }
    }

    method Subscribed(ghost s: State)
      requires Shows(s) && s.phase.Connecting?
      modifies this
      ensures Shows(Open(s))
    {
      var from := ResumePoint();
      forceTip := false;
      resumeFrom, gotData, sessionFirstSlot, resumeJudged := from, false, None, false;
    }

    method SubscribeRefused(gap: Outcome, ghost s: State) returns (running: bool)
      requires Shows(s) && s.phase.Connecting?
      modifies this, writer, writer.client
      ensures Went(running, Refuse(cfg, s, gap))
    {
      var from := ResumePoint();
      forceTip := false;
      if from.Some? && cfg.budget.None? {
        var _ := writer.RecordGap(from.value, lastSlot, gap);
        forceTip := true;
        running := true;
      } else {
        running := false;
      }
    }

    /** Startup gap detection, once a session. */
    method JudgeSeam(gap: Outcome, ghost s: State)
      requires Shows(s) && s.phase.Streaming?
      modifies this, writer.client
      ensures Shows(Judge(s, gap))
    {
      if !resumeJudged && sessionFirstSlot.Some? {
        resumeJudged := true;
        match ClassifyResume(resumeFrom, sessionFirstSlot.value) {
          case NotApplicable =>
          case Clean(_) =>
          case Gap(startSlot, endSlot, _) =>
            var _ := writer.RecordGap(startSlot, endSlot, gap);
        }
      }
    }

    /** Counters and buffers for one account update. */
    method Count(k: nat, ghost s: State)
      requires Shows(s) && s.phase.Streaming? && k < |cfg.chain|
      modifies this, writer
      ensures Shows(Receive(cfg, s, k))
    {
      var u := cfg.chain[k];
      gotData := true;
      if sessionFirstSlot.None? {
        sessionFirstSlot := Some(u.slot);
      }
      if firstSlot.None? {
        firstSlot := Some(u.slot);
      }
      lastSlot := u.slot;
      writer.PushUpdate(cfg, u);
    }

    /** One account update, from the counters to the verdict on the seam. */
    method OnAccount(k: nat, cap: FlushPlan, fin: FlushPlan, gap: Outcome, ghost s: State) returns (running: bool)
      requires Shows(s) && s.phase.Streaming? && k < |cfg.chain|
      modifies this, writer, writer.client
      ensures Went(running, OnDeliver(cfg, s, k, cap, fin, gap))
    {
      Count(k, s);
      running := AfterReceive(cap, fin, gap, Receive(cfg, s, k));
    }

    method FlushWhenFull(cap: FlushPlan, ghost s: State) returns (ok: bool)
      requires Shows(s) && s.phase.Streaming?
      modifies writer, writer.client
      ensures ok == (!Full(s.bufs) || FlushOk(s, cap))
      ensures Shows(if Full(s.bufs) then Protocol.Flush(s, cap) else s)
    {
      ok := true;
      if |writer.buf| >= BATCH_MAX_ROWS || |writer.snapBuf| >= BATCH_MAX_ROWS || |writer.reserveBuf| >= BATCH_MAX_ROWS || |writer.lmBuf| >= BATCH_MAX_ROWS {
        ok := writer.Flush(cap);
      }
    }

    method StopOrJudge(fin: FlushPlan, gap: Outcome, ghost s: State) returns (running: bool)
      requires Shows(s) && s.phase.Streaming?
      modifies this, writer, writer.client
      ensures Went(running, if BudgetReached(cfg, s.proc) then Exit(Protocol.Flush(s, fin)) else Judge(s, gap))
    {
      if cfg.budget.Some? && Span() >= cfg.budget.value {
        var _ := writer.Flush(fin);
        return false;
      }
      JudgeSeam(gap, s);
      running := true;
    }

    /** The rest of the handler: flush a full buffer, stop on the budget, judge the seam. */
    method AfterReceive(cap: FlushPlan, fin: FlushPlan, gap: Outcome, ghost s: State) returns (running: bool)
      requires Shows(s) && s.phase.Streaming?
      modifies this, writer, writer.client
      ensures Went(running, AfterReceipt(cfg, s, cap, fin, gap))
    {
      var ok := FlushWhenFull(cap, s);
      if !ok { return false; }
      running := StopOrJudge(fin, gap, if Full(s.bufs) then Protocol.Flush(s, cap) else s);
    }

    /** After the stream loop: final flush, then stop, give the resume point up, or reconnect. */
    method AfterStream(p: FlushPlan, gap: Outcome, ghost s: State) returns (running: bool)
      requires Shows(s) && s.phase.Streaming? && !s.proc.forceTip
      modifies this, writer, writer.client
      ensures Went(running, OnStreamEnd(cfg, s, p, gap))
    {
      var ok := writer.Flush(p);
      if !ok || cfg.budget.Some? {
        return false;
      }
      if !gotData && resumeFrom.Some? {
        var _ := writer.RecordGap(resumeFrom.value, lastSlot, gap);
        forceTip := true;
      }
      running := true;
    }

    /** The environment: an insert given up on lands after all. */
    method LandLate(e: Event, ghost s: State)
      requires Shows(s) && (e.LateRaw? || e.LateDerived? || e.LateNote?)
      modifies writer.client
      ensures Shows(Step(cfg, s, e)) && Step(cfg, s, e).phase == s.phase
    {
      var db := writer.client.db;
      match e {
        case LateRaw(i, at) => writer.client.Replace(LateRawLanding(db, i, at));
        case LateDerived(t, i, at) => writer.client.Replace(LateDerivedLanding(db, t, i, at));
        case LateNote(i, at) => writer.client.Replace(LateNoteLanding(db, i, at));
      }
    }

    /**
    The reconnect loop around the stream loop. The script is what the environment
    does, one event at a time; it runs out where the process is cut off. Events
    that cannot happen where the program is are passed over, as the machine does.
     */
    method Run(script: seq<Event>, ghost before: seq<Event>) returns (used: nat, running: bool)
      requires Shows(Protocol.Run(cfg, before)) && Protocol.Run(cfg, before).phase.Connecting?
      modifies this, writer, writer.client
      ensures used <= |script| && (running ==> used == |script|)
      ensures Went(running, Protocol.Run(cfg, before + script[..used]))
    {
      used, running := 0, true;
      ghost var s := Protocol.Run(cfg, before);
      assert before + script[..0] == before;
      while running && used < |script|
        invariant used <= |script|
        invariant s == Protocol.Run(cfg, before + script[..used]) && Went(running, s)
        invariant !running || s.phase.Connecting? || used == |script|
      {
        var e := script[used];
        used := used + 1;
        NextStep(cfg, before, script, used);
        match e {
          case Kill => running := false;
          case ConnectFailed => running := false;
          case Refused(gap) => running := SubscribeRefused(gap, s);
          case Accepted =>
            Subscribed(s);
            s := Step(cfg, s, e);
            used, running := Stream(script, used, before, s);
            s := Protocol.Run(cfg, before + script[..used]);
            continue;
          case LateRaw(_, _) => LandLate(e, s);
          case LateDerived(_, _, _) => LandLate(e, s);
          case LateNote(_, _) => LandLate(e, s);
          case _ =>
        }
        s := Step(cfg, s, e);
      }
    }

    /** One turn of the stream loop. `open` is false when the loop is left. */
    method OnStreamEvent(e: Event, ghost s: State) returns (open: bool, running: bool)
      requires Shows(s) && s.phase.Streaming? && !s.proc.forceTip
      modifies this, writer, writer.client
      ensures Went(running, Step(cfg, s, e))
      ensures open ==> running && Step(cfg, s, e).phase.Streaming? && !Step(cfg, s, e).proc.forceTip
      ensures running && !open ==> Step(cfg, s, e).phase.Connecting?
    {
      open, running := true, true;
      match e {
        case Deliver(k, cap, fin, gap) =>
          if k < |cfg.chain| {
            running := OnAccount(k, cap, fin, gap, s);
            open := running;
            DeliverStaysOpen(cfg, s, k, cap, fin, gap);
          }
        case OtherMessage(gap) => JudgeSeam(gap, s);
        case FlushTick(p) =>
          running := writer.Flush(p);
          open := running;
        case Signal(p) =>
          var _ := writer.Flush(p);
          open, running := false, false;
        case StreamEnd(p, gap) =>
          running := AfterStream(p, gap, s);
          open := false;
        case Kill => open, running := false, false;
        case LateRaw(_, _) => LandLate(e, s);
        case LateDerived(_, _, _) => LandLate(e, s);
        case LateNote(_, _) => LandLate(e, s);
        case _ =>
      }
    }

    /** One session: the stream loop, and what follows it. */
    method Stream(script: seq<Event>, from: nat, ghost before: seq<Event>, ghost atOpen: State) returns (used: nat, running: bool)
      requires from <= |script| && atOpen == Protocol.Run(cfg, before + script[..from])
      requires Shows(atOpen) && atOpen.phase.Streaming? && !atOpen.proc.forceTip
      modifies this, writer, writer.client
      ensures from <= used <= |script|
      ensures Went(running, Protocol.Run(cfg, before + script[..used]))
      ensures running ==> used == |script| || Protocol.Run(cfg, before + script[..used]).phase.Connecting?
    {
      used, running := from, true;
      ghost var s := atOpen;
      var open := true;
      while open && used < |script|
        invariant from <= used <= |script|
        invariant s == Protocol.Run(cfg, before + script[..used]) && Went(running, s)
        invariant if open then running && s.phase.Streaming? && !s.proc.forceTip else running ==> s.phase.Connecting?
      {
        open, running := OnStreamEvent(script[used], s);
        used := used + 1;
        NextStep(cfg, before, script, used);
        s := Step(cfg, s, script[used - 1]);
      }
    }
  }

  lemma NextStep(cfg: Cfg, before: seq<Event>, script: seq<Event>, used: nat)
    requires 0 < used <= |script|
    ensures Protocol.Run(cfg, before + script[..used]) == Step(cfg, Protocol.Run(cfg, before + script[..used - 1]), script[used - 1])
  {
    assert (before + script[..used])[..|before| + used - 1] == before + script[..used - 1];
  }

  /** A delivery that does not end the process leaves the session open. */
  lemma DeliverStaysOpen(cfg: Cfg, s: State, k: nat, cap: FlushPlan, fin: FlushPlan, gap: Outcome)
    requires s.phase.Streaming? && !s.proc.forceTip && k < |cfg.chain|
    ensures var t := OnDeliver(cfg, s, k, cap, fin, gap); t.phase.Down? || (t.phase.Streaming? && !t.proc.forceTip)
  {
  }

  /** One life of the process, and how much of its script it used. */
  datatype Life = Life(script: seq<Event>, used: nat)

  /** The supervisor's history: each life starts, runs as far as it got, and is killed if it has not exited. */
  function History(lives: seq<Life>): seq<Event> {
    if lives == [] then [] else NextLife(History(lives[..|lives| - 1]), lives[|lives| - 1]) + [Kill]
  }

  function NextLife(past: seq<Event>, life: Life): seq<Event> {
    past + [Start] + (if life.used <= |life.script| then life.script[..life.used] else life.script)
  }

  /** Every life ran to the end of its script unless the process exited on its own. */
  ghost predicate RanOut(cfg: Cfg, lives: seq<Life>) {
    lives == [] ||
    var front, last := lives[..|lives| - 1], lives[|lives| - 1];
    && RanOut(cfg, front)
    && last.used <= |last.script|
    && (last.used < |last.script| ==> Protocol.Run(cfg, NextLife(History(front), last)).phase.Down?)
  }

  lemma RunOne(cfg: Cfg, events: seq<Event>, e: Event)
    ensures Protocol.Run(cfg, events + [e]) == Step(cfg, Protocol.Run(cfg, events), e)
  {
    assert (events + [e])[..|events|] == events;
  }

  lemma OneMoreLife(cfg: Cfg, lives: seq<Life>, life: Life)
    requires RanOut(cfg, lives) && life.used <= |life.script|
    requires life.used < |life.script| ==> Protocol.Run(cfg, NextLife(History(lives), life)).phase.Down?
    ensures RanOut(cfg, lives + [life])
    ensures History(lives + [life]) == NextLife(History(lives), life) + [Kill]
  {
    assert (lives + [life])[..|lives|] == lives;
  }

  method LiveOnce(cfg: Cfg, store: Store, script: seq<Event>, ghost past: seq<Event>) returns (life: Life)
    requires store.db == Protocol.Run(cfg, past).db && Protocol.Run(cfg, past).phase.Down?
    modifies store
    ensures life.script == script && life.used <= |script|
    ensures life.used < |script| ==> Protocol.Run(cfg, NextLife(past, life)).phase.Down?
    ensures store.db == Protocol.Run(cfg, NextLife(past, life) + [Kill]).db
    ensures Protocol.Run(cfg, NextLife(past, life) + [Kill]).phase.Down?
  {
    var writer := new Writer(store);
    var process := new Process(cfg, writer);
    RunOne(cfg, past, Start);
    var used, running := process.Run(script, past + [Start]);
    life := Life(script, used);
    RunOne(cfg, NextLife(past, life), Kill);
  }

  /**
  `--restart always`: one process after another over the same tables. What they
  leave is what the machine leaves.
   */
  method Supervise(cfg: Cfg, scripts: seq<seq<Event>>) returns (store: Store, lives: seq<Life>)
    ensures |lives| == |scripts| && forall i :: 0 <= i < |lives| ==> lives[i].script == scripts[i]
    ensures RanOut(cfg, lives)
    ensures store.db == Protocol.Run(cfg, History(lives)).db
  {
    store := new Store();
    lives := [];
    for i := 0 to |scripts|
      invariant |lives| == i && forall j :: 0 <= j < i ==> lives[j].script == scripts[j]
      invariant fresh(store) && RanOut(cfg, lives)
      invariant store.db == Protocol.Run(cfg, History(lives)).db && Protocol.Run(cfg, History(lives)).phase.Down?
    {
      var life := LiveOnce(cfg, store, scripts[i], History(lives));
      OneMoreLife(cfg, lives, life);
      lives := lives + [life];
    }
  }
}
