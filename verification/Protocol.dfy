/**
The ingest protocol as a state machine (src/main.rs): buffers, the ordered
flush, the reconnect loop, restarts, and the tables on the other side.

One step is one event the program reacts to: a subscribe attempt, a delivered
update, a timer tick, a signal, a stream end, or the death of the process. Each
event carries the outcome of every insert the program issues while handling it,
so a run of events fixes the whole run. An insert that fails, times out or is cut
off by a crash may land in part, at once or later.
 */
module Protocol {
  import opened Wrappers
  import opened MergeTree
  import opened Schema
  import opened Resume

  const BATCH_MAX_ROWS: nat := 4096

  // ------------------------------------------------------------------- rows

  /** One account update of the subscribed program, in chain order. */
  datatype Update = Update(slot: nat, writeVersion: nat, pubkey: seq<Byte>, owner: seq<Byte>, lamports: nat, data: seq<Byte>)

  datatype RawRow = RawRow(slot: nat, writeVersion: nat, pubkey: seq<Byte>, kind: string, owner: seq<Byte>, lamports: nat, data: seq<Byte>)

  /** The fields a decoder extracts; their layout is not modelled. */
  type Decoded = seq<nat>

  datatype DerivedRow = DerivedRow(slot: nat, writeVersion: nat, pubkey: seq<Byte>, fields: Decoded)

  datatype Checkpoint = Checkpoint(slot: nat, writeVersion: nat)

  datatype GapRow = GapRow(startSlot: nat, endSlot: nat)

  datatype Table = Obligations | Reserves | Markets

  /** `ORDER BY (pubkey, slot, write_version)`. */
  datatype Key = Key(pubkey: seq<Byte>, slot: nat, writeVersion: nat)

  function RawKey(r: RawRow): Key { Key(r.pubkey, r.slot, r.writeVersion) }
  function DerivedKey(r: DerivedRow): Key { Key(r.pubkey, r.slot, r.writeVersion) }
  function GapKey(g: GapRow): nat { g.startSlot }
  function UpdateKey(u: Update): Key { Key(u.pubkey, u.slot, u.writeVersion) }

  // ------------------------------------------------------------ environment

  /**
  What a run does not choose: the chain of updates, how accounts decode, and the
  sampling budget (`None` is unattended mode).
   */
  datatype Cfg = Cfg(chain: seq<Update>, discs: Discriminators, decode: (Table, seq<Byte>) -> Option<Decoded>, budget: Option<nat>)

  /** Updates arrive in slot order. */
  ghost predicate SlotOrdered(chain: seq<Update>) {
    forall i, j :: 0 <= i <= j < |chain| ==> chain[i].slot <= chain[j].slot
  }

  /** The derived table a kind of account decodes into. */
  function TableOf(kind: AccountKind): Option<Table> {
    if kind == Known("Obligation") then Some(Obligations)
    else if kind == Known("Reserve") then Some(Reserves)
    else if kind == Known("LendingMarket") then Some(Markets)
    else None
  }

  function RowOf(cfg: Cfg, u: Update): RawRow {
    RawRow(u.slot, u.writeVersion, u.pubkey, Label(Classify(cfg.discs, u.data)), u.owner, u.lamports, u.data)
  }

  /** The decoded row of an update, when its discriminator names the table and the payload decodes. */
  function DerivedOf(cfg: Cfg, u: Update, t: Table): Option<DerivedRow> {
    if TableOf(Classify(cfg.discs, u.data)) != Some(t) then None
    else
      match cfg.decode(t, u.data)
      case None => None
      case Some(fields) => Some(DerivedRow(u.slot, u.writeVersion, u.pubkey, fields))
  }

  // ---------------------------------------------------------------- buffers

  datatype Buffers = Buffers(raw: seq<RawRow>, snap: seq<DerivedRow>, reserve: seq<DerivedRow>, lm: seq<DerivedRow>)

  const NO_ROWS := Buffers([], [], [], [])

  function Append<T>(rows: seq<T>, row: Option<T>): seq<T> {
    match row
    case None => rows
    case Some(r) => rows + [r]
  }

  /** The decoded row first, then the raw row. */
  function Push(cfg: Cfg, b: Buffers, u: Update): Buffers {
    Buffers(
      b.raw + [RowOf(cfg, u)],
      Append(b.snap, DerivedOf(cfg, u, Obligations)),
      Append(b.reserve, DerivedOf(cfg, u, Reserves)),
      Append(b.lm, DerivedOf(cfg, u, Markets)))
  }

  function BufferOf(b: Buffers, t: Table): seq<DerivedRow> {
    match t
    case Obligations => b.snap
    case Reserves => b.reserve
    case Markets => b.lm
  }

  predicate IsEmpty(b: Buffers) {
    b.raw == [] && b.snap == [] && b.reserve == [] && b.lm == []
  }

  predicate Full(b: Buffers) {
    |b.raw| >= BATCH_MAX_ROWS || |b.snap| >= BATCH_MAX_ROWS || |b.reserve| >= BATCH_MAX_ROWS || |b.lm| >= BATCH_MAX_ROWS
  }

  /** The high-water mark a flush will commit, with the fallbacks the program carries. */
  function HighWater(b: Buffers): Checkpoint
    requires !IsEmpty(b)
  {
    if b.raw != [] then var r := b.raw[|b.raw| - 1]; Checkpoint(r.slot, r.writeVersion)
    else if b.snap != [] then LastDerived(b.snap)
    else if b.reserve != [] then LastDerived(b.reserve)
    else LastDerived(b.lm)
  }

  function LastDerived(rows: seq<DerivedRow>): Checkpoint
    requires rows != []
  {
    Checkpoint(rows[|rows| - 1].slot, rows[|rows| - 1].writeVersion)
  }

  // ----------------------------------------------------------------- tables

  /** Inserts into the two control tables, in the order they were issued. */
  datatype Note = CheckpointNote(checkpoint: Checkpoint) | GapNote(gap: GapRow)

  datatype Db = Db(
    raw: Log<RawRow>,
    snap: Log<DerivedRow>,
    reserve: Log<DerivedRow>,
    lm: Log<DerivedRow>,
    journal: seq<Note>,
    checkpoints: seq<Stamped<Checkpoint>>,
    gaps: seq<Stamped<GapRow>>)

  const EMPTY_DB := Db(Log([], []), Log([], []), Log([], []), Log([], []), [], [], [])

  function TableLog(db: Db, t: Table): Log<DerivedRow> {
    match t
    case Obligations => db.snap
    case Reserves => db.reserve
    case Markets => db.lm
  }

  function WriteCheckpoint(db: Db, c: Checkpoint, o: Outcome): Db {
    db.(journal := db.journal + [CheckpointNote(c)], checkpoints := db.checkpoints + Landing([c], o))
  }

  function RecordGap(db: Db, g: GapRow, o: Outcome): Db {
    db.(journal := db.journal + [GapNote(g)], gaps := db.gaps + Landing([g], o))
  }

  /** `SELECT last_slot FROM ingest_checkpoint FINAL WHERE stream = ..`. */
  function ReadResumeSlot(db: Db): Option<nat> {
    var f := Final(db.checkpoints, (c: Checkpoint) => ());
    if () in f then Some(f[()].row.slot) else None
  }

  // ------------------------------------------------------------------ flush

  /** The outcomes of the inserts one flush issues. */
  datatype FlushPlan = FlushPlan(raw: Outcome, snap: Outcome, lm: Outcome, reserve: Outcome, checkpoint: Outcome)

  datatype Flushed = Flushed(db: Db, ok: bool)

  function SendIf<T>(send: bool, log: Log<T>, rows: seq<T>, o: Outcome): Log<T> {
    if send then Insert(log, rows, o) else log
  }

  /** An optional insert goes through when there is nothing to send or it is acknowledged. */
  predicate Through(rows: seq<DerivedRow>, o: Outcome) {
    rows == [] || o.Acked?
  }

  /** Whether every data insert of a flush has been acknowledged. */
  predicate DataThrough(b: Buffers, p: FlushPlan) {
    p.raw.Acked? && Through(b.snap, p.snap) && Through(b.lm, p.lm) && Through(b.reserve, p.reserve)
  }

  /**
  What a flush leaves in each table: the raw rows always, each derived table only
  when everything before it went through (obligations, markets, reserves, in that
  order), the checkpoint only when all the data did.
   */
  function FlushDb(b: Buffers, db: Db, p: FlushPlan): Flushed {
    if IsEmpty(b) then Flushed(db, true)
    else
      var data := db.(
        raw := Insert(db.raw, b.raw, p.raw),
        snap := SendIf(p.raw.Acked? && b.snap != [], db.snap, b.snap, p.snap),
        lm := SendIf(p.raw.Acked? && Through(b.snap, p.snap) && b.lm != [], db.lm, b.lm, p.lm),
        reserve := SendIf(p.raw.Acked? && Through(b.snap, p.snap) && Through(b.lm, p.lm) && b.reserve != [], db.reserve, b.reserve, p.reserve));
      if DataThrough(b, p) then Flushed(WriteCheckpoint(data, HighWater(b), p.checkpoint), p.checkpoint.Acked?)
      else Flushed(data, false)
  }

  // -------------------------------------------------------------- the state

  datatype Phase = Down | Connecting | Streaming

  /** The locals of one pass of the reconnect loop. */
  datatype Session = Session(resumeFrom: Option<nat>, gotData: bool, firstSlot: Option<nat>, judged: bool)

  /** The locals of `main` that outlive a session. */
  datatype Proc = Proc(forceTip: bool, firstSlot: Option<nat>, lastSlot: nat)

  const NO_SESSION := Session(None, false, None, false)
  const FRESH := Proc(false, None, 0)

  /**
  A session that delivered something: the checkpoint it was started at, whether
  it was forced to the tip, the chain index it opened at, and how much had been
  journalled by then. `base` is `None` for a start with no checkpoint at all.
   */
  datatype Seam = Seam(base: Option<nat>, forced: bool, start: nat, at: nat)

  /**
  Bookkeeping the program does not hold, kept to state what it loses: the slot
  given up on before a forced tip restart, the current session's base and the
  part of the chain it has delivered and flushed, every seam so far, and counts
  of subscribes (per process) and gap inserts (per pass).
   */
  datatype Hist = Hist(givenUp: nat, base: Option<nat>, forced: bool, start: Option<nat>, flushed: nat, next: nat,
                       seams: seq<Seam>, subscribes: nat, passGaps: nat)

  const NO_HIST := Hist(0, None, false, None, 0, 0, [], 0, 0)

  datatype State = State(db: Db, phase: Phase, bufs: Buffers, proc: Proc, session: Session, hist: Hist)

  const INIT := State(EMPTY_DB, Down, NO_ROWS, FRESH, NO_SESSION, NO_HIST)

  /**
  `Deliver(k, ..)` delivers `chain[k]`. Its outcomes are those of the flush a full
  buffer triggers, of the final flush if the budget is reached, and of the gap
  insert if the seam is judged a gap.
   */
  datatype Event =
    | Start
    | Kill
    | ConnectFailed
    | Accepted
    | Refused(gap: Outcome)
    | Deliver(k: nat, cap: FlushPlan, fin: FlushPlan, gap: Outcome)
    | OtherMessage(gap: Outcome)
    | FlushTick(plan: FlushPlan)
    | Signal(plan: FlushPlan)
    | StreamEnd(plan: FlushPlan, gap: Outcome)
    | LateRaw(i: nat, at: nat)
    | LateDerived(t: Table, i: nat, at: nat)
    | LateNote(i: nat, at: nat)

  // ------------------------------------------------------------------ steps

  /** The process is gone: buffered rows are lost, the tables stay. */
  function Exit(s: State): State {
    s.(phase := Down, bufs := NO_ROWS)
  }

  function Flush(s: State, p: FlushPlan): State {
    s.(db := FlushDb(s.bufs, s.db, p).db, bufs := NO_ROWS, hist := s.hist.(flushed := s.hist.next))
  }

  predicate FlushOk(s: State, p: FlushPlan) {
    FlushDb(s.bufs, s.db, p).ok
  }

  function AddGap(s: State, start: nat, end: nat, o: Outcome): State {
    s.(db := RecordGap(s.db, GapRow(start, end), o), hist := s.hist.(passGaps := s.hist.passGaps + 1))
  }

  /** The head of a pass of the reconnect loop. */
  function ResumeFrom(s: State): Option<nat> {
    if s.proc.forceTip then None else ReadResumeSlot(s.db)
  }

  /** A subscribe is attempted: one more for this process, no gap recorded yet in this pass. */
  function Attempt(s: State): State {
    s.(hist := s.hist.(subscribes := s.hist.subscribes + 1, passGaps := 0))
  }

  function Open(s: State): State {
    s.(phase := Streaming,
       session := Session(ResumeFrom(s), false, None, false),
       proc := s.proc.(forceTip := false),
       hist := Attempt(s).hist.(base := if s.proc.forceTip then Some(s.hist.givenUp) else ResumeFrom(s),
                               forced := s.proc.forceTip, start := None, flushed := 0, next := 0))
  }

  /** The resume point is given up: leave the gap explicit, start the next pass from the tip. */
  function GiveUp(s: State, from: nat, o: Outcome): State {
    var s1 := AddGap(s, from, s.proc.lastSlot, o);
    s1.(phase := Connecting, proc := s1.proc.(forceTip := true), session := NO_SESSION, hist := s1.hist.(givenUp := from))
  }

  function Refuse(cfg: Cfg, s: State, gap: Outcome): State {
    var from := ResumeFrom(s);
    if from.Some? && cfg.budget.None? then GiveUp(Attempt(s), from.value, gap) else Exit(Attempt(s))
  }

  /** Startup gap detection: judged once a session, on its first account slot. */
  function Judge(s: State, o: Outcome): State {
    if s.session.judged || s.session.firstSlot.None? then s
    else
      var s1 := s.(session := s.session.(judged := true));
      match ClassifyResume(s.session.resumeFrom, s.session.firstSlot.value)
      case Gap(start, end, _) => AddGap(s1, start, end, o)
      case _ => s1
  }

  function SlotSpan(p: Proc): nat {
    var first := if p.firstSlot.Some? then p.firstSlot.value else p.lastSlot;
    if p.lastSlot > first then p.lastSlot - first else 0
  }

  predicate BudgetReached(cfg: Cfg, p: Proc) {
    cfg.budget.Some? && SlotSpan(p) >= cfg.budget.value
  }

  /** Counters and buffers after an account update, before any flush. */
  function Receive(cfg: Cfg, s: State, k: nat): State
    requires k < |cfg.chain|
  {
    var u := cfg.chain[k];
    s.(bufs := Push(cfg, s.bufs, u),
       session := s.session.(gotData := true, firstSlot := if s.session.firstSlot.None? then Some(u.slot) else s.session.firstSlot),
       proc := s.proc.(firstSlot := if s.proc.firstSlot.None? then Some(u.slot) else s.proc.firstSlot, lastSlot := u.slot),
       hist := if s.hist.start.Some? then s.hist.(next := k + 1)
               else s.hist.(start := Some(k), flushed := k, next := k + 1,
                            seams := s.hist.seams + [Seam(s.hist.base, s.hist.forced, k, |s.db.journal|)]))
  }

  /** The rest of the handler: flush a full buffer, stop on the budget, judge the seam. */
  function AfterReceipt(cfg: Cfg, s: State, cap: FlushPlan, fin: FlushPlan, gap: Outcome): State {
    if Full(s.bufs) && !FlushOk(s, cap) then Exit(Flush(s, cap))
    else
      var s2 := if Full(s.bufs) then Flush(s, cap) else s;
      if BudgetReached(cfg, s2.proc) then Exit(Flush(s2, fin)) else Judge(s2, gap)
  }

  function OnDeliver(cfg: Cfg, s: State, k: nat, cap: FlushPlan, fin: FlushPlan, gap: Outcome): State
    requires k < |cfg.chain|
  {
    AfterReceipt(cfg, Receive(cfg, s, k), cap, fin, gap)
  }

  /** The tail of a pass: final flush, then stop or go round again. */
  function OnStreamEnd(cfg: Cfg, s: State, p: FlushPlan, gap: Outcome): State {
    var s1 := Flush(s, p);
    if !FlushOk(s, p) || cfg.budget.Some? then Exit(s1)
    else if !s.session.gotData && s.session.resumeFrom.Some? then GiveUp(s1, s.session.resumeFrom.value, gap)
    else s1.(phase := Connecting, session := NO_SESSION)
  }

  function Step(cfg: Cfg, s: State, e: Event): State {
    match e
    case Start => if s.phase.Down? then s.(phase := Connecting, proc := FRESH, session := NO_SESSION, bufs := NO_ROWS, hist := s.hist.(subscribes := 0)) else s
    case Kill => Exit(s)
    case ConnectFailed => if s.phase.Connecting? then Exit(s) else s
    case Accepted => if s.phase.Connecting? then Open(s) else s
    case Refused(gap) => if s.phase.Connecting? then Refuse(cfg, s, gap) else s
    case Deliver(k, cap, fin, gap) => if s.phase.Streaming? && k < |cfg.chain| then OnDeliver(cfg, s, k, cap, fin, gap) else s
    case OtherMessage(gap) => if s.phase.Streaming? then Judge(s, gap) else s
    case FlushTick(p) => if !s.phase.Streaming? then s else if FlushOk(s, p) then Flush(s, p) else Exit(Flush(s, p))
    case Signal(p) => if s.phase.Streaming? then Exit(Flush(s, p)) else s
    case StreamEnd(p, gap) => if s.phase.Streaming? then OnStreamEnd(cfg, s, p, gap) else s
    case LateRaw(i, at) => s.(db := LateRawLanding(s.db, i, at))
    case LateDerived(t, i, at) => s.(db := LateDerivedLanding(s.db, t, i, at))
    case LateNote(i, at) => s.(db := LateNoteLanding(s.db, i, at))
  }

  function LateRawLanding(db: Db, i: nat, at: nat): Db {
    if i < |db.raw.issued| then db.(raw := LandLate(db.raw, i, at)) else db
  }

  function LateDerivedLanding(db: Db, t: Table, i: nat, at: nat): Db {
    if i >= |TableLog(db, t).issued| then db
    else
      match t
      case Obligations => db.(snap := LandLate(db.snap, i, at))
      case Reserves => db.(reserve := LandLate(db.reserve, i, at))
      case Markets => db.(lm := LandLate(db.lm, i, at))
  }

  function LateNoteLanding(db: Db, i: nat, at: nat): Db {
    if i >= |db.journal| then db
    else
      match db.journal[i]
      case CheckpointNote(c) => db.(checkpoints := db.checkpoints + [Stamped(c, at)])
      case GapNote(g) => db.(gaps := db.gaps + [Stamped(g, at)])
  }

  // ------------------------------------------------------------------- runs

  function Run(cfg: Cfg, events: seq<Event>): State {
    if events == [] then INIT else Step(cfg, Run(cfg, events[..|events| - 1]), events[|events| - 1])
  }

  /**
  What the server promises: within a session it delivers the chain without
  skipping. Where a session opens is up to it: at the requested slot, further
  back, or ahead.
   */
  predicate Served(s: State, e: Event) {
    e.Deliver? && s.phase.Streaming? && s.hist.start.Some? ==> e.k == s.hist.next
  }

  predicate ServedRun(cfg: Cfg, events: seq<Event>) {
    events == [] ||
    (ServedRun(cfg, events[..|events| - 1]) && Served(Run(cfg, events[..|events| - 1]), events[|events| - 1]))
  }
}
