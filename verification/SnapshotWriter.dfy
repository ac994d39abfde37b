/**
The snapshot program as it is written (src/bin/snapshot.rs): chunked inserts, one
page at a time, running totals, and the provenance row that comes last.
 */
module SnapshotWriter {
  import opened Wrappers
  import opened MergeTree
  import opened Schema
  import opened Protocol
  import opened Coverage
  import opened Snapshot

  // ------------------------------------------------------------- the tables

  datatype RunRow = RunRow(slot: nat, scope: string, accounts: nat, rowsWritten: nat, decodeFailures: nat)

  datatype SnapshotDb = SnapshotDb(raw: Log<RawRow>, snap: Log<DerivedRow>, reserve: Log<DerivedRow>, lm: Log<DerivedRow>, runs: Log<RunRow>)

  /** The ClickHouse client. */
  class Sink {
    var db: SnapshotDb

    constructor (db: SnapshotDb)
      ensures this.db == db
    {
      this.db := db;
    }
  }

  /** What every insert of one page meets, block by block. */
  datatype PagePlan = PagePlan(raw: nat -> Outcome, snap: nat -> Outcome, reserve: nat -> Outcome, lm: nat -> Outcome)

  datatype Written = Written(db: SnapshotDb, ok: bool)

  /** Raw rows, obligations, reserves, markets: the first insert that fails ends the run. */
  function WritePage(db: SnapshotDb, b: Buffers, plan: PagePlan): Written {
    var raw := Send(db.raw, b.raw, plan.raw);
    var db1 := db.(raw := raw.log);
    if !raw.ok then Written(db1, false)
    else
      var snap := Send(db1.snap, b.snap, plan.snap);
      var db2 := db1.(snap := snap.log);
      if !snap.ok then Written(db2, false)
      else
        var reserve := Send(db2.reserve, b.reserve, plan.reserve);
        var db3 := db2.(reserve := reserve.log);
        if !reserve.ok then Written(db3, false)
        else
          var lm := Send(db3.lm, b.lm, plan.lm);
          Written(db3.(lm := lm.log), lm.ok)
  }

  /** Insert rows in blocks of at most `INSERT_BATCH`, cut off the tail of what is left. */
  method InsertChunked<T>(log: Log<T>, rows: seq<T>, outs: nat -> Outcome) returns (after: Log<T>, r: Result<nat>)
    ensures after == Send(log, rows, outs).log
    ensures r == if Send(log, rows, outs).ok then Ok(|rows|) else Err
  {
    if rows == [] {
      return log, Ok(0);
    }
    var chunks: seq<seq<T>> := [];
    var left := rows;
    while |left| > INSERT_BATCH
      invariant left != []
      invariant chunks + Chunks(left) == Chunks(rows)
    {
      assert chunks + ([left[|left| - INSERT_BATCH..]] + Chunks(left[..|left| - INSERT_BATCH])) == Chunks(rows);
      chunks := chunks + [left[|left| - INSERT_BATCH..]];
      left := left[..|left| - INSERT_BATCH];
    }
    chunks := chunks + [left];
    after := log;
    for i := 0 to |chunks|
      invariant SendFrom(after, chunks, outs, i) == Send(log, rows, outs)
    {
      after := Insert(after, chunks[i], outs(i));
      if outs(i).Failed? {
        return after, Err;
      }
    }
    r := Ok(|rows|);
  }

  // --------------------------------------------------------------- a page

  /** What one page contributed. */
  datatype Page = Page(slot: nat, accounts: nat, rowsWritten: nat, decodeFailures: nat, byKind: Counts)

  function PageOf(cfg: Cfg, slot: nat, accounts: seq<Account>, dryRun: bool): Page {
    Page(slot, |accounts|, if dryRun then 0 else RowCount(PageRows(cfg, slot, accounts)), Failures(cfg, accounts), LabelCounts(cfg, accounts))
  }

  /** The rows and counts of the accounts seen so far. */
  ghost predicate Gathered(cfg: Cfg, slot: nat, seen: seq<Account>, b: Buffers, failures: nat, byKind: Counts) {
    b == PageRows(cfg, slot, seen) && failures == Failures(cfg, seen) && byKind == LabelCounts(cfg, seen)
  }

  lemma GatherNext(cfg: Cfg, slot: nat, accounts: seq<Account>, i: nat, b: Buffers, failures: nat, byKind: Counts)
    requires i < |accounts| && Gathered(cfg, slot, accounts[..i], b, failures, byKind)
    ensures var a := accounts[i]; var text := Label(KindOf(cfg, a));
      Gathered(cfg, slot, accounts[..i + 1], Push(cfg, b, UpdateAt(slot, a)), failures + (if Fails(cfg, a) then 1 else 0), byKind[text := Get(byKind, text) + 1])
  {
    hide Push, Fails, KindOf, Label, PageRows;
    var seen := accounts[..i + 1];
    assert seen[..|seen| - 1] == accounts[..i] && seen[|seen| - 1] == accounts[i];
    PageRowsNext(cfg, slot, seen);
  }

  /** One account decoded into the four vectors, or counted as a failure. */
  method Decode(cfg: Cfg, slot: nat, a: Account, b: Buffers) returns (more: Buffers, failed: bool)
    ensures more == Push(cfg, b, UpdateAt(slot, a)) && failed == Fails(cfg, a)
  {
    hide Classify, Label;
    more, failed := b, false;
    var kind := Classify(cfg.discs, a.data);
    var table := TableOf(kind);
    if table.Some? {
      var decoded := cfg.decode(table.value, a.data);
      match decoded
      case Some(fields) =>
        var row := DerivedRow(slot, SNAPSHOT_WRITE_VERSION, a.pubkey, fields);
        match table.value {
          case Obligations => more := more.(snap := more.snap + [row]);
          case Reserves => more := more.(reserve := more.reserve + [row]);
          case Markets => more := more.(lm := more.lm + [row]);
        }
      case None =>
        failed := true;
    }
    more := more.(raw := more.raw + [RawRow(slot, SNAPSHOT_WRITE_VERSION, a.pubkey, Label(kind), a.owner, a.lamports, a.data)]);
  }

  /** Insert one page; `rows` counts what was inserted when all of it was. */
  method WriteRows(sink: Sink, b: Buffers, plan: PagePlan) returns (r: Result<nat>)
    modifies sink
    ensures sink.db == WritePage(old(sink.db), b, plan).db
    ensures r == if WritePage(old(sink.db), b, plan).ok then Ok(RowCount(b)) else Err
  {
    hide Send;
    var rawLog, raw := InsertChunked(sink.db.raw, b.raw, plan.raw);
    sink.db := sink.db.(raw := rawLog);
    if raw.Err? { return Err; }
    var snapLog, snap := InsertChunked(sink.db.snap, b.snap, plan.snap);
    sink.db := sink.db.(snap := snapLog);
    if snap.Err? { return Err; }
    var reserveLog, reserve := InsertChunked(sink.db.reserve, b.reserve, plan.reserve);
    sink.db := sink.db.(reserve := reserveLog);
    if reserve.Err? { return Err; }
    var lmLog, lm := InsertChunked(sink.db.lm, b.lm, plan.lm);
    sink.db := sink.db.(lm := lmLog);
    if lm.Err? { return Err; }
    r := Ok(raw.value + snap.value + reserve.value + lm.value);
  }

  /** Decode one page and write it; a dry run does everything but the inserts. */
  method FetchAndWrite(cfg: Cfg, slot: nat, accounts: seq<Account>, dryRun: bool, sink: Sink, plan: PagePlan) returns (r: Result<Page>)
    modifies sink
    ensures sink.db == if dryRun then old(sink.db) else WritePage(old(sink.db), PageRows(cfg, slot, accounts), plan).db
    ensures r == if dryRun || WritePage(old(sink.db), PageRows(cfg, slot, accounts), plan).ok then Ok(PageOf(cfg, slot, accounts, dryRun)) else Err
  {
    hide WritePage, Push, Fails, KindOf, Label, RowCount;
    var b, failures := NO_ROWS, 0;
    var byKind: Counts := map[];
    for i := 0 to |accounts|
      invariant sink.db == old(sink.db)
      invariant Gathered(cfg, slot, accounts[..i], b, failures, byKind)
    {
      GatherNext(cfg, slot, accounts, i, b, failures, byKind);
      var text := Label(KindOf(cfg, accounts[i]));
      byKind := byKind[text := Get(byKind, text) + 1];
      var more, failed := Decode(cfg, slot, accounts[i], b);
      b := more;
      failures := failures + (if failed then 1 else 0);
    }
    assert accounts[..|accounts|] == accounts;
    var rowsWritten := 0;
    if !dryRun {
      var n := WriteRows(sink, b, plan);
      if n.Err? { return Err; }
      rowsWritten := n.value;
    }
    r := Ok(Page(slot, |accounts|, rowsWritten, failures, byKind));
  }

  // ---------------------------------------------------------------- totals

  /** Running counts across pages. */
  datatype Tally = Tally(accounts: nat, rowsWritten: nat, decodeFailures: nat, maxSlot: nat, byKind: Counts)

  const NO_TALLY := Tally(0, 0, 0, 0, map[])

  function PlusCounts(a: Counts, b: Counts): Counts {
    map k | k in a.Keys + b.Keys :: Get(a, k) + Get(b, k)
  }

  function Absorbed(t: Tally, p: Page): Tally {
    Tally(t.accounts + p.accounts, t.rowsWritten + p.rowsWritten, t.decodeFailures + p.decodeFailures,
          if p.slot > t.maxSlot then p.slot else t.maxSlot, PlusCounts(t.byKind, p.byKind))
  }

  /** The only thing that survives a page boundary. */
  class Totals {
    var accounts: nat
    var rowsWritten: nat
    var decodeFailures: nat
    var maxSlot: nat
    var byKind: Counts

    constructor ()
      ensures View() == NO_TALLY
    {
      accounts, rowsWritten, decodeFailures, maxSlot, byKind := 0, 0, 0, 0, map[];
    }

    function View(): Tally
      reads this
    {
      Tally(accounts, rowsWritten, decodeFailures, maxSlot, byKind)
    }

    method Absorb(page: Page)
      modifies this
      ensures View() == Absorbed(old(View()), page)
    {
      hide PlusCounts;
      accounts := accounts + page.accounts;
      rowsWritten := rowsWritten + page.rowsWritten;
      decodeFailures := decodeFailures + page.decodeFailures;
      maxSlot := if page.slot > maxSlot then page.slot else maxSlot;
      ghost var was := byKind;
      var rest := page.byKind.Keys;
      Without(page.byKind);
      while rest != {}
        invariant rest <= page.byKind.Keys
        invariant byKind == PlusCounts(was, page.byKind - rest)
        invariant Tally(accounts, rowsWritten, decodeFailures, maxSlot, map[]) == Absorbed(old(View()), page).(byKind := map[])
      {
        var kind :| kind in rest;
        PlusNext(was, page.byKind, rest, kind);
        byKind := byKind[kind := Get(byKind, kind) + page.byKind[kind]];
        rest := rest - {kind};
      }
      assert page.byKind - rest == page.byKind;
    }
  }

  lemma Without(m: Counts)
    ensures forall was: Counts :: PlusCounts(was, m - m.Keys) == was
  {
    assert m - m.Keys == map[];
  }

  lemma PlusNext(was: Counts, m: Counts, rest: set<string>, kind: string)
    requires rest <= m.Keys && kind in rest
    ensures var sum := PlusCounts(was, m - rest);
      sum[kind := Get(sum, kind) + m[kind]] == PlusCounts(was, m - (rest - {kind}))
  {
  }

  // ------------------------------------------------------------- the run

  datatype Reply = Reply(slot: nat, accounts: seq<Account>)

  /** Everything outside the program: what each request gets back, what each insert meets. */
  datatype Env = Env(reply: Filter -> Result<Reply>, plan: Filter -> PagePlan)

  datatype Progress = Progress(db: SnapshotDb, tally: Tally, ok: bool)

  /** One more page; nothing happens after the first failure. */
  function NextPage(cfg: Cfg, env: Env, dryRun: bool, p: Progress, f: Filter): Progress {
    if !p.ok then p
    else
      match env.reply(f)
      case Err => p.(ok := false)
      case Ok(reply) =>
        var page := PageOf(cfg, reply.slot, reply.accounts, dryRun);
        if dryRun then p.(tally := Absorbed(p.tally, page))
        else
          var w := WritePage(p.db, PageRows(cfg, reply.slot, reply.accounts), env.plan(f));
          if w.ok then Progress(w.db, Absorbed(p.tally, page), true) else Progress(w.db, p.tally, false)
  }

  function RunPages(cfg: Cfg, env: Env, dryRun: bool, pages: seq<Filter>, db: SnapshotDb): Progress {
    if pages == [] then Progress(db, NO_TALLY, true)
    else NextPage(cfg, env, dryRun, RunPages(cfg, env, dryRun, pages[..|pages| - 1], db), pages[|pages| - 1])
  }

  /** The end of a run: an empty snapshot is refused, a dry run records nothing, otherwise the provenance row comes last. */
  function Conclude(p: Progress, scope: string, dryRun: bool, o: Outcome): Written {
    if !p.ok || p.tally.accounts == 0 then Written(p.db, false)
    else if dryRun then Written(p.db, true)
    else
      var row := RunRow(p.tally.maxSlot, scope, p.tally.accounts, p.tally.rowsWritten, p.tally.decodeFailures);
      Written(p.db.(runs := Insert(p.db.runs, [row], o)), o.Acked?)
  }

  lemma RunPagesNext(cfg: Cfg, env: Env, dryRun: bool, pages: seq<Filter>, db: SnapshotDb, f: Filter)
    ensures RunPages(cfg, env, dryRun, pages + [f], db) == NextPage(cfg, env, dryRun, RunPages(cfg, env, dryRun, pages, db), f)
  {
    assert (pages + [f])[..|pages|] == pages;
  }

  /** A failure is final. */
  lemma {:induction false} RunStops(cfg: Cfg, env: Env, dryRun: bool, pages: seq<Filter>, more: seq<Filter>, db: SnapshotDb)
    requires pages <= more && !RunPages(cfg, env, dryRun, pages, db).ok
    ensures RunPages(cfg, env, dryRun, more, db) == RunPages(cfg, env, dryRun, pages, db)
    decreases |more|
  {
    hide WritePage, PageOf, PageRows, Absorbed;
    if |pages| < |more| {
      RunStops(cfg, env, dryRun, pages, more[..|more| - 1], db);
    } else {
      assert more == pages;
    }
  }

  lemma AllPagesNext(sweeps: seq<Sweep>, i: nat)
    requires i < |sweeps|
    ensures AllPages(sweeps[..i + 1]) == AllPages(sweeps[..i]) + SweepPages(sweeps[i])
  {
    hide SweepPages;
    assert sweeps[..i + 1][..i] == sweeps[..i];
  }

  lemma {:induction false} AllPagesPrefix(sweeps: seq<Sweep>, i: nat)
    requires i <= |sweeps|
    ensures AllPages(sweeps[..i]) <= AllPages(sweeps)
    decreases |sweeps| - i
  {
    hide SweepPages, AllPages;
    if i < |sweeps| {
      AllPagesNext(sweeps, i);
      AllPagesPrefix(sweeps, i + 1);
    } else {
      assert sweeps[..i] == sweeps;
    }
  }

  lemma {:induction false} BytePagesPrefix(s: Sweep, n: nat)
    requires n <= OBLIGATION_PAGES && s.offset.Some?
    ensures BytePages(s, n) <= BytePages(s, OBLIGATION_PAGES)
    decreases OBLIGATION_PAGES - n
  {
    if n < OBLIGATION_PAGES {
      BytePagesPrefix(s, n + 1);
      assert BytePages(s, n) <= BytePages(s, n + 1);
    }
  }

  /** Fetch, write and count one page. */
  method TakePage(cfg: Cfg, env: Env, dryRun: bool, f: Filter, sink: Sink, totals: Totals, ghost p: Progress) returns (ok: bool)
    requires p == Progress(sink.db, totals.View(), true)
    modifies sink, totals
    ensures NextPage(cfg, env, dryRun, p, f) == Progress(sink.db, totals.View(), ok)
  {
    hide WritePage, PageOf, PageRows, Absorbed;
    var reply := env.reply(f);
    if reply.Err? {
      return false;
    }
    var page := FetchAndWrite(cfg, reply.value.slot, reply.value.accounts, dryRun, sink, env.plan(f));
    if page.Err? {
      return false;
    }
    totals.Absorb(page.value);
    ok := true;
  }

  /** One entry of the filter list, whole or page by page. */
  method TakeSweep(cfg: Cfg, env: Env, dryRun: bool, s: Sweep, sink: Sink, totals: Totals, ghost done: seq<Filter>, ghost before: SnapshotDb) returns (ok: bool)
    requires RunPages(cfg, env, dryRun, done, before) == Progress(sink.db, totals.View(), true)
    modifies sink, totals
    ensures RunPages(cfg, env, dryRun, done + SweepPages(s), before) == Progress(sink.db, totals.View(), ok)
  {
    hide NextPage, RunPages;
    if s.offset.None? {
      RunPagesNext(cfg, env, dryRun, done, before, Filter(s.disc, None));
      ok := TakePage(cfg, env, dryRun, Filter(s.disc, None), sink, totals, RunPages(cfg, env, dryRun, done, before));
      return;
    }
    assert done + [] == done;
    for byte := 0 to OBLIGATION_PAGES
      invariant RunPages(cfg, env, dryRun, done + BytePages(s, byte), before) == Progress(sink.db, totals.View(), true)
    {
      var f := Filter(s.disc, Some(PageFilter(s.offset.value, byte)));
      ghost var pages := done + BytePages(s, byte);
      RunPagesNext(cfg, env, dryRun, pages, before, f);
      assert pages + [f] == done + BytePages(s, byte + 1);
      ok := TakePage(cfg, env, dryRun, f, sink, totals, RunPages(cfg, env, dryRun, pages, before));
      if !ok {
        BytePagesPrefix(s, byte + 1);
        RunStops(cfg, env, dryRun, pages + [f], done + SweepPages(s), before);
        return;
      }
    }
    ok := true;
  }

  /** `KLEND_SNAPSHOT_SCOPE`. */
  function ParseScope(name: string): Option<Scope> {
    if name == "known" then Some(ScopeKnown) else if name == "all" then Some(ScopeAll) else None
  }

  /** The whole program, from the scope to the provenance row. */
  method TakeSnapshot(cfg: Cfg, env: Env, name: string, dryRun: bool, runs: Outcome, sink: Sink) returns (ok: bool)
    modifies sink
    ensures name == "known" ==> Conclude(RunPages(cfg, env, dryRun, Pages(ScopeKnown), old(sink.db)), name, dryRun, runs) == Written(sink.db, ok)
    ensures name == "all" ==> Conclude(RunPages(cfg, env, dryRun, Pages(ScopeAll), old(sink.db)), name, dryRun, runs) == Written(sink.db, ok)
    ensures name != "known" && name != "all" ==> !ok && sink.db == old(sink.db)
  {
    hide RunPages, SweepPages, AllPages;
    if ParseScope(name).None? {
      return false;
    }
    var scope := ParseScope(name).value;
    var totals := new Totals();
    var sweeps := Sweeps(scope);
    ghost var before := sink.db;
    NoPages(cfg, env, dryRun, sweeps, before);
    for i := 0 to |sweeps|
      invariant fresh(totals)
      invariant RunPages(cfg, env, dryRun, AllPages(sweeps[..i]), before) == Progress(sink.db, totals.View(), true)
    {
      AllPagesNext(sweeps, i);
      ok := TakeSweep(cfg, env, dryRun, sweeps[i], sink, totals, AllPages(sweeps[..i]), before);
      if !ok {
        AllPagesPrefix(sweeps, i + 1);
        RunStops(cfg, env, dryRun, AllPages(sweeps[..i + 1]), AllPages(sweeps), before);
        return;
      }
    }
    assert sweeps[..|sweeps|] == sweeps;
    if totals.accounts == 0 {
      return false;
    }
    if dryRun {
      return true;
    }
    var row := RunRow(totals.maxSlot, name, totals.accounts, totals.rowsWritten, totals.decodeFailures);
    sink.db := sink.db.(runs := Insert(sink.db.runs, [row], runs));
    ok := runs.Acked?;
  }

  lemma NoPages(cfg: Cfg, env: Env, dryRun: bool, sweeps: seq<Sweep>, db: SnapshotDb)
    ensures RunPages(cfg, env, dryRun, AllPages(sweeps[..0]), db) == Progress(db, NO_TALLY, true)
  {
    hide NextPage;
  }
}
