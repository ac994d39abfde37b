/** What a snapshot run may be trusted for (src/bin/snapshot.rs). */
module SnapshotTheorems {
  import opened Wrappers
  import opened MergeTree
  import opened Schema
  import opened Protocol
  import opened Coverage
  import opened Snapshot
  import opened SnapshotWriter

  // ---------------------------------------------------------- conservation

  lemma GetPlus(a: Counts, b: Counts, text: string)
    ensures Get(PlusCounts(a, b), text) == Get(a, text) + Get(b, text)
  {
  }

  /** Raw rows, decoded rows and failures balance accounts and decodable accounts. */
  predicate Balanced(rowsWritten: nat, failures: nat, accounts: nat, byKind: Counts) {
    rowsWritten + failures == accounts + Get(byKind, "Obligation") + Get(byKind, "Reserve") + Get(byKind, "LendingMarket")
  }

  lemma NamesAreKinds(cfg: Cfg, accounts: seq<Account>)
    requires ValidDiscriminators(cfg.discs)
    ensures Get(LabelCounts(cfg, accounts), "Obligation") == KindCount(cfg, accounts, OBLIGATION)
    ensures Get(LabelCounts(cfg, accounts), "Reserve") == KindCount(cfg, accounts, RESERVE)
    ensures Get(LabelCounts(cfg, accounts), "LendingMarket") == KindCount(cfg, accounts, MARKET)
  {
    hide LabelCounts, KindCount, Get, ValidDiscriminators;
    LabelsCountKinds(cfg, accounts, OBLIGATION);
    LabelsCountKinds(cfg, accounts, RESERVE);
    LabelsCountKinds(cfg, accounts, MARKET);
  }

  lemma PageIsBalanced(cfg: Cfg, slot: nat, accounts: seq<Account>)
    requires ValidDiscriminators(cfg.discs)
    ensures var p := PageOf(cfg, slot, accounts, false); Balanced(p.rowsWritten, p.decodeFailures, p.accounts, p.byKind)
  {
    hide LabelCounts, KindCount, Get, RowCount, PageRows, Failures, ValidDiscriminators;
    NamesAreKinds(cfg, accounts);
    PageConserves(cfg, slot, accounts);
  }

  lemma AbsorbBalanced(t: Tally, p: Page)
    requires Balanced(t.rowsWritten, t.decodeFailures, t.accounts, t.byKind)
    requires Balanced(p.rowsWritten, p.decodeFailures, p.accounts, p.byKind)
    ensures var u := Absorbed(t, p); Balanced(u.rowsWritten, u.decodeFailures, u.accounts, u.byKind)
  {
    hide Get, PlusCounts;
    GetPlus(t.byKind, p.byKind, "Obligation");
    GetPlus(t.byKind, p.byKind, "Reserve");
    GetPlus(t.byKind, p.byKind, "LendingMarket");
  }

  /**
  Over all pages, whatever the server answered and however the accounts decoded:
  rows written and decode failures add up to the accounts seen and the accounts of
  the three kinds that have a decoder.
   */
  lemma {:induction false} TotalsConserve(cfg: Cfg, env: Env, pages: seq<Filter>, db: SnapshotDb)
    requires ValidDiscriminators(cfg.discs)
    ensures var t := RunPages(cfg, env, false, pages, db).tally; Balanced(t.rowsWritten, t.decodeFailures, t.accounts, t.byKind)
  {
    hide Balanced, PageOf, Absorbed, WritePage, ValidDiscriminators, PageRows;
    if pages == [] {
      NothingBalances();
    } else {
      TotalsConserve(cfg, env, pages[..|pages| - 1], db);
      var p, f := RunPages(cfg, env, false, pages[..|pages| - 1], db), pages[|pages| - 1];
      if env.reply(f).Ok? {
        var reply := env.reply(f).value;
        PageIsBalanced(cfg, reply.slot, reply.accounts);
        AbsorbBalanced(p.tally, PageOf(cfg, reply.slot, reply.accounts, false));
      }
    }
  }

  lemma NothingBalances()
    ensures Balanced(0, 0, 0, map[])
  {
  }

  // ------------------------------------------------------ landed rows, counted

  function LandedRows(db: SnapshotDb): nat {
    |db.raw.landed| + |db.snap.landed| + |db.reserve.landed| + |db.lm.landed|
  }

  ghost predicate DbGrows(a: SnapshotDb, b: SnapshotDb) {
    a.raw.landed <= b.raw.landed && a.snap.landed <= b.snap.landed && a.reserve.landed <= b.reserve.landed && a.lm.landed <= b.lm.landed
    && a.runs == b.runs
  }

  lemma WritePageGrows(db: SnapshotDb, b: Buffers, plan: PagePlan)
    ensures DbGrows(db, WritePage(db, b, plan).db)
  {
    hide SendFrom, Chunks;
    SendLands(db.raw, Chunks(b.raw), plan.raw, 0);
    SendLands(db.snap, Chunks(b.snap), plan.snap, 0);
    SendLands(db.reserve, Chunks(b.reserve), plan.reserve, 0);
    SendLands(db.lm, Chunks(b.lm), plan.lm, 0);
  }

  /** A page that reports success has landed every one of its rows. */
  ghost predicate PageLanded(db: SnapshotDb, b: Buffers) {
    && (forall r :: r in b.raw ==> Has(db.raw.landed, r))
    && (forall r :: r in b.snap ==> Has(db.snap.landed, r))
    && (forall r :: r in b.reserve ==> Has(db.reserve.landed, r))
    && (forall r :: r in b.lm ==> Has(db.lm.landed, r))
  }

  lemma WrittenPageLands(db: SnapshotDb, b: Buffers, plan: PagePlan)
    requires WritePage(db, b, plan).ok
    ensures PageLanded(WritePage(db, b, plan).db, b)
    ensures LandedRows(WritePage(db, b, plan).db) == LandedRows(db) + RowCount(b)
  {
    hide Send, Has;
    SendIsWhole(db.raw, b.raw, plan.raw);
    SendIsWhole(db.snap, b.snap, plan.snap);
    SendIsWhole(db.reserve, b.reserve, plan.reserve);
    SendIsWhole(db.lm, b.lm, plan.lm);
  }

  lemma LandedGrows(a: SnapshotDb, b: SnapshotDb, rows: Buffers)
    requires DbGrows(a, b) && PageLanded(a, rows)
    ensures PageLanded(b, rows)
  {
    hide Has;
    forall r | r in rows.raw ensures Has(b.raw.landed, r) { HasMore(a.raw.landed, b.raw.landed, r); }
    forall r | r in rows.snap ensures Has(b.snap.landed, r) { HasMore(a.snap.landed, b.snap.landed, r); }
    forall r | r in rows.reserve ensures Has(b.reserve.landed, r) { HasMore(a.reserve.landed, b.reserve.landed, r); }
    forall r | r in rows.lm ensures Has(b.lm.landed, r) { HasMore(a.lm.landed, b.lm.landed, r); }
  }

  lemma {:induction false} RunGrows(cfg: Cfg, env: Env, pages: seq<Filter>, db: SnapshotDb)
    ensures var p := RunPages(cfg, env, false, pages, db);
      DbGrows(db, p.db) && (p.ok ==> LandedRows(p.db) == LandedRows(db) + p.tally.rowsWritten)
  {
    hide WritePage, LandedRows, PageRows, Failures, LabelCounts, RowCount, PlusCounts;
    if pages != [] {
      RunGrows(cfg, env, pages[..|pages| - 1], db);
      var p, f := RunPages(cfg, env, false, pages[..|pages| - 1], db), pages[|pages| - 1];
      if p.ok && env.reply(f).Ok? {
        var b := PageRows(cfg, env.reply(f).value.slot, env.reply(f).value.accounts);
        WritePageGrows(p.db, b, env.plan(f));
        if WritePage(p.db, b, env.plan(f)).ok { WrittenPageLands(p.db, b, env.plan(f)); }
      }
    }
  }

  lemma {:induction false} EveryPageLands(cfg: Cfg, env: Env, pages: seq<Filter>, db: SnapshotDb, i: nat)
    requires i < |pages| && RunPages(cfg, env, false, pages, db).ok
    ensures env.reply(pages[i]).Ok?
    ensures PageLanded(RunPages(cfg, env, false, pages, db).db, PageRows(cfg, env.reply(pages[i]).value.slot, env.reply(pages[i]).value.accounts))
  {
    hide WritePage, PageRows, PageOf, Absorbed, PageLanded, DbGrows;
    var p, f := RunPages(cfg, env, false, pages[..|pages| - 1], db), pages[|pages| - 1];
    var b := PageRows(cfg, env.reply(f).value.slot, env.reply(f).value.accounts);
    WritePageGrows(p.db, b, env.plan(f));
    if i == |pages| - 1 {
      WrittenPageLands(p.db, b, env.plan(f));
    } else {
      EveryPageLands(cfg, env, pages[..|pages| - 1], db, i);
      LandedGrows(p.db, RunPages(cfg, env, false, pages, db).db, PageRows(cfg, env.reply(pages[i]).value.slot, env.reply(pages[i]).value.accounts));
    }
  }

  /**
  The provenance row comes last and tells the truth: if one was sent at all, every
  request was answered and every page written, the tables have grown by exactly the
  rows it reports, and its figures balance.
   */
  lemma ProvenanceIsTrue(cfg: Cfg, env: Env, scope: Scope, name: string, dryRun: bool, runs: Outcome, db: SnapshotDb)
    requires ValidDiscriminators(cfg.discs)
    requires Conclude(RunPages(cfg, env, dryRun, Pages(scope), db), name, dryRun, runs).db.runs.issued != db.runs.issued
    ensures var p := RunPages(cfg, env, dryRun, Pages(scope), db); var after := Conclude(p, name, dryRun, runs).db;
      && !dryRun && p.ok && p.tally.accounts > 0
      && after.runs.issued == db.runs.issued + [RunRow(p.tally.maxSlot, name, p.tally.accounts, p.tally.rowsWritten, p.tally.decodeFailures)]
      && LandedRows(after) == LandedRows(db) + p.tally.rowsWritten
      && Balanced(p.tally.rowsWritten, p.tally.decodeFailures, p.tally.accounts, p.tally.byKind)
  {
    hide RunPages, Pages, Balanced, ValidDiscriminators, Landing;
    var pages := Pages(scope);
    DryRunWritesNothing(cfg, env, pages, db);
    RunGrows(cfg, env, pages, db);
    TotalsConserve(cfg, env, pages, db);
  }

  lemma {:induction false} DryRunWritesNothing(cfg: Cfg, env: Env, pages: seq<Filter>, db: SnapshotDb)
    ensures RunPages(cfg, env, true, pages, db).db == db
  {
    hide PageOf, Absorbed, PageRows, WritePage;
    if pages != [] { DryRunWritesNothing(cfg, env, pages[..|pages| - 1], db); }
  }

  // ------------------------------------------------ a world that stands still

  /** Every request is answered from one account set; the slots may differ. */
  ghost predicate Still(env: Env, world: seq<Account>) {
    forall f :: env.reply(f).Ok? && env.reply(f).value.accounts == Matching(world, f)
  }

  lemma {:induction false} KindCountAppend(cfg: Cfg, a: seq<Account>, b: seq<Account>, kind: AccountKind)
    ensures KindCount(cfg, a + b, kind) == KindCount(cfg, a, kind) + KindCount(cfg, b, kind)
  {
    hide KindOf;
    if b == [] {
      assert a + b == a;
    } else {
      assert (a + b)[..|a + b| - 1] == a + b[..|b| - 1];
      KindCountAppend(cfg, a, b[..|b| - 1], kind);
    }
  }

  /** The totals of a run, by kind, are the counts of what was fetched. */
  lemma {:induction false} TotalsAreWorld(cfg: Cfg, env: Env, dryRun: bool, world: seq<Account>, pages: seq<Filter>, db: SnapshotDb, kind: AccountKind)
    requires ValidDiscriminators(cfg.discs) && ValidKind(kind) && Still(env, world)
    requires RunPages(cfg, env, dryRun, pages, db).ok
    ensures var t := RunPages(cfg, env, dryRun, pages, db).tally;
      t.accounts == |Fetched(world, pages)| && Get(t.byKind, Label(kind)) == KindCount(cfg, Fetched(world, pages), kind)
  {
    hide ValidDiscriminators, ValidKind, Label, LabelCounts, KindCount, Matching, WritePage, PageRows, Failures, RowCount, Get, PlusCounts;
    if pages == [] {
      NoneOfKind(cfg, Label(kind), kind);
    } else {
      var front, f := pages[..|pages| - 1], pages[|pages| - 1];
      TotalsAreWorld(cfg, env, dryRun, world, front, db, kind);
      var page := Matching(world, f);
      LabelsCountKinds(cfg, page, kind);
      KindCountAppend(cfg, Fetched(world, front), page, kind);
      GetPlus(RunPages(cfg, env, dryRun, front, db).tally.byKind, LabelCounts(cfg, page), Label(kind));
    }
  }

  lemma NoneOfKind(cfg: Cfg, text: string, kind: AccountKind)
    ensures Get(map[], text) == 0 && KindCount(cfg, [], kind) == 0
  {
  }

  lemma {:induction false} FetchedFrom(world: seq<Account>, pages: seq<Filter>, a: Account)
    requires a in Fetched(world, pages)
    ensures exists i :: 0 <= i < |pages| && a in Matching(world, pages[i])
  {
    hide Matching;
    var front := pages[..|pages| - 1];
    if a in Fetched(world, front) {
      FetchedFrom(world, front, a);
      var i :| 0 <= i < |front| && a in Matching(world, front[i]);
      assert pages[i] == front[i];
    }
  }

  lemma {:induction false} UpdatesAtHas(slot: nat, accounts: seq<Account>, a: Account)
    requires a in accounts
    ensures UpdateAt(slot, a) in UpdatesAt(slot, accounts)
  {
    if a != accounts[|accounts| - 1] {
      var i :| 0 <= i < |accounts| && accounts[i] == a;
      assert accounts[..|accounts| - 1][i] == a;
      UpdatesAtHas(slot, accounts[..|accounts| - 1], a);
    }
  }

  lemma {:induction false} RawRowsHas(cfg: Cfg, us: seq<Update>, u: Update)
    requires u in us
    ensures RowOf(cfg, u) in RawRows(cfg, us)
  {
    hide RowOf;
    var i :| 0 <= i < |us| && us[i] == u;
    assert RawRows(cfg, us)[i] == RowOf(cfg, us[i]);
  }
}
