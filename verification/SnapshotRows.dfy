/**
What a snapshot leaves in the tables, row by row and field by field
(src/bin/snapshot.rs), and what it leaves alone.
 */
module SnapshotRows {
  import opened Wrappers
  import opened Text
  import opened MergeTree
  import opened Schema
  import opened Protocol
  import opened Coverage
  import opened ColdTable
  import opened EndToEnd
  import opened SharedTable
  import opened RowContents
  import opened Snapshot
  import opened SnapshotWriter
  import opened SnapshotTheorems

  // ---------------------------------------------------------------- fields

  /** The account's raw row at the page's slot, at write version 0, and its decoded row in the table its tag names. */
  ghost predicate AccountLanded(cfg: Cfg, db: SnapshotDb, slot: nat, a: Account) {
    && Has(db.raw.landed, RawRow(slot, 0, a.pubkey, LabelText(cfg.discs, a.data), a.owner, a.lamports, a.data))
    && (StartsWith(a.data, OBLIGATION_DISC) && cfg.decode(Obligations, a.data).Some? ==>
          Has(db.snap.landed, DerivedRow(slot, 0, a.pubkey, cfg.decode(Obligations, a.data).value)))
    && (StartsWith(a.data, RESERVE_DISC) && cfg.decode(Reserves, a.data).Some? ==>
          Has(db.reserve.landed, DerivedRow(slot, 0, a.pubkey, cfg.decode(Reserves, a.data).value)))
    && (StartsWith(a.data, LENDING_MARKET_DISC) && cfg.decode(Markets, a.data).Some? ==>
          Has(db.lm.landed, DerivedRow(slot, 0, a.pubkey, cfg.decode(Markets, a.data).value)))
  }

  lemma LandedPageHasAccount(cfg: Cfg, db: SnapshotDb, slot: nat, accounts: seq<Account>, a: Account)
    requires ValidDiscriminators(cfg.discs) && a in accounts && PageLanded(db, PageRows(cfg, slot, accounts))
    ensures AccountLanded(cfg, db, slot, a)
  {
    hide RowOf, DerivedOf, ValidDiscriminators, LabelText, StartsWith, Has, RawRows, DerivedRows, UpdatesAt;
    var u := UpdateAt(slot, a);
    UpdatesAtHas(slot, accounts, a);
    RawRowsHas(cfg, UpdatesAt(slot, accounts), u);
    DerivedOfContents(cfg, u);
    DecodedRowListed(cfg, UpdatesAt(slot, accounts), u, Obligations);
    DecodedRowListed(cfg, UpdatesAt(slot, accounts), u, Reserves);
    DecodedRowListed(cfg, UpdatesAt(slot, accounts), u, Markets);
  }

  lemma DecodedRowListed(cfg: Cfg, us: seq<Update>, u: Update, t: Table)
    requires u in us
    ensures DerivedOf(cfg, u, t).Some? ==> DerivedOf(cfg, u, t).value in DerivedRows(cfg, us, t)
  {
    hide DerivedOf;
    DerivedRowsExact(cfg, us, t);
    var i :| 0 <= i < |us| && us[i] == u;
  }

  /**
  After a successful run every account in scope has landed with its own key, owner,
  lamports and payload, at the slot of the page that fetched it and write version 0,
  and so has its decoded row if its decoder accepts it.
   */
  lemma EveryAccountLands(cfg: Cfg, env: Env, scope: Scope, world: seq<Account>, db: SnapshotDb, a: Account)
    requires ValidDiscriminators(cfg.discs) && Still(env, world) && a in world && InScope(scope, a.data)
    requires RunPages(cfg, env, false, Pages(scope), db).ok
    ensures exists f :: f in Pages(scope) && env.reply(f).Ok? && AccountLanded(cfg, RunPages(cfg, env, false, Pages(scope), db).db, env.reply(f).value.slot, a)
  {
    hide RunPages, Pages, Fetched, InScope, AccountLanded, PageRows, PageLanded, ValidDiscriminators;
    var pages := Pages(scope);
    SnapshotIsWorld(world, scope, a);
    assert a in multiset(world) && a in multiset(Fetched(world, pages));
    FetchedFrom(world, pages, a);
    var i :| 0 <= i < |pages| && a in Matching(world, pages[i]);
    EveryPageLands(cfg, env, pages, db, i);
    LandedPageHasAccount(cfg, RunPages(cfg, env, false, pages, db).db, env.reply(pages[i]).value.slot, Matching(world, pages[i]), a);
    assert pages[i] in pages;
  }

  // ----------------------------------------------- the indexer's rows, untouched

  lemma {:induction false} SendsOnly<T>(log: Log<T>, chunks: seq<seq<T>>, outs: nat -> Outcome, i: nat, n: nat)
    requires |log.landed| <= n < |SendFrom(log, chunks, outs, i).log.landed|
    ensures exists j :: i <= j < |chunks| && SendFrom(log, chunks, outs, i).log.landed[n].row in chunks[j]
    decreases |chunks| - i
  {
    if i < |chunks| {
      var after := Insert(log, chunks[i], outs(i));
      var s := SendFrom(log, chunks, outs, i).log;
      SendLands(after, chunks, outs, i + 1);
      if n < |after.landed| {
        assert outs(i).Acked? ==> after.landed <= s.landed;
        assert s.landed[n] == after.landed[n];
      } else {
        SendsOnly(after, chunks, outs, i + 1, n);
      }
    }
  }

  lemma {:induction false} JoinedHas<T>(chunks: seq<seq<T>>, j: nat, x: T)
    requires j < |chunks| && x in chunks[j]
    ensures x in JoinReversed(chunks)
  {
    if j > 0 { JoinedHas(chunks[1..], j - 1, x); }
  }

  /** Whatever fails, what lands is a row that was given. */
  lemma SendAddsOnlyRows<T>(log: Log<T>, rows: seq<T>, outs: nat -> Outcome, n: nat)
    requires |log.landed| <= n < |Send(log, rows, outs).log.landed|
    ensures Send(log, rows, outs).log.landed[n].row in rows
  {
    hide Chunks;
    SendsOnly(log, Chunks(rows), outs, 0, n);
    var j :| 0 <= j < |Chunks(rows)| && Send(log, rows, outs).log.landed[n].row in Chunks(rows)[j];
    JoinedHas(Chunks(rows), j, Send(log, rows, outs).log.landed[n].row);
    ChunksTile(rows);
  }

  lemma {:induction false} StreamRowsAppend(a: seq<Entry>, b: seq<Entry>)
    requires a <= b && forall n :: |a| <= n < |b| ==> b[n].row.writeVersion == 0
    ensures StreamRows(b) == StreamRows(a)
    decreases |b|
  {
    if |a| == |b| {
      assert a == b;
    } else {
      StreamRowsAppend(a, b[..|b| - 1]);
    }
  }

  lemma {:induction false} PageVersionsZero(cfg: Cfg, slot: nat, accounts: seq<Account>, r: RawRow)
    requires r in PageRows(cfg, slot, accounts).raw
    ensures r.writeVersion == 0
  {
    hide Label, Classify;
    var us := UpdatesAt(slot, accounts);
    var i :| 0 <= i < |us| && RowOf(cfg, us[i]) == r;
    UpdatesAtVersion(slot, accounts, i);
  }

  lemma {:induction false} UpdatesAtVersion(slot: nat, accounts: seq<Account>, i: nat)
    requires i < |accounts|
    ensures UpdatesAt(slot, accounts)[i] == Update(slot, 0, accounts[i].pubkey, accounts[i].owner, accounts[i].lamports, accounts[i].data)
  {
    if i < |accounts| - 1 { UpdatesAtVersion(slot, accounts[..|accounts| - 1], i); }
  }

  /** A page adds rows of version 0 and nothing else to the shared table, whatever its inserts meet. */
  lemma PageLeavesStream(cfg: Cfg, slot: nat, accounts: seq<Account>, db: SnapshotDb, plan: PagePlan)
    ensures StreamRows(WritePage(db, PageRows(cfg, slot, accounts), plan).db.raw.landed) == StreamRows(db.raw.landed)
  {
    hide Send, SendFrom, Chunks, PageRows, StreamRows;
    var b := PageRows(cfg, slot, accounts);
    var after := Send(db.raw, b.raw, plan.raw).log.landed;
    SendGrows(db.raw, b.raw, plan.raw);
    forall n | |db.raw.landed| <= n < |after|
      ensures after[n].row.writeVersion == 0
    {
      SendAddsOnlyRows(db.raw, b.raw, plan.raw, n);
      PageVersionsZero(cfg, slot, accounts, after[n].row);
    }
    StreamRowsAppend(db.raw.landed, after);
  }

  lemma SendGrows<T>(log: Log<T>, rows: seq<T>, outs: nat -> Outcome)
    ensures log.landed <= Send(log, rows, outs).log.landed
  {
    SendLands(log, Chunks(rows), outs, 0);
  }

  /** So a table shared with the indexer stays one over a whole snapshot run, finished or not. */
  lemma {:induction false} SnapshotKeepsShared(cfg: Cfg, events: seq<Event>, env: Env, dryRun: bool, pages: seq<Filter>, db: SnapshotDb)
    requires Shares(cfg, events, db.raw.landed)
    ensures Shares(cfg, events, RunPages(cfg, env, dryRun, pages, db).db.raw.landed)
  {
    hide WritePage, PageOf, Absorbed, PageRows, StreamRows, Run;
    if pages != [] {
      SnapshotKeepsShared(cfg, events, env, dryRun, pages[..|pages| - 1], db);
      var p, f := RunPages(cfg, env, dryRun, pages[..|pages| - 1], db), pages[|pages| - 1];
      if env.reply(f).Ok? {
        PageLeavesStream(cfg, env.reply(f).value.slot, env.reply(f).value.accounts, p.db, env.plan(f));
      }
    }
  }

  // --------------------------------------------------------- order and end

  /** Decoded rows of a page are sent only after all its raw rows landed, reserves after obligations, markets last. */
  lemma PageOrder(db: SnapshotDb, b: Buffers, plan: PagePlan)
    ensures var after := WritePage(db, b, plan).db;
      && (after.snap != db.snap ==> forall r :: r in b.raw ==> Has(after.raw.landed, r))
      && (after.reserve != db.reserve ==> forall r :: r in b.raw ==> Has(after.raw.landed, r))
      && (after.reserve != db.reserve ==> forall r :: r in b.snap ==> Has(after.snap.landed, r))
      && (after.lm != db.lm ==> forall r :: r in b.raw ==> Has(after.raw.landed, r))
      && (after.lm != db.lm ==> forall r :: r in b.snap ==> Has(after.snap.landed, r))
      && (after.lm != db.lm ==> forall r :: r in b.reserve ==> Has(after.reserve.landed, r))
  {
    hide Send, Has;
    if Send(db.raw, b.raw, plan.raw).ok { SendIsWhole(db.raw, b.raw, plan.raw); }
    if Send(db.snap, b.snap, plan.snap).ok { SendIsWhole(db.snap, b.snap, plan.snap); }
    if Send(db.reserve, b.reserve, plan.reserve).ok { SendIsWhole(db.reserve, b.reserve, plan.reserve); }
  }

  /** The run is dated at the newest slot any of its pages was answered at. */
  lemma {:induction false} NewestSlot(cfg: Cfg, env: Env, dryRun: bool, pages: seq<Filter>, db: SnapshotDb)
    requires RunPages(cfg, env, dryRun, pages, db).ok
    ensures forall i :: 0 <= i < |pages| ==> env.reply(pages[i]).Ok? && env.reply(pages[i]).value.slot <= RunPages(cfg, env, dryRun, pages, db).tally.maxSlot
    ensures pages != [] ==> exists i :: 0 <= i < |pages| && env.reply(pages[i]).Ok? && env.reply(pages[i]).value.slot == RunPages(cfg, env, dryRun, pages, db).tally.maxSlot
    ensures pages == [] ==> RunPages(cfg, env, dryRun, pages, db).tally.maxSlot == 0
  {
    hide WritePage, PageRows, Failures, LabelCounts, RowCount, PlusCounts;
    if pages != [] {
      var front, f := pages[..|pages| - 1], pages[|pages| - 1];
      NewestSlot(cfg, env, dryRun, front, db);
      assert forall i :: 0 <= i < |front| ==> pages[i] == front[i];
      assert pages[|pages| - 1] == f;
      var m := RunPages(cfg, env, dryRun, front, db).tally.maxSlot;
      if env.reply(f).value.slot < m {
        var i :| 0 <= i < |front| && env.reply(front[i]).Ok? && env.reply(front[i]).value.slot == m;
        assert pages[i] == front[i];
      }
    }
  }

  /**
  How a run ends. The provenance row is sent if and only if it is not a dry run,
  every page went through, and there were accounts; the run succeeds if and only if
  every page went through, there were accounts, and that row, if due, was acknowledged.
   */
  lemma ProvenanceExact(cfg: Cfg, env: Env, scope: Scope, name: string, dryRun: bool, runs: Outcome, db: SnapshotDb)
    ensures var p := RunPages(cfg, env, dryRun, Pages(scope), db); var end := Conclude(p, name, dryRun, runs);
      && (end.db.runs.issued != db.runs.issued <==> !dryRun && p.ok && p.tally.accounts > 0)
      && (end.ok <==> p.ok && p.tally.accounts > 0 && (dryRun || runs.Acked?))
      && end.db.raw == p.db.raw && end.db.snap == p.db.snap && end.db.reserve == p.db.reserve && end.db.lm == p.db.lm
  {
    hide RunPages, Pages, Landing;
    RunGrows(cfg, env, Pages(scope), db);
    DryRunWritesNothing(cfg, env, Pages(scope), db);
  }
}
