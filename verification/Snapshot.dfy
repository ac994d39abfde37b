/**
The one-shot snapshot (src/bin/snapshot.rs): which accounts the paged fetch visits,
what each page writes, and what the run counts.
 */
module Snapshot {
  import opened Wrappers
  import opened Text
  import opened MergeTree
  import opened Schema
  import opened Protocol
  import opened Coverage

  const SNAPSHOT_WRITE_VERSION: nat := 0

  const INSERT_BATCH: nat := 4096

  const OBLIGATION_OWNER_OFFSET: nat := 64

  const OBLIGATION_PAGES: nat := 256

  /** One account as `getProgramAccounts` returns it. */
  datatype Account = Account(pubkey: seq<Byte>, owner: seq<Byte>, lamports: nat, data: seq<Byte>)

  // ---------------------------------------------------------------- filters

  datatype PageFilter = PageFilter(offset: nat, byte: Byte)

  /** A discriminator at offset 0 and a single byte further on, either optional. */
  datatype Filter = Filter(disc: Option<seq<Byte>>, page: Option<PageFilter>)

  /** `memcmp`: a payload too short to hold the bytes does not match. */
  predicate Matches(data: seq<Byte>, f: Filter) {
    && (f.disc.Some? ==> |f.disc.value| <= |data| && data[..|f.disc.value|] == f.disc.value)
    && (f.page.Some? ==> f.page.value.offset < |data| && data[f.page.value.offset] == f.page.value.byte)
  }

  /** What the server answers on an account set that stands still. */
  function Matching(world: seq<Account>, f: Filter): seq<Account> {
    if world == [] then []
    else
      var rest := Matching(world[..|world| - 1], f);
      if Matches(world[|world| - 1].data, f) then rest + [world[|world| - 1]] else rest
  }

  datatype Scope = ScopeKnown | ScopeAll

  /** One entry of the filter list: a discriminator, and the offset to page at. */
  datatype Sweep = Sweep(disc: Option<seq<Byte>>, offset: Option<nat>)

  function Sweeps(scope: Scope): seq<Sweep> {
    match scope
    case ScopeKnown => [Sweep(Some(OBLIGATION_DISC), Some(OBLIGATION_OWNER_OFFSET)), Sweep(Some(RESERVE_DISC), None), Sweep(Some(LENDING_MARKET_DISC), None)]
    case ScopeAll => [Sweep(None, None)]
  }

  function BytePages(s: Sweep, n: nat): seq<Filter>
    requires n <= OBLIGATION_PAGES && s.offset.Some?
  {
    if n == 0 then [] else BytePages(s, n - 1) + [Filter(s.disc, Some(PageFilter(s.offset.value, n - 1)))]
  }

  function SweepPages(s: Sweep): seq<Filter> {
    if s.offset.None? then [Filter(s.disc, None)] else BytePages(s, OBLIGATION_PAGES)
  }

  function AllPages(sweeps: seq<Sweep>): seq<Filter> {
    if sweeps == [] then [] else AllPages(sweeps[..|sweeps| - 1]) + SweepPages(sweeps[|sweeps| - 1])
  }

  /** The requests of a run, in order. */
  function Pages(scope: Scope): seq<Filter> {
    AllPages(Sweeps(scope))
  }

  predicate Tagged(data: seq<Byte>, disc: seq<Byte>) {
    |disc| <= |data| && data[..|disc|] == disc
  }

  /** The accounts a run is meant to cover: obligations long enough to hold an owner, reserves, markets; or everything. */
  predicate InScope(scope: Scope, data: seq<Byte>) {
    scope.ScopeAll? ||
    (Tagged(data, OBLIGATION_DISC) && |data| > OBLIGATION_OWNER_OFFSET) || Tagged(data, RESERVE_DISC) || Tagged(data, LENDING_MARKET_DISC)
  }

  // --------------------------------------------------- each account, once

  /** How many of the requests an account answers to. */
  function Visits(data: seq<Byte>, pages: seq<Filter>): nat {
    if pages == [] then 0
    else Visits(data, pages[..|pages| - 1]) + (if Matches(data, pages[|pages| - 1]) then 1 else 0)
  }

  lemma VisitsSnoc(data: seq<Byte>, pages: seq<Filter>, f: Filter)
    ensures Visits(data, pages + [f]) == Visits(data, pages) + (if Matches(data, f) then 1 else 0)
  {
    assert (pages + [f])[..|pages|] == pages;
  }

  lemma {:induction false} VisitsAppend(data: seq<Byte>, a: seq<Filter>, b: seq<Filter>)
    ensures Visits(data, a + b) == Visits(data, a) + Visits(data, b)
  {
    if b == [] {
      assert a + b == a;
    } else {
      VisitsAppend(data, a, b[..|b| - 1]);
      assert (a + b)[..|a + b| - 1] == a + b[..|b| - 1];
    }
  }

  predicate Carries(data: seq<Byte>, disc: Option<seq<Byte>>) {
    disc.Some? ==> Tagged(data, disc.value)
  }

  lemma {:induction false} ByteVisits(data: seq<Byte>, s: Sweep, n: nat)
    requires n <= OBLIGATION_PAGES && s.offset.Some?
    ensures Visits(data, BytePages(s, n)) ==
            if Carries(data, s.disc) && |data| > s.offset.value && data[s.offset.value] < n then 1 else 0
  {
    if n > 0 {
      ByteVisits(data, s, n - 1);
      VisitsSnoc(data, BytePages(s, n - 1), Filter(s.disc, Some(PageFilter(s.offset.value, n - 1))));
    }
  }

  /** A paged sweep meets an account once if it reaches the paged byte, an unpaged one in any case. */
  lemma SweepVisits(data: seq<Byte>, s: Sweep)
    ensures Visits(data, SweepPages(s)) == if Carries(data, s.disc) && (s.offset.Some? ==> |data| > s.offset.value) then 1 else 0
  {
    if s.offset.None? {
      VisitsSnoc(data, [], Filter(s.disc, None));
      assert [] + [Filter(s.disc, None)] == SweepPages(s);
    } else {
      ByteVisits(data, s, OBLIGATION_PAGES);
    }
  }

  lemma OneTag(data: seq<Byte>)
    ensures !(Tagged(data, OBLIGATION_DISC) && Tagged(data, RESERVE_DISC))
    ensures !(Tagged(data, OBLIGATION_DISC) && Tagged(data, LENDING_MARKET_DISC))
    ensures !(Tagged(data, RESERVE_DISC) && Tagged(data, LENDING_MARKET_DISC))
  {
    assert OBLIGATION_DISC[0] != RESERVE_DISC[0] && OBLIGATION_DISC[0] != LENDING_MARKET_DISC[0] && RESERVE_DISC[0] != LENDING_MARKET_DISC[0];
    if |data| >= 8 { assert data[..8][0] == data[0]; }
  }

  lemma {:induction false} SweepsVisit(data: seq<Byte>, sweeps: seq<Sweep>, s: Sweep)
    ensures Visits(data, AllPages(sweeps + [s])) == Visits(data, AllPages(sweeps)) + Visits(data, SweepPages(s))
  {
    hide SweepPages, Visits;
    assert (sweeps + [s])[..|sweeps|] == sweeps;
    VisitsAppend(data, AllPages(sweeps), SweepPages(s));
  }

  /** The pages are disjoint, and exhaustive exactly on the accounts in scope: an obligation too short to hold an owner is never fetched. */
  lemma EachAccountOnce(scope: Scope, data: seq<Byte>)
    ensures Visits(data, Pages(scope)) == if InScope(scope, data) then 1 else 0
  {
    hide SweepPages, AllPages, Tagged, Visits;
    var all := Sweeps(scope);
    NoPagesNoVisits(data);
    SweepsVisit(data, [], all[0]);
    SweepVisits(data, all[0]);
    assert [] + [all[0]] == [all[0]];
    match scope
    case ScopeKnown =>
      SweepsVisit(data, [all[0]], all[1]);
      SweepVisits(data, all[1]);
      SweepsVisit(data, [all[0]] + [all[1]], all[2]);
      SweepVisits(data, all[2]);
      assert [all[0]] + [all[1]] + [all[2]] == all;
      OneTag(data);
    case ScopeAll =>
      assert [all[0]] == all;
  }

  lemma NoPagesNoVisits(data: seq<Byte>)
    ensures AllPages([]) == [] && Visits(data, []) == 0
  {
  }

  /** Everything the requests return, in order. */
  function Fetched(world: seq<Account>, pages: seq<Filter>): seq<Account> {
    if pages == [] then [] else Fetched(world, pages[..|pages| - 1]) + Matching(world, pages[|pages| - 1])
  }

  lemma {:induction false} MatchingCount(world: seq<Account>, f: Filter, a: Account)
    ensures multiset(Matching(world, f))[a] == if Matches(a.data, f) then multiset(world)[a] else 0
  {
    hide Matches;
    if world != [] {
      MatchingCount(world[..|world| - 1], f, a);
      assert world == world[..|world| - 1] + [world[|world| - 1]];
    }
  }

  lemma {:induction false} FetchedCount(world: seq<Account>, pages: seq<Filter>, a: Account)
    ensures multiset(Fetched(world, pages))[a] == Visits(a.data, pages) * multiset(world)[a]
  {
    hide Matches, Matching;
    if pages != [] {
      FetchedCount(world, pages[..|pages| - 1], a);
      MatchingCount(world, pages[|pages| - 1], a);
      OneMore(Visits(a.data, pages[..|pages| - 1]), multiset(world)[a]);
    }
  }

  lemma OneMore(visits: nat, copies: nat)
    ensures (visits + 1) * copies == visits * copies + copies
    ensures (visits + 0) * copies == visits * copies
  {
  }

  /**
  Paging loses nothing and repeats nothing: on an account set that stands still, a
  run fetches each account in scope as often as it exists and no other.
   */
  lemma SnapshotIsWorld(world: seq<Account>, scope: Scope, a: Account)
    ensures multiset(Fetched(world, Pages(scope)))[a] == if InScope(scope, a.data) then multiset(world)[a] else 0
  {
    hide Pages, Fetched, InScope;
    FetchedCount(world, Pages(scope), a);
    EachAccountOnce(scope, a.data);
  }

  // ------------------------------------------------------------ insert chunks

  /** Blocks are cut from the tail: full ones first, then what is left. */
  function Chunks<T>(rows: seq<T>): seq<seq<T>> {
    if rows == [] then []
    else if |rows| <= INSERT_BATCH then [rows]
    else [rows[|rows| - INSERT_BATCH..]] + Chunks(rows[..|rows| - INSERT_BATCH])
  }

  function JoinReversed<T>(chunks: seq<seq<T>>): seq<T> {
    if chunks == [] then [] else JoinReversed(chunks[1..]) + chunks[0]
  }

  /** Joined back from the last to the first, the blocks are the rows. */
  lemma {:induction false} ChunksTile<T>(rows: seq<T>)
    ensures JoinReversed(Chunks(rows)) == rows
    ensures forall i :: 0 <= i < |Chunks(rows)| ==> 0 < |Chunks(rows)[i]| <= INSERT_BATCH
    ensures forall i :: 0 <= i < |Chunks(rows)| - 1 ==> |Chunks(rows)[i]| == INSERT_BATCH
  {
    if rows != [] {
      if |rows| <= INSERT_BATCH {
        assert Chunks(rows)[1..] == [];
        assert [] + rows == rows;
      } else {
        var front, chunk := rows[..|rows| - INSERT_BATCH], rows[|rows| - INSERT_BATCH..];
        ChunksTile(front);
        assert Chunks(rows)[1..] == Chunks(front);
        assert front + chunk == rows;
      }
    }
  }

  datatype Sent<T> = Sent(log: Log<T>, ok: bool)

  /** Blocks are inserted one by one; the first that is not acknowledged ends it. */
  function SendFrom<T>(log: Log<T>, chunks: seq<seq<T>>, outs: nat -> Outcome, i: nat): Sent<T>
    decreases |chunks| - i
  {
    if i >= |chunks| then Sent(log, true)
    else
      var after := Insert(log, chunks[i], outs(i));
      if outs(i).Acked? then SendFrom(after, chunks, outs, i + 1) else Sent(after, false)
  }

  function Send<T>(log: Log<T>, rows: seq<T>, outs: nat -> Outcome): Sent<T> {
    SendFrom(log, Chunks(rows), outs, 0)
  }

  function Total<T>(chunks: seq<seq<T>>, i: nat): nat
    decreases |chunks| - i
  {
    if i >= |chunks| then 0 else |chunks[i]| + Total(chunks, i + 1)
  }

  lemma {:induction false} SendLands<T>(log: Log<T>, chunks: seq<seq<T>>, outs: nat -> Outcome, i: nat)
    ensures var s := SendFrom(log, chunks, outs, i);
      && log.landed <= s.log.landed && log.issued <= s.log.issued
      && (s.ok ==> |s.log.landed| == |log.landed| + Total(chunks, i))
      && (s.ok ==> forall j, x :: i <= j < |chunks| && x in chunks[j] ==> Has(s.log.landed, x))
    decreases |chunks| - i
  {
    if i < |chunks| {
      var after := Insert(log, chunks[i], outs(i));
      SendLands(after, chunks, outs, i + 1);
      var s := SendFrom(log, chunks, outs, i);
      if s.ok {
        forall x | x in chunks[i]
          ensures Has(s.log.landed, x)
        {
          var k :| 0 <= k < |chunks[i]| && chunks[i][k] == x;
          AckedHasAll(log.landed, chunks[i], outs(i), k);
          HasMore(after.landed, s.log.landed, x);
        }
      }
    }
  }

  lemma {:induction false} TotalIsJoined<T>(chunks: seq<seq<T>>, i: nat)
    requires i <= |chunks|
    ensures Total(chunks, i) == |JoinReversed(chunks[i..])|
    decreases |chunks| - i
  {
    if i < |chunks| {
      TotalIsJoined(chunks, i + 1);
      assert chunks[i..][1..] == chunks[i + 1..];
    }
  }

  lemma {:induction false} InJoined<T>(chunks: seq<seq<T>>, x: T)
    requires x in JoinReversed(chunks)
    ensures exists j :: 0 <= j < |chunks| && x in chunks[j]
  {
    if x in chunks[0] {
    } else {
      InJoined(chunks[1..], x);
      var j :| 0 <= j < |chunks[1..]| && x in chunks[1..][j];
      assert x in chunks[j + 1];
    }
  }

  /** An insert that reports success has landed every row, and exactly as many rows as it was given. */
  lemma SendIsWhole<T>(log: Log<T>, rows: seq<T>, outs: nat -> Outcome)
    requires Send(log, rows, outs).ok
    ensures |Send(log, rows, outs).log.landed| == |log.landed| + |rows|
    ensures forall x :: x in rows ==> Has(Send(log, rows, outs).log.landed, x)
  {
    hide Has;
    var chunks := Chunks(rows);
    ChunksTile(rows);
    SendLands(log, chunks, outs, 0);
    TotalIsJoined(chunks, 0);
    assert chunks[0..] == chunks;
    forall x | x in rows
      ensures Has(Send(log, rows, outs).log.landed, x)
    {
      InJoined(chunks, x);
    }
  }

  // -------------------------------------------------------------- one page

  /** An account as the update both writers store: the page's slot, the sentinel version. */
  function UpdateAt(slot: nat, a: Account): Update {
    Update(slot, SNAPSHOT_WRITE_VERSION, a.pubkey, a.owner, a.lamports, a.data)
  }

  function UpdatesAt(slot: nat, accounts: seq<Account>): (r: seq<Update>)
    ensures |r| == |accounts|
  {
    if accounts == [] then []
    else UpdatesAt(slot, accounts[..|accounts| - 1]) + [UpdateAt(slot, accounts[|accounts| - 1])]
  }

  function PageRows(cfg: Cfg, slot: nat, accounts: seq<Account>): Buffers {
    BuffersOf(cfg, UpdatesAt(slot, accounts))
  }

  function KindOf(cfg: Cfg, a: Account): AccountKind {
    Classify(cfg.discs, a.data)
  }

  /** Decoded by a decoder that turned it down. */
  predicate Fails(cfg: Cfg, a: Account) {
    var t := TableOf(KindOf(cfg, a));
    t.Some? && cfg.decode(t.value, a.data).None?
  }

  function Failures(cfg: Cfg, accounts: seq<Account>): nat {
    if accounts == [] then 0
    else Failures(cfg, accounts[..|accounts| - 1]) + (if Fails(cfg, accounts[|accounts| - 1]) then 1 else 0)
  }

  function KindCount(cfg: Cfg, accounts: seq<Account>, kind: AccountKind): nat {
    if accounts == [] then 0
    else KindCount(cfg, accounts[..|accounts| - 1], kind) + (if KindOf(cfg, accounts[|accounts| - 1]) == kind then 1 else 0)
  }

  type Counts = map<string, nat>

  function Get(m: Counts, text: string): nat {
    if text in m then m[text] else 0
  }

  function LabelCounts(cfg: Cfg, accounts: seq<Account>): Counts {
    if accounts == [] then map[]
    else
      var m := LabelCounts(cfg, accounts[..|accounts| - 1]);
      var text := Label(KindOf(cfg, accounts[|accounts| - 1]));
      m[text := Get(m, text) + 1]
  }

  function RowCount(b: Buffers): nat {
    |b.raw| + |b.snap| + |b.reserve| + |b.lm|
  }

  const OBLIGATION: AccountKind := Known("Obligation")
  const RESERVE: AccountKind := Known("Reserve")
  const MARKET: AccountKind := Known("LendingMarket")

  lemma PushCount(cfg: Cfg, b: Buffers, slot: nat, a: Account)
    ensures RowCount(Push(cfg, b, UpdateAt(slot, a))) + (if Fails(cfg, a) then 1 else 0) ==
            RowCount(b) + 1 + (if KindOf(cfg, a) in {OBLIGATION, RESERVE, MARKET} then 1 else 0)
    ensures |Push(cfg, b, UpdateAt(slot, a)).raw| == |b.raw| + 1
  {
    hide Classify, Label;
  }

  lemma PageRowsNext(cfg: Cfg, slot: nat, accounts: seq<Account>)
    requires accounts != []
    ensures PageRows(cfg, slot, accounts) ==
            Push(cfg, PageRows(cfg, slot, accounts[..|accounts| - 1]), UpdateAt(slot, accounts[|accounts| - 1]))
  {
    PushIsBuffersOf(cfg, UpdatesAt(slot, accounts[..|accounts| - 1]), UpdateAt(slot, accounts[|accounts| - 1]));
  }

  /** Nothing vanishes on a page: each account gives a raw row, and each account with a decoder a decoded row or a failure. */
  lemma {:induction false} PageConserves(cfg: Cfg, slot: nat, accounts: seq<Account>)
    ensures |PageRows(cfg, slot, accounts).raw| == |accounts|
    ensures RowCount(PageRows(cfg, slot, accounts)) + Failures(cfg, accounts) ==
            |accounts| + KindCount(cfg, accounts, OBLIGATION) + KindCount(cfg, accounts, RESERVE) + KindCount(cfg, accounts, MARKET)
  {
    hide Push, RowCount, Fails, KindOf;
    if accounts == [] {
      NoRows(cfg, slot);
    } else {
      var front, a := accounts[..|accounts| - 1], accounts[|accounts| - 1];
      PageConserves(cfg, slot, front);
      PageRowsNext(cfg, slot, accounts);
      PushCount(cfg, PageRows(cfg, slot, front), slot, a);
    }
  }

  lemma NoRows(cfg: Cfg, slot: nat)
    ensures PageRows(cfg, slot, []) == NO_ROWS && RowCount(NO_ROWS) == 0
  {
  }

  lemma KindIsValid(cfg: Cfg, a: Account)
    requires ValidDiscriminators(cfg.discs)
    ensures ValidKind(KindOf(cfg, a))
  {
    ClassifyValid(cfg.discs, a.data);
  }

  /** Counting by stored label is counting by kind. */
  lemma {:induction false} LabelsCountKinds(cfg: Cfg, accounts: seq<Account>, kind: AccountKind)
    requires ValidDiscriminators(cfg.discs) && ValidKind(kind)
    ensures Get(LabelCounts(cfg, accounts), Label(kind)) == KindCount(cfg, accounts, kind)
  {
    hide Label, KindOf, ValidKind, ValidDiscriminators;
    if accounts != [] {
      var a := accounts[|accounts| - 1];
      LabelsCountKinds(cfg, accounts[..|accounts| - 1], kind);
      KindIsValid(cfg, a);
      if Label(KindOf(cfg, a)) == Label(kind) {
        LabelInjective(KindOf(cfg, a), kind);
      }
    }
  }
}
