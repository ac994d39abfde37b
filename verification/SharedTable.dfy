/**
`account_updates` has a second writer, the snapshot (src/bin/snapshot.rs), which
marks its rows with write version 0. What is proved of the indexer's rows holds of
them in the shared table too, whatever the other writer adds and when.
 */
module SharedTable {
  import opened Wrappers
  import opened MergeTree
  import opened Schema
  import opened Protocol
  import opened Coverage
  import opened Safety
  import opened IngestTheorems
  import opened Monotone
  import opened ColdTable
  import opened ColdCopy
  import opened ColdHistory
  import opened EndToEnd

  /** The indexer's rows of a table it shares with the snapshot writer, which marks its own with write version 0. */
  function StreamRows(table: seq<Entry>): seq<Entry> {
    if table == [] then []
    else
      var rest := StreamRows(table[..|table| - 1]);
      if table[|table| - 1].row.writeVersion > 0 then rest + [table[|table| - 1]] else rest
  }

  /** A real update never has write version 0. */
  ghost predicate RealVersions(chain: seq<Update>) {
    forall k :: 0 <= k < |chain| ==> chain[k].writeVersion > 0
  }

  /** The snapshot's rows and the indexer's never meet under one key, so `FINAL` treats each writer's as if alone. */
  lemma {:induction false} StreamFinal(table: seq<Entry>, k: Key)
    requires k.writeVersion > 0
    ensures k in Final(table, RawKey) <==> k in Final(StreamRows(table), RawKey)
    ensures k in Final(table, RawKey) ==> Final(table, RawKey)[k] == Final(StreamRows(table), RawKey)[k]
  {
    if table != [] {
      var front, e := table[..|table| - 1], table[|table| - 1];
      StreamFinal(front, k);
      if e.row.writeVersion > 0 {
        assert (StreamRows(front) + [e])[..|StreamRows(front)|] == StreamRows(front);
      }
    }
  }

  lemma StreamPart(table: seq<Entry>, part: nat, x: Entry)
    requires x.row.writeVersion > 0
    ensures x in PartRows(table, part) <==> x in PartRows(StreamRows(table), part)
  {
    hide Final, OrderedFinal, Range, StreamRows;
    StreamFinal(table, RawKey(x.row));
    OrderedFinalMembers(table, x);
    OrderedFinalMembers(StreamRows(table), x);
    RangeMembers(OrderedFinal(table), part, part + W);
    RangeMembers(OrderedFinal(StreamRows(table)), part, part + W);
  }

  lemma StreamBarePart(table: seq<Entry>, part: nat, x: Entry)
    requires x.row.writeVersion > 0
    ensures x in BarePart(table, part) <==> x in BarePart(StreamRows(table), part)
  {
    hide PartRows, StreamRows;
    if x in BarePart(table, part) {
      var i :| 0 <= i < |PartRows(table, part)| && BarePart(table, part)[i] == x;
      StreamPart(table, part, PartRows(table, part)[i]);
      BareHas(PartRows(StreamRows(table), part), PartRows(table, part)[i]);
    }
    if x in BarePart(StreamRows(table), part) {
      var i :| 0 <= i < |PartRows(StreamRows(table), part)| && BarePart(StreamRows(table), part)[i] == x;
      StreamPart(table, part, PartRows(StreamRows(table), part)[i]);
      BareHas(PartRows(table, part), PartRows(StreamRows(table), part)[i]);
    }
  }

  lemma BareHas(rows: seq<Entry>, e: Entry)
    requires e in rows
    ensures Stamped(e.row, 0) in Bare(rows)
  {
    var i :| 0 <= i < |rows| && rows[i] == e;
    assert Bare(rows)[i] == Stamped(e.row, 0);
  }

  /** A table both writers insert into: leave out the rows of version 0 and it is what the ingest run landed. */
  ghost predicate Shares(cfg: Cfg, events: seq<Event>, table: seq<Entry>) {
    StreamRows(table) == Landed(cfg, events)
  }

  lemma LandedRowsAre(cfg: Cfg, events: seq<Event>, key: Key)
    requires SlotOrdered(cfg.chain) && KeysDistinct(cfg.chain) && ServedRun(cfg, events)
    requires key in View(Landed(cfg, events), RawKey)
    ensures var row := View(Landed(cfg, events), RawKey)[key];
      Has(Landed(cfg, events), row) && RawKey(row) == key && FromChain(cfg, row)
  {
    hide Run, ServedRun, Final, RowOf, Inv;
    RunKeepsInv(cfg, events);
    RawRowsFromChain(cfg, Run(cfg, events));
    ViewIsRows(Landed(cfg, events), RawKey);
  }

  lemma LandedViewRow(cfg: Cfg, events: seq<Event>, key: Key) returns (k: nat)
    requires SlotOrdered(cfg.chain) && KeysDistinct(cfg.chain) && ServedRun(cfg, events)
    requires key in View(Landed(cfg, events), RawKey)
    ensures k < |cfg.chain| && UpdateKey(cfg.chain[k]) == key && View(Landed(cfg, events), RawKey)[key] == RowOf(cfg, cfg.chain[k])
    ensures Has(Landed(cfg, events), RowOf(cfg, cfg.chain[k]))
  {
    hide Run, ServedRun, View, RowOf, Has;
    LandedRowsAre(cfg, events, key);
    k :| 0 <= k < |cfg.chain| && View(Landed(cfg, events), RawKey)[key] == RowOf(cfg, cfg.chain[k]);
    DerivedHasKey(cfg, cfg.chain[k]);
  }

  lemma StreamView(table: seq<Entry>, key: Key)
    requires key.writeVersion > 0
    ensures key in View(table, RawKey) <==> key in View(StreamRows(table), RawKey)
    ensures key in View(table, RawKey) ==> View(table, RawKey)[key] == View(StreamRows(table), RawKey)[key]
  {
    hide Final, StreamRows;
    StreamFinal(table, key);
  }

  /** `FINAL` of the shared table, rows of version 0 aside, is exactly the landed chain updates. */
  lemma SharedFinalIsLandedUpdates(cfg: Cfg, events: seq<Event>, table: seq<Entry>, key: Key)
    requires SlotOrdered(cfg.chain) && KeysDistinct(cfg.chain) && ServedRun(cfg, events)
    requires RealVersions(cfg.chain) && Shares(cfg, events, table) && key.writeVersion > 0
    ensures key in View(table, RawKey) <==>
      exists k :: 0 <= k < |cfg.chain| && UpdateKey(cfg.chain[k]) == key && Has(Landed(cfg, events), RowOf(cfg, cfg.chain[k]))
    ensures forall k :: 0 <= k < |cfg.chain| && UpdateKey(cfg.chain[k]) == key && key in View(table, RawKey) ==>
      View(table, RawKey)[key] == RowOf(cfg, cfg.chain[k])
  {
    hide Run, ServedRun, View, StreamRows, RowOf, Has;
    StreamView(table, key);
    FinalIsLandedUpdates(cfg, events);
    if key in View(table, RawKey) {
      var k := LandedViewRow(cfg, events, key);
    }
  }

  /**
  In the shared table too, a partition below the durable checkpoint with no lossy
  seam in it holds, rows of version 0 aside, exactly the chain's updates in its slots.
   */
  lemma SettledPartitionIsChain(cfg: Cfg, events: seq<Event>, table: seq<Entry>, part: nat, x: Entry)
    requires SlotOrdered(cfg.chain) && KeysDistinct(cfg.chain) && ServedRun(cfg, events)
    requires RealVersions(cfg.chain) && Shares(cfg, events, table) && x.row.writeVersion > 0
    requires ReadResumeSlot(Run(cfg, events).db).Some? && part + W <= ReadResumeSlot(Run(cfg, events).db).value
    requires NothingLostIn(cfg, Run(cfg, events).hist.seams, part)
    ensures x in BarePart(table, part) <==> x.at == 0 && part <= x.row.slot < part + W && FromChain(cfg, x.row)
  {
    hide BarePart, Run, ServedRun, ReadResumeSlot, NothingLostIn, StreamRows, PartLanded;
    BelowCheckpointLanded(cfg, events, part);
    LandedPartIsChain(cfg, events, part, x);
    StreamBarePart(table, part, x);
  }

  ghost predicate SameStreamRows(a: seq<Entry>, b: seq<Entry>, part: nat) {
    forall x: Entry :: x.row.writeVersion > 0 ==> (x in BarePart(a, part) <==> x in BarePart(b, part))
  }

  lemma {:induction false} AllStream(table: seq<Entry>)
    requires forall i :: 0 <= i < |table| ==> table[i].row.writeVersion > 0
    ensures StreamRows(table) == table
  {
    if table != [] {
      AllStream(table[..|table| - 1]);
      assert table == table[..|table| - 1] + [table[|table| - 1]];
    }
  }

  lemma LandedIsStream(cfg: Cfg, events: seq<Event>)
    requires SlotOrdered(cfg.chain) && KeysDistinct(cfg.chain) && ServedRun(cfg, events) && RealVersions(cfg.chain)
    ensures Shares(cfg, events, Landed(cfg, events))
  {
    hide Run, ServedRun, Inv, Label, Classify;
    RunKeepsInv(cfg, events);
    RawRowsFromChain(cfg, Run(cfg, events));
    AllStream(Landed(cfg, events));
  }

  /** What settles the indexer's rows of a partition of the shared table for ever is the same, whatever the snapshot writer adds. */
  lemma SharedSettledExact(cfg: Cfg, events: seq<Event>, table: seq<Entry>, part: nat)
    requires SlotOrdered(cfg.chain) && KeysDistinct(cfg.chain) && ServedRun(cfg, events)
    requires RealVersions(cfg.chain) && Shares(cfg, events, table)
    ensures (forall later, after :: events <= later && ServedRun(cfg, later) && Shares(cfg, later, after) ==> SameStreamRows(table, after, part))
      <==> PartLanded(cfg, Run(cfg, events).db, part)
  {
    hide Run, ServedRun, BarePart, StreamRows, PartLanded, Has, RowOf, OneMoreUpdate;
    if PartLanded(cfg, Run(cfg, events).db, part) {
      forall later, after | events <= later && ServedRun(cfg, later) && Shares(cfg, later, after)
        ensures SameStreamRows(table, after, part)
      {
        LandedNeverChanges(cfg, events, later, part);
        SameLandedSameStream(table, after, part);
      }
    } else {
      NotLandedYet(cfg, Run(cfg, events).db, part);
      var k :| 0 <= k < |cfg.chain| && part <= cfg.chain[k].slot < part + W && !Has(Landed(cfg, events), RowOf(cfg, cfg.chain[k]));
      var later := events + OneMoreUpdate(k);
      AnyUpdateMayLand(cfg, events, k);
      LandedIsStream(cfg, later);
      LandedInStream(cfg, events, table, later, part, k);
    }
  }

  lemma NotLandedYet(cfg: Cfg, db: Db, part: nat)
    requires !PartLanded(cfg, db, part)
    ensures exists k :: 0 <= k < |cfg.chain| && part <= cfg.chain[k].slot < part + W && !Has(db.raw.landed, RowOf(cfg, cfg.chain[k]))
  {
  }

  lemma SameLandedSameStream(a: seq<Entry>, b: seq<Entry>, part: nat)
    requires BarePart(StreamRows(a), part) == BarePart(StreamRows(b), part)
    ensures SameStreamRows(a, b, part)
  {
    hide BarePart, StreamRows;
    forall x: Entry | x.row.writeVersion > 0
      ensures x in BarePart(a, part) <==> x in BarePart(b, part)
    {
      StreamBarePart(a, part, x);
      StreamBarePart(b, part, x);
    }
  }

  lemma LandedInStream(cfg: Cfg, events: seq<Event>, table: seq<Entry>, later: seq<Event>, part: nat, k: nat)
    requires SlotOrdered(cfg.chain) && KeysDistinct(cfg.chain) && ServedRun(cfg, events) && ServedRun(cfg, later)
    requires RealVersions(cfg.chain) && Shares(cfg, events, table) && Shares(cfg, later, Landed(cfg, later))
    requires k < |cfg.chain| && part <= cfg.chain[k].slot < part + W
    requires !Has(Landed(cfg, events), RowOf(cfg, cfg.chain[k])) && Has(Landed(cfg, later), RowOf(cfg, cfg.chain[k]))
    ensures !SameStreamRows(table, Landed(cfg, later), part)
  {
    hide BarePart, Run, ServedRun, Has, Inv, RawKey, Functional, StreamRows, Label, Classify;
    var x := Stamped(RowOf(cfg, cfg.chain[k]), 0);
    RunKeepsInv(cfg, events);
    RawRowsFromChain(cfg, Run(cfg, events));
    BarePartExact(Landed(cfg, events), part, x);
    RunKeepsInv(cfg, later);
    RawRowsFromChain(cfg, Run(cfg, later));
    BarePartExact(Landed(cfg, later), part, x);
    StreamBarePart(table, part, x);
  }
}
