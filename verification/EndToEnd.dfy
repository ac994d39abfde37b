/** From the chain to the cold copy: the ingest protocol, the other writer of its table, and the export together. */
module EndToEnd {
  import opened Wrappers
  import opened Text
  import opened MergeTree
  import opened Schema
  import opened Protocol
  import opened Coverage
  import opened Safety
  import opened IngestTheorems
  import opened Monotone
  import opened Witnesses
  import opened ColdStarts
  import opened ColdPath
  import opened ColdTable
  import opened Parquet
  import opened ColdCopy
  import opened ColdHistory

  // -------------------------------------------------- settled partitions

  /** Every update with a slot in the partition has landed. */
  ghost predicate PartLanded(cfg: Cfg, db: Db, part: nat) {
    forall k :: 0 <= k < |cfg.chain| && part <= cfg.chain[k].slot < part + W ==> Has(db.raw.landed, RowOf(cfg, cfg.chain[k]))
  }

  /** No update with a slot in the partition was lost at a seam. */
  ghost predicate NothingLostIn(cfg: Cfg, seams: seq<Seam>, part: nat) {
    forall k :: 0 <= k < |cfg.chain| && part <= cfg.chain[k].slot < part + W ==> !Excused(cfg, seams, k)
  }

  lemma StoredIsLanded(cfg: Cfg, db: Db, u: Update)
    requires Stored(cfg, db, u)
    ensures Has(db.raw.landed, RowOf(cfg, u))
  {
  }


  /** The partition then holds exactly the chain's updates in its slots. */
  lemma LandedPartIsChain(cfg: Cfg, events: seq<Event>, part: nat, x: Entry)
    requires SlotOrdered(cfg.chain) && KeysDistinct(cfg.chain) && ServedRun(cfg, events)
    requires PartLanded(cfg, Run(cfg, events).db, part)
    ensures x in BarePart(Run(cfg, events).db.raw.landed, part) <==> x.at == 0 && part <= x.row.slot < part + W && FromChain(cfg, x.row)
  {
    hide BarePart, Run, RawKey, RowOf, Inv;
    var s := Run(cfg, events);
    RunKeepsInv(cfg, events);
    RawRowsFromChain(cfg, s);
    BarePartExact(s.db.raw.landed, part, x);
    if part <= x.row.slot < part + W && FromChain(cfg, x.row) {
      var k :| 0 <= k < |cfg.chain| && x.row == RowOf(cfg, cfg.chain[k]);
      RowOfSlot(cfg, cfg.chain[k]);
    }
  }

  /** Below the durable checkpoint, with no lossy seam in it, a partition has landed. */
  lemma BelowCheckpointLanded(cfg: Cfg, events: seq<Event>, part: nat)
    requires SlotOrdered(cfg.chain) && ServedRun(cfg, events)
    requires ReadResumeSlot(Run(cfg, events).db).Some? && part + W <= ReadResumeSlot(Run(cfg, events).db).value
    requires NothingLostIn(cfg, Run(cfg, events).hist.seams, part)
    ensures PartLanded(cfg, Run(cfg, events).db, part)
  {
    hide Run, RowOf, ReadResumeSlot, Stored, Excused, ServedRun;
    forall k | 0 <= k < |cfg.chain| && part <= cfg.chain[k].slot < part + W
      ensures Has(Run(cfg, events).db.raw.landed, RowOf(cfg, cfg.chain[k]))
    {
      NoSilentHole(cfg, events, k);
      StoredIsLanded(cfg, Run(cfg, events).db, cfg.chain[k]);
    }
  }

  lemma LandedStays(cfg: Cfg, events: seq<Event>, later: seq<Event>, part: nat)
    requires events <= later && PartLanded(cfg, Run(cfg, events).db, part)
    ensures PartLanded(cfg, Run(cfg, later).db, part)
  {
    hide Run, RowOf, Has;
    RunExtends(cfg, events, later);
    forall k | 0 <= k < |cfg.chain| && part <= cfg.chain[k].slot < part + W
      ensures Has(Run(cfg, later).db.raw.landed, RowOf(cfg, cfg.chain[k]))
    {
      HasMore(Run(cfg, events).db.raw.landed, Run(cfg, later).db.raw.landed, RowOf(cfg, cfg.chain[k]));
    }
  }

  lemma LandedNeverChanges(cfg: Cfg, events: seq<Event>, later: seq<Event>, part: nat)
    requires SlotOrdered(cfg.chain) && KeysDistinct(cfg.chain) && ServedRun(cfg, events) && ServedRun(cfg, later)
    requires events <= later && PartLanded(cfg, Run(cfg, events).db, part)
    ensures BarePart(Run(cfg, later).db.raw.landed, part) == BarePart(Run(cfg, events).db.raw.landed, part)
  {
    hide BarePart, Run, ServedRun, PartLanded;
    var a, b := Run(cfg, events).db.raw.landed, Run(cfg, later).db.raw.landed;
    LandedStays(cfg, events, later, part);
    BarePartSorted(a, part);
    BarePartSorted(b, part);
    forall x
      ensures x in BarePart(a, part) <==> x in BarePart(b, part)
    {
      LandedPartIsChain(cfg, events, part, x);
      LandedPartIsChain(cfg, later, part, x);
    }
    SortedUnique(BarePart(a, part), BarePart(b, part));
  }

  // ----------------------------------- any update may still arrive

  /** One update to a process that has just subscribed, then a tick: it lands, whatever the budget. */
  lemma DeliverAndTick(cfg: Cfg, s: State, k: nat)
    requires JustOpened(s) && k < |cfg.chain|
    ensures Has(Step(cfg, Step(cfg, s, Delivery(k, Works(0))), FlushTick(Works(0))).db.raw.landed, RowOf(cfg, cfg.chain[k]))
  {
    hide Push, FlushDb, Full, HighWater, IsEmpty, RowOf, Has, Judge;
    var b := Push(cfg, NO_ROWS, cfg.chain[k]);
    OneUpdate(cfg, cfg.chain[k]);
    AckedFlushDb(b, s.db, Works(0));
    AckedHasAll(s.db.raw.landed, b.raw, Acked(0), 0);
    var r := Receive(cfg, s, k);
    if !BudgetReached(cfg, r.proc) {
      JudgeLeaves(r, Acked(0));
      AckedFlushDb(b, Judge(r, Acked(0)).db, Works(0));
    }
  }

  lemma JudgeLeaves(s: State, o: Outcome)
    ensures var t := Judge(s, o); t.phase == s.phase && t.bufs == s.bufs && t.db.raw == s.db.raw
  {
  }

  function OneMoreUpdate(k: nat): seq<Event> {
    [Kill] + [Start] + [Accepted] + [Delivery(k, Works(0))] + [FlushTick(Works(0))]
  }

  /** Any update of the chain may still be delivered: the process dies, and the server opens the next session there. */
  lemma AnyUpdateMayLand(cfg: Cfg, events: seq<Event>, k: nat)
    requires ServedRun(cfg, events) && k < |cfg.chain|
    ensures ServedRun(cfg, events + OneMoreUpdate(k)) && Has(Run(cfg, events + OneMoreUpdate(k)).db.raw.landed, RowOf(cfg, cfg.chain[k]))
  {
    hide Run, ServedRun, Has, RowOf, ReadResumeSlot;
    RunSnoc(cfg, events, Kill);
    var e1 := events + [Kill];
    Opening(cfg, e1);
    var e2 := e1 + [Start] + [Accepted];
    RunSnoc(cfg, e2, Delivery(k, Works(0)));
    RunSnoc(cfg, e2 + [Delivery(k, Works(0))], FlushTick(Works(0)));
    DeliverAndTick(cfg, Run(cfg, e2), k);
    assert events + OneMoreUpdate(k) == e2 + [Delivery(k, Works(0))] + [FlushTick(Works(0))];
  }

  /**
  A partition of the ingested table never changes again, however the run goes on,
  if and only if every update of the chain with a slot in it has landed.
   */
  lemma SettledForeverExact(cfg: Cfg, events: seq<Event>, part: nat)
    requires SlotOrdered(cfg.chain) && KeysDistinct(cfg.chain) && ServedRun(cfg, events)
    ensures (forall later :: events <= later && ServedRun(cfg, later) ==>
               BarePart(Run(cfg, later).db.raw.landed, part) == BarePart(Run(cfg, events).db.raw.landed, part))
      <==> PartLanded(cfg, Run(cfg, events).db, part)
  {
    hide BarePart, Run, ServedRun, Has, OneMoreUpdate, RowOf;
    if PartLanded(cfg, Run(cfg, events).db, part) {
      forall later | events <= later && ServedRun(cfg, later)
        ensures BarePart(Run(cfg, later).db.raw.landed, part) == BarePart(Run(cfg, events).db.raw.landed, part)
      {
        LandedNeverChanges(cfg, events, later, part);
      }
    } else {
      var k :| 0 <= k < |cfg.chain| && part <= cfg.chain[k].slot < part + W && !Has(Run(cfg, events).db.raw.landed, RowOf(cfg, cfg.chain[k]));
      AnyUpdateMayLand(cfg, events, k);
      LandedMakesDifference(cfg, events, events + OneMoreUpdate(k), part, k);
    }
  }

  lemma LandedMakesDifference(cfg: Cfg, events: seq<Event>, later: seq<Event>, part: nat, k: nat)
    requires SlotOrdered(cfg.chain) && KeysDistinct(cfg.chain) && ServedRun(cfg, events) && ServedRun(cfg, later)
    requires k < |cfg.chain| && part <= cfg.chain[k].slot < part + W
    requires !Has(Run(cfg, events).db.raw.landed, RowOf(cfg, cfg.chain[k])) && Has(Run(cfg, later).db.raw.landed, RowOf(cfg, cfg.chain[k]))
    ensures BarePart(Run(cfg, later).db.raw.landed, part) != BarePart(Run(cfg, events).db.raw.landed, part)
  {
    hide BarePart, Run, ServedRun, Has, RowOf, Inv, RawKey, Functional;
    var x := Stamped(RowOf(cfg, cfg.chain[k]), 0);
    RowOfSlot(cfg, cfg.chain[k]);
    RunKeepsInv(cfg, events);
    RawRowsFromChain(cfg, Run(cfg, events));
    BarePartExact(Run(cfg, events).db.raw.landed, part, x);
    RunKeepsInv(cfg, later);
    RawRowsFromChain(cfg, Run(cfg, later));
    BarePartExact(Run(cfg, later).db.raw.landed, part, x);
  }

  // -------------------------------- what the exporter's guard is worth

  /** The table the exporter finds after a run. */
  function Landed(cfg: Cfg, events: seq<Event>): seq<Entry> {
    Run(cfg, events).db.raw.landed
  }

  /** Once a closed partition has a file, no incremental run over a later table replaces it. */
  lemma ClosedFileIsKept(table: seq<Entry>, later: seq<Entry>, files: map<Path, File>, part: nat)
    requires table <= later && part % W == 0 && Closed(table, part) && PublishedAt(files, part).Some?
    ensures PublishedAt(ExportAll(later, files, false).files, part) == PublishedAt(files, part)
  {
    hide PublishedAt, ExportAll, Bucket, MaxSlot;
    MaxGrows(table, later);
    BucketGrows(MaxSlot(table), MaxSlot(later));
    FinishedIsSkipped(later, files, part);
  }

  lemma BucketGrows(a: nat, b: nat)
    requires a <= b
    ensures Bucket(a) <= Bucket(b)
  {
  }

  lemma WrittenNow(table: seq<Entry>, files: map<Path, File>, full: bool, part: nat)
    requires part % W == 0 && Closed(table, part) && First(table) <= part && PartRows(table, part) != []
    requires full || PublishedAt(files, part) == None
    ensures PublishedAt(ExportAll(table, files, full).files, part) == Some(FileOf(table, part))
  {
    hide PublishedAt, PartRows, After, FileOf, Bucket, MaxSlot, MinSlot;
    LastTurn(table, 0);
    RunEffect(table, files, full, Partitions(table), part);
  }

  /**
  A file that an export writes while its partition is closed is kept by every
  later incremental run; it stays the partition's rows, however the ingest run
  goes on, if and only if every update of the chain there had landed by then. The
  guard the exporter uses, "not the last partition", does not imply that.
   */
  lemma ClosedFileExact(cfg: Cfg, events: seq<Event>, files: map<Path, File>, full: bool, part: nat)
    requires SlotOrdered(cfg.chain) && KeysDistinct(cfg.chain) && ServedRun(cfg, events)
    requires part % W == 0 && Closed(Landed(cfg, events), part) && First(Landed(cfg, events)) <= part && PartRows(Landed(cfg, events), part) != []
    requires full || PublishedAt(files, part) == None
    ensures (forall later :: events <= later && ServedRun(cfg, later) ==>
               && PublishedAt(ExportAll(Landed(cfg, later), ExportAll(Landed(cfg, events), files, full).files, false).files, part) == Some(FileOf(Landed(cfg, events), part))
               && BarePart(Landed(cfg, later), part) == BarePart(Landed(cfg, events), part))
      <==> PartLanded(cfg, Run(cfg, events).db, part)
  {
    hide Run, ServedRun, BarePart, PublishedAt, ExportAll, FileOf, PartLanded, PartRows, Closed, First;
    SettledForeverExact(cfg, events, part);
    WrittenNow(Landed(cfg, events), files, full, part);
    forall later | events <= later && ServedRun(cfg, later)
      ensures PublishedAt(ExportAll(Landed(cfg, later), ExportAll(Landed(cfg, events), files, full).files, false).files, part) == Some(FileOf(Landed(cfg, events), part))
    {
      RunExtends(cfg, events, later);
      ClosedFileIsKept(Landed(cfg, events), Landed(cfg, later), ExportAll(Landed(cfg, events), files, full).files, part);
    }
  }

  /** Below the durable checkpoint, with no lossy seam, that is so: such a file is good for ever. */
  lemma SettledPartitionStays(cfg: Cfg, events: seq<Event>, later: seq<Event>, part: nat)
    requires SlotOrdered(cfg.chain) && KeysDistinct(cfg.chain) && ServedRun(cfg, events) && ServedRun(cfg, later)
    requires events <= later
    requires ReadResumeSlot(Run(cfg, events).db).Some? && part + W <= ReadResumeSlot(Run(cfg, events).db).value
    requires NothingLostIn(cfg, Run(cfg, events).hist.seams, part)
    ensures BarePart(Run(cfg, later).db.raw.landed, part) == BarePart(Run(cfg, events).db.raw.landed, part)
  {
    hide BarePart, Run, ReadResumeSlot, ServedRun, NothingLostIn, PartLanded;
    BelowCheckpointLanded(cfg, events, part);
    LandedNeverChanges(cfg, events, later, part);
  }

  // ------------------------------------- closed, and yet not settled

  const LATE: seq<nat> := [999_900, 999_950, 1_000_000]

  /** Slot 999,900 is committed; the next session opens at 1,000,000 and commits that; both processes die. */
  function PassedOver(): seq<Event> {
    ShortLife(0, Works(0)) + [Kill] + ShortLife(2, Works(1)) + [Kill]
  }

  lemma LateIsAChain()
    ensures var cfg := Quiet(LATE, None);
      SlotOrdered(cfg.chain) && KeysDistinct(cfg.chain) && cfg.chain[0].slot == 999_900 && cfg.chain[1].slot == 999_950 && cfg.chain[2].slot == 1_000_000
  {
  }

  lemma PassesOver()
    ensures var cfg := Quiet(LATE, None); var s := Run(cfg, PassedOver());
      && ServedRun(cfg, PassedOver()) && s.phase.Down? && ReadResumeSlot(s.db) == Some(1_000_000)
      && s.db.raw.landed == [Stamped(RowOf(cfg, cfg.chain[0]), 0), Stamped(RowOf(cfg, cfg.chain[2]), 1)]
  {
    hide ShortLife, RowOf, Quiet, FlushDb, Run, ServedRun, OneRow, ReadResumeSlot;
    var cfg := Quiet(LATE, None);
    LateIsAChain();
    StartsDown(cfg);
    assert [] + ShortLife(0, Works(0)) == ShortLife(0, Works(0));
    LivesShortly(LATE, [], 0, Works(0));
    FlushOneRow(cfg, 0, EMPTY_DB, Works(0));
    RunSnoc(cfg, ShortLife(0, Works(0)), Kill);
    var e1 := ShortLife(0, Works(0)) + [Kill];
    NewestCheckpointRead(Run(cfg, e1).db, [], Stamped(Checkpoint(999_900, 1), 0));
    LivesShortly(LATE, e1, 2, Works(1));
    FlushOneRow(cfg, 2, Run(cfg, e1).db, Works(1));
    RunSnoc(cfg, e1 + ShortLife(2, Works(1)), Kill);
    NewestCheckpointRead(Run(cfg, PassedOver()).db, [Stamped(Checkpoint(999_900, 1), 0)], Stamped(Checkpoint(1_000_000, 1), 1));
  }

  /**
  The guard is not enough. After such a run partition 0 is before the last one, so
  an export writes it and skips it ever after; but a server that replays from
  slot 999,950 lands one more row there, and the stream has not only moved forward.
   */
  lemma ClosedIsNotSettled()
    ensures var cfg := Quiet(LATE, None); var later := PassedOver() + ShortLife(1, Works(2));
      var a, b := Landed(cfg, PassedOver()), Landed(cfg, later);
      && SlotOrdered(cfg.chain) && KeysDistinct(cfg.chain) && ServedRun(cfg, PassedOver()) && ServedRun(cfg, later)
      && Closed(a, 0) && !Forward(a, b)
      && PublishedAt(ExportAll(b, ExportAll(a, map[], false).files, false).files, 0) == Some(FileOf(a, 0))
      && BarePart(b, 0) != BarePart(a, 0)
  {
    hide ShortLife, RowOf, Quiet, FlushDb, Run, ServedRun, OneRow, ReadResumeSlot, PassedOver, BarePart, PublishedAt, ExportAll, FileOf, PartRows;
    var cfg, later := Quiet(LATE, None), PassedOver() + ShortLife(1, Works(2));
    LateIsAChain();
    PassesOver();
    LivesShortly(LATE, PassedOver(), 1, Works(2));
    FlushOneRow(cfg, 1, Run(cfg, PassedOver()).db, Works(2));
    var a, b := Landed(cfg, PassedOver()), Landed(cfg, later);
    LateTables(cfg, a, b);
    WrittenNow(a, map[], false, 0) by { NothingPublished(0); }
    ClosedFileIsKept(a, b, ExportAll(a, map[], false).files, 0);
    LandedMakesDifference(cfg, PassedOver(), later, 0, 1);
  }

  lemma NothingPublished(part: nat)
    ensures PublishedAt(map[], part) == None
  {
  }

  lemma LateTables(cfg: Cfg, a: seq<Entry>, b: seq<Entry>)
    requires cfg == Quiet(LATE, None)
    requires a == [Stamped(RowOf(cfg, cfg.chain[0]), 0), Stamped(RowOf(cfg, cfg.chain[2]), 1)]
    requires b == a + [Stamped(RowOf(cfg, cfg.chain[1]), 2)]
    ensures Closed(a, 0) && !Forward(a, b) && First(a) == 0 && PartRows(a, 0) != []
    ensures !Has(a, RowOf(cfg, cfg.chain[1])) && Has(b, RowOf(cfg, cfg.chain[1]))
  {
    hide Classify, Label, OrderedFinal, Range, Final;
    LateIsAChain();
    RowOfSlot(cfg, cfg.chain[0]);
    RowOfSlot(cfg, cfg.chain[1]);
    RowOfSlot(cfg, cfg.chain[2]);
    TwoSlots(a);
    assert b[2].row == RowOf(cfg, cfg.chain[1]);
    assert a[0] in a;
    FinalIsNewest(a, RawKey);
    var e := Final(a, RawKey)[RawKey(a[0].row)];
    OrderedFinalMembers(a, e);
    RangeMembers(OrderedFinal(a), 0, W);
    assert e in PartRows(a, 0);
  }

  lemma TwoSlots(a: seq<Entry>)
    requires |a| == 2 && a[0].row.slot == 999_900 && a[1].row.slot == 1_000_000
    ensures MaxSlot(a) == 1_000_000 && MinSlot(a) == 999_900 && Last(a) == 1_000_000 && First(a) == 0
  {
    assert a[..1][0] == a[0];
  }
}
