# klend indexer: model and proofs

A Dafny model of the klend pipeline: the crash-and-reconnect ingest protocol that fills the
ClickHouse tables, the Parquet cold copy made from them, the one-shot snapshot writer, the
payload guard, and the health-factor arithmetic. Every claim below is proved for all inputs,
all runs and all failure patterns the model admits.

`dafny verify dfyconfig.toml` checks the whole project.

## Layout

| files | part of the program |
|---|---|
| `Protocol`, `Indexer` | the ingest loop of `src/main.rs`, twice: as a state machine, and as the classes and loops of the program, each method proved to be the corresponding step |
| `Coverage`, `Safety`, `Announce`, `Monotone` | invariants of every run of the state machine |
| `Sessions`, `RowContents` | what each event makes the program do, told from the history of events alone; what the stored rows say, field by field |
| `ColdStarts`, `Checkpoints`, `GapRows` | exactly when the protocol's promises hold: from which position on, when the checkpoint can fall, what a gap row tells |
| `IngestTheorems`, `Witnesses` | what a reader of the tables may rely on, and concrete runs showing which clauses cannot be dropped |
| `MergeTree` | `ReplacingMergeTree` and `FINAL` |
| `Resume`, `GapQuery` | the live gap detector and the retrospective one |
| `Text`, `Schema`, `ExportValues` | decimal and hex text, account kinds and their labels, value conversions at the export |
| `ColdPath`, `ColdTable`, `Parquet`, `ObligationExport`, `ColdCopy` | one export run: directory names, the ordered query, columns and batches, temporary file and rename, the partition loop |
| `ColdTheorems`, `ExportOrder`, `ColdHistory`, `EndToEnd`, `SharedTable` | the export against the table and its order, byte by byte, over any history of runs, from the chain to the file, and beside the table's other writer |
| `Snapshot`, `SnapshotWriter`, `SnapshotTheorems`, `SnapshotRows` | the paged snapshot |
| `PayloadGuard`, `Health` | the streaming guard; the stored health factor |

## How the ingest protocol is modelled

A run is a sequence of events: process start and death, subscribe attempts that fail, are
refused or accepted, delivered updates, timer ticks, signals, stream ends. Each event carries
the outcome of every insert made while handling it. An insert is acknowledged, or it fails
having landed any subset of its rows, and may land later still, after the process that gave
up on it is gone. A flush that fails part-way, and a crash between any two of its inserts, are
therefore the same thing as some failed outcome.

What is assumed of the outside world, and nothing more:

- the chain is in slot order (`src/main.rs:122`, `src/main.rs:660`), and a session delivers it without
  skipping, from wherever the server chose to open: at the requested slot, before it, or far past it;
- for the exactly-once view, the payload of an update is determined by (pubkey, slot, write_version);
- a discriminator table gives each candidate name its own 8-byte tag; decoding is some function of the payload;
- the indexer is the only writer of the checkpoint and gap tables. It is not the only writer of `account_updates`
  and the decoded tables: the snapshot adds rows there, at write version 0, which no real update has
  (`src/bin/snapshot.rs:53-58`). The tables of `Protocol` hold the indexer's rows; `SharedTable` lifts what is
  said of them to a table that also holds any rows of version 0.

`Indexer.Supervise` runs process after process over arbitrary scripts of events and leaves the
tables of `Protocol.Run`, so each theorem about runs is one about the loops as written.

## Where the code differs from its documentation

The model follows the code.

- `schema/002_checkpoint.sql` and the comments on `flush` promise that nothing below the checkpoint is silently
  missing. That holds from the latest position on at which a session without a checkpoint opened, and in the newest
  slot of the chain, and nowhere else (`ColdStarts.ColdCutoffExact`). "From the first stored slot on" is too much,
  in two ways: a process may die before its first checkpoint lands and the next start cold
  (`Witnesses.ColdStartLosesHistory`), and a resumed session may be replayed an update from before the very first
  cold start (`Witnesses.OverReplayUncoversLoss`). From the cutoff on, loss is confined to the seams, from the
  checkpoint slot inclusive, and each such seam is within tolerance or has its gap row
  (`GapRows.EveryMissIsAccountedFor`).
- The checkpoint is described as a high-water mark. It falls when a flush commits updates from behind it, and when
  an insert that was given up on lands late (`Checkpoints.CheckpointFallsExact`, `Checkpoints.LateCheckpointWins`);
  without over-replay and late landings it never does (`Checkpoints.CheckpointNeverFalls`).
- `src/main.rs:846-857` presents startup gap detection as covering every resumed session. With a slot budget of
  zero the run stops before the verdict; that is the only exception (`Witnesses.GapRowGuaranteeExact`).
- `schema/004_slot_gaps.sql` calls `end_slot` the first slot received after the gap. So it is in the rows of startup
  gap detection. The two failure-path rows carry the last slot delivered to the process, 0 in a fresh one, and are
  right only by coincidence (`GapRows.EndSlotExact`).
- `src/main.rs:991-999` argues that no second row can replace a gap row under the same key. Within a session none
  can; a later process refused at the same checkpoint does it (`Witnesses.RecordedEndIsOverwritten`).
- `src/bin/coldquery.rs:36-41` says that sharing the threshold makes both detectors agree. One compares the drift,
  the other the slots strictly between: they differ at a drift of exactly 601 (`GapQuery.DetectorsAgreeExcept601`).
- `src/bin/parquet_export.rs:650-655` says that only the last partition can still grow, and that re-exporting an
  earlier one would give a byte-identical result. A file written while its partition was the last one is skipped
  later with rows missing (`ColdHistory.StaleFileIsSkipped`). One written when its partition was no longer the last
  can lack rows too: the ingest protocol itself lands rows behind the newest slot when a server replays them
  (`EndToEnd.ClosedIsNotSettled`), and so does the snapshot. Such a file is right for ever exactly when every update
  of the chain in its slots had landed (`EndToEnd.ClosedFileExact`); being below the durable checkpoint with no lossy
  seam suffices (`EndToEnd.SettledPartitionStays`).
- `src/bin/snapshot.rs:87-97` calls the 256 pages exhaustive. They miss exactly the obligations too short to
  reach the paged byte (`Snapshot.EachAccountOnce`).
- `src/payload.rs` promises a span that brackets every fault. It does while fault slots do not go back, which a
  replay after a reconnect makes them do (`PayloadGuard.SpanBracketsExact`, `PayloadGuard.ReplayBreaksSpan`).
- `src/decode.rs:94-101` guards the multiplication against overflow, not the narrowing to 64 bits: a position whose
  ratio does not fit can be stored as one at risk (`Health.HealthyCountedAtRisk`).

## Model

| member | source | states |
|---|---|---|
| IngestTheorems.NoSilentHole | src/main.rs:118-222 | after any run, every update below the durable checkpoint is stored, raw and decoded, unless it precedes the opening of a session that had no checkpoint, or one not past it; the rows below say when that happens and what is recorded |
| IngestTheorems.NoHoleSinceColdStart | src/main.rs:519-546 | the sufficient half of the next row, for any budget: from the last cold opening on, only seams that began at a checkpoint can lose anything |
| ColdStarts.ColdCutoffExact | src/main.rs:374-390 | unattended and without repeated updates, if cold sessions open at position m at the latest, then an update once below the checkpoint is always stored or lost past a checkpoint, if and only if it is not before m or sits in the newest slot |
| ColdStarts.ColdOpeningLoses | src/main.rs:374-390 | for every other update, the run that opens cold at m and follows the chain to its end loses it silently |
| GapRows.EveryMissIsAccountedFor | src/main.rs:846-905 | an update missing below the checkpoint precedes a cold start, or lies in a seam within tolerance, or in one whose gap row was issued |
| IngestTheorems.HonouredRunHasNoHole | schema/002_checkpoint.sql:16-22 | if every session was served from its checkpoint or earlier, crashes and failed inserts lose nothing at all |
| IngestTheorems.CheckpointNeverAhead | src/main.rs:165-222 | every checkpoint ever issued, landed or not, names a stored update and is covered up to its slot |
| IngestTheorems.AckedFlushCommits | src/main.rs:118-222 | a flush whose inserts are acknowledged stores the whole session and moves the durable checkpoint to its last update |
| IngestTheorems.BuffersStayPaired | src/main.rs:118-151 | in every reachable state the decoded buffers hold keys of distinct buffered raw rows, raw is empty only when all are, the high-water mark is the last raw row's, at most 4096 rows wait |
| IngestTheorems.FinalIsLandedUpdates | schema/001_init.sql:46-70 | `FINAL` of the rows the indexer inserts is exactly the landed chain updates, each intra-slot version under its own key |
| SharedTable.SharedFinalIsLandedUpdates | src/bin/snapshot.rs:53-58 | the same of `account_updates` as both writers leave it, rows of write version 0 aside |
| IngestTheorems.ReplaysInvisible | schema/001_init.sql:54-62 | two runs that landed the same rows, any number of times in any order, show the same table |
| IngestTheorems.DerivedNeverOutrunRaw | src/main.rs:171-207 | every decoded row the indexer ever stored, crash points included, is the decode of an update whose raw row is stored |
| IngestTheorems.GapRowBeforeCheckpoint | src/main.rs:858-905 | a checkpoint issued past a seam wider than the tolerance, or a forced tip seam, was preceded by a gap row starting at the pre-seam checkpoint, and ending at the first slot served if the session resumed |
| IngestTheorems.OneSubscribeOneGap | src/main.rs:584-627 | the program's own counters never pass one subscribe a sampling process and one gap row a pass; its first slot is set exactly when data came |
| Sessions.OneAttemptOneRow | src/main.rs:555-627 | counted over the events and the journal: a sampling process subscribes at most once, and a pass of the reconnect loop issues at most one gap row |
| Sessions.StreamEndExact | src/main.rs:963-1020 | the end of a session sends what is buffered; it writes a gap row if and only if the mode is unattended, the session had asked for a slot and received nothing, and then the row from that slot to the last slot delivered to the process; the process stops if and only if it samples or the flush failed |
| Sessions.GivenUpMeansTip | src/main.rs:519-546 | after such an end the next accepted session asks for no slot, and is on record as forced from the given-up one |
| Sessions.AcceptedExact | src/main.rs:519-546 | what a subscribe asks for: the durable checkpoint, or the tip if the resume point was given up |
| Sessions.RefusedExact | src/main.rs:548-577 | a refused subscribe gives the resume point up with its row if and only if unattended with a slot not given up before; otherwise it stops the process and writes nothing |
| Sessions.DeliverExact | src/main.rs:624-905 | an update ends the process if and only if the full buffer could not be flushed or last minus first delivered slot reaches the budget, and then what was still buffered is sent; it adds a gap row if and only if it is the session's first and lies more than 600 slots past what was asked for, and that row is (asked, received) |
| Sessions.SignalExact | src/main.rs:950-972 | a signal sends what is buffered and ends the process, with no gap row |
| Sessions.FlushTickExact | src/main.rs:908-914 | a tick sends what is buffered and ends the process if and only if that fails |
| Sessions.OtherMessageExact | src/main.rs:832-860 | any other message changes nothing |
| Sessions.DeathAndStart | src/main.rs:537-546 | a killed process, or one that cannot connect, writes nothing and loses what it buffered; a new one starts by connecting |
| Sessions.FlushSends | src/main.rs:165-222 | one flush sends raw rows, then obligations, markets and reserves, each only while all before was acknowledged, and one checkpoint at the last raw row only after all |
| RowContents.RawRowContents | src/main.rs:806-817 | an update is buffered as one raw row with its own slot, version, key, owner, lamports and payload, and the label of its first bytes |
| RowContents.DecodedRowContents | src/main.rs:686-799 | by the first eight bytes: an obligation's payload goes to the obligation decoder and, if accepted, to that buffer alone; reserves and markets likewise; any other payload to none |
| RowContents.LandedRawContents | src/main.rs:806-817 | over runs, every raw row the indexer landed is a chain update, field by field |
| RowContents.LandedDecodedContents | src/main.rs:686-799 | over runs, each decoded table holds rows of payloads with its own tag, as its own decoder read them, beside their raw rows |
| RowContents.StoredContents | src/main.rs:165-207 | what the theorems call stored, field by field and table by table |
| RowContents.FinalKeepsEveryVersion | schema/001_init.sql:65-70 | under (pubkey, slot, write_version) `FINAL` has exactly the row of that landed update, and it has nothing else |
| Monotone.RunExtends | src/main.rs:519-1039 | no continuation of a run removes a landed raw or gap row or an issued control insert |
| Monotone.GapRowStays | schema/004_slot_gaps.sql:11-22 | a gap row that landed keeps its start slot in `FINAL` for ever |
| Monotone.GapEndShown | schema/004_slot_gaps.sql:11-22 | the end slot `FINAL` shows for a start is exactly that of the newest row landed there |
| GapRows.RefusalOverwritesEnd | src/main.rs:555-576 | from every state, a fresh process refused at its checkpoint records end 0, and once that row lands newest `FINAL` shows 0 whatever it showed before |
| Monotone.RecordedStartIsStored | src/main.rs:555-577 | every recorded gap, at any of the three sites, starts at a slot that is stored |
| GapRows.RecordedIntervalHoldsHole | src/bin/coldquery.rs:79-109 | for every resumed seam wider than the tolerance the row (checkpoint, first slot) was issued, and every hole of the data that touches the seam lies inside it, whatever crashed processes or other writers left there |
| GapRows.FlushedSessionHoldsHole | src/bin/coldquery.rs:79-109 | the same for the current session from its first flush on, over the stored slots alone |
| GapRows.EndSlotExact | src/main.rs:558-1019 | the end of a gap row is the first slot received after it if and only if the row came from startup detection, or the process was last delivered that very slot |
| Witnesses.ColdStartLosesHistory | src/main.rs:374-390 | a run that loses a slot between the first stored slot and the checkpoint: a second start found no checkpoint |
| Witnesses.OverReplayUncoversLoss | src/main.rs:374-390 | another with one cold start only, the first ever: a resumed session is replayed a slot from before it |
| Checkpoints.CheckpointFallsExact | src/main.rs:208-221 | an acknowledged flush takes the durable checkpoint back if and only if the last update it commits is behind it |
| Checkpoints.LateCheckpointWins | src/main.rs:208-221 | a checkpoint insert that lands after it was given up on, newest, becomes the durable checkpoint |
| Checkpoints.CheckpointNeverFalls | src/main.rs:519-1039 | over any run in which sessions open at or past their checkpoint, stamps grow and no checkpoint lands late, it never falls, whatever crashes and failed inserts there are |
| Witnesses.OverReplayMovesCheckpointBack | src/main.rs:208-221 | over-replay does take it back |
| Witnesses.RecordedEndIsOverwritten | src/main.rs:991-999 | a run in which `FINAL` shows a hole ending at slot 1000 and, after a refused process, at slot 0 |
| Witnesses.ZeroBudgetSkipsTheGapRow | src/main.rs:825-828 | with budget zero a checkpoint passes a wide hole with no gap row |
| Witnesses.GapRowGuaranteeExact | src/main.rs:858-905 | the gap row precedes the checkpoint in all runs if and only if the budget is not zero |
| Safety.StepKeepsInv | src/main.rs:519-1039 | every event, with every insert outcome, keeps the invariant the theorems rest on |
| Announce.StepKeepsGaps | src/main.rs:519-1039 | every event keeps all gap rows in time |
| Coverage.BufferKeys | src/main.rs:686-821 | decoded rows of a segment have keys of distinct raw rows, with multiplicity |
| Indexer.Writer.PushUpdate | src/main.rs:686-817 | the buffering code adds exactly the rows of `Push`, which the `RowContents` rows spell out |
| Indexer.Writer.Flush | src/main.rs:118-222 | the buffers are taken and the tables become those of the abstract flush, in the same order, stopping at the first failure |
| Indexer.Process.SubscribeRefused | src/main.rs:548-577 | a refused subscribe gives the resume point up, or ends the process |
| Indexer.Process.OnAccount | src/main.rs:624-905 | the handler code is the step whose effect `Sessions.DeliverExact` states |
| Indexer.Process.AfterStream | src/main.rs:963-1020 | the code after the stream loop is the step whose effect `Sessions.StreamEndExact` states |
| Indexer.Process.Run | src/main.rs:519-1039 | the nested loops over any script of events are the run of the state machine |
| Indexer.Supervise | src/main.rs:392-394 | process after process, crashes included, leaves the tables of one run |
| MergeTree.FinalIsNewest | schema/001_init.sql:46-63 | `FINAL` keeps exactly the inserted keys, each with its newest row |
| MergeTree.SameRowsSameView | schema/001_init.sql:54-62 | when keys determine rows, the view ignores copies, order and stamps |
| MergeTree.ReplayInvisible | schema/001_init.sql:54-62 | replaying rows already held changes nothing a query sees |
| Resume.VerdictExact | src/resume.rs:93-119 | a gap is reported exactly when at least 600 whole slots lie strictly between, with their exact number |
| GapQuery.GapsExact | src/bin/coldquery.rs:94-109 | the query returns exactly the maximal unobserved runs longer than the threshold between observed slots |
| GapQuery.GapsDisjoint | src/bin/coldquery.rs:94-109 | two different holes never overlap |
| GapQuery.MissedAndObservedTile | src/bin/coldquery.rs:94-109 | with threshold zero, missed and distinct observed slots add up to the span |
| GapQuery.DetectorsAgreeExcept601 | src/resume.rs:93-119 | for adjacent stored slots both detectors report the same triple or both nothing if and only if the drift is not 601 |
| Schema.LabelInjective | src/schema.rs:77-94 | two different kinds never share a stored label |
| ColdPath.DirDenotesBucket | src/coldpath.rs:61-66 | the digits of a directory name are the bucket |
| ColdPath.DirHoldsItsSlots | src/coldpath.rs:253-266 | a directory holds exactly the million slots from the one its digits name: half-open buckets tile the slot line |
| ColdPath.DirInjective | src/coldpath.rs:61-66 | names are equal exactly when buckets are |
| ColdPath.DirsInSlotOrder | src/coldpath.rs:56-66 | below 10^12 lexical order of names is slot order of buckets |
| ColdPath.PaddingBoundExact | src/coldpath.rs:56-66 | lexical order is slot order for all slots below a bound if and only if the bound is at most 10^12 |
| ColdTable.OrderedFinalIsFinal | src/bin/parquet_export.rs:492-499 | the ordered query has the keys and winners of `FINAL`, each once |
| ExportOrder.QueryOrder | src/bin/parquet_export.rs:492-499 | of two of its rows slots ascend; at one slot write versions do; at one slot and version there is a first differing byte of the keys, smaller in the earlier row |
| ExportOrder.FullExportOrder | src/bin/parquet_export.rs:642-693 | a full export reads back as that many records in that order, each with the fields of a row `FINAL` keeps |
| ColdTable.RangesTile | src/bin/parquet_export.rs:492-499 | neighbouring slot ranges of the query concatenate |
| ExportValues.ParseSfExact | src/bin/parquet_export.rs:247-261 | a text is accepted exactly when it is digits, after at most one sign `+`, of a value up to 10^38 - 1, and yields that value |
| ExportValues.ParseSfRoundTrip | src/bin/parquet_export.rs:247-261 | the decimal text of every value up to 10^38 - 1 parses back; every larger one is refused, never wrapped |
| ExportValues.DecodePubkeyHex | src/bin/parquet_export.rs:101-120 | the decoding loop accepts exactly 64 hex digits and yields the bytes they denote |
| ExportValues.HexKeyRoundTrip | src/bin/parquet_export.rs:101-120 | upper- or lower-case hex of every 32-byte key decodes to it |
| ExportValues.HexKeyOnlyItself | src/bin/parquet_export.rs:101-120 | an accepted text reads, digit for digit, as the key's own hex |
| Parquet.TransposeRoundTrip | src/bin/parquet_export.rs:156-200 | all columns have the batch's length, and column i at row j is field i of record j |
| Parquet.ColumnsHoldFields | src/bin/parquet_export.rs:156-200 | every column has the length of the batch and holds, row by row, the field of its own name |
| Parquet.ReadRowFields | src/bin/parquet_export.rs:156-182 | a row is read if and only if both keys are, and then keeps each field it was sent with |
| Parquet.FileRoundTrip | src/bin/parquet_export.rs:506-568 | what is written in batches is what is read, in order |
| Parquet.BatchSizes | src/bin/parquet_export.rs:539-560 | every batch has 8192 rows but the last, which is not empty |
| Parquet.BatchBuilder.Push | src/bin/parquet_export.rs:156-182 | a row is added to every column, or to none when a key is unreadable |
| Parquet.PartitionWriter.Add | src/bin/parquet_export.rs:513-548 | every row consumed is in a written batch or in the builder |
| Parquet.PartitionWriter.Close | src/bin/parquet_export.rs:550-565 | success publishes all rows by one rename; nothing is touched when there were none |
| Parquet.ExportPartition | src/bin/parquet_export.rs:477-568 | success publishes exactly the rows of the stream; a failure at any step leaves every published file as it was |
| ObligationExport.SnapshotRowSurvivesExact | src/bin/parquet_export.rs:314-358 | a decoded row is exported, unchanged, exactly when none of its five fractions exceeds 10^38 - 1 |
| ObligationExport.SnapshotBatchBuilder.Push | src/bin/parquet_export.rs:314-358 | an accepted row adds to each column its own value; a refused one leaves the columns uneven exactly when its pubkey was readable, and is not counted |
| ColdCopy.RowsSurviveHex | src/bin/parquet_export.rs:156-182 | every row of the query is read back as the table's row |
| ColdCopy.RunEffect | src/bin/parquet_export.rs:642-667 | a run, whole or cut short, rewrites exactly the partitions it reached, did not skip and found rows in |
| ColdCopy.ExportTable | src/bin/parquet_export.rs:617-667 | the partition loop performs such a run; a failure leaves the turns before it, but for one temporary file |
| ColdTheorems.FullExportIsFinal | src/bin/parquet_export.rs:642-693 | below 10^12, the files after a full run concatenated in lexical directory order are the deduplicated table in order, each row once, if and only if files left in other directories hold no rows; the total is their number |
| ColdTheorems.NeverMoreThanSource | src/bin/parquet_export.rs:671-693 | on a source that stands still no run reports more rows than were inserted: the DEFECT branch is dead |
| ColdTheorems.ListingUnique | src/coldpath.rs:56-66 | the lexical listing of a directory is determined by what it holds |
| ColdHistory.FilesAreSubsets | src/bin/parquet_export.rs:650-667 | over any history of runs on a growing table each file holds the partition as of its last writer: never a row the source lacks, and all it has now if and only if nothing new was inserted there since |
| ColdHistory.VisitedIsExact | src/bin/parquet_export.rs:650-667 | a file is exact after a run that reached it and found it missing, last, or was a full run |
| ColdHistory.ClosedForeverExact | src/bin/parquet_export.rs:650-655 | what the exporter's assumption would give: if the stream only moved forward, a partition would keep its rows for ever if and only if it is before the last one |
| ColdHistory.StaleFileIsSkipped | src/bin/parquet_export.rs:652-661 | for every table, some forward continuation makes the next incremental run keep a file of a closed partition that lacks rows |
| ColdHistory.FailureIsSamePublished | src/bin/parquet_export.rs:561-565 | a failed run leaves what the turns before the failure published |
| EndToEnd.SettledForeverExact | src/bin/parquet_export.rs:650-655 | on the ingest protocol as it is: a partition keeps its rows in every continuation of a run if and only if every update of the chain in its slots has landed |
| EndToEnd.ClosedFileExact | src/bin/parquet_export.rs:650-661 | a file exported when its partition was no longer the last is kept by every later incremental run, and stays the partition's rows in every continuation of the ingest run if and only if every update there had landed |
| EndToEnd.ClosedIsNotSettled | src/bin/parquet_export.rs:650-661 | a run after which a partition is not the last, an export writes and then skips it, and the ingest lands one more row there |
| EndToEnd.BelowCheckpointLanded | schema/002_checkpoint.sql:16-22 | below the durable checkpoint, with no lossy seam in it, a partition has landed |
| SharedTable.SettledPartitionIsChain | src/bin/parquet_export.rs:492-499 | rows of write version 0 aside, such a partition of the shared table holds exactly the chain's updates in its slots |
| SharedTable.SharedSettledExact | src/bin/snapshot.rs:53-58 | what settles the indexer's rows of a partition for ever is the same whatever the snapshot writer adds to the table |
| EndToEnd.SettledPartitionStays | src/bin/parquet_export.rs:650-655 | a partition below the durable checkpoint with no lossy seam keeps its rows however the ingest run goes on, so its file is final |
| Snapshot.EachAccountOnce | src/bin/snapshot.rs:81-97 | the requests are disjoint, and exhaustive exactly on reserves, markets and obligations longer than 64 bytes |
| Snapshot.SnapshotIsWorld | src/bin/snapshot.rs:304-344 | on an account set that stands still a run fetches each account in scope as often as it exists and no other |
| Snapshot.ChunksTile | src/bin/snapshot.rs:203-228 | insert blocks are nonempty, at most 4096 rows, all full but one, and joined in reverse are the input |
| Snapshot.SendIsWhole | src/bin/snapshot.rs:203-228 | an insert that reports success has landed every row, and exactly as many as it was given |
| Snapshot.PageConserves | src/bin/snapshot.rs:427-564 | rows of a page plus decode failures equal accounts plus accounts of the three decoded kinds |
| Snapshot.LabelsCountKinds | src/bin/snapshot.rs:444-445 | counting by stored label is counting by kind |
| SnapshotWriter.InsertChunked | src/bin/snapshot.rs:203-228 | the `split_off` loop inserts exactly those blocks, in that order, up to the first failure |
| SnapshotWriter.FetchAndWrite | src/bin/snapshot.rs:427-564 | one page: rows, failures and counts of its accounts, written in order, nothing on a dry run |
| SnapshotWriter.Totals.Absorb | src/bin/snapshot.rs:400-413 | the loop over a page's labels adds every count, and the newest slot is kept |
| SnapshotWriter.RunStops | src/bin/snapshot.rs:306-344 | the first failure ends a run with the tables as they were then |
| SnapshotWriter.TakeSnapshot | src/bin/snapshot.rs:231-389 | the program performs that run, refuses an empty snapshot, and writes the provenance row last |
| SnapshotTheorems.TotalsConserve | src/bin/snapshot.rs:400-413 | over all pages and whatever the server answers, rows written plus failures equal accounts plus the counts under the three decoded labels |
| SnapshotTheorems.TotalsAreWorld | src/bin/snapshot.rs:304-344 | on an account set that stands still the totals, by kind, are the counts of what was fetched |
| SnapshotRows.EveryAccountLands | src/bin/snapshot.rs:445-537 | after a successful run every account in scope has a raw row with its own key, owner, lamports and payload, the slot of its page and write version 0, and its decoded row in the table its tag names if the decoder accepts it |
| SnapshotRows.SnapshotKeepsShared | src/bin/snapshot.rs:53-58 | a run, finished or not, adds rows of version 0 only: leave those out and the table is what the indexer landed |
| SnapshotRows.PageOrder | src/bin/snapshot.rs:539-555 | decoded rows of a page are sent only after all its raw rows landed, reserves after obligations, markets last |
| SnapshotRows.NewestSlot | src/bin/snapshot.rs:401-412 | a run is dated at the newest slot its pages were answered at |
| SnapshotRows.ProvenanceExact | src/bin/snapshot.rs:346-388 | the provenance row is sent if and only if it is no dry run, every page went through and there were accounts |
| SnapshotTheorems.ProvenanceIsTrue | src/bin/snapshot.rs:346-388 | if a provenance row was sent, every page was written, the tables grew by exactly the rows it reports, and its figures balance |
| PayloadGuard.Guard.Observe | src/payload.rs:97-119 | count, closures and span are those of the faults seen so far, and the action is the one due for the last of them |
| PayloadGuard.AlarmsExact | src/payload.rs:97-119 | after n faults there was one first alarm if n > 0 and n div 500 repeats, the k-th carrying 500k |
| PayloadGuard.Guard.ImpossibleSpan | src/payload.rs:131-134 | the reported span is the slots of the first and the last fault seen, if there was any |
| PayloadGuard.FirstFaultIsAnnounced | src/payload.rs:97-119 | the log is silent up to the first fault and announces it at once |
| PayloadGuard.SpanBracketsExact | src/payload.rs:131-134 | the span brackets every fault at every moment if and only if fault slots never go back |
| PayloadGuard.OrderedFaults | src/payload.rs:131-134 | updates in slot order keep fault slots in order |
| PayloadGuard.ReplayBreaksSpan | src/payload.rs:131-134 | two faults in reverse order leave a span that holds neither bound the right way round |
| Health.StoredExact | src/decode.rs:94-101 | with debt, the stored value is the true quotient if and only if the scaled deposit is in range; otherwise saturation or truncation changed it |
| Health.ThresholdsExact | web/queries.js:21-22 | every threshold separates stored values as it separates true ratios if and only if the position is in range |
| Health.UnsaturatedThresholdsExact | src/decode.rs:94-101 | when the scaled deposit is below 2^128 that is so if and only if the true quotient is below 2^64 |
| Health.SentinelExact | src/decode.rs:94-98 | in range, the no-debt sentinel is shared only with ratios at the very top of the scale |
| Health.HealthyCountedAtRisk | web/queries.js:21-22 | out of range, a position 18 trillion times over its debt is counted as at risk |

## Left out

- IngestTheorems.NoSilentHole: "from the first stored slot on" is not claimed, because it is false; `ColdStarts.ColdCutoffExact` says from where on the promise holds.
- Sampling without a database (no writer): it stores nothing, so nothing is claimed of it.
- Lag lines, tallies, printed text, back-off timing and the summary: they feed no stored state.
- Insert time-outs are failed inserts; how long they take is not modelled.
- Derived tables in `FINAL`: they are keyed like the raw table, and `MergeTree` covers them, but only the raw view is spelled out over runs.
- ColdCopy.ExportTable: the table is read as one snapshot a run. In the program the row count and each partition are separate queries, so rows inserted in between can make the total exceed the count; the model does not show that. Background merges that shrink `count()` are not modelled.
- Creating directories, and the writer handle as such: a file exists from its first operation on disk.
- The partition loop for the decoded table, the twin of the raw one: only its row conversion and its builder are modelled. Its nine columns that cannot fail are one column.
- GapQuery.GapsExact: the order of the result rows is not modelled.
- Queries of the cold store other than the gap derivation, DataFusion, Arrow and Parquet encodings, compression and row-group sizes.
- The RPC and gRPC wire formats, base58 and base64, TLS, signals: their results are inputs.
- Payload layouts and the SHA-256 discriminators: decoding is an arbitrary function, the tag table an arbitrary injective one holding the three published tags.
- Rows the snapshot writer adds (write version 0) can land in any partition at any time; nothing is claimed of when they are complete in the cold copy.
- Snapshot.SnapshotIsWorld: a set of accounts that changes between pages is not claimed to be covered; the source does not promise it.
- Widths of counters and slots (`u64`, `u32`): none can overflow before the chain's slots do. The health factor and `parse_sf`, where width matters, are modelled in their widths.
- The alarm and `Display` texts of the guard.
- The dashboard, exporter, deployment and watchdog.
