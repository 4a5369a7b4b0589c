# Verified model of the Solana realtime indexer

A Dafny 4.11 model of the indexer's ingestion, storage, repair and recovery protocol, with proofs of
what it keeps over whole runs. `dafny verify dfyconfig.toml` checks the project.

The indexer decodes pump.fun and PumpSwap events, batches them in a writer task, commits each batch
with a checkpoint in one Postgres transaction, and parks failed batches as dead letters. Swaps whose
pool is not known yet are stored without a trade; `repair` builds the trade later from the stored
JSON. A slot watermark reports gaps in the stream, `recover` refetches them from the chain, and
`verify` compares the tables with an independent second decoding.

| file | what it models |
|---|---|
| `Rows.dfy`, `Store.dfy`, `Database.dfy` | rows, the tables and each SQL statement of `db.rs` as a change of maps; one transaction as a shadow copy |
| `Protocol.dfy`, `Runs.dfy` | channel, writer task and producers as a transition system; every `.await` is a step boundary, a kill is the end of a run, a COMMIT whose answer never came may land at any later step |
| `Writer.dfy`, `Pipeline.dfy` | the writer task and `run_pipeline` as classes and methods, proved to be runs of that system |
| `Convergence.dfy` | batching is invisible; crashes and restarts converge |
| `Interpret.dfy`, `Repair.dfy`, `RepairProgress.dfy`, `ColdWarm.dfy` | the live and the repair interpreter, `run_repair`, repeated repairs, cold cache plus repair against warm cache |
| `Live.dfy` | the processors with the lookup worker between them: live ingestion yields the streams `ColdWarm.dfy` speaks of |
| `ColdLives.dfy` | crashes, restarts and late interpretation together |
| `Checkpoints.dfy` | what the checkpoint claims, over runs of the writer protocol |
| `Outage.dfy` | gap reports, recorder and recovery composed |
| `Pools.dfy`, `PumpSwap.dfy` | pool cache, pools table and lookup worker under interleaving; the two processors |
| `Gaps.dfy`, `Backfill.dfy`, `Recover.dfy`, `Replay.dfy` | watermark and gap reports, backfill through the pipeline, `run_recover`, the range and file checks of `verify` |
| `StoreRuns.dfy` | the store invariant over every mixture of flush, repair, recovery, pool save and gap report |
| `Metrics.dfy`, `Bench.dfy` | histogram percentiles in exact arithmetic; the benchmark's signature mask |

Where a claim of the documentation, or the obvious reading of it, is stronger than the code, the
model follows the code and the proofs give the exact condition:

- DESIGN.md calls the checkpoint the highest slot known to be processed. The row is overwritten by
  every commit, so recovering an old range moves it back
  (`StoreRuns.RecoveryMovesCheckpointBack`). After a flush it is at or above every stored event
  exactly when no event stored before is above the batch (`StoreRuns.CommitTopsExactly`); after any
  run of statements that is decided by the last flush (`StoreRuns.CheckpointIsHighestExactly`).
- DESIGN.md says the checkpoint marks a slot fully processed and can never claim progress that was
  not written. A lost batch before a committed one breaks that (`Checkpoints.LostBelowCheckpoint`),
  and so does a batch that ends inside a slot, without any fault (`Checkpoints.SlotSplitByBatch`).
  With rows accepted in slot order and something landed, every accepted row below the checkpoint is
  stored exactly when those of the failed batches are (`Checkpoints.ClaimHoldsInOrder`); with the
  checkpoint slot itself, exactly when moreover no row of that slot still waits unstored
  (`Checkpoints.FullyProcessedInOrder`). Until something landed an inherited checkpoint claims rows
  that still wait, and both lemmas say so.
- DESIGN.md says overlap after a restart is free. The events table converges for every pattern of
  faults exactly when the input never carries two different events under one key that is not stored
  yet (`Convergence.ConvergesExactlyWithoutConflict`).
- Cold cache plus repair equals warm cache exactly when the sightings of one key interpret alike
  (`ColdWarm.ColdWarmExactly`); one event per key is enough (`ColdWarm.OneEventPerKeyIsAlike`).
- `closed` does not mean complete. Which gaps a recovery backfills depends on the open gaps alone
  (`Recover.IsBackfilled`). When the flushes of each backfill all go through or are all refused, a
  closed gap passes the range check exactly when every key of the chain in its range that was not
  stored before is sent by the source of a backfill whose flushes go through
  (`Recover.CompleteExactly`). A source cut short by a cancellation or a closed receiver sends less,
  and its gap is closed all the same. Where no source is cut short, only the blocks given up on
  count (`Recover.GivenUpExactly`). With every flush refused a gap is complete exactly when it was
  before (`Recover.RefusedFlushesStoreNothing`). For flushes that fail now and then,
  `Recover.WhyMissing` says where a missing key was lost.
- A gap left `recovering` is never retried: a second recovery closes every remaining gap exactly when
  the first did not stop between the two status changes of a gap (`Recover.SecondRunExactly`).
- One pools row that does not parse ends every recovery in its first pipeline, with one more gap left
  `recovering` each time (last clause of `Recover.RunRecover`).
- A clean range check means a complete range exactly when the check's own fetches gave up on no block
  that has events (`Backfill.CheckIsAsGoodAsItsFetches`).
- A repair limited to n events is sure to make progress exactly when fewer than n unrepairable
  events come no later than every repairable one (`RepairProgress.ProgressExactly`).
- Cached decimals, unlike mints, can be lost (`Pools.CachedDecimalsCanBeLost`). They stay over every
  continuation exactly when no lookup of that pool is under way (`Pools.DecimalsStayExactly`), so
  those of a CreatePoolEvent are kept exactly when it does not arrive while the worker waits for the
  node's answer (`Pools.CreatedDecimalsStayExactly`).
- DESIGN.md describes two gap rows for one outage. The unique range index of
  `migrations/20260816000000_stream_gaps_unique_range.sql` keeps one, and the model follows it.

## Model

| member | source | states |
|---|---|---|
| Store.InsertLookup | src/db.rs:65 | ON CONFLICT DO NOTHING, per key: the stored row stays, else the first offered row wins |
| Store.FirstMeaning | src/db.rs:65 | the winning row is the one at the lowest index with that key, and there is none exactly when no row has it |
| Store.CommitKeepsInv | src/writer.rs:120-133 | a committed batch keeps the foreign key, the CHECK on side and the checkpoint naming a stored event; events and trades only grow; every row's key is stored |
| Store.Newest | src/writer.rs:63-66 | `max_by_key` picks a row of maximal slot and the last such row |
| Store.CheckpointNamesNewest | src/writer.rs:63-66 | slot and signature of a checkpoint come from one row of the batch, no row is above it and every later row is strictly below |
| Database.Database.WriteDeadLetters | src/db.rs:187-213 | one dead letter per row with key, slot, payload and error, appended in order |
| Database.Database.WritePool | src/db.rs:114-138 | first mints stay, a decimals column is filled exactly while it is null |
| Database.Database.WriteGap | src/db.rs:215-237 | a row is written exactly when the range is new; then one open row is appended |
| Database.Database.MarkGap | src/db.rs:263-277 | only the row of that id changes; recovered_at and method are set exactly by a close |
| Database.Database.OpenGaps | src/db.rs:245-261 | the open rows in gap_id order |
| Database.OpenOfMeaning | src/db.rs:245-261 | the selection holds exactly the open rows, ids increasing |
| Database.Transaction.WriteEvents | src/db.rs:41-70 | the shadow events are the multi-row insert of the batch |
| Database.Transaction.WriteTrades | src/db.rs:72-112 | succeeds exactly when every trade has a legal side and a stored event; then the shadow trades are the insert of the rows that carry one |
| Database.Transaction.WriteCheckpoint | src/db.rs:166-185 | the single row is overwritten |
| Database.Transaction.Commit | src/writer.rs:132 | the three shadow tables are published together, nothing else changes |
| Protocol.InvStep | src/writer.rs:29-118 | every step keeps FIFO conservation, batch sizes, single landing, the head lead and the store invariant |
| Protocol.ConservedStep | src/writer.rs:36-56 | accepted rows stay, in order, the handled batches, the current batch and the queue |
| Protocol.LandedOnceStep | src/writer.rs:71-115 | a batch whose COMMIT was sent takes effect at most once, and a batch counted as committed did |
| Runs.RunKeepsInv | src/writer.rs:29-118 | all of that in every reachable state; events and trades are append-only |
| Runs.RunKeepsLedger | src/writer.rs:62-133 | the tables are the starting tables plus the landed rows in landing order, the dead letters are those of the parked batches, the checkpoint names the newest row of the batch that landed last |
| Runs.RunGauges | src/metrics.rs:108-114 | over every run HEAD_SLOT is the highest slot checked and COMMITTED_SLOT the highest slot of a batch counted as committed |
| Runs.LandedWasAccepted | src/writer.rs:120-133 | only accepted rows reach the tables |
| Runs.HandledAccounted | src/writer.rs:76-115 | each handled batch has 1 to 100 rows; a committed one is stored, a parked one is among the dead letters |
| Runs.ShutdownProgress | src/writer.rs:36-56 | with the senders gone the writer is never stuck before it stopped, and each working action lowers a rank nothing raises |
| Runs.ShutdownTerminates | src/writer.rs:46-49 | it stops within that many working actions, with queue and batch empty and every accepted row handled |
| Runs.SendNeverRefused | src/writer.rs:22-26 | while a sender lives the channel is open, so `send` never fails |
| Runs.LagNeverSaturates | src/metrics.rs:108-124 | COMMITTED_SLOT never passes HEAD_SLOT, so the lag is 0 before the first commit and their exact difference after it |
| Writer.FlushedIsRun | src/writer.rs:62-118 | a flush, whatever the database does, is a run of the protocol |
| Writer.FateMeaning | src/writer.rs:71-115 | a batch is committed exactly when its sides are legal and no await up to COMMIT fails or hangs; else the fate says whether it timed out, whether COMMIT was sent, and the text it is parked with |
| Writer.WriterTask.NewestRow | src/writer.rs:63-66 | slot and signature are those of one row; no slot is above it and every later one is strictly below |
| Writer.WriterTask.WriteBatch | src/writer.rs:120-133 | the transaction is all or nothing at each of its five awaits; a bad side fails it; the checkpoint it writes names the newest row |
| Writer.WriterTask.Flush | src/writer.rs:62-118 | commit, or park, or report lost; the batch is cleared; error and dead-letter counters match the history |
| Writer.WriterTask.Receive | src/writer.rs:38-51 | a received row is batched, the hundredth flushes, a closed channel flushes and stops |
| Writer.WriterTask.Tick | src/writer.rs:52-54 | a tick flushes whatever is batched |
| Writer.WriterTask.Send | src/writer.rs:22-26 | the row in hand goes to the end of the queue |
| Writer.WriterTask.LandLate | src/writer.rs:71-75 | a COMMIT whose answer came too late takes effect as the late landing of the protocol, checkpoint included |
| Writer.WriterTask.After | src/writer.rs:29-34 | the writer of the process's next pipeline: a new channel, with gauges, counters and unanswered COMMITs as the last one left them |
| Pipeline.RunPipeline | src/pipeline.rs:24-83 | run to the end, the writer stops with every row handled in order; after an early error or a kill it took a prefix; the tables are those at the start of the process's first pipeline plus the rows of the batches landed since, COMMITs of earlier pipelines included; with no fault all batches are committed, with only refused flushes no COMMIT is sent |
| Convergence.BatchingInvisible | src/writer.rs:120-133 | every way of cutting the rows into batches gives the events and trades of one row at a time |
| Convergence.FirstWins | src/db.rs:41-112 | per key the first event wins and, independently, the first row that carries a trade, stored with its event's slot, block time and program |
| Convergence.CrashRestartConverges | DESIGN.md:320-321 | after any lives with refused, hung and late-landing batches and kills, a clean pass over the same input leaves the events of one clean pass |
| Convergence.ConflictDiverges | src/db.rs:65 | two different events under a free key: one crash makes the later one win |
| Convergence.ConvergesExactlyWithoutConflict | DESIGN.md:320-321 | convergence for every pattern of faults holds if and only if there is no such pair |
| Interpret.OrientKeepsFlows | src/pools.rs:29-56 | every pool with a SOL side is oriented, and the trade moves each mint as the event did |
| Interpret.OrientIgnoresListing | src/pools.rs:36-54 | listing the pool the other way round gives the same trade |
| Interpret.ReadPubkey | src/repair.rs:18-28 | the loop accepts exactly 32-item arrays of bytes |
| Interpret.PubkeyRoundTrip | src/repair.rs:18-28 | a JSON value reads as a key if and only if it is that key's serialisation |
| Interpret.LiveAndRepairAgree | src/repair.rs:30-122 | from the stored payload repair builds exactly the live row, and skips for unknown pool or no SOL side exactly when live leaves the event alone for that reason; never for a bad payload |
| Interpret.LiveSidesOk | src/processors/pumpswap.rs:129 | the live processors queue only legal sides |
| Interpret.PumpfunRow | src/processors/pumpfun.rs:86-95 | the row says "buy" exactly when the event is a buy; amounts, fee, mint and trader are the event's |
| Interpret.SwapRow | src/processors/pumpswap.rs:105-188 | a swap carries a trade exactly when its pool is known with a SOL side; side, amounts, mint, pool, trader and fee of the row in terms of the event, for both listings |
| Interpret.SwapRowKeepsFlows | src/pools.rs:29-56 | read off the row itself, its side and amounts move token and SOL exactly as the event did |
| Interpret.EventRowMeaning | src/processors/pumpswap.rs:116-124 | key, slot, block time, program, event type and payload of the stored event row |
| Interpret.PayloadFields | src/processors/pumpswap.rs:116-124 | which member of the event stands under which name of the stored payload |
| Interpret.BuildMeaning | src/repair.rs:30-122 | for any stored row and payload: the exact condition for each of bad payload, unknown pool, no SOL side and a built trade, and every column of the trade in terms of the payload's fields |
| Interpret.ReadersAccept | src/repair.rs:52-60 | an amount reads exactly from an integer that fits 64 bits, a flag exactly from a boolean, a missing field from nothing |
| Repair.LoadUnrepaired | src/db.rs:300-330 | at most limit events without a trade, lowest slots first, all of them if they fit; a negative limit is an error |
| Repair.LoadMeaning | src/db.rs:303-313 | what a load is, told over events and trades: no event twice, slots ascending, an event left out finds the limit reached and no loaded slot above its own |
| Repair.WriteRepaired | src/db.rs:332-362 | one atomic insert, refused exactly when the database fails or a row breaks the CHECK or the foreign key; the result is the number of rows really added |
| Repair.LoadPools | src/repair.rs:125-142 | the table rows whose mints parse, base mint as base and quote mint as quote |
| Repair.KnownPoolsAre | src/repair.rs:125-142 | a pool is known exactly when both texts of its row parse; its mints are those of the row, each on its side, its decimals those that fit a byte |
| Repair.RunRepair | src/repair.rs:124-183 | written, unknown, no_sol and bad add up to the loaded events; the trades are the insert of all rebuilt ones; an error keeps only trades a full repair would write, a hundred for each chunk before the refused one |
| Repair.CountIs | src/repair.rs:152-171 | each skip counter is the number of loaded events skipped for that reason |
| Repair.RepairLookup | src/repair.rs:152-175 | per key: old trades stay, loaded buildable events get theirs, nothing else is written |
| Repair.UntruncatedRepair | src/repair.rs:145-175 | with room for every event one run repairs all that can be repaired |
| RepairProgress.ProgressExactly | src/db.rs:310-311 | while something is repairable every run writes a trade if and only if the limit exceeds the number of blockers |
| RepairProgress.RepairShrinks | src/repair.rs:148-175 | a run takes what it wrote off the repairable set and leaves the unrepairable set and the full repair alone |
| RepairProgress.RepairsReachFixpoint | src/repair.rs:145-175 | with fewer unrepairable events than the limit, repeated runs reach the full repair, after which a run writes nothing |
| ColdWarm.ColdPlusRepairIsWarm | src/processors/pumpswap.rs:105-194 | whatever pools were known when, and however both runs were batched, an untruncated repair from a pools table whose rows hold the chain's mints leaves exactly the trades of the run that knew every pool from the start |
| ColdWarm.ColdWarmExactly | src/repair.rs:152-175 | cold-and-repaired equals warm-and-repaired for every pattern of discoveries if and only if sightings of one key interpret alike |
| ColdWarm.OneEventPerKeyIsAlike | src/identity.rs:3-8 | one event per key meets that condition |
| ColdLives.CrashedColdPlusRepairIsWarm | src/repair.rs:124-175 | after lives with refused, hung and late-landing batches, kills and a different cache in each, a clean pass and an untruncated repair leave exactly the trades of one undisturbed run that knew every pool |
| Pools.RunGrows | src/pools.rs:80-169 | over every interleaving stored mints and decimals stay, the cache never forgets, lookups of a pool are 60 s apart and none follows its caching, hits plus misses count the resolves |
| Pools.ResolveMeaning | src/processors/pumpswap.rs:40-61 | a miss not requested within 60 s is requested now and queued while the queue has room; a hit or a throttled miss queues nothing |
| Pools.RowOfMeaning | src/pools.rs:118-132 | the saved row holds each mint and each decimals on its side |
| Pools.SavedDecimals | src/db.rs:114-138 | saving a created pool leaves stored decimals as they were and fills empty ones from the event, base and quote apart |
| Pools.RunAgrees | src/pools.rs:80-169 | with honest sources cached mints equal stored mints in every reachable state |
| Pools.RunCovers | src/pools.rs:118-132 | while no save fails, a cached pool is stored or about to be |
| Pools.CachedDecimalsCanBeLost | src/pools.rs:141-162 | a run in which the answer of a lookup overwrites cached decimals while the table keeps them |
| Pools.DecimalsStayExactly | src/pools.rs:141-159 | cached decimals stay over every continuation if and only if the worker is not fetching that pool |
| Pools.CreatedDecimalsStayExactly | src/processors/pumpswap.rs:196-206 | the decimals of a CreatePoolEvent are kept for good if and only if it does not arrive during a lookup of its pool |
| PumpSwap.PoolResolver.Insert | src/pools.rs:80-86 | cache first, then save |
| PumpSwap.PoolResolver.Request | src/pools.rs:88-92 | a full queue drops the request |
| PumpSwap.PoolResolver.Prime | src/pools.rs:94-115 | succeeds exactly when every text parses, with the table's size; each entry it caches has the table's mints and the decimals that fit a byte |
| PumpSwap.PoolResolver.WorkerTake | src/pools.rs:141-145 | a cached pool is passed over, else the worker asks for it |
| PumpSwap.PoolResolver.WorkerAnswer | src/pools.rs:149-168 | an answer overwrites the cache entry and is saved; an error changes nothing |
| PumpSwap.Processors.Resolve | src/processors/pumpswap.rs:40-61 | answers from the cache as it is and is a resolve step of the interleaving model |
| PumpSwap.Processors.Process | src/processors/pumpswap.rs:82-220 | exactly one row per decoded event, interpreted with the cache of that moment; failed transactions are skipped and counted; keeps hits + misses = swaps = trades written + unoriented, swaps + pump.fun = decoded, and every row's slot at or below HEAD_SLOT |
| PumpSwap.Processors.ProcessPumpfun | src/processors/pumpfun.rs:60-104 | the pump.fun row always carries its trade, "buy" exactly for a buy, with the event's amounts, mint, trader and fee |
| Live.Ingest | src/processors/pumpswap.rs:82-220 | whatever the interleaving of trading, pool creation and lookups, the rows sent are the live rows of the stream, each with the cache of its moment, and each cache holds of a pool the chain's mints or nothing |
| Gaps.Watermark.CheckSlot | src/gaps.rs:48-76 | watermark and head are raised to the slot; nothing is reported unless the watermark was set and the slot lies more than 50 above it, and then exactly (watermark, slot), while the channel has room |
| Gaps.ReportsAreSeen | src/gaps.rs:53-73 | both ends of every reported or dropped range are slots that were seen, the first is not 0, and they are more than 50 apart |
| Gaps.RoomDelivers | src/gaps.rs:67-73 | over any run, reports that all find room are all delivered, and reports that find none deliver nothing |
| Gaps.ReportsApart | src/gaps.rs:53-73 | under every interleaving two reported ranges meet in at most an endpoint |
| Gaps.ReportsComplete | src/gaps.rs:53-73 | every slot from the first nonzero one to the head is in a reported range, or in one whose report was dropped, or fewer than 50 slots after one seen |
| Gaps.Record | src/gaps.rs:14-46 | every delivered range is stored exactly once and counted once |
| Outage.RecordAndRecover | src/gaps.rs:17-38 | recorder, then a smooth finished recovery: every reported range whose row the database took is stored, if the rows that were not open stood for complete ranges |
| Outage.NoSilentHole | src/gaps.rs:48-76 | every event of the chain from the first nonzero slot to the head is stored, or lies fewer than 50 slots after a slot seen, or in a range whose report was dropped or refused |
| Backfill.FetchBlock | src/datasources/backfill.rs:116-140 | gives up exactly after four failures, with waits of 200, 400 and 800 ms |
| Backfill.Consume | src/datasources/backfill.rs:26-107 | sends the events of the fetched blocks in slot order up to a cancellation or a closed receiver, and fails exactly when the blocks cannot be listed |
| Backfill.BlockInPlace | src/datasources/backfill.rs:55-62 | a block answered within four attempts is sent whole, after the blocks of lower slots and before those of higher ones |
| Backfill.ReachMeaning | src/datasources/backfill.rs:56-58 | no block before the stop saw a cancellation, and the stop is at a block that did |
| Backfill.SentMeaning | src/datasources/backfill.rs:98-100 | what is sent is the longest prefix of the fetched events the receiver takes; nothing if the blocks cannot be listed or the range is empty |
| Backfill.SteadySends | src/datasources/backfill.rs:55-104 | uncancelled and with a receiver, it sends a key of the range if and only if it did not give up on its block |
| Backfill.VerifyRange | src/verify.rs:72-114 | for any outage the answer is whether the keys stored in the range are the keys the source sent |
| Backfill.CheckIsAsGoodAsItsFetches | src/verify.rs:77-113 | with every block fetched the answer is whether the range is complete; a clean answer means a complete range if and only if no block with events was given up on |
| Backfill.Backfill | src/recover.rs:30-41 | whatever the weather, events and trades grow by the rows of the landed batches; what it handled is a prefix, in order, of the rows interpreted from what the source sent, and all of them if it returned Ok; a pools row that does not parse ends it at once |
| Backfill.SentLandedOrFailed | src/writer.rs:76-117 | after a whole backfill every key it sent landed or was in a batch whose flush failed |
| Recover.ShapeKeepsRecovered | src/db.rs:263-270 | in the crash shape recovered_at is set exactly on closed gaps and at most one gap is recovering |
| Recover.SecondRunExactly | src/db.rs:245-250 | a stopped run and then a finished one close every gap if and only if the first did not stop between the two status changes of a gap |
| Recover.BackfilledCover | src/recover.rs:22-26 | the gaps that get a backfill, a function of the open gaps, cover every gap passed over |
| Recover.CompleteExactly | src/recover.rs:16-47 | a closed gap, shortcut ones included, passes the range check if and only if every chain key of its range not stored before is sent, cancellations and closed receivers considered, by a backfill of the run whose flushes go through |
| Recover.GivenUpExactly | src/datasources/backfill.rs:60-62 | with sources that are not cut short, if and only if every block of its range not stored before is answered within four attempts in such a backfill |
| Recover.ClosedGapExactly | src/writer.rs:120-133 | the ledger step, under any faults: it passes if and only if every chain key there was stored before or landed in this run |
| Recover.WhyMissing | src/writer.rs:87-114 | a key missing from a closed gap was not sent by the backfill that covers it (over a steady source: its block was given up on) or was in a failed batch of it |
| Recover.RefusedFlushesStoreNothing | src/writer.rs:87-114 | with every flush refused or hung before COMMIT the run stores nothing, and a gap it closes is complete if and only if it was before |
| Recover.LoopDone | src/recover.rs:16-47 | at the end every open gap is closed, and if nothing failed each passes the range check |
| Recover.RecoveredPassesCheck | src/verify.rs:72-114 | after a smooth run an undisturbed range check of any processed gap answers clean |
| Recover.RunRecover | src/recover.rs:9-50 | stopping at any await, or anywhere inside a pipeline, leaves a closed prefix in gap_id order, the next gap recovering exactly between its status changes, the rest open; `covered` is exactly the widened ranges backfilled in this run, every processed range lies in one, after a smooth run every chain event from 64 slots before a processed gap to 64 after it is stored, events and trades are the starting ones plus what landed, and over the whole run each COMMIT that was sent lands at most once, possibly while a later gap is recovered; with a pools row that does not parse the first gap is left recovering and nothing is stored |
| Recover.OverlapStored | src/recover.rs:17-18 | in a smooth run each processed gap is stored together with the 64 slots on either side |
| Replay.Pass | src/datasources/replay.rs:45-129 | each line read is sent or skipped; without stops the pass reads the whole file |
| Replay.Consume | src/datasources/replay.rs:25-143 | sent and skipped lines are those of the whole passes and the started one; it finishes when nothing stops it |
| Replay.CountedOncePerPass | src/datasources/replay.rs:31-138 | sent plus skipped is one per line and pass |
| Replay.TransactionsAre | src/datasources/replay.rs:45-129 | the events sent by a pass are exactly those of the usable lines |
| Replay.TransactionAt | src/datasources/replay.rs:45-129 | each usable line is sent with its own events, in line order |
| Replay.MatchesMeans | src/verify.rs:22-44 | over the lines of the file: the check succeeds exactly when each event of each usable line is stored and no other key is stored under a signature of the file |
| Replay.RepeatedPasses | src/db.rs:65 | storing n passes over a file is storing one, whatever trades each pass made of the events |
| Replay.RunVerify | src/verify.rs:11-70 | for a readable file the answer is whether every event of every usable line is stored and no other key is stored under their signatures; a missing file or an unreadable line is an error or ends the reading |
| Replay.ReplayThenVerify | src/verify.rs:22-44 | for any file and repeat count, after clean passes the check succeeds if and only if no foreign key was stored under the file's signatures |
| Replay.ReplayAndVerify | src/verify.rs:11-70 | replay, pipeline and check joined: for a readable file, under any stop and any weather, clean means every event of every usable line is stored and nothing foreign was; undisturbed, nothing foreign is enough |
| StoreRuns.RunKeeps | src/db.rs:41-362 | over every mixture of flush, park, repair, pool save and gap changes each trade has its event and the side "buy" or "sell", the checkpoint names a stored event, tables only grow, gap ranges stay unique, and the checkpoint names the newest row of the last flushed batch |
| StoreRuns.CommitTopsExactly | src/db.rs:171-177 | after a flush the checkpoint is at or above every stored event if and only if no event stored before is above the batch |
| StoreRuns.CheckpointIsHighestExactly | src/db.rs:171-177 | after any run of statements it is so if and only if the last flush met no stored event above its batch |
| StoreRuns.RecoveryMovesCheckpointBack | src/recover.rs:28-43 | recovering an old range leaves the checkpoint below a stored event |
| Checkpoints.ClaimHoldsExactly | src/writer.rs:120-133 | in any state: every accepted row below (or up to) the checkpoint is stored if and only if those of failed batches and those still waiting are |
| Checkpoints.ClaimHoldsInOrder | DESIGN.md:310-312 | over runs that accept in slot order, from any tables, with any faults and late landings: below the checkpoint that is so if and only if the rows of failed batches are stored and, while nothing landed yet, the waiting ones too |
| Checkpoints.FullyProcessedInOrder | DESIGN.md:308-309 | up to and including the checkpoint slot, if and only if moreover no row of that slot still waits unstored |
| Checkpoints.LostBelowCheckpoint | src/writer.rs:87-114 | a lost batch before a committed one leaves the checkpoint above a row stored nowhere |
| Checkpoints.SlotSplitByBatch | src/writer.rs:41-43 | without faults, a batch that ends inside a slot leaves everything below the checkpoint stored and its slot not finished |
| Metrics.Histogram.Observe | src/metrics.rs:50-60 | the observation is counted in the first bucket whose edge is not below it; the sum wraps at 64 bits |
| Metrics.Histogram.Summary | src/metrics.rs:62-80 | the count is the number of observations, and the mean times the count their sum while that has not wrapped |
| Metrics.PercentileUpper | src/metrics.rs:83-102 | the running-total loop finds the first bucket that reaches the rank |
| Metrics.PrefixCounts | src/metrics.rs:66 | bucket sums count the observations up to an edge, all together the observations |
| Metrics.NearestRank | src/metrics.rs:83-102 | the bound is the upper edge of the bucket of the ceil(count * p)-th smallest observation, None exactly when that lies beyond the last edge |
| Bench.MakeUnique | src/bench.rs:137-152 | the first eight bytes are masked in place, the rest stay |
| Bench.MaskedMeaning | src/bench.rs:142-147 | bit by bit: a bit of the first eight bytes is flipped exactly where salt + index, wrapped at 64 bits and little endian, has a one; later bytes stay |
| Bench.NoCollision | src/bench.rs:137-152 | bases that are equal or differ after byte 8 never collide at two positions, for any salt |
| Bench.CollisionExactly | src/bench.rs:142-147 | two masked signatures are equal if and only if the second base is the first under both masks |
| Bench.Forward | src/bench.rs:91-125 | over a stream of fewer than 2^64 such updates all signatures are pairwise distinct |

## Left out

- Carbon, gRPC, Solana RPC, base58, base64, protobuf and serde internals: a source is a sequence of updates, the chain a map from slot to events, a payload a JSON value, the text of a key injective in the key.
- Whether Carbon hands a datasource's error on to its caller is not part of this model: `Backfill.Node` and `Replay.RunVerify` allow both.
- SQL parsing and Postgres itself: each statement is a change of maps under the constraints of the migrations; `parser_version`, `received_at`, `detected_at`, `missed_slots` and `updated_at` are not modelled.
- Runs.ShutdownProgress: counts the writer's working actions and so assumes that each await ends; writing dead letters has no timeout in the program, and a database that hangs there holds the shutdown.
- Time: ticks, the ten-second timeout and retry sleeps are arbitrary steps; only the lookup throttle has a clock, and `queued_at` and the latency observations of `flush` are left out.
- Slots and counters near 2^64, several indexer processes on one database, reorgs and weak memory order.
- Percentiles use exact rationals and microseconds instead of floating-point milliseconds.
- HTTP API, CLI, capture, Prometheus text, Grafana, scripts and the benchmark's pacing and report: no hard property.
- `Backfill.Backfill` takes the trade of each event from a parameter and saves no pools; what the processors and the pool cache make of a stream is in `Live`, `PumpSwap` and `Pools`.
