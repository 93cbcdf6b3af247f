# FreeToken: checkpoint store, engine supervisor, pooled index cache, log fan-out, budgets

This project models five parts of FreeToken in Dafny and proves what they promise. `dafny verify
dfyconfig.toml` checks all of it.

**FTW weight store.** One logical byte region is cut into aligned shard files; an index names the shards and
the tensors. `FtwFormat` gives the format and the meaning of a directory (`Decode`, a list of names with
their bytes). `ShardWriting` is the streaming writer, `FtwReading` the reader with its chunk jobs and worker
pool, over files that may be missing or cut short, `FtwBanks` the two bank layouts, `RoundTrip` joins writer
and reader. `Compaction` says what squeezing the dead bytes out of one shard does to every byte of the
region: it moves to its rank among the bytes that stay. `LiveRanges` ties the range lists, the prefix sums
and `remap` to that meaning, `CompactionStep` shows that one step keeps every entry's bytes, tiling,
alignment and disjointness and removes exactly one dirty shard. `HotfixStore` is a directory changed one
file operation at a time with every state in between recorded; `InPlace` is the compaction loop over it,
with crashes allowed anywhere, and `Repair` the whole in-place run with appended shards.

**Engine supervisor.** `Supervisor` is a transition system: one lifecycle transaction at a time, a monitor
thread per child, restart threads and the children move in between, one critical section or blocking action
per step. Every step appends what it did to a log; the invariant `Inv` is kept by every step, and the
results are read off the log of any run. `Replacement` says which engines can still be reaped and so
replaced, and that every transaction comes to an end; `Launch` which model is started, `Conduct` when an
engine is signalled and restarted and what the latches and the state file stand for, `Outcomes` what a
start, a crash, a stop and a switch come to. `Accounting` is the receipt outbox behind it, on a directory of
files with a crash possible between any two operations.

**Pooled index cache.** `PooledAddressing` places groups, slab rows and ring rows; `PooledCache` says what
a forward of a ragged batch leaves in the slab and the rings, and that it is what pooling every group at
once would give; `PooledCacheOps` adds admission on a shared prefix, exchange of pages for canonical ones,
eviction and the absence of write races; `PooledCacheStore` is the store into the two buffers, its rows in
any order, and what a later selection reads; `PooledCacheRun` serves one request end to end. Group size,
ring capacity and page size are parameters, so one model serves the kpool cache (capacity = group size) and
the QSA cache. `PooledSelection` goes from block scores to token positions, `DecodeWindow` is the ring of
window slots. `PooledServing` joins the two: a query on a kept cache reads its own request's slots and
pooled keys.

**Log fan-out.** `LineAssembly` turns characters into lines and partials, `LogRing` is the bounded ring,
`LogStream` the replay and live tail of one subscriber through its drop-oldest queue, as a transition system
and as a class whose methods are the stretches of code between two suspension points; `LogStreamGaps` has runs
of it.

**Budgets.** `CacheBudget` splits memory between expert slots and KV pages, `CpuLayers` picks CPU layers.

Assumptions: a monitor's `wait()` returns only after the child has exited, `readopt` runs only at boot and
accounting identities differ between generations (`Supervisor`); subscriber callbacks run in seq order
(`LogStream`); a synced file keeps its bytes and its name across a power loss, any other file may be
gone or torn (`HotfixStore`); the scheduler stages a batch as `PooledCache.Staged` says, with fresh pages
for new tokens, and shares pages only as full pages of an equal prefix.

Where the code does less than its documentation says, the code is kept and the exact condition is proved:

- A handed-out shard number is free unless 99999 and 100000 are both taken, because only five-digit names
  are recognised (`NextIsFree`, `SixDigitCollision`). A whole compaction keeps the contents exactly when each
  number it asks for is free by then (`RoomExactlyWhen`, `CollisionLoses`, `CollisionExample`), as it is when
  the index names only five-digit files (`FiveDigitsAreRoom`, `FiveDigitsCanRepair`).
- A rerun does not always finish an interrupted job. With nothing to repair and no dirty shard it stops before
  it deletes anything, so the old shard file of a run that was hit between its last index swap and the deletion
  stays, and so does any other stray (`StrandedStays`, `StrandedExample`). Recognised strays are deleted exactly
  when there is something to do (`Rerun`, `RerunAfterCrash`, `RepairInPlace`).
- A dead child does not always stop being the current one. Creating the outbox directory is outside the `try`
  of `persist`, so its failure is a bare `OSError`, which in the crash path ends the monitor thread; and a
  start that fails at writing the record or beginning the monitor leaves the installed child without one
  (`UncaughtIsUnwatched`, `UnsavedIsUnwatched`). An engine can still be reaped exactly when its monitor is at
  work or its start is still to begin it (`ReapableExactlyWhenWatched`); otherwise it is current for good, no
  stop returns and no start spawns (`NeverReplaced`).
- A restart is of the model that was served last, not always of the one that crashed: a client may have started
  another before the monitor's thread reads what to restart (`RestartOf`, `LastInstalled`,
  `RestartMayBeOfAnother`).
- The state file does not always name the engine that serves: it does exactly until a monitor clears it, which may
  be that of an engine that died before (`NamedExactlyUntilCleared`, `RecordMayVanish`).
- Which engines have receipts is remembered in memory only: a crash receipt follows a stop receipt of the same
  engine exactly when the engine was adopted after an earlier life of the daemon had stored one
  (`CrashReceiptAfterStopExactlyWhen`, `CrashReceiptMayFollow`).
- A log client that resumes on a ring that has started over loses records without a gap frame: exactly those of
  the backlog not above its last id, and all of it when that id is at or past the ring's count
  (`ResumeLosesExactlyWhen`, `SomeLostExactlyWhen`, `RestartIsSilent`).
- A negative cursor makes the opening gap frame count records that never were, and only that does
  (`PhantomsExactlyWhenNegative`). The range of a gap frame has a record in it that is not lost exactly when
  the record sent right after it lies inside (`GapRangeExactlyWhen`, `GapIsExactlyWhen`, `GapMayStraddle`).
- The greedy budget split can refuse for want of KV pages where fewer slots would leave some
  (`GreedyStarvesExactlyWhen`, never with a reserve of two pages, `ReserveProtectsKv`), also when only the
  budget grew (`MoreIsMore`, `MoreMayRefuse`); prefill overlap is never given up for a small budget, so the
  later re-check of it has no effect (`OverlapIsNotTraded`, `PlanIsBest`).

## Model

| member | source | states |
|---|---|---|
| FtwFormat.AlignUp | python/freetoken/checkpoint/ftw.py:89-90 | the least aligned size not below the given one |
| FtwFormat.SortShards | scripts/ftw_hotfix.py:301 | sorting by offset keeps the shards and puts them in order |
| FtwFormat.SortKeeps | scripts/ftw_hotfix.py:301 | it keeps every shard as often as it is there, and the order of those with equal offsets |
| FtwFormat.LoadedRegion | scripts/ftw_hotfix.py:297-313 | a loading directory's region is exactly total_bytes long |
| FtwFormat.TilesAscending | scripts/ftw_hotfix.py:300-313 | contiguous shards are in offset order and lie inside the region |
| Compaction.NewOffInjective | scripts/ftw_hotfix.py:550-565 | no two bytes that stay get the same new position |
| Compaction.BlockMoves | scripts/ftw_hotfix.py:557-564 | a padded block moves as one piece, also when it enters from the shard before or leaves into the next |
| Compaction.LiveIffMoved | scripts/ftw_hotfix.py:550-565 | a position is live after the move exactly when the byte it came from was |
| Compaction.CountMoves | scripts/ftw_hotfix.py:515-573 | every stretch of the region keeps its number of live bytes |
| Compaction.NewOffAligned | scripts/ftw_hotfix.py:550-565 | aligned positions move to aligned positions |
| Compaction.MovedWellPlaced | scripts/ftw_hotfix.py:557-565 | entries stay named apart, aligned, inside the region and disjoint |
| Compaction.EntryKept | scripts/ftw_hotfix.py:524-565 | reading an entry at its new offset in the new region gives its old bytes |
| LiveRanges.LiveRangesOf | scripts/ftw_hotfix.py:485-500 | the merged ranges list exactly the bytes of the shard some padded block owns, in order and apart |
| LiveRanges.MergeRanges | scripts/ftw_hotfix.py:493-500 | merging touching ranges changes no membership and leaves ranges that do not touch |
| LiveRanges.PrefixCounts | scripts/ftw_hotfix.py:545-548 | the prefix sums count the live bytes up to any point of the gap before a range |
| LiveRanges.RemapIsNewOff | scripts/ftw_hotfix.py:550-555 | remap by bisection is the rank of the byte among the live ones, for zero-byte entries in a dead gap too |
| CompactionStep.RelistTiles | scripts/ftw_hotfix.py:565-573 | the new shard list tiles the new region from 0 |
| CompactionStep.RelistDirty | scripts/ftw_hotfix.py:503-573 | the rewritten shard is clean and every other shard keeps its status |
| CompactionStep.RoomStep | scripts/ftw_hotfix.py:519-579 | a step leaves room for the numbers still asked for exactly when there was room before it |
| CompactionStep.CompactedWellFormed | scripts/ftw_hotfix.py:515-575 | one step keeps the index well formed |
| CompactionStep.CompactedDirty | scripts/ftw_hotfix.py:515-579 | one step lowers the number of dirty shards by exactly one |
| CompactionStep.CompactedLoads | scripts/ftw_hotfix.py:515-577 | the new index loads from the rewritten files |
| CompactionStep.CompactedDecodes | scripts/ftw_hotfix.py:515-577 | every name reads the same bytes before and after a step |
| CompactionStep.CleanIffTight | scripts/ftw_hotfix.py:503-512 | no shard is dirty exactly when total_bytes is the sum of the padded entry sizes |
| HotfixStore.CrashCan | scripts/ftw_hotfix.py:365-370 | a crash may leave any bytes, or none, under the name of an unsynced file, and undo an unsynced rename |
| HotfixStore.CrashKeepsContent | scripts/ftw_hotfix.py:16-20 | a crash in a sound state leaves a directory that loads with the same names and bytes |
| HotfixStore.ScratchFile | scripts/ftw_hotfix.py:524-542 | a file no index names may be written, torn or removed at any time |
| HotfixStore.LoadsFrame | scripts/ftw_hotfix.py:465-474 | loading depends only on the files the index names |
| HotfixStore.Store.Create | scripts/ftw_hotfix.py:372-377 | opening for writing empties the file, unsynced, as one recorded state |
| HotfixStore.Store.Sync | scripts/ftw_hotfix.py:365-370 | an fsync makes the file's bytes durable |
| HotfixStore.Store.Remove | scripts/ftw_hotfix.py:577 | deleting a file removes that file only |
| HotfixStore.Store.WriteIndex | scripts/ftw_hotfix.py:465-474 | the index is replaced at once; until the directory sync a power loss may bring the old one back |
| HotfixStore.Store.Read | scripts/ftw_hotfix.py:530-539 | a read gives some next bytes of the file, none only at its end |
| HotfixStore.ShardNumbers | scripts/ftw_hotfix.py:476-481 | one more than the greatest recognised number, and the unreferenced shard files |
| HotfixStore.NextIsFree | scripts/ftw_hotfix.py:476-481 | the number is free unless 99999 and 100000 are both taken |
| HotfixStore.LaterAreFree | scripts/ftw_hotfix.py:476-481 | every number from the one handed out on is free of the five-digit names, whatever else is there |
| HotfixStore.SixDigitCollision | scripts/ftw_hotfix.py:476-481 | once 99999 is taken the number handed out is 100000, be it taken or not |
| InPlace.DirtyShards | scripts/ftw_hotfix.py:503-512 | lists every shard with dead bytes once, with its live ranges and live byte count |
| InPlace.Weigh | scripts/ftw_hotfix.py:508-509 | the live ranges of one shard and their total |
| InPlace.CopyRange | scripts/ftw_hotfix.py:530-539 | copies a range of the region, whatever the read sizes |
| InPlace.CopyLive | scripts/ftw_hotfix.py:524-542 | the new synced file holds exactly the live bytes; every state on the way is sound |
| InPlace.Tabulate | scripts/ftw_hotfix.py:545-548 | the range starts and the running byte counts |
| InPlace.MoveEntries | scripts/ftw_hotfix.py:557-564 | every entry goes where the rank map sends it |
| InPlace.MoveShards | scripts/ftw_hotfix.py:565-573 | the rewritten shard replaces the old one and later shards move down; an empty one is dropped |
| InPlace.Reindex | scripts/ftw_hotfix.py:543-575 | the rebuilt index is the compacted one, the shard limit as it was |
| InPlace.CleanMoved | scripts/ftw_hotfix.py:565-573 | a clean shard before the rewritten one stays as it is, one behind it moves down, both still clean |
| InPlace.SwapIndex | scripts/ftw_hotfix.py:576-577 | swapping the index and deleting the old file is sound before, between and after |
| InPlace.CompactShard | scripts/ftw_hotfix.py:519-579 | one iteration keeps names, bytes and shard limit, uses a number no shard has, keeps room for the rest, removes one dirty shard, and leaves every clean shard and its file as they were; any crash inside it is harmless |
| InPlace.CompactInPlace | scripts/ftw_hotfix.py:515-580 | with room for its numbers it ends clean with total_bytes tight after exactly as many steps as there were dirty shards, same names, bytes, shard limit and clean shards, sound at every instant; its last instant but one has the old file still there, unnamed |
| InPlace.RoomExactlyWhen | scripts/ftw_hotfix.py:515-580 | there is room exactly when no turn the run comes to asks for a number a shard of the index has by then |
| InPlace.CollisionLoses | scripts/ftw_hotfix.py:524-527 | opening a number the index names leaves a directory that does not load, after a power loss or a mere kill |
| InPlace.CollisionExample | scripts/ftw_hotfix.py:515-527 | a well-formed directory whose run asks for one number, which is taken |
| InPlace.FiveDigitsAreRoom | scripts/ftw_hotfix.py:476-481 | an index that names only five-digit files leaves room, whatever else is on disk |
| InPlace.CleanMeansTight | scripts/ftw_hotfix.py:503-512 | a clean index and a tight region are the same thing |
| InPlace.RemoveOrphans | scripts/ftw_hotfix.py:986-988 | deleting unreferenced shard files is sound at every instant |
| InPlace.DropOrphans | scripts/ftw_hotfix.py:986-988 | picks the next number and deletes exactly the recognised stray files; what is left unreferenced has a six-digit name |
| InPlace.Rerun | scripts/ftw_hotfix.py:929-1030 | a rerun ends clean and tight with the same names, bytes and shard limit; recognised strays are deleted exactly when a dirty shard was found, else nothing is touched |
| InPlace.AnyCrashIsResumable | scripts/ftw_hotfix.py:16-20 | whatever instant of a run is hit, the directory found loads with the same contents |
| InPlace.RerunAfterCrash | scripts/ftw_hotfix.py:929-1030 | a rerun from any crash state keeps the contents, and leaves no recognised stray exactly when a shard was dirty or none was there |
| InPlace.StrandedStays | scripts/ftw_hotfix.py:576-577 | a crash between the index swap and the deletion leaves a stray that is recognised, beside a sound index |
| InPlace.StrandedExample | scripts/ftw_hotfix.py:929-931 | such a directory, clean, on which a rerun has nothing to do |
| ShardWriting.LayoutReads | scripts/ftw_hotfix.py:390-404 | each tensor's bytes are where its entry says in the padded stream |
| ShardWriting.EntriesOrdered | python/freetoken/checkpoint/ftw.py:173-189 | blocks follow one another without overlap |
| ShardWriting.EntriesAligned | python/freetoken/checkpoint/ftw.py:173-189 | every tensor starts aligned |
| ShardWriting.EntriesPadded | python/freetoken/checkpoint/ftw.py:173-189 | the stream is as long as the padded entries together |
| ShardWriting.PartsRoll | scripts/ftw_hotfix.py:372-404 | no shard is started unless the one before is full or the tensor that starts it would have been cut by the limit, and none but the first is empty |
| ShardWriting.PaddingIsZero | python/freetoken/checkpoint/ftw.py:187-189 | every byte of the stream outside the tensors is zero |
| ShardWriting.ShardWriter.constructor | scripts/ftw_hotfix.py:352-360 | starts with nothing written |
| ShardWriting.ShardWriter.FinishShard | scripts/ftw_hotfix.py:365-370 | the open shard is recorded with its size and synced |
| ShardWriting.ShardWriter.Roll | scripts/ftw_hotfix.py:372-377 | a new empty shard continues the region |
| ShardWriting.ShardWriter.Write | scripts/ftw_hotfix.py:379-388 | the bytes continue the stream, filling the last shard up to the limit before the next; none, closed or open, is larger |
| ShardWriting.ShardWriter.Add | scripts/ftw_hotfix.py:390-404 | one more tensor in the layout, whole in one shard when it fits the limit; the shards are those of PartsRoll |
| ShardWriting.ShardWriter.Close | scripts/ftw_hotfix.py:411-414 | all shards are recorded and synced, none larger than the limit |
| Repair.JoinedDecodes | scripts/ftw_hotfix.py:989-1008 | the index over old and appended shards reads the kept entries as they were and the new tensors |
| Repair.FreshRoundTrip | python/freetoken/checkpoint/ftw.py:126-204 | any tensor sequence written afresh reads back in call order, and the index has no dirty shard |
| Repair.CrashIsAllOrNothing | scripts/ftw_hotfix.py:16-20 | a crash at any instant of a repair leaves all old contents or all new ones |
| Repair.WriteAll | scripts/ftw_hotfix.py:992-1001 | streams all tensors, starting no shard without need, numbered from the first, touching no other file |
| Repair.AppendAndSwap | scripts/ftw_hotfix.py:989-1014 | appended shards and one index swap make kept and new entries visible together |
| Repair.RepairInPlace | scripts/ftw_hotfix.py:929-1030 | the whole in-place run ends with the repaired contents, clean and tight, the shard limit as it was, all or nothing at every instant; recognised strays stay exactly when there was nothing to do |
| Repair.FiveDigitsCanRepair | scripts/ftw_hotfix.py:476-481 | every number such a run asks for is free when the index names only five-digit files |
| FtwReading.Pieces | python/freetoken/checkpoint/ftw.py:300-318 | for any sorted shard list: an error exactly when some byte of the range lies in no shard, else pieces that tile the range, each inside one shard at the right place |
| FtwReading.TilesCovered | python/freetoken/checkpoint/ftw.py:300-318 | with contiguous shards exactly the bytes of the region lie in a shard |
| FtwReading.MakeJobs | python/freetoken/checkpoint/ftw.py:320-328 | jobs are aligned, inside their shards, at most a chunk long, and tile the rounded-up destination |
| FtwReading.CutPiece | python/freetoken/checkpoint/ftw.py:325-328 | cutting a piece into chunks keeps place, alignment and coverage |
| FtwReading.ChainDisjoint | python/freetoken/checkpoint/ftw.py:320-358 | no two jobs write the same destination byte |
| FtwReading.ReadSome | python/freetoken/checkpoint/ftw.py:70-86 | one positional read stores the next bytes of the job and nothing else, and brings nothing exactly at the end of the file |
| FtwReading.RunJobs | python/freetoken/checkpoint/ftw.py:320-358 | for every order, interleaving, short read and cancellation: an error exactly when some job's file is missing or ends early, else all job bytes arrive |
| FtwReading.ReadInto | python/freetoken/checkpoint/ftw.py:320-358 | on arbitrary files: an error exactly when the range runs past the shards or a byte of it is not in its file, else every byte is the right one |
| FtwReading.WholeRange | python/freetoken/checkpoint/ftw.py:320-358 | files of the recorded sizes are never an error, and what arrives is that range of the region |
| FtwBanks.ReadEntry | python/freetoken/checkpoint/ftw.py:320-358 | reading an entry gives exactly its bytes |
| FtwBanks.ReadWindow | python/freetoken/checkpoint/ftw.py:536-546 | a layer read through its aligned window is the layer's bytes |
| FtwBanks.LayersConcat | python/freetoken/checkpoint/ftw.py:527-546 | the layers of a flat bank concatenate to it |
| FtwBanks.ReadFlatBank | python/freetoken/checkpoint/ftw.py:527-546 | a flat bank loads as its layers, whatever the layer size modulo ALIGN |
| FtwBanks.ReadLayerBank | python/freetoken/checkpoint/ftw.py:548-561 | per-layer entries load as their bytes |
| FtwBanks.LoadBothLayouts | python/freetoken/checkpoint/ftw.py:527-611 | both layouts of one bank load as the same list, which concatenates to the flat bank |
| RoundTrip.Convert | python/freetoken/checkpoint/ftw.py:126-204 | a written checkpoint loads, yields the tensors in order with zeros between them, is clean, has no shard over the limit or started without need, and splits no tensor that fits a shard |
| RoundTrip.ReadBack | python/freetoken/checkpoint/ftw.py:300-358 | entry i read back is tensor i, for every schedule of the reads |
| Supervisor.StopFailsClosed | python/freetoken/daemon/serve_manager.py:449-514 | a stop with the guard fails closed exactly when the outbox fails or, without force, the engine refuses or nothing can be learned; then nothing was signalled and the latch stays, else its receipt is durable |
| Supervisor.InitInv | python/freetoken/daemon/serve_manager.py:721-744 | the invariant holds at boot, with or without an adopted child |
| Supervisor.KeepExplicitStart | python/freetoken/daemon/serve_manager.py:264-298 | a client start keeps the invariant |
| Supervisor.KeepAutoStart | python/freetoken/daemon/serve_manager.py:269-298 | an automatic restart keeps it, whichever thread gets the lock |
| Supervisor.KeepSpawn | python/freetoken/daemon/serve_manager.py:300-307 | a spawn that succeeds or fails keeps it |
| Supervisor.KeepInstall | python/freetoken/daemon/serve_manager.py:309-319 | making the child the current one keeps it |
| Supervisor.KeepSave | python/freetoken/daemon/serve_manager.py:321 | writing the state record keeps it |
| Supervisor.KeepWatch | python/freetoken/daemon/serve_manager.py:748-764 | starting the monitor keeps it |
| Supervisor.KeepStop | python/freetoken/daemon/serve_manager.py:350-364 | latching a stop and marking the child keeps it |
| Supervisor.KeepShutdownLatch | python/freetoken/daemon/serve_manager.py:331-341 | closing admission keeps it |
| Supervisor.KeepSeal | python/freetoken/daemon/serve_manager.py:449-514 | preparing and persisting the receipt, or failing closed, keeps it |
| Supervisor.KeepPublish | python/freetoken/daemon/serve_manager.py:457-464 | recording the generation as durable under the guard keeps it |
| Supervisor.KeepLook | python/freetoken/daemon/serve_manager.py:385-392 | finding the child reaped, or a wait timing out, keeps it |
| Supervisor.KeepSignal | python/freetoken/daemon/serve_manager.py:386-401 | sending either signal, or failing to, keeps it |
| Supervisor.KeepReturn | python/freetoken/daemon/serve_manager.py:331-414 | returning from stop, switch or shutdown keeps it |
| Supervisor.KeepCrash | python/freetoken/daemon/serve_manager.py:770-784 | the crash receipt, its failure and its uncaught failure keep it |
| Supervisor.KeepLatch | python/freetoken/daemon/serve_manager.py:779-784 | latching after a failed outbox keeps it |
| Supervisor.KeepForget | python/freetoken/daemon/serve_manager.py:786-795 | forgetting the child keeps it |
| Supervisor.KeepClear | python/freetoken/daemon/serve_manager.py:796-800 | clearing the record keeps it |
| Supervisor.KeepAnnounce | python/freetoken/daemon/serve_manager.py:801 | setting the reaped event keeps it |
| Supervisor.KeepDecide | python/freetoken/daemon/serve_manager.py:809-815 | deciding about a restart keeps it |
| Supervisor.KeepStep | python/freetoken/daemon/serve_manager.py:264-837 | every step of every thread keeps the invariant |
| Supervisor.RunInv | python/freetoken/daemon/serve_manager.py:264-837 | every state of every run satisfies the invariant |
| Supervisor.SignalOnlyAfterReceipt | python/freetoken/daemon/serve_manager.py:350-402 | no stop signal, forced or retried, precedes a durable stop receipt for that engine |
| Supervisor.CrashReceiptNeverAfterStop | python/freetoken/daemon/serve_manager.py:516-549 | a crash receipt is for a dead engine and within one daemon life never follows a stop receipt for it |
| Supervisor.CrashReceiptAfterStopExactlyWhen | python/freetoken/daemon/serve_manager.py:208 | over the lives of the daemon it follows one exactly when the engine was adopted and an earlier life had stored one |
| Supervisor.CrashReceiptMayFollow | python/freetoken/daemon/serve_manager.py:516-549 | a run of an adopted engine in which it does |
| Supervisor.ForgottenIsAccounted | python/freetoken/daemon/serve_manager.py:766-795 | a reaped engine has a receipt, or the failed outbox left the stop latch set |
| Supervisor.NoSpawnUntilExplicitStart | python/freetoken/daemon/serve_manager.py:264-298 | after a stop, asked for or completed, or a failed crash receipt, no engine starts before an explicit start |
| Supervisor.SpawnOnlyWhenAllGone | python/freetoken/daemon/serve_manager.py:264-325 | every engine begun before a spawn has exited |
| Supervisor.AtMostOneAlive | python/freetoken/daemon/serve_manager.py:264-837 | at most one owned engine is alive |
| Supervisor.NoSpawnAfterShutdown | python/freetoken/daemon/serve_manager.py:331-348 | nothing is spawned after a successful shutdown |
| Supervisor.StopLeavesNothing | python/freetoken/daemon/serve_manager.py:382-402 | when a stop returns no engine is alive, and the one it found is reaped and its record cleared |
| Supervisor.NobodyIsStuck | python/freetoken/daemon/serve_manager.py:280-358 | the lock holder can always move, and neither start nor stop waits for a spawn in flight |
| Replacement.TransactionShrinks | python/freetoken/daemon/serve_manager.py:264-414 | every step of a transaction, whatever its outcome, brings it nearer its end, and no other thread takes it back |
| Replacement.TransactionsAreBounded | python/freetoken/daemon/serve_manager.py:264-414 | a start, stop, switch or shutdown takes at most fourteen steps of its own before the lock is free again |
| Replacement.CanFinish | python/freetoken/daemon/serve_manager.py:264-414 | from any state the transaction can be finished by its own thread alone |
| Replacement.ReapableExactlyWhenWatched | python/freetoken/daemon/serve_manager.py:748-801 | in any reachable state an engine can come to be reaped exactly when its monitor has been begun and has not died, or its start is still to begin it |
| Replacement.CanBeReaped | python/freetoken/daemon/serve_manager.py:766-801 | a run that reaps a watched engine |
| Replacement.NeverReplaced | python/freetoken/daemon/serve_manager.py:264-325 | a current child that is not watched stays current in every later state: no stop returns and no start spawns |
| Replacement.NeverReplacedAfterUncaught | python/freetoken/daemon/serve_manager.py:774-784 | so it is once a bare OSError has ended the monitor of the dead child |
| Replacement.NeverReplacedAfterFailedStart | python/freetoken/daemon/serve_manager.py:309-323 | so it is when the start raised at writing the record or beginning the monitor |
| Replacement.UnsavedIsUnwatched | python/freetoken/daemon/serve_manager.py:309-323 | a run from boot in which the record cannot be written and the child dies unwatched |
| Replacement.UncaughtIsUnwatched | python/freetoken/daemon/serve_manager.py:774-784 | a run from boot in which the outbox directory cannot be created and the monitor dies |
| Launch.SpawnedAsAsked | python/freetoken/daemon/serve_manager.py:264-325 | every spawn is of the model its start, switch or restart thread asked for |
| Launch.InstalledAsAsked | python/freetoken/daemon/serve_manager.py:309-319 | and once installed it is the model served |
| Launch.LastInstalled | python/freetoken/daemon/serve_manager.py:309-319 | the model served changes only when an engine is installed |
| Launch.RestartOf | python/freetoken/daemon/serve_manager.py:825-837 | a restart under way is of the model that was served when a monitor set it off |
| Conduct.SignalsAfterLook | python/freetoken/daemon/serve_manager.py:385-401 | a signal is sent only when the step before found the engine not reaped |
| Conduct.KillsAfterTerm | python/freetoken/daemon/serve_manager.py:386-401 | an engine is killed only after it was asked to terminate and was still there when the grace time was over |
| Conduct.LatchIsWhatTheLogSays | python/freetoken/daemon/serve_manager.py:264-360 | the stop latch is set exactly when the last event that sets or clears it set it |
| Conduct.RefusesExactlyAfterShutdown | python/freetoken/daemon/serve_manager.py:331-348 | between transactions new engines are refused exactly when a shutdown has succeeded; a failed one reopens admission |
| Conduct.RestartsOnlyCrashes | python/freetoken/daemon/serve_manager.py:766-837 | a restart follows only a death noticed and decided on with no stop asked for, with restarts switched on |
| Conduct.NamedExactlyUntilCleared | python/freetoken/daemon/serve_manager.py:796-800 | the state file names the engine it was last written for exactly until a monitor clears it |
| Outcomes.StartServes | python/freetoken/daemon/serve_manager.py:264-325 | with no engine and admission open, a run in which a start brings up the model asked for |
| Outcomes.CrashIsAnswered | python/freetoken/daemon/serve_manager.py:766-837 | from any serving state, a run in which a crash is answered by an engine that serves the same model |
| Outcomes.StopEnds | python/freetoken/daemon/serve_manager.py:350-402 | from any serving state, a run in which a stop leaves no engine, none in the state file, and no restart |
| Outcomes.SwitchServes | python/freetoken/daemon/serve_manager.py:404-414 | from any serving state, a run in which a switch ends with the model asked for |
| Outcomes.RestartMayBeOfAnother | python/freetoken/daemon/serve_manager.py:825-837 | a run whose restart is of another model than the one that crashed |
| Outcomes.RecordMayVanish | python/freetoken/daemon/serve_manager.py:786-800 | a run after which the state file does not name the engine that serves |
| Accounting.Names | python/freetoken/daemon/accounting.py:125-126 | receipt names are apart from temporary names and injective in the id |
| Accounting.Outbox.Persist | python/freetoken/daemon/accounting.py:62-94 | a stored receipt is there and alone changed, a retry gets the first document back, an error stores nothing, and no crash in between shows anything else |
| Accounting.Outbox.WriteTmp | python/freetoken/daemon/accounting.py:77-93 | the temporary file is invisible to readers at every instant and complete when renamed |
| Accounting.Outbox.Pending | python/freetoken/daemon/accounting.py:96-107 | every receipt once, by creation time and then by id, or an error exactly when the directory cannot be listed or a receipt cannot be read |
| Accounting.Outbox.Ack | python/freetoken/daemon/accounting.py:109-123 | removes that receipt and no other, once |
| Accounting.OneOrder | python/freetoken/daemon/accounting.py:107 | the order of pending is unique, so listing order cannot show |
| Accounting.InsertKeepsOrder | python/freetoken/daemon/accounting.py:107 | ordering by creation time and id adds a document and loses none |
| Accounting.LessIsTotal | python/freetoken/daemon/accounting.py:107 | ids are totally ordered |
| Accounting.LessExactlyWhen | python/freetoken/daemon/accounting.py:107 | ids are in dictionary order |
| Accounting.SafeIdExactlyWhen | python/freetoken/daemon/accounting.py:109-112 | an id is valid when it has 1 to 200 letters, digits, dots, underscores or dashes |
| Accounting.StoreThenAck | python/freetoken/daemon/accounting.py:62-123 | storing, retrying with other totals, and acknowledging twice leaves the outbox as it was |
| PooledAddressing.SlotGroup | python/freetoken/attention/dsa_indexer_kpool.py:132-134 | a slot divided by the group size is the group's row and a slot closes a group exactly when its position does |
| PooledAddressing.RowBelowScratch | python/freetoken/attention/qsa_sparse.py:162-166 | group rows lie below the scratch rows |
| PooledAddressing.SameRow | python/freetoken/attention/qsa_sparse.py:24-29 | equal rows are the same place of the same page |
| PooledAddressing.RingRowsApart | python/freetoken/attention/dsa_indexer_kpool.py:139-148 | positions less than a ring apart never share a ring row, nor do two requests |
| PooledCache.ClosingRow | python/freetoken/attention/qsa_sparse.py:330-335 | a closing row completes a group and goes to its row; closing by slot and by position agree |
| PooledCache.MemberIsKey | python/freetoken/kernel/triton/kpool_compress.py:56-64 | every member of a closing group is read right, from the rows or from the ring |
| PooledCache.MembersAreGroup | python/freetoken/kernel/triton/qsa/compress.py:62-91 | the members of a closing row are its group's raw keys |
| PooledCache.SameRowOther | python/freetoken/attention/qsa_sparse.py:19-29 | a row of two contexts is one shared group, complete before the forward |
| PooledCache.NotHit | python/freetoken/attention/dsa_indexer_kpool.py:132-138 | no closing row overwrites a complete group |
| PooledCache.NewGroupPooled | python/freetoken/attention/dsa_indexer_kpool.py:152-174 | a group the forward completes is pooled from all its keys |
| PooledCache.RingNotHit | python/freetoken/attention/dsa_indexer_kpool.py:139-148 | the ring refresh does not overwrite a key of an open group |
| PooledCache.ForwardKeeps | python/freetoken/attention/dsa_indexer_kpool.py:97-178 | after any forward every complete group of every context has what one-shot pooling gives, and each ring its open group |
| PooledCacheOps.NoWriteRace | python/freetoken/attention/dsa_indexer_kpool.py:132-148 | closing rows are distinct and below the scratch rows, kept ring rows are distinct |
| PooledCacheOps.AdmitKeeps | python/freetoken/attention/dsa_indexer_kpool.py:13-16 | starting on any number of cached whole pages keeps the invariant |
| PooledCacheOps.RebaseKeeps | python/freetoken/scheduler/cache.py:281-325 | exchanging pages for canonical ones with the same keys keeps it |
| PooledCacheOps.DropKeeps | python/freetoken/attention/qsa_sparse.py:19-29 | eviction or the end of a request keeps it |
| PooledCacheStore.VisibleBlocksAreFresh | python/freetoken/attention/dsa_indexer_kpool.py:226-231 | each visible block is read, by the strided snapshot or the block table, from the row with the pooling of the context's own keys |
| PooledCacheStore.SplitDoesNotShow | python/freetoken/attention/dsa_indexer_kpool.py:13-20 | two caches with the same keys read the same pooled keys, however the tokens were cut, shared or placed |
| PooledCacheStore.Buffers.CompressRow | python/freetoken/kernel/triton/kpool_compress.py:38-115 | one row's members are pooled into its row |
| PooledCacheStore.Buffers.Compress | python/freetoken/attention/dsa_indexer_kpool.py:152-174 | in any row order every closing row is pooled and no other page row changes |
| PooledCacheStore.Buffers.Refresh | python/freetoken/kernel/triton/qsa/compress.py:171-202 | in any row order every kept key is stored and no other ring row changes |
| PooledCacheStore.Buffers.Forward | python/freetoken/attention/qsa_sparse.py:312-384 | a staged forward keeps the cache valid and the contexts grow by their chunks |
| PooledCacheStore.Buffers.Admit | python/freetoken/attention/dsa_indexer_kpool.py:13-16 | admission changes no buffer and keeps the cache valid |
| PooledCacheStore.GlobalRowIsAnyToken | python/freetoken/attention/dsv4_sparse.py:229-243 | a block's first token names the same row as any other token of the block, the one the closing token was stored in, below the scratch rows |
| PooledCacheStore.GlobalRowsDiffer | python/freetoken/attention/dsv4_sparse.py:229-243 | distinct blocks of a request have distinct rows, and only -1 stays -1 |
| PooledCacheRun.OneChunkStaged | python/freetoken/attention/qsa_sparse.py:196-223 | a staged batch as assumed of the scheduler exists for any chunk |
| PooledCacheRun.ServeChunk | python/freetoken/attention/qsa_sparse.py:277-310 | one forward of one request appends its chunk |
| PooledCacheRun.Serve | python/freetoken/attention/dsa_indexer_kpool.py:13-20 | for any list of chunks the slab ends with the one-shot pooling of every complete group, in order |
| PooledSelection.PickBest | python/freetoken/attention/dsv4_indexer.py:73 | a top-k with the assumed promise exists |
| PooledSelection.TopKSelects | python/freetoken/attention/dsv4_indexer.py:58-84 | the first picks are distinct live blocks, best first, none left out better, all others -1 |
| PooledSelection.AllSelected | python/freetoken/attention/dsv4_indexer.py:58-84 | with room for all live blocks all are picked |
| PooledSelection.PrefillSelects | python/freetoken/attention/dsv4_indexer.py:58-74 | the prefill picks are a selection of the live blocks by the scores as they came: the causal mask changes none of them |
| PooledSelection.SentinelsMove | python/freetoken/attention/dsv4_indexer.py:73-74 | an offset moves the picks and leaves the empty ones |
| PooledSelection.SelectionReadsBest | python/freetoken/attention/dsa_indexer_kpool.py:181-216 | the positions of a selection are exactly those of the best complete blocks, k or all, and of the tail |
| PooledSelection.DecodeSelects | python/freetoken/attention/dsv4_indexer.py:76-84 | a decode step's picks are a selection of its complete pools |
| PooledSelection.SelectedPositions | python/freetoken/attention/dsa_indexer_kpool.py:181-216 | picks and tail expand to distinct positions up to the query, exactly the wanted ones, none from the count on, all of them when the pools fit the width |
| PooledSelection.CountIsTight | python/freetoken/attention/dsa_indexer_kpool.py:211-215 | the count is the least bound of the picked entries, and the tail slots when none is picked |
| PooledSelection.SelectPrefill | python/freetoken/attention/dsa_indexer_kpool.py:250-285 | the chunk loop gives every query its rows and count, all of one width: rows of the best complete pools by its own scores, and of its tail |
| PooledSelection.PrefillAttends | python/freetoken/attention/dsa_indexer_kpool.py:181-285 | a prefill query attends to distinct rows of its past, those of the best pools and the tail, and to all of them when the pools fit; its count is tight |
| PooledServing.RowsDiffer | python/freetoken/attention/dsa_indexer_kpool.py:181-216 | the slots of a request's positions are all different |
| PooledServing.ScoresAreFresh | python/freetoken/attention/dsa_indexer_kpool.py:259-269 | the scores a request is picked by are those of the pooling of its own keys, group by group |
| PooledServing.PrefillReadsItsOwn | python/freetoken/attention/dsa_indexer_kpool.py:250-285 | on a kept cache a prefill query attends to distinct slots of its own past: those of its best groups by its own keys and of the tail, all of them when the pools fit |
| PooledSelection.DecodeAttends | python/freetoken/attention/dsa_indexer_kpool.py:218-248 | so does a decode step, in positions |
| PooledSelection.MaskInPlace | python/freetoken/attention/qsa_sparse.py:466-468 | columns that are not visible lose their score, the others keep it |
| PooledSelection.FillBlocks | python/freetoken/attention/qsa_sparse.py:470-473 | chosen columns with a score, -1 for the rest |
| PooledSelection.TopBlocks | python/freetoken/attention/qsa_sparse.py:445-473 | the blocks are a selection of the visible ones by the scores as they came |
| PooledSelection.ExpandedIsPacked | python/freetoken/kernel/triton/qsa/expand.py:33-82 | packing leaves out exactly the empty entries |
| PooledSelection.QsaAttends | python/freetoken/kernel/triton/qsa/expand.py:33-82 | a QSA query attends to exactly the tokens of the best complete blocks and of the tail, distinct and packed, all of them when the blocks fit the budget |
| DecodeWindow.SlotPosition | python/freetoken/attention/dsv4_sparse.py:118-124 | a slot stands for the latest position of its residue and the two masks agree |
| DecodeWindow.WindowIsBijective | python/freetoken/attention/dsv4_sparse.py:111-125 | the slots show exactly the last min(win, pos + 1) positions, once each, in the slot of their residue |
| DecodeWindow.WindowStep | python/freetoken/attention/dsv4_sparse.py:111-125 | one step changes only the new position's slot |
| LineAssembly.FeedTwice | python/freetoken/daemon/logfmt.py:37-65 | feeding two chunks is feeding their concatenation |
| LineAssembly.FromNormalised | python/freetoken/daemon/logfmt.py:40-62 | deleting CR runs before LF and collapsing the others changes no event |
| LineAssembly.NormalisedIsNormal | python/freetoken/daemon/logfmt.py:41-49 | normalised text has no CR before a CR or LF |
| LineAssembly.NormalStays | python/freetoken/daemon/logfmt.py:41-49 | normalising is idempotent |
| LineAssembly.WholeIsSplit | python/freetoken/daemon/logfmt.py:37-76 | the events are the plain splitting of the normalised text |
| LineAssembly.NothingShownIsLost | python/freetoken/daemon/logfmt.py:37-76 | the texts concatenate to the input without CR and LF |
| LineAssembly.LineAssembler.Feed | python/freetoken/daemon/logfmt.py:37-65 | the loop does what the step function says, character by character |
| LineAssembly.LineAssembler.Flush | python/freetoken/daemon/logfmt.py:67-76 | emits what trails, and nothing is left |
| LineAssembly.Assemble | python/freetoken/daemon/logfmt.py:26-76 | any chunking, flushed, is the plain splitting of the normalised whole |
| LogRing.PollAgain | python/freetoken/daemon/logring.py:46-51 | polling with the returned cursor misses exactly what was evicted in between |
| LogRing.SinceIs | python/freetoken/daemon/logring.py:46-51 | a poll gives exactly the records held at or after the cursor, in order |
| LogRing.LogRing.Append | python/freetoken/daemon/logring.py:30-44 | a numbered record joins the history, the oldest makes room, every subscriber gets it once |
| LogRing.LogRing.Deliver | python/freetoken/daemon/logring.py:39-43 | each subscriber of the snapshot gets the record once |
| LogRing.LogRing.RecordsSince | python/freetoken/daemon/logring.py:46-51 | everything held at or after the cursor, in order, and the next cursor |
| LogStream.KeepPut | python/freetoken/daemon/app.py:449-462 | a scheduled put keeps the account, also when it drops the oldest record |
| LogStream.KeepStart | python/freetoken/daemon/app.py:475-479 | the opening gap keeps the account |
| LogStream.KeepTake | python/freetoken/daemon/app.py:486-488 | taking a record keeps it |
| LogStream.KeepResume | python/freetoken/daemon/app.py:491-500 | going on with it does, the drop counters reset before the yield; the duplicate check never fires |
| LogStream.KeepStep | python/freetoken/daemon/app.py:449-503 | every step keeps the invariant |
| LogStream.RunInv | python/freetoken/daemon/app.py:425-503 | every state of every run satisfies it |
| LogStream.SentInOrder | python/freetoken/daemon/app.py:425-503 | delivered numbers strictly increase |
| LogStream.EveryRecordAccountedFor | python/freetoken/daemon/app.py:425-503 | every record up to the last one sent was sent once or counted in exactly one gap frame |
| LogStream.KeepBacklog | python/freetoken/daemon/app.py:469-503 | every step keeps: what was asked for and held at the snapshot is sent, what was gone is counted, before the boundary nothing else is |
| LogStream.BacklogIsSent | python/freetoken/daemon/app.py:469-482 | past the backlog, every record asked for that the ring held was sent, and the gap frames count of the earlier ones exactly those that were gone |
| LogStream.HeldIsSince | python/freetoken/daemon/app.py:469-471 | these are the records the ring gives for the cursor |
| LogStream.ResumeContinues | python/freetoken/daemon/app.py:436-438 | reconnecting with the last id misses no number in between; one up to it comes again exactly when it is at or past the ring's count |
| LogStream.ResumeLosesExactlyWhen | python/freetoken/daemon/app.py:436-482 | a record is neither sent nor announced by either connection exactly when the ring has started over, the record is in the backlog and its number is not above the last id |
| LogStream.SomeLostExactlyWhen | python/freetoken/daemon/app.py:436-482 | some record is so lost exactly when the ring has started over and is not empty; a last id at or past its count means that, and then the whole backlog is |
| LogStreamGaps.RestartIsSilent | python/freetoken/daemon/app.py:475-503 | a run that sends record 3 after last id 5 and never mentions records 0 to 2 |
| LogStream.GapsAreHonest | python/freetoken/daemon/app.py:493-500 | a gap frame states how many records it stands for, and the first and the last |
| LogStream.GapRangesAreTight | python/freetoken/daemon/app.py:486-500 | the range of a gap frame is exact but for the record sent right after it |
| LogStream.GapRangeExactlyWhen | python/freetoken/daemon/app.py:486-503 | it is exact exactly when the record sent next does not lie strictly inside it |
| LogStream.GapIsExactlyWhen | python/freetoken/daemon/app.py:486-500 | that is, unless records were dropped both from before and from after the one in hand |
| LogStreamGaps.GapMayStraddle | python/freetoken/daemon/app.py:486-503 | a run from the subscription on with such a frame |
| LogStream.PhantomsExactlyWhenNegative | python/freetoken/daemon/app.py:476-479 | records that never were are counted exactly when the cursor is negative |
| LogStream.Handler.Put | python/freetoken/daemon/app.py:450-462 | keeps the handler valid; a live record is queued last, a full queue gives up its oldest, counted once and not counted before |
| LogStream.Handler.Push | python/freetoken/daemon/app.py:449-466 | a record appended is scheduled and shows nowhere yet |
| LogStream.Handler.Snapshot | python/freetoken/daemon/app.py:469-471 | keeps it valid; the boundary is the newest number, and the replay starts at the first record asked for that the ring still holds |
| LogStream.Handler.Start | python/freetoken/daemon/app.py:475-479 | keeps it valid; the opening gap counts exactly the records asked for that the backlog lacks |
| LogStream.Handler.Replay | python/freetoken/daemon/app.py:480-482 | keeps it valid; the next backlog record, its number above all sent before |
| LogStream.Handler.Take | python/freetoken/daemon/app.py:486-488 | keeps it valid; the oldest queued record leaves the queue |
| LogStream.Handler.Resume | python/freetoken/daemon/app.py:491-501 | keeps it valid; never skips the record, and announces each dropped record, counted nowhere before, exactly once |
| LogStream.Handler.Send | python/freetoken/daemon/app.py:502-503 | keeps it valid; the number is above all sent before, and every record up to it is now sent or counted exactly once |
| LogStream.ServeAll | python/freetoken/daemon/app.py:449-503 | with appends and callbacks at any point: every record from the cursor to the newest sent once, in order, or counted in one gap frame; what the ring held was sent, what it no longer held was counted |
| CacheBudget.PlanIsBest | python/freetoken/engine/cache_budget.py:66-95 | a plan fits budget, floor, cap and reserve, has most slots and then most pages, and two layers whenever overlap stays on |
| CacheBudget.RefusedExactlyWhen | python/freetoken/engine/cache_budget.py:66-95 | which refusal comes when: bad sizes, a cap below one layer, no plan that fits, or a best plan of at most one page |
| CacheBudget.SlotsAndPages | python/freetoken/engine/cache_budget.py:77-85 | the arithmetic fits exactly when something does, and is then the best |
| CacheBudget.ReserveProtectsKv | python/freetoken/engine/cache_budget.py:95 | with a reserve of two pages KV is never starved |
| CacheBudget.GreedyStarvesExactlyWhen | python/freetoken/engine/cache_budget.py:77-95 | refused for want of KV though a plan with pages exists: exactly when the reserve is below two pages, the floor leaves two and the slots taken do not |
| CacheBudget.GreedyMayStarveKv | python/freetoken/engine/cache_budget.py:77-95 | an input on which it is |
| CacheBudget.OverlapIsNotTraded | python/freetoken/engine/cache_budget.py:71-82 | refused with overlap and not for that reason without: exactly when the budget lies between the two floors |
| CacheBudget.OverlapRefusal | python/freetoken/engine/cache_budget.py:71-82 | an input on which it is |
| CacheBudget.MoreIsMore | python/freetoken/engine/cache_budget.py:77-95 | a larger budget never gives fewer slots and is never too small; it is refused for want of KV exactly when the slots it pays for leave less than two pages |
| CacheBudget.MoreMayRefuse | python/freetoken/engine/cache_budget.py:77-95 | an input planned at 95 and refused at 100 |
| Basics.DivCeilIsLeast | python/freetoken/utils/misc.py:29-31 | the least page count that holds the tokens |
| CacheBudget.ResolvedIsSafe | python/freetoken/engine/cache_budget.py:98-133 | the resolved plan with weights and fixed cache stays within the ratio's share, holds the reserved tokens, and respects the slot limit |
| CacheBudget.ResolvedIsBest | python/freetoken/engine/cache_budget.py:98-133 | of all geometries within the share, with the overlap asked for where two layers may be held, it has most slots and then most pages |
| CpuLayers.RoundedExactly | python/freetoken/engine/engine.py:1326 | rounding gives the nearest integer, the even one of two |
| CpuLayers.RoundsApart | python/freetoken/engine/engine.py:1324-1326 | evenly spread points never round to the same layer |
| CpuLayers.SpreadHasK | python/freetoken/engine/engine.py:1324-1326 | a count of k picks exactly k layers in range |
| CpuLayers.SpreadOfAll | python/freetoken/engine/engine.py:1324-1326 | asking for all picks all |
| CpuLayers.ParsedLayersExist | python/freetoken/engine/engine.py:1300-1326 | every accepted option names existing layers, as many as asked for |
| CpuLayers.ParsedIsStrided | python/freetoken/engine/engine.py:1315-1326 | a count picks the layers nearest to i n / k, the even ones of two; a fraction does so with the nearest number, half to even |
| CpuLayers.FractionPicks | python/freetoken/engine/engine.py:1315-1319 | a fraction picks the nearest number of layers |
| CpuLayers.AcceptedExactlyWhen | python/freetoken/engine/engine.py:1307-1323 | an option is accepted exactly when layers answer it: all ids exist, some set of k layers exists, or the share is between none and all |
| CpuLayers.AutoPicksLeast | python/freetoken/engine/engine.py:1458-1460 | the automatic pick locks the least number of layers, head and tail apart and balanced |
| CpuLayers.AutoAtTheEnds | python/freetoken/engine/engine.py:1445-1458 | none when the banks fit, all when nothing can be pinned, refused exactly when the CPU cannot serve the model |

## Left out

- InPlace.CollisionLoses: says what the first write to a taken number does; the run after it is not followed further.
- InPlace.Rerun: the check of the free disk space and the other refusals before anything is touched are not modelled, nor are the messages.
- FtwFormat.LoadedRegion: entry kind, dtype and shape are not modelled, only name, offset and size; distinct shard files and aligned shard bounds are demanded although `validate_ftw` checks neither, because both writers guarantee them.
- ShardWriting.ShardWriter.Add: requires a positive aligned shard limit, since a limit of zero never terminates; `abort` after an error, which deletes the new shards, is not modelled.
- RoundTrip.Convert: FTWWriter is modelled by the hotfix tool's writer started at shard 0 and offset 0; it does not fsync, so no crash safety is claimed for it.
- FtwReading.RunJobs: after an error nothing is promised about the destination; the choice between direct and mapped reads is left open.
- FtwBanks.ReadWindow: dtype views and reshapes of the bytes are not modelled.
- The hotfix tool's renames, dequantization, fetching, vision tower, PLE table, `--out` copy and index backup: each changes which entries are kept or added, not how they are stored.
- Supervisor.NobodyIsStuck: says that the next step is enabled; a transaction is over after at most fourteen steps (`TransactionsAreBounded`), but that its thread is ever scheduled, or a spawn returns, is not modelled.
- Supervisor.ForgottenIsAccounted: does not say that there is only one receipt; a forced stop racing a crash, or a retry with new totals, may add another.
- Supervisor.SignalOnlyAfterReceipt: the contents of receipts and of the statistics are not modelled, only whether they could be had.
- Accounting.Outbox.Persist: JSON, fsync errors of the directory, and the uuid of an identity are not modelled; a document is its id, time and one opaque value.
- PooledCacheStore.GlobalRowIsAnyToken: only the addressing of the DSV4 store is modelled; what its compressor pools, at ratio 4 a block together with the one before it from a carried state, is not.
- PooledCache.ForwardKeeps: the pooling itself is any function of a group's keys, so the softmax, the norm and the rope, and rounding, are not modelled; nor are CUDA graph capture and multimodal rope rows.
- PooledSelection.TopKSelects: `torch.topk` is any function that keeps its promise, ties free; scores are reals or minus infinity, so NaN is not modelled, and neither is the Triton top-k kernel.
- PooledSelection.SelectPrefill: the scores of each query are given; the logits kernels are not modelled.
- DecodeWindow.WindowIsBijective: the translation from full to window slots is any function.
- LogStream.EveryRecordAccountedFor: with unordered appenders callbacks could run out of order and the duplicate check would lose a record; records carry their number only, heartbeats and JSON are not modelled.
- LineAssembly.Assemble: ANSI stripping and throttling of partials are left to their callers.
- CacheBudget.ResolvedIsSafe: the memory ratio is an exact real, so floating-point rounding is not modelled.
- CpuLayers.RoundsApart: the quotient is exact, so floating-point rounding of very large products is not modelled; reading the option string is not modelled, only its four forms.
- CheckpointManager, HTTP transport, subprocess spawning, OOM scores, agent launch and benchmarks: plumbing outside these cores.
