# A verified model of Cometa's durable state

Cometa keeps durable state in single documents of a database and changes it from workers that crash, compete,
lose their leases and run late. This project models the four protocols that have to stay right under such
workers, and the arithmetic and the formats that they rest on, and proves what they keep.

**Liquidity-pool projection.** `ChainBlocks` flattens nested transactions into named events and executes blocks on a
full account ledger; `EventIds` names events; `BlockProjection` turns transfers and fees into signed per-pool deltas
and preflights a block's batch; `LpCursorCodec` prints and reads cursors. `LpWorld` says what the chain's truth is,
`LpProtocol` is the state machine of all workers (each separate read and write of `project`, the snapshots, the lease
and the checkpoint), `LpSafety` its invariant and its theorems, `LpReplay` convergence of replays, `LpLateWorker` the
worker that comes too late, `LpLeases` what a lease is worth, `LpSequential` what the projection of one event means
alone, `LpRoundRun` what a whole round comes to. `LpRepository`, `LpRounds` and `SyncCoordinator` are the classes and
loops themselves. `LpChain` closes the circle: what the safety theorems assume of the chain (tracked events, distinct
IDs, sorted blocks) is proved of every block that `BlockProjection` accepts, and the protocol's truth is the ledger.
`LpLedger` measures what is stored in every reachable state against that ledger.

**Outbound transfers and airdrops.** `TransferIntents` holds the guarded updates of an intent, `AssetTransfers` the
state machine of all callers of `execute` and `reconcile` and of the chain, `TransferProgress` what its operations lead
to, `TransferRuns` whole calls, `AssetTransferService` the class. `Airdrop` is the state machine of all airdrop operators
beside other transfers, `AirdropProgress` and `AirdropRuns` what its operations and whole runs come to, `AirdropTool` the
class with `SendAirdrop`, `Allocation` the allocator.

**Staking lottery.** `LotteryBooks` holds the guarded updates of guards and draws and what each keeps;
`StakingLottery` is the state machine of drawing and sending workers, on top of the transfers; `LotteryPrizes` says where
a prize comes from, `LotteryRuns` and `PayoutRuns` what whole calls come to; `LotteryService` is the class.

**Arithmetic and formats.** `Rewards` is the reward formula, `ContractState` the decoder of Reach state vectors with
its big numbers. `Sorting`, `Strings` and `Wrappers` are shared.

## How it is modelled

- Each operation on one document is one atomic step. A run is any sequence of steps of any number of workers;
  a crash may happen between any two operations, and a worker may take its next step at any later time.
- The protocols come twice: as total step functions, over which safety is proved for every run, and as classes
  whose methods carry out the loops of the source. Before each operation such a method lets a function `env` change
  the collections. `ComeTo` (and `Leads` for transfers) ties the method to the state machine: the method is exactly the
  run of the machine's operations among the moves of the others, whatever these are. `Obeys(env)` says that the others
  do only what single steps were proved to do; with it the methods' results are sound.
- What a call must come to, and not only what it must not do, is proved about its run (`After`, `Trace`, `RoundAfter`)
  under conditions on the others that a reader can check: `Still` and `BooksStill` say that nobody else writes, `Prompt`
  that the chain confirms what was sent and that nobody stores anything in the way, `Works` that the gateway answers
  within the validity window. Such a condition restricts only the promise that names it.
- Where a method has a ghost parameter `disciplined`, it is true when everybody follows the protocol. `OnTrack` says that
  the collections then satisfy the invariant, that this worker's position is sound, and that nothing has moved backwards.
- The gateway, the Indexer, the node and the random draw answer anything, but what they say about confirmed
  transactions and about balances is true. Hashes are injective; signed bytes are what they say.
- Clocks, new draw IDs and picked notes are parameters.

## Assumptions on the chain and the data

- The set of pools is fixed after cutover, every round has one deterministic block, and what the Indexer reports of a
  pool for a round is one fixed value. Nothing else is assumed of that value, except where `ExactSnapshots` (it is the
  initial balances plus all deltas) or `LpChain.Projects` (it is the ledger's view) is named.
- That balances stay within uint64 is assumed only where `EventFits`, `RoundFits` or `SnapshotFits` is named: for an
  update that is not refused (`LpSafety.SwapSucceeds`), for `LpReplay.UninterruptedRunFinishes`, for a round that nobody
  disturbs (`Promising` in `LpRoundRun`), and for the absence of the two errors about numbers that do not fit
  (`LpSafety.NoFalseAlarm`). It is not proved of the chain: with the unseen
  fees described below a stored balance can exceed what the ledger holds.
- There are no legacy markers, rewards, draws or manifests; the initial cursors are snapshots.
- The chain confirms a transaction at most once.

## Where the code does less than it seems to

- Flattening keeps only events that move something, so a fee that a pool account pays for any other transaction, such
  as an application call, is never projected. `LpChain.TruthIsTheLedger` says exactly when projection and ledger agree,
  `LpChain.UnseenFeeExample` gives an input for which they do not.
- `recalculate_reward` takes reward back from a pool that was last updated after its end block.
  `Rewards.LosesExactlyAfterTheEnd` says exactly when, `Rewards.LossExample` gives an input.
- A worker that runs late on a round that others have completed can meet "advanced past unrecorded event".
  `LpLateWorker.LateExactly` says exactly when, `LpLateWorker.LateWorkerExample` gives a run, and `LpSafety.NoFalseAlarm`
  says that the round has then been completed by others.

## Model

| member | source | states |
|---|---|---|
| `ChainBlocks.FlattenTransferPayments` | flex/domain/transactions.py:100-120 | Loop over the roots: fails exactly when some root has no ID; otherwise the result is the specification's flattening. |
| `ChainBlocks.FlattenPlaces` | flex/domain/transactions.py:39-49 | For distinct root IDs, no two flattened events share a root and a nesting path; every event has a root of the block and moves something. |
| `ChainBlocks.WalkExecutes` | flex/domain/transactions.py:39-49 | Executing a nested transaction list on a full account ledger changes every holding as its flattened transfers do, less the fees of nested transactions that move nothing. |
| `ChainBlocks.BlockExecutes` | flex/domain/transactions.py:100-120 | The same for a block: the ledger after the block is the ledger before plus the effect of the flattened events, less the fees that flattening drops. |
| `EventIds.EventIdAliases` | flex/domain/transactions.py:58-77 | Fails exactly for the empty ID; the ID comes first, and the IDs listed are exactly the ID itself, the text before its projection, and the text before its path if that comes before any projection. |
| `EventIds.ProjectionEventId` | flex/domain/transactions.py:80-88 | Succeeds exactly when ID and scope are non-empty and free of the separator; the ID and the scope can be read back from the result. |
| `EventIds.ScopedIdInjective` | flex/domain/transactions.py:39-88 | From the text of a scoped ID the root, the nesting path, the leg (transfer or fee) and the pool are all determined, so two different legs never share an ID. |
| `EventIds.LegacyAliases` | flex/db/lp_projection.py:316-323 | Lists exactly the text before the projection and the root before the path. None of them is the event's own ID or a scoped ID, so none is an ID under which `project` writes a marker. |
| `EventIds.LegacyIdsOfLeg` | flex/domain/transactions.py:58-77 | For a projected leg these are exactly the chain's ID of the leg and, for a nested event or a fee, its root. |
| `BlockProjection.ProcessLpTransactions` | flex/sync_pools.py:84-195 | The loop over a block: succeeds exactly when the per-transfer specification accepts every transfer, with that specification's events in that order. |
| `BlockProjection.NewEvent` | flex/sync_pools.py:84-195 | A signed event carries the pool's scoped ID, a cursor that can be printed and a delta within the uint64 range. |
| `BlockProjection.LegsMatchLedger` | flex/sync_pools.py:84-195 | For an accepted transfer, the sum of the emitted deltas for any pool and tracked asset is exactly what the transfer and its fee do to that account on the ledger: sender, receiver and fee legs. |
| `BlockProjection.ProcessMatchesLedger` | flex/sync_pools.py:84-195 | The same for a whole list of flattened transfers. |
| `BlockProjection.PoolToPoolCancels` | flex/sync_pools.py:145-195 | A transfer between two pools that track the asset emits deltas that add up to 0; in ALGO, to minus the fee. |
| `BlockProjection.SelfTransferLeavesFee` | flex/sync_pools.py:145-195 | A transfer from a pool to itself, of a tracked asset or any other, emits nothing but one ALGO leg of minus the fee, or nothing at all when the fee is 0. |
| `BlockProjection.ProcessOrigin` | flex/sync_pools.py:145-195 | For plain, distinct root IDs every emitted event leads back to its transfer, and no two events of a block have the same ID. |
| `BlockProjection.PreflightLpTransactions` | flex/data/lp_states.py:200-242 | Accepts exactly the batches of the expected round in which equal IDs mean equal events; the result has the same events, each ID once, strictly sorted by printed cursor, and is a permutation when the IDs were distinct. |
| `BlockProjection.NetPermutation` | flex/data/lp_states.py:200-242 | Sorting a batch does not change what it adds up to for any pool and asset. |
| `LpChain.ChainDistinctIds` | flex/domain/transactions.py:39-88 | Over the whole chain, event IDs are pairwise distinct and no event's ID is another event's legacy alias: an assumption of the protocol, proved of every valid chain. |
| `LpChain.ChainTracked` | flex/sync_pools.py:84-195 | Every event of every round belongs to a tracked pool and maps to one of its balance fields: an assumption of the protocol, proved of every valid chain. |
| `LpChain.ChainSortedBlocks` | flex/data/lp_states.py:200-242 | The events of each round of the chain are sorted by printed cursor, as the cursor codec's refinement needs. |
| `LpChain.BlockRefinesLedger` | flex/sync_pools.py:84-195 | One block: folding its events through the balance-field mapping keeps a pool's projected balances equal to its view of the full ledger, up to the fees of transactions that move nothing. |
| `LpChain.TruthIsTheLedger` | flex/domain/lp_projection.py:88-125 | At the end of any round, the folded balances equal the pool's view of the full account ledger if and only if the pool has paid no fee for a transaction that moves nothing; otherwise only the ALGO field differs, by exactly those fees. |
| `LpLedger.StoredIsTheLedger` | flex/db/lp_projection.py:52-221 | With snapshots of the ledger at any rounds, in every reachable state and for every pool that is projected up to the end of a round: the stored balances are the pool's view of the ledger after that round if and only if the pool has paid no fee for a transaction that moves nothing since its last snapshot; otherwise only the stored ALGO differs, by exactly those fees. |
| `LpChain.IssuedPlusHeldIsSupply` | flex/domain/lp_projection.py:106-110 | Issued tokens plus LP tokens that the pool holds itself are constant: their sum is the supply after every round. |
| `LpChain.UnseenFeeExample` | flex/domain/transactions.py:100-120 | The concrete failing input: a pool account that signs an application call pays 1000 for which no event is emitted, and its view changes. |
| `LpCursorCodec.EventCursorOrder` | flex/domain/lp_projection.py:32-49 | For all uint64 rounds and positions, comparing printed event cursors is comparing (round, position, event ID), and equal strings are equal events. |
| `LpCursorCodec.RoundEndCursorOrder` | flex/domain/lp_projection.py:52-56 | The round-end sentinel is above every event cursor of its round and below every one of the next. |
| `LpCursorCodec.RoundEndsOrder` | flex/domain/lp_projection.py:52-56 | Sentinels of different rounds compare as the rounds do, and the round is determined by the string. |
| `LpCursorCodec.EventCursorRead` | flex/domain/lp_projection.py:59-85 | A printed event cursor never counts as a snapshot and is complete through the round before its own; round 0 is the error case. |
| `LpCursorCodec.RoundEndCursorRead` | flex/domain/lp_projection.py:59-85 | A printed sentinel covers exactly the events up to its round, and is complete through that round. |
| `LpCursorCodec.CodecRefinesOrder` | flex/domain/lp_projection.py:32-56 | Comparing stored strings is comparing the protocol's abstract cursors, in both directions, for every cursor of the chain. |
| `LpCursorCodec.CodecRefinesReading` | flex/domain/lp_projection.py:59-85 | Reading a stored string answers exactly as the protocol's abstract cursor does. |
| `LpDomain.LpBalanceDelta` | flex/domain/lp_projection.py:88-125 | Fails exactly for an asset that the pool does not track or an amount out of range; the field is the one that follows the event's asset, operational ALGO only in a pool that does not trade ALGO; the sign is reversed exactly for LP tokens. |
| `LpSafety.NothingSkipped` | flex/db/lp_projection.py:102-134 | The key step: when a compare-and-set of an event succeeds, no event of that pool lies strictly between the cursor that it replaces and the event. |
| `LpSafety.SwapSucceeds` | flex/db/lp_projection.py:233-268 | At that moment the new balances are the right ones at the event, and the range guard refuses them if and only if they do not fit uint64. |
| `LpSafety.SnapshotKeeps` | flex/db/lp_projection.py:150-221 | A snapshot's guarded replacement, or its miss, keeps every pool's balances true at its cursor while event workers race it. |
| `LpSafety.CompleteKeeps` | flex/db/sync_coordinator.py:63-100 | Completing a round moves the checkpoint only over events that are settled, and nothing moves back. |
| `LpSafety.AdvanceKeeps` | flex/sync_pools.py:257-316 | Advancing to the least of the node's round and all collected cursors, mid-round ones included, leaves no uncovered event below the checkpoint. |
| `LpSafety.StepKeeps` | flex/db/lp_projection.py:52-221 | Every single operation of every worker, crashes and lease losses included, keeps the whole invariant and only moves cursors, markers and the checkpoint forward. |
| `LpSafety.BalancesAreTrue` | flex/db/lp_projection.py:52-148 | In every reachable state, with any number of live, stale and crashed workers and racing snapshots, each pool's four balances are exactly those of its last snapshot plus the deltas of all its events since, up to its cursor; when snapshots report the initial balances plus all deltas, they are exactly that at the cursor. Nothing is assumed about ranges. |
| `LpSafety.CheckpointIsCovered` | flex/db/sync_coordinator.py:63-143 | Whenever the checkpoint is L, every pool's cursor covers every event of every round up to L, whichever operation moved the checkpoint. |
| `LpSafety.NoFalseAlarm` | flex/db/lp_projection.py:82-119 | In any run the only errors of a worker are a lost claim, `advanced past unrecorded event` for a round that others have already completed, an event of that very round whose result does not fit uint64, and a snapshot that does not fit; a worker whose round is still the next one never meets the second, and no worker ever meets `recorded but state is behind`. |
| `LpLateWorker.LateExactly` | flex/db/lp_projection.py:60-119 | In every reachable state, a worker that begins with an event and is not disturbed meets `advanced past unrecorded event` if and only if the event has no marker and its pool's stored cursor is at a later event. |
| `LpLateWorker.NotWhileOpen` | flex/db/lp_projection.py:109-119 | That condition never holds while the event's round is still open. |
| `LpLateWorker.LateWorkerExample` | flex/db/lp_projection.py:109-119 | A concrete run that ends in the error, in a valid world in which everything fits and every snapshot is exact: a worker claims round 1 and stalls, another snapshots round 1 and applies the event of round 2, the first one wakes up. |
| `LpSafety.AliasIsFree` | flex/db/lp_projection.py:316-323 | In every sound state no marker is stored under a legacy ID of any event. |
| `LpSafety.NeverBackwards` | flex/db/sync_coordinator.py:63-143 | Between any two moments of a run cursors, markers and the checkpoint only move forward. |
| `LpSafety.AppliedOnce` | flex/db/lp_projection.py:101-148 | In any run, at most one step applies a given event's delta. |
| `LpSafety.CompletedOnce` | flex/db/sync_coordinator.py:63-100 | In any run, at most one step completes a given round. |
| `LpReplay.ReplayConverges` | flex/db/lp_projection.py:101-148 | Two replays of a block from one state, with any crashes (also between the balance update and the marker), restarts and helpers, end with the same balances, cursors and markers once each has been run to the end. |
| `LpReplay.UninterruptedRunFinishes` | flex/data/lp_states.py:245-281 | From a fresh sound state with a lapsed lease, one worker alone gets through the whole next block, provided that its results fit uint64: the run that `ReplayConverges` compares with exists. |
| `SyncCoordinator.MongoSyncCoordinator.ClaimRound` | flex/db/sync_coordinator.py:25-61 | A claim succeeds if and only if the round is the next one, `lastRound` is the expected one, and the old `leaseUntil` is absent, at most `now`, or of the caller's own lease; then the document names the round, the owner and the lease's end; a miss changes nothing and the checkpoint never moves. |
| `SyncCoordinator.MongoSyncCoordinator.CompleteRound` | flex/db/sync_coordinator.py:63-100 | Succeeds if and only if the document names this round, this owner, the expected checkpoint and a lease that has not ended; the checkpoint moves from r-1 to r and the claim is given up; a failure changes nothing. |
| `SyncCoordinator.MongoSyncCoordinator.AdvanceSnapshot` | flex/db/sync_coordinator.py:102-143 | Succeeds if and only if the checkpoint is the expected one, is not moved back and no lease is live; a failure changes nothing. |
| `SyncCoordinator.MongoSyncCoordinator.ReleaseAfterError` | flex/db/sync_coordinator.py:145-169 | Gives up the owner's own claim on that round and nothing else; the checkpoint stays. |
| `LpLeases.LeaseExcludesOthers` | flex/db/sync_coordinator.py:37-61 | In every run whose clocks do not go back: from a worker's successful claim until its lease has ended, or it has completed or released the round, no step of any other worker changes the checkpoint document at all. |
| `LpLeases.NoOtherClaim` | flex/db/sync_coordinator.py:43-48 | So between a worker's claim and its lease's end no other worker's claim succeeds, unless the first one has completed or released in between. |
| `LpRepository.MongoLpProjectionRepository.ApplyDelta` | flex/db/lp_projection.py:233-268 | The guarded update of one state: balance, cursor and round move together, or nothing changes. |
| `LpRepository.MongoLpProjectionRepository.RecordEvent` | flex/db/lp_projection.py:270-286 | Inserts the marker only if its ID is new, and reports whether what is stored is this event. |
| `LpRepository.MongoLpProjectionRepository.MarkLast` | flex/db/lp_projection.py:142-148 | The marker is written after the balance, as one operation among the others'; then the event is settled, or another event has its ID. |
| `LpRepository.MongoLpProjectionRepository.ReadAgain` | flex/db/lp_projection.py:82-99 | With a marker found and an older state in hand the state is read again; only if that, too, is behind the event it is an error. |
| `LpRepository.MongoLpProjectionRepository.SwapOrExplain` | flex/db/lp_projection.py:121-140 | After a missed compare-and-set the stored cursor tells a lost race, which is retried, from balances out of range, which is an error; the cursor that it reports has not gone back. |
| `LpRepository.MongoLpProjectionRepository.LegacyAlias` | flex/db/lp_projection.py:316-323 | Reads the legacy IDs one by one until one is found; the outcome is exactly the specified decision, whatever the others do in between. |
| `LpSequential.StepLeads` | flex/db/lp_projection.py:52-148 | On any collections, sound or not, each operation of `project` leads on to what one case distinction says that the whole of it means: every error with its condition, a legacy marker among them, and the exact collections afterwards. |
| `LpRepository.MongoLpProjectionRepository.Project` | flex/db/lp_projection.py:52-148 | The retry loop, with other workers moving between any two operations: the call is exactly the run of its operations among theirs, and terminates under merely monotone interference; its outcome is what its last operation was, and the balance changes exactly once if that is `Applied` and never on another success. Alone, on any collections, result and new state are those of `LpSequential.Projection`. Among workers of the protocol the event is settled at the end, unless others had completed its round, after at most round + 1 retries, because every retry uses up a snapshot round. |
| `LpRepository.MongoLpProjectionRepository.ReplaceSnapshot` | flex/db/lp_projection.py:150-221 | Refuses out-of-range snapshots without any change; otherwise exactly the guarded replacement and, after a miss, the read that explains it. Alone, an older state is replaced, a newer one returned as it is, and different balances of the same round are refused; among workers of the protocol it never fails, and the stored cursor is at or past the end of the observed round. |
| `LpRounds.LpProjector.UpdateLpStatesWithTransactions` | flex/data/lp_states.py:245-281 | Projects a block in order, as exactly the run of its operations; on success the worker has settled all of it, and the changed addresses are exactly the pools of the events whose compare-and-set has succeeded in this run. The first error ends it. |
| `LpRounds.LpProjector.ClaimRound` | flex/sync_pools.py:353-432 | Claims the next round if and only if the document, as it is then, has the expected checkpoint and no other worker's live lease; the new claim is live for the lease's duration, and nothing else changes. |
| `LpRounds.LpProjector.ReleaseAfterError` | flex/sync_pools.py:353-432 | Gives up this worker's own claim, as the document is then, and nothing else; among workers of the protocol the error was one that a worker may rightly meet. |
| `LpRounds.LpProjector.FinishRound` | flex/sync_pools.py:353-432 | The round's run from its claim to its end, operation by operation: all events, then the completion, or the release after an error; after any error this worker holds no claim on it. |
| `LpRounds.LpProjector.ProcessRound` | flex/sync_pools.py:353-432 | One iteration of the loop, exactly the run of its operations among the others'. Not claimed exactly when the document has another checkpoint or another worker's live lease. Completed if and only if the settled block finds the claim still live, and a lost claim if and only if it does not. When nobody else writes, the round is the next one, its lease is to be had and long enough and its results fit, it ends completed, with every event in its pool's balances and recorded unless a snapshot had covered it, and with every pool's balances right at its cursor. Among workers of the protocol the only errors are a lost claim, an event that others had passed in a round that they completed, and a result of this round that does not fit uint64. |
| `LpRoundRun.QuietRoundCompletes` | flex/sync_pools.py:367-415 | About the run itself: a promising round that nobody disturbs can end in no other way than completed, with its whole block projected. |
| `LpRoundRun.EndIsExact` | flex/db/sync_coordinator.py:63-100 | In any environment, a round ends completed if and only if, with its block settled, it finds the document to be this worker's live claim, field by field, and with a lost claim if and only if it finds that it is not. |
| `LpRoundRun.ChangedNext` | flex/data/lp_states.py:262-281 | Settling one more event brings its pool among the changed ones exactly when its compare-and-set succeeded. |
| `LpRounds.LpProjector.UpdateAllLpStatesLinear` | flex/data/lp_states.py:284-303 | Snapshots every pool in turn and goes on after a failure; succeeds with one cursor each, or reports the first failure; with a truthful Indexer and workers of the protocol the only failure is a report that does not fit uint64. |
| `LpRounds.LpProjector.AdvanceCheckpoint` | flex/sync_pools.py:257-316 | The checkpoint becomes the greatest round that the node and all collected cursors cover, exactly when that is not below the expected one and the document allows it; otherwise nothing changes. |
| `LpRounds.LpProjector.ReconcileSyncCheckpoint` | flex/sync_pools.py:279-316 | After the snapshots the checkpoint is at most the node's round and not below the one before, whatever the Indexer answers. With a truthful Indexer and workers of the protocol everything stays sound while others run, and a snapshot fails only because a report does not fit; when nobody disturbs it and no lease is live, the checkpoint gets as far as the node and every report of the Indexer have come. |
| `TransferIntents.MongoAssetTransferIntentRepository.Reserve` | flex/db/asset_transfer_intents.py:35-48 | The first intent of an operation is stored for ever; a later preparer gets the stored one. |
| `TransferIntents.MongoAssetTransferIntentRepository.TryUpdate` | flex/db/asset_transfer_intents.py:148-170 | Exactly an intent of the same transaction that is not confirmed is updated, in the one field that the update is about, and never in its immutable part; a miss and the other intents change nothing. |
| `TransferIntents.MongoAssetTransferIntentRepository.TryConfirm` | flex/db/asset_transfer_intents.py:75-128 | Confirmation is recorded once, with its round, exactly on an unconfirmed intent of the same transaction; a confirmed intent is never changed. |
| `AssetTransfers.StepKeeps` | flex/application/asset_transfers.py:227-382 | Every operation of every caller, a crash at any point, and every confirmation by the chain keep: intents say what their signed bytes say, broadcasts are of the stored intent, confirmed intents agree with the chain; intents' immutable part and confirmations never change. |
| `AssetTransfers.BroadcastsCarryTheFirstIntent` | flex/application/asset_transfers.py:276-303 | In any run of `execute` and `reconcile`, every broadcast for an operation carries the bytes and the transaction ID of the intent that was reserved first. |
| `AssetTransfers.LosersAreNeverBroadcast` | flex/application/asset_transfers.py:228-245 | A transaction that was prepared but lost the reservation is never broadcast by anyone, then or later. |
| `AssetTransfers.ConfirmedIsFinal` | flex/db/asset_transfer_intents.py:75-170 | Once confirmed, an intent is the same document for the rest of the run. |
| `AssetTransfers.ReceiptsAgree` | flex/application/asset_transfers.py:405-418 | Any two receipts of one operation, at any two moments of a run, name the same transaction and the same round. |
| `AssetTransfers.OneConfirmationPerOperation` | flex/application/asset_transfers.py:227-321 | At most one transaction of an operation is ever confirmed on chain. |
| `AssetTransfers.StoreNeverContradicts` | flex/db/asset_transfer_intents.py:75-170 | No caller is ever told that the intent changed under it or lacks its confirmed round. |
| `TransferRuns.OperationsFall` | flex/application/asset_transfers.py:227-382 | Every operation uses up one of at most 16, whatever the others do: `execute` and `reconcile` end. |
| `TransferRuns.CallKeeps` | flex/application/asset_transfers.py:227-382 | A whole call among other callers keeps what single steps keep and ends in a sound outcome. |
| `TransferRuns.CallServes` | flex/application/asset_transfers.py:227-321 | A call's receipt is for the transfer that was asked for; `Conflict` means that the stored intent is a different transfer, `Pending` and `Expired` that it is this one, unconfirmed, `Pending` also that its bytes were given to the node. |
| `TransferRuns.CallDecides` | flex/application/asset_transfers.py:250-321 | The round decides: past the stored intent's last valid round a call gives nothing to the node and ends with a receipt or `Expired`; within it the stored bytes are given to the node and it ends with a receipt or `Pending`; `Expired` comes only after a round past the window was read. |
| `TransferRuns.CallSucceeds` | flex/application/asset_transfers.py:227-321 | When the gateway works within the window, the chain confirms what was sent and nobody stores another transfer for the operation, the call ends with a receipt. |
| `TransferRuns.CallFinds` | flex/application/asset_transfers.py:250-275 | A transfer that the chain has confirmed already gets its receipt as soon as a lookup answers, past the window too. |
| `TransferRuns.CallSendsRequested` | flex/application/asset_transfers.py:276-303 | In any environment, sound or not, a call gives the node nothing but the requested transfer under its own transaction ID. |
| `TransferRuns.ReconcileReports` | flex/application/asset_transfers.py:323-367 | A whole reconciliation: `Unknown` only for an operation that had no intent, an unavailable lookup only when it did not answer, `expired` if and only if the round that was read is past the window of an unconfirmed intent, and otherwise its stored status; a transaction that the chain had confirmed is reported as confirmed. |
| `TransferProgress.WindowStep` | flex/application/asset_transfers.py:250-321 | The round that is read puts a call on one side of the window, where it stays; only within the window does an operation give anything to the node. |
| `TransferProgress.CourseStep` | flex/application/asset_transfers.py:227-321 | With a working gateway and a chain that confirms what was sent, every operation leads on towards the receipt. |
| `AssetTransferService.AssetTransferService.Execute` | flex/application/asset_transfers.py:227-321 | The method is exactly the run of its operations among the others', and broadcasts nothing but the request, whatever the collections hold. Among callers of the protocol a receipt is for this transfer, confirmed on chain in that round; each error says the truth about the stored intent. Past the window that was stored nothing is sent, and within it the stored bytes are; `Expired` only after a round past the window; with a gateway that works within it and a chain that confirms what was sent, and also for a transaction that is confirmed already, the result is a receipt. |
| `AssetTransferService.AssetTransferService.UpdateNonTerminal` | flex/db/asset_transfer_intents.py:148-170 | The update or, after a miss, the confirmed intent under the same transaction; anything else is the only error. |
| `AssetTransferService.AssetTransferService.ReloadAndReport` | flex/application/asset_transfers.py:346-382 | After reading the round the intent is read again, so that a confirmation in between is reported rather than an expiry. |
| `AssetTransferService.AssetTransferService.Reconcile` | flex/application/asset_transfers.py:323-367 | Exactly the run of its operations; a confirmation that it reports is on chain in that round. Among callers of the protocol it fails only for an operation without an intent or a lookup that does not answer; it reports `expired` if and only if the round read is past the window of an intent that is still unconfirmed, its status otherwise, and the confirmation of a transaction that was confirmed before. |
| `Airdrop.OperationIdInjective` | flex/tools/airdrop.py:62-63 | The airdrop ID and the recipient are determined by the operation ID, whatever characters the airdrop ID has. |
| `Airdrop.PlanIsValid` | flex/tools/airdrop.py:358-381 | Every accepted call plans each recipient once and exactly the budget in total. |
| `Airdrop.BackfillIsIdle` | flex/tools/airdrop.py:220-274 | Reconciling an existing reward finds exactly that reward and writes what is there. |
| `Airdrop.StepKeeps` | flex/tools/airdrop.py:346-529 | Every operation, exception and crash of every operator, other transfers included, keeps: intents under an airdrop's operation IDs pay what its manifest says, rewards have true receipts, complete manifests have all recipients settled; manifests are immutable and stay complete. |
| `Airdrop.NeverAboveBudget` | flex/tools/airdrop.py:346-529 | Over any run of concurrent and crashing operators, with the same or with conflicting arguments, what the chain has confirmed for an airdrop ID never exceeds its manifest's budget and is all of its asset; without a manifest nothing has moved. |
| `Airdrop.CompleteIsPaidInFull` | flex/tools/airdrop.py:194-217 | A complete manifest stays complete and unchanged for the rest of the run; every recipient has been paid, once, its exact amount, and the total moved is exactly the budget. |
| `Airdrop.CompletionIsTrue` | flex/tools/airdrop.py:511-529 | An operator that returns successfully has its own plan stored as complete. |
| `AirdropTool.AirdropTool.SendAirdrop` | flex/tools/airdrop.py:346-529 | The method: refused arguments change nothing, and say why; an accepted plan has exactly the largest-remainder amounts of the arguments, and the call is exactly the run of its operations among the others'. Among operators of the protocol success means that the manifest is this plan's, complete, that everybody has been paid and that the chain has moved exactly the budget; a failure means that another manifest is stored under the ID, or that the manifest is stored as partial and some recipient's own transfer failed, for one of three reasons. With a gateway that works within the window and a chain that confirms what was sent, and nothing stored in the way, it succeeds and every recipient has a reward. |
| `AirdropRuns.AfterKeeps` | flex/tools/airdrop.py:346-529 | A whole run of one operator's operations among the others' keeps what single steps keep, at every point. |
| `AirdropRuns.RunSucceeds` | flex/tools/airdrop.py:383-529 | How a whole run ends among operators of the protocol: complete, or because of another manifest, or partial with somebody unpaid; with a gateway that works within the window and a chain that confirms what was sent, complete, with a reward for everybody. |
| `AirdropRuns.MissedIsUnpaid` | flex/tools/airdrop.py:436-500 | Whoever a run has missed was not paid because of that recipient's own transfer: the gateway prepared a transfer that is never valid, or the intent is unconfirmed after a round past its window was read, or after its bytes were given to the node. |
| `AirdropProgress.StepGoesOn` | flex/tools/airdrop.py:383-529 | With sound collections no other operation can miss a recipient, and only another manifest under the ID can stop a run before it serves anybody. |
| `AirdropProgress.PayFailure` | flex/tools/airdrop.py:463-480 | Under this plan's manifest a recipient's transfer never fails because of a conflict; the three reasons for which it can fail, with what is then stored and sent. |
| `AirdropProgress.SmoothStep` | flex/tools/airdrop.py:433-500 | With a working gateway and a chain that confirms what was sent, no operation misses anybody, and each leaves the other recipients' transfers as payable as they were. |
| `AirdropTool.AirdropTool.CheckCampaign` | flex/tools/airdrop.py:383-387 | Refused if and only if there is a reward of the airdrop and then no manifest; nothing is written. |
| `AirdropTool.AirdropTool.ValidateOne` | flex/tools/airdrop.py:391-407 | A stored transfer of another content is `TransferConflict`, two rewards are `DuplicateRewards`, each exactly then, and a run that they or a differing reward stop has written nothing; otherwise exactly the next recipient comes. |
| `AirdropTool.AirdropTool.TryReserveManifest` | flex/tools/airdrop.py:152-181 | Exactly the guarded insert: goes on to the recipients only if the stored content is the requested one. |
| `AirdropTool.AirdropTool.ReconcileExistingReward` | flex/tools/airdrop.py:220-274 | Exactly the guarded update of a matching reward; nothing changes without one. |
| `AirdropTool.AirdropTool.Serve` | flex/tools/airdrop.py:436-500 | Pays a recipient that has no reward, operation by operation, and records the reward; skips one whose reward matches; anything else is a failure of this recipient. |
| `AirdropTool.AirdropTool.PersistReward` | flex/tools/airdrop.py:277-303 | The receipt is stored, unless a reward is there; this recipient fails if and only if what is stored then differs from it in content, transaction or round. |
| `AirdropTool.AirdropTool.ServeAll` | flex/tools/airdrop.py:433-500 | Every recipient in turn, each as specified; a failing one does not stop the others but is remembered for the manifest's status. |
| `AirdropTool.AirdropTool.MarkManifestStatus` | flex/tools/airdrop.py:194-217 | Marks complete, or partial unless another operator has completed it, in which case completion is reported; the returned error is the one of the state machine. |
| `Allocation.PositiveDecimal` | flex/domain/allocation.py:17-33 | Accepts exactly the finite decimals without a minus sign, with a digit other than 0, an exponent within 300 and at most 50 digits; any other share is refused for its first fault, in the order of kind, sign, size, length. |
| `Allocation.PositiveExactly` | flex/domain/allocation.py:27-28 | A finite decimal is above 0 if and only if it has no minus sign and a digit other than 0, at any exponent. |
| `Allocation.AllocateProportionally` | flex/domain/allocation.py:36-80 | The loops: the first fault of the arguments is the error; otherwise the result is a largest-remainder allocation whose sum is the total, for any shares. |
| `Allocation.Unique` | flex/domain/allocation.py:60-76 | There is only one largest-remainder allocation of given weights, so the weights alone decide the result. |
| `Allocation.OrderDoesNotMatter` | flex/domain/allocation.py:36-80 | Acceptance and result do not depend on the order of the shares. |
| `Allocation.ScaleDoesNotMatter` | flex/domain/allocation.py:60-76 | Multiplying all shares by one positive factor changes nothing. |
| `Allocation.Monotone` | flex/domain/allocation.py:64-76 | A larger share never gets less than a smaller one. |
| `Allocation.Leftover` | flex/domain/allocation.py:64-76 | What is left after rounding down is not negative and less than one unit per recipient. |
| `Allocation.Optimal` | flex/domain/allocation.py:60-76 | No other integer allocation of the same total, negative amounts included, has a smaller sum of absolute deviations from the exact shares. |
| `LotteryBooks.ClaimKeeps` | api/nft_lottery.py:378-412 | A reservation, possible only when due and with no open draw, keeps the guard and the draws consistent. |
| `LotteryBooks.UpsertKeeps` | api/nft_lottery.py:503-554 | Materializing a prize that was read at any earlier time inserts the one draw of that generation or finds exactly it: a late worker cannot create another. |
| `LotteryBooks.AdvanceKeeps` | api/nft_lottery.py:556-590 | A late materializer's status update cannot undo confirmed or unresolved. |
| `LotteryBooks.UnresolvedKeeps` | api/nft_lottery.py:610-662 | A late error report cannot undo confirmed, and reaches only the draw of its own generation. |
| `StakingLottery.StepKeeps` | api/nft_lottery.py:365-1012 | Every operation, exception and crash of every drawing and sending worker, other transfers included, keeps the books consistent, prizes' intents as drawn and claims truly paid; draws keep their identity and claimed draws their receipt. |
| `StakingLottery.OneOutstandingPrize` | api/nft_lottery.py:365-459 | In every reachable state a wallet has at most one unclaimed prize draw of a lottery. |
| `StakingLottery.OneDrawPerGeneration` | api/nft_lottery.py:462-590 | Each generation has one draw, with one prize for the rest of the run, even when racing workers draw different prizes. |
| `LotteryPrizes.LeavingStoresTheAnswer` | api/nft_lottery.py:469-486 | In any run, a step that takes a guard out of its reservation is the preparation of the prize, and stores exactly the prize in that step's answer. |
| `LotteryPrizes.PrizeIsTheOneDrawn` | api/nft_lottery.py:462-554 | In any run, the prize of every draw is the one that was answered at the step that took its guard out of the reservation. |
| `LotteryPrizes.PreparedOnce` | api/nft_lottery.py:469-486 | There is only one such step for a draw, however many workers help. |
| `StakingLottery.ReservationsApart` | api/nft_lottery.py:380-412 | Any two draws of a wallet in a lottery were reserved at least the interval apart for each generation between them. |
| `StakingLottery.OpenReservationApart` | api/nft_lottery.py:380-412 | So is a reservation that is not materialized yet from every earlier draw. |
| `StakingLottery.ConfirmedIsFinal` | api/nft_lottery.py:610-662 | A confirmed guard means a claimed draw, and stays confirmed as long as its generation lasts, whatever late workers do. |
| `StakingLottery.PrizePaidOnce` | api/nft_lottery.py:919-992 | At most one transfer for a draw is ever confirmed: one unit of the drawn NFT, to the draw's wallet. |
| `StakingLottery.ClaimedIsPaid` | api/nft_lottery.py:954-992 | A draw that is marked as claimed has been paid on chain, in the transaction and the round that it names. |
| `LotteryService.StakingLotteryService.TryClaim` | api/nft_lottery.py:380-412 | The guarded reservation, or no change at all. |
| `LotteryService.StakingLotteryService.ClaimStakingEntitlement` | api/nft_lottery.py:365-459 | Reserve, help an unfinished reservation, repair a guard whose draw was claimed and start again, or nothing: exactly the run of these operations among the others'. |
| `LotteryService.StakingLotteryService.PrepareStakingPrize` | api/nft_lottery.py:462-500 | The stored prize wins over the one drawn here; states that cannot be recovered are errors; exactly the operations of the state machine, about which `LotteryPrizes` and `LotteryRuns.OwnPrizeStays` say that the prize stored is the one drawn. |
| `LotteryService.StakingLotteryService.MaterializeStakingDraw` | api/nft_lottery.py:503-590 | The draw that is returned has the wallet, prize, timestamp and generation of the guard that was held. |
| `LotteryService.StakingLotteryService.GetOrCreateStakingDraw` | api/nft_lottery.py:593-607 | The call is exactly the run of its operations among the others'. A draw that is returned is for this wallet and lottery and, among workers of the protocol, stored as returned; when the call has prepared it itself, its prize is the one answered at that operation. When nobody disturbs it: a draw that is due is drawn, with the new ID, time and prize, and the books change by exactly that; an unfinished reservation is finished, with the stored prize if there is one; a guard that lags behind a paid draw is repaired and the next draw drawn. |
| `LotteryRuns.OwnPrizeStays` | api/nft_lottery.py:462-607 | What a call has prepared itself it ends with: the prize of its answer at that operation. |
| `LotteryRuns.DueIsDrawn` | api/nft_lottery.py:365-607 | Undisturbed, a draw that is due is drawn in six operations, and the books afterwards are given field by field. |
| `LotteryRuns.UnfinishedIsDrawn` | api/nft_lottery.py:450-459 | Undisturbed, a reservation that a crash has left unfinished is finished by the next call. |
| `LotteryRuns.LaggingIsDrawn` | api/nft_lottery.py:413-449 | Undisturbed, a guard whose draw was claimed meanwhile is repaired, and the next draw is drawn. |
| `LotteryService.StakingLotteryService.UpdateStakingEntitlementStatus` | api/nft_lottery.py:610-662 | Exactly the guarded status update; a miss is read and logged, and changes nothing. |
| `LotteryService.StakingLotteryService.RecordReceipt` | api/nft_lottery.py:954-992 | Records the receipt exactly when the draw is open for its operation; otherwise accepts another worker's record exactly when it is of the same transaction, and else leaves the draw unresolved. |
| `LotteryService.StakingLotteryService.FindOutstanding` | api/nft_lottery.py:864-871 | Reads exactly the unclaimed draws with a prize, each once. |
| `LotteryService.StakingLotteryService.HandleDocument` | api/nft_lottery.py:872-1013 | Nothing for a claimed draw; an error without any change for a status that cannot be paid; otherwise exactly the run of the payout's operations among the others', and a reported payment is a claimed draw. With a gateway that works within the window and a chain that confirms what was sent, the prize is paid now, the draw has its receipt, its guard is confirmed, and no other draw changes. |
| `LotteryRuns.AfterKeeps` | api/nft_lottery.py:365-1019 | A whole run of one worker's operations among the others' keeps what single steps keep, at every point. |
| `PayoutRuns.PayoutSucceeds` | api/nft_lottery.py:872-1013 | About the run of one payout: when nobody else writes to the draw, the gateway works and the chain confirms, no update misses and the draw ends claimed, with its receipt and its guard confirmed. |
| `PayoutRuns.PaidNext` | api/nft_lottery.py:872-1013 | Paying one more document leaves those before it paid and those after it as they were read. |
| `LotteryService.StakingLotteryService.SendAllPrizes` | api/nft_lottery.py:857-1019 | Exactly one result for each outstanding draw and none other, also after failures; the two counts are those of the results; among workers of the protocol, every result that reports a payment is a claimed draw at the end. With a gateway that works within the window and a chain that confirms what was sent, every outstanding prize is paid and no error is counted. |
| `Rewards.NeverOverDistributed` | core/cometa.py:125-138 | Stakers that were settled at the last update, with stakes of at most the total, together never gain more than blocks passed times the reward per block, whatever the two floors do. |
| `Rewards.ShortfallIsSmall` | core/cometa.py:125-138 | When the stakes make up the total, the shortfall is below n + total / 10^18, stated in integers. |
| `Rewards.SplittingNeverPays` | core/cometa.py:125-138 | Two stakes never earn more apart than together. |
| `Rewards.LosesExactlyAfterTheEnd` | core/cometa.py:129-138 | A settled staker's reward falls if and only if the pool was last updated after its end block and gives a reward per block; the count of blocks is then negative. |
| `Rewards.LossExample` | core/cometa.py:129-138 | A concrete pool in which a reward of 70 becomes 20. |
| `ContractState.BignumRoundTrip` | flex/blockchain/contract_state.py:150-155 | Reading a printed big number gives it back, for every number, and it is printed as whole bytes. |
| `ContractState.HexReads` | core/util.py:28-37 | Reading the hexadecimal digits of a number, with or without a leading zero, gives the number. |
| `ContractState.StateEntryBytes` | flex/blockchain/contract_state.py:165-184 | The loop returns the bytes of the first entry with the key, or the error met before or at it. |
| `ContractState.RecoverGlobalVector` | flex/blockchain/contract_state.py:187-208 | The loop joins the chunks in the order of their keys, with the errors of metadata, step, chunks and size in that order. |
| `ContractState.LayoutsAreOrdered` | flex/blockchain/contract_state.py:52-139 | In all four layouts no field overlaps another or leaves the vector. |
| `ContractState.BytesRoundTrip` | flex/blockchain/contract_state.py:158-162 | Big-endian reading inverts writing, for every number that fits the width. |
| `ContractState.ContractRoundTrip` | flex/blockchain/contract_state.py:279-296 | For each supported contract: pack any in-range values over any other bytes, split the vector anywhere over the chunk keys, permute the entries among any foreign ones; decoding and reading the big numbers gives exactly the packed values and the beneficiary's bytes in hexadecimal. |
| `ContractState.LocalRoundTrip` | flex/blockchain/contract_state.py:299-323 | The four local maps come back in the same sense, with 0 for a value that is not there, whatever fills its place. |
| `ContractState.NoLocalState` | flex/blockchain/contract_state.py:308-323 | An account without the key reads as four zeros. |
| `ContractState.LocalStateAccepted` | flex/blockchain/contract_state.py:299-323 | A local state is accepted if and only if it has 60 bytes and each of its four tags is 0 or 1. |

## Left out

- MongoDB itself: documents are values of maps, 128-bit decimals are bounded integers, unique indexes are map keys.
- `project` and the other operations' timestamps for audit, log text, error text and the `send_error` field.
- The upgrade of indexes, the backfill of draw IDs, guards seeded from older draws, legacy rewards: the data are clean.
- The sync loop around a round: fetching the block, the record in `sync_blocks`, the delays and the number of attempts.
- Signing, hashing, base 64 and address checksums; `_validate_persisted_transaction` is a comparison of fields.
- Algod, the Indexer and HTTP: they are answers that a step is given.
- `lottery_draws.find` in `send_all_prizes` reads all its documents at one moment; a draw that is created later is left
  to the next call.
- Stored dates have the precision of the clock; the database keeps milliseconds, so that the interval between two
  reservations may be one millisecond shorter than stated.
- `ContractState.HexReads`: signs, blanks and underscores, which Python's `int` accepts as well, are not modelled.
- `Allocation.PositiveDecimal`: parsing of text into a decimal number is not modelled; a share is the parsed number or the
  way in which parsing failed. Exact fractions are real numbers.
- `LpCursorCodec.RoundEndCursorRead`: `isdigit` is modelled for ASCII digits; other digits cannot be printed by the program.
- `LotteryService.StakingLotteryService.ClaimStakingEntitlement`: the recursion after a repair is bounded by a parameter, as
  Python's is by its recursion limit.
- `AirdropTool.AirdropTool.SendAirdrop`: an exception of the database within a step is modelled in the state machine
  (`Airdrop.Act`) and not in the method, and the transfer is carried out operation by operation as
  `AssetTransferService.Execute` is proved to do. The two JSON files that it may write are not modelled.
- The validity window on chain: a transaction may be confirmed at any time after it was broadcast, which only adds runs.
- Pydantic models, routes, Telegram and Discord, provider clients, prices, TVL and APR.
- Staking-pool projection (`flex/data/pool_state.py`), the circuit breaker and the asset prices: they promise less.
- The choice of the random prize and the inventory retries in `draw_id`: any prize, or none, may be drawn.
