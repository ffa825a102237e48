# CodeChain: a verified model of its stateful cores

This project models, in Dafny, the parts of the CodeChain node whose correctness spans many calls, and proves what
they keep over whole runs. Every core is measured against a simple reference: the branch from genesis to the heaviest
block, the maximal run of ready transactions, the unique way to cut a byte stream into frames, the existence of a
matching between signatures and keys. The code keeps fast forms of these, and the proofs show that the fast forms
agree with the simple ones in every reachable state, or exactly when they do.

`dafny verify dfyconfig.toml` checks everything.

## What is modelled

**Fork choice and chain indexes** (`HeaderTree`, `Database`, `Route`, `HeaderChain`, `BodyIndex`, `BodyDB`,
`BlockChain`, `Importer`). Headers form a tree; every insertion may move the best header and the best block by total
score, computes a route between branches, and updates a number index, a transaction-hash index and a tracker index
through pending fields, a database batch and caches. The reference is `HeaderTree.Path`, the branch from genesis to a
header. The class invariants `HeaderChain.Valid` and `BlockChain.Valid` say that the best header (block) is a heaviest
one, that the number index lists the best branch, that the two transaction indexes hold exactly the positions on the
best branch without genesis, and that caches agree with the database; every insertion keeps them, reorganisations to
shorter but heavier branches included.

**Transaction memory pool** (`PoolTypes`, `Queues`, `PoolIndex`, `Placement`, `Admission`, `Eviction`, `Removal`, `PoolSteps`,
`Recovery`, `MemPool`, `PoolRuns`, `PoolGaps`). The pool keeps two lookup tables, two ordered queues with running totals, a
fee counter, per-account seqs and a backup. `Synced` says that all of them describe the same transactions; `Placed` that a
signer's queued transactions count their height from the recorded first seq and are current exactly below the recorded next
seq; `Exact` that the recorded seqs delimit the maximal gap-free run of transactions whose timelocks are over. A whole call
is a relation between states of the pool: `PoolSteps.IsAddition` gives the tables after `add` as the replay of the inputs
(`Admission.Replay`), settled by where the runs end (`Placement.SettledTable`), without what exceeds a limit
(`Eviction.EvictedTable`); `PoolSteps.IsRemoval` gives those after `remove`. The methods of `MemPool` are proved to take these
steps and to keep `MemPool.Valid`; the one panic that can be reached is part of the contract of `Add`.

**Message framing** (`Framing`, `Stream`). A resumable reader of RLP lists and a queue of messages sent in pieces, over a
socket that delivers and accepts any number of bytes at any time. RLP lists form a prefix code, so what was read is
always a beginning of what was written.

**Scripts** (`Script`, `MultiSig`, `Machine`, `Executor`, `ScriptLaws`). The byte code and its decoder, the stack machine with
metered memory, and the greedy matching of signatures with public keys, which is proved complete. `ScriptLaws` says what
every instruction does to an explicit stack and what whole scripts answer, without looking into the machine.

**Consensus votes** (`BitSets`, `Votes`). Bit sets of validator indices, and vote collection with double-vote reports.

**Bech32 regrouping** (`Regroup`). Regrouping bits between bytes and groups of five.

**Session handshake** (`Routing`). The per-peer state machine that agrees on a secret and a nonce.

## Results that are not what one would expect

- After `remove` a transaction may be current although an earlier one of its signer is missing. Two short lives of a pool
  end like this: seqs 0, 2 and 3 are added and 3 is removed, and 2 is current (`PoolGaps.RemovingFutureLeavesGap`); seq 0 is
  added and removed and 1 is added, and 1 is current (`PoolGaps.RemovingAllLeavesGap`). `PoolSteps.RemovalExact` says exactly
  when this does not happen: a signer that was placed exactly still is, if and only if the removal is `Removal.Smooth`, a
  condition on the table, the recorded seqs, the account seq and the hashes before the call.
- Enforcing the limits leaves the recorded next seq as it was, with the same effect (`PoolGaps.EvictionLeavesGap`).
  `PoolSteps.AdditionExact`: a signer stays exactly placed if and only if none of its current transactions has to go for a
  limit, where the transactions that have to go are a function of the table before (`Eviction.Evicted`).
- Local and retracted transactions count in the running totals that decide which external ones go, but not in the totals
  that decide whether any has to go (`Eviction.OverLimit`, `Eviction.Exceeds`).
- Of two transactions with the same origin and height, the one that pays less per byte sorts first
  (`PoolTypes.OrderInWords`), so that a limit takes the one that pays more (`Eviction.DearerGoesFirst`).
- `add` reaches the `unreachable!` at core/src/miner/mem_pool.rs:299 if and only if an input is accepted whose slot an
  earlier input of the batch has taken (`Admission.Panics`); two funded local transactions for one slot do
  (`PoolGaps.TwoForOneSlotPanic`). Batches without two different transactions for one slot never do
  (`Admission.ConsistentNeverPanics`).
- An account that becomes local takes its older transactions along in the queues, but not in the backup. A restart brings the
  queues back as they were if and only if every order has the origin of its item, for a pool that is placed exactly at that
  time (`PoolRuns.Restart`);
  `PoolGaps.RestartForgetsLocal` is a pool where this fails.
- A restart subtracts the account seq from the seq of every stored transaction, which overflows if and only if an account
  has moved past one of them in the meantime (`MemPool.MemPool.RecoverFromDb`).
- `rearrange_bits` overflows its mask when it is asked to move whole bytes (`Regroup.RearrangeBits`); the two uses in the
  repository never do.
- `has_expensive_opcodes` is asked about the unlock script after it was found to consist of pushes only, and then never
  holds (`Executor.PushesAreCheap`).
- A frame with an empty payload is consumed by `read_bytes` and not returned (`Stream.Delivered`).

## Model

| member | source | states |
|---|---|---|
| `HeaderTree.Path` | core/src/blockchain/headerchain.rs:384-391 | the reference branch: as long as the header's number plus one, from genesis to the header |
| `HeaderTree.PathPrefix` | core/src/blockchain/headerchain.rs:384-391 | entry n of a branch has number n, and the branch below it is that entry's own branch |
| `HeaderTree.BranchesMeet` | core/src/blockchain/route.rs:74-109 | two branches that share a header at some number agree everywhere below it |
| `HeaderTree.PartedBranches` | core/src/blockchain/route.rs:74-109 | once two branches part they have no header in common |
| `HeaderTree.ScoreGrows` | core/src/blockchain/headerchain.rs:222-237 | every proper descendant has a strictly higher total score |
| `HeaderTree.SubTree` | core/src/blockchain/headerchain.rs:119-163 | adding headers changes neither the branch nor the total score of a header already there |
| `Database.ReadWithCache` | core/src/db.rs:195-210 | a read through a cache that agrees with the column returns the column's value and leaves such a cache |
| `Database.ExtendWithCache` | core/src/db.rs:126-150 | the batch writes every value once, in some order, and the cache gains exactly these values |
| `Database.ExtendWithOptionCache` | core/src/db.rs:153-183 | as above with deletions: the batch writes or deletes every key once, and the cache records which |
| `Route.PartAtDeepest` | core/src/blockchain/route.rs:74-109 | the header where two branches part is their deepest common ancestor: its ancestors are exactly the common ones |
| `Route.ImportRouteTurns` | core/src/blockchain/route.rs:122-198 | the import route of an insertion retracts exactly what only the old branch has and enacts exactly what only the new one has |
| `HeaderChain.AppendedOnBest` | core/src/blockchain/headerchain.rs:268-272 | when nothing is retracted the new header stands directly on the best one, because scores are positive |
| `HeaderChain.InsertedNumbers` | core/src/blockchain/headerchain.rs:190-218 | the new entries turn a number index of the old branch into one of the new branch, even a shorter one |
| `HeaderChain.InsertedDetails` | core/src/blockchain/headerchain.rs:222-237 | the details column keeps the true number, parent and total score of every header |
| `HeaderChain.InsertedHeaviest` | core/src/blockchain/headerchain.rs:240-249 | the header chosen by comparing scores is a heaviest header of the grown tree |
| `HeaderChain.InsertedAgrees` | core/src/blockchain/headerchain.rs:119-163 | an insertion leads from a store that agrees with its tree to one that agrees with the grown tree |
| `HeaderChain.GenesisWritten` | core/src/blockchain/headerchain.rs:68-89 | the first batch makes an empty database agree with the tree of genesis alone |
| `HeaderChain.HeaderChain.constructor` | core/src/blockchain/headerchain.rs:64-113 | opening stores genesis over an empty database and resumes over one that agrees with a tree, changing nothing |
| `HeaderChain.HeaderChain.BlockHeaderData` | core/src/blockchain/headerchain.rs:394-420 | returns the stored header, through the cache |
| `HeaderChain.HeaderChain.BlockDetails` | core/src/blockchain/headerchain.rs:378-381 | returns the stored details, through the cache |
| `HeaderChain.HeaderChain.IsKnownHeader` | core/src/blockchain/headerchain.rs:373-375 | true exactly for stored headers |
| `HeaderChain.HeaderChain.ClimbLevel` | core/src/blockchain/route.rs:81-91 | the first loop reaches equal numbers on both branches, noting what it passed, and moves one side only |
| `HeaderChain.HeaderChain.TreeRoute` | core/src/blockchain/route.rs:74-109 | terminates; a route exists exactly when both ends are stored, and is the two branches from where they part |
| `HeaderChain.HeaderChain.BestHeaderChanged` | core/src/blockchain/headerchain.rs:240-281 | the header takes over exactly when its total score is strictly higher, and the change carries the true route |
| `HeaderChain.HeaderChain.NewHashEntries` | core/src/blockchain/headerchain.rs:190-218 | the entries are the part of the new branch that was not canonical |
| `HeaderChain.HeaderChain.NewDetailEntries` | core/src/blockchain/headerchain.rs:222-237 | the details hold the header's total score in the tree |
| `HeaderChain.HeaderChain.InsertHeader` | core/src/blockchain/headerchain.rs:119-163 | staging changes nothing readable; batch and pending fields together describe the grown tree; a known header stages nothing |
| `HeaderChain.HeaderChain.Commit` | core/src/blockchain/headerchain.rs:166-187 | once the batch is written, committing restores the invariant with the staged best header |
| `HeaderChain.HeaderChain.BlockHash` | core/src/blockchain/headerchain.rs:384-391 | for every number up to the best one the ancestor of the best header, above it nothing |
| `BodyIndex.ParcelTurns` | core/src/blockchain/body_db.rs:137-179 | deleting retracted and writing enacted positions turns the hash index of one branch into that of the other |
| `BodyIndex.TrackerTurns` | core/src/blockchain/extras.rs:159-183 | removing and then adding positions turns the list of one branch into that of the other, in order and without repeats |
| `BodyIndex.TrackerIndexTurns` | core/src/blockchain/body_db.rs:181-266 | the grouped entries do this for every tracker, dropping trackers that are left without positions |
| `BodyDB.BodyDB.constructor` | core/src/blockchain/body_db.rs:49-70 | stores the body of genesis if it is missing, and nothing else |
| `BodyDB.BodyDB.BlockBody` | core/src/blockchain/body_db.rs:308-326 | returns the stored body, through the cache |
| `BodyDB.BodyDB.InsertBody` | core/src/blockchain/body_db.rs:75-86 | puts the body in the batch unless it is known |
| `BodyDB.BodyDB.GroupByTracker` | core/src/blockchain/body_db.rs:228-238 | collects the positions of every tracker, in order and without repeats |
| `BodyDB.BodyDB.NewTransactionAddressEntries` | core/src/blockchain/body_db.rs:181-266 | exactly the trackers concerned, each with its stored list minus retracted plus enacted positions |
| `BodyDB.BodyDB.UpdateBestBlock` | core/src/blockchain/body_db.rs:88-103 | the batch patches both indexes for the change, and the pending fields hold the same patches |
| `BodyDB.BodyDB.Commit` | core/src/blockchain/body_db.rs:106-134 | the caches are patched by the pending entries, deletions included |
| `BodyDB.BodyDB.TransactionAddress` | core/src/blockchain/body_db.rs:297-300 | returns the indexed position, through the cache |
| `BodyDB.BodyDB.TransactionAddressByTracker` | core/src/blockchain/body_db.rs:302-305 | returns the first indexed position of the tracker, through the cache |
| `BlockChain.IndexesTurn` | core/src/blockchain/body_db.rs:88-266 | patching the indexes of the old best branch gives those of the new best branch |
| `BlockChain.InsertedAgrees` | core/src/blockchain/blockchain.rs:116-158 | an insertion leads from agreeing body columns to agreeing ones: heaviest block, indexes and best hashes |
| `BlockChain.HeadersGrow` | core/src/blockchain/blockchain.rs:101-111 | headers without bodies disturb neither the best block nor the indexes |
| `BlockChain.BlockChain.constructor` | core/src/blockchain/blockchain.rs:61-99 | opening stores genesis over an empty database and resumes over an agreeing one |
| `BlockChain.BlockChain.BestBlockChanged` | core/src/blockchain/blockchain.rs:183-223 | the block takes over exactly when its total score is strictly higher, and the change carries the true route |
| `BlockChain.BlockChain.IsKnown` | core/src/blockchain/blockchain.rs:345-347 | true exactly for blocks with a stored body |
| `BlockChain.BlockChain.InsertBlock` | core/src/blockchain/blockchain.rs:116-158 | staging leads to a store that agrees; the route turns the old canonical branch into the new one; a known block stages nothing |
| `BlockChain.BlockChain.InsertHeader` | core/src/blockchain/blockchain.rs:101-111 | a header alone leaves all blocks alone, and its route turns the best header branch into the new one |
| `BlockChain.BlockChain.Commit` | core/src/blockchain/blockchain.rs:161-180 | once the batch is written, committing restores the invariant with the staged best block |
| `BlockChain.BlockChain.ImportHeader` | core/src/client/importer.rs:390-399 | importing a header keeps the invariant and adds exactly that header |
| `BlockChain.BlockChain.ImportBlock` | core/src/client/importer.rs:188-217 | importing a block keeps the invariant, adds exactly that header and that body, and returns a route between the canonical branches |
| `BlockChain.BlockChain.TransactionAddress` | core/src/blockchain/blockchain.rs:407-409 | finds a transaction exactly when it is in a canonical block other than genesis, and then at its position |
| `BlockChain.BlockChain.TransactionAddressByTracker` | core/src/blockchain/blockchain.rs:411-413 | finds the first canonical position with the tracker, or none if there is none |
| `Importer.OneRoute` | core/src/blockchain/route.rs:111-120 | a route moves exactly its own blocks on or off the canonical branch |
| `Importer.FoldIsCanonical` | core/src/client/importer.rs:163-176 | after any number of insertions a block is canonical exactly when the fold says enacted, or says nothing and it was canonical before |
| `Importer.CalculateEnactedRetracted` | core/src/client/importer.rs:158-182 | the two lists are the fold's verdicts, disjoint and without repeats |
| `Importer.NoOrphans` | core/src/client/importer.rs:327-350 | a batch in which every header stands on a stored or an earlier one does not panic, whatever the check says |
| `Importer.BadOrImported` | core/src/client/importer.rs:327-350 | a header is bad exactly when its hash or parent is, or when it is new and fails the check against its stored parent; exactly the new ones that pass are imported and stored |
| `Importer.BadSpreads` | core/src/client/importer.rs:329-333 | whatever stands on a bad header of the batch is bad |
| `Importer.ImportHeaders` | core/src/client/importer.rs:314-365 | panics exactly at a header that is not bad and whose parent is unknown; otherwise stored, bad and imported headers are those of the fold, blocks are untouched, and enacted and retracted headers account for the change of the best header branch |
| `Importer.RefusedOrImported` | core/src/client/importer.rs:108-130 | a block is invalid exactly when its parent was or verification refused it, and imported and stored exactly otherwise |
| `Importer.InvalidSpreads` | core/src/client/importer.rs:111-115 | whatever stands on an invalid block of the batch is invalid |
| `Importer.ImportBodies` | core/src/client/importer.rs:106-131 | stored headers and bodies, invalid and imported blocks are those of the fold; final canonical branch = initial minus retracted plus enacted |
| `Importer.ImportVerifiedBlocks` | core/src/client/importer.rs:91-156 | the headers first and then the blocks, both exactly as their folds say, and final canonical branch = initial minus retracted plus enacted, however blocks come and go within the batch |
| `PoolTypes.CmpAntisymmetric` | core/src/miner/mem_pool_types.rs:174-203 | comparison is antisymmetric, and equal only on orders that agree in every compared field, the id included |
| `PoolTypes.CmpTransitive` | core/src/miner/mem_pool_types.rs:174-203 | comparison is transitive |
| `PoolTypes.OrderInWords` | core/src/miner/mem_pool_types.rs:75-203 | what sorts first: retracted before local before external, then the lower height, the lower fee per byte, the higher fee, the earlier lock, the lower id |
| `Queues.FutureInsert` | core/src/miner/mem_pool_types.rs:392-398 | inserting keeps count and memory equal to those of the external orders |
| `Queues.FutureRemove` | core/src/miner/mem_pool_types.rs:400-407 | the assertion holds, and removal takes exactly the order and keeps the totals |
| `Queues.CurrentInsert` | core/src/miner/mem_pool_types.rs:333-340 | as for the other queue, and the fee counter counts every fee |
| `Queues.CurrentRemove` | core/src/miner/mem_pool_types.rs:342-356 | as for the other queue, and the fee counter never underflows nor keeps empty counts |
| `Queues.FeeSum` | core/src/miner/mem_pool.rs:366-366 | the counts of all fees add up to the size of the queue |
| `PoolIndex.NoEqual` | core/src/miner/mem_pool_types.rs:174-203 | an order compares equal to no order of a queue that does not hold it, so insertion never loses it |
| `PoolIndex.RequeuedSynced` | core/src/miner/mem_pool.rs:668-695 | moving a transaction between queues or positions keeps all indexes in step |
| `PoolIndex.DroppedSynced` | core/src/miner/mem_pool.rs:177-197 | taking a transaction out keeps all indexes in step |
| `PoolIndex.AddedSynced` | core/src/miner/mem_pool.rs:276-286 | a new transaction enters both tables and no queue |
| `PoolIndex.SizesAgree` | core/src/miner/mem_pool.rs:365-367 | the three closing assertions of an operation hold |
| `Placement.RunIsUnique` | core/src/miner/mem_pool.rs:609-630 | a maximal ready run has one end |
| `Placement.RunInWords` | core/src/miner/mem_pool.rs:962-974 | everything in a run is there, with a lock whose block number and timestamp have come; what ends it is missing or has a lock that has not come |
| `Placement.SignerInOrder` | core/src/miner/mem_pool_types.rs:174-203 | the queues list one signer's transactions of one origin by strictly increasing seq |
| `Placement.MovedIsReordered` | core/src/miner/mem_pool.rs:331-343 | where the heights are right, moving what lies between the ends is the same as re-sorting the row |
| `Placement.NewEndIsRun` | core/src/miner/mem_pool.rs:315-329 | the end found after an addition, from scratch or by looking at the new transactions below the recorded end only, is that of the maximal ready run, if the old run is intact |
| `Placement.SettledPlaced` | core/src/miner/mem_pool.rs:307-358 | whatever the ends, a settled table is placed by the recorded seqs |
| `Placement.SettledExact` | core/src/miner/mem_pool.rs:307-358 | a settled signer is placed exactly if and only if its end is that of the maximal ready run; one without transactions if and only if its recorded run is empty |
| `Placement.ExactMeansMaximalRun` | core/src/miner/mem_pool.rs:307-358 | under exact placement the current transactions are exactly the maximal ready run from the recorded account seq |
| `Placement.ExactUpTo` | core/src/miner/mem_pool.rs:609-630 | under exact placement the current transactions are those up to the first that is missing or locked, in terms of block numbers and timestamps |
| `Admission.MinimumFeeMeans` | core/src/miner/mem_pool.rs:218-224 | an offer is below the minimum exactly when it outbids no order of a queue that is not empty |
| `Admission.FirstError` | core/src/miner/mem_pool.rs:779-870 | there is no error exactly for transactions with sufficient balance, new hash, current seq and, unless local, sufficient fees |
| `Admission.ErrorsInWords` | core/src/miner/mem_pool.rs:779-870 | which error is reported when several things are wrong, and which minimum it names |
| `Admission.ShiftDivides` | core/src/miner/mem_pool.rs:855-864 | the fee bump is the old fee divided by a power of two, rounded down |
| `Admission.ReplayLinked` | core/src/miner/mem_pool.rs:276-301 | the two tables stay inverse to each other over a whole batch |
| `Admission.ReplayOthers` | core/src/miner/mem_pool.rs:253-305 | slots that no input claims are untouched, and exactly the local inputs make their accounts local |
| `Admission.ReplayIntact` | core/src/miner/mem_pool.rs:253-305 | a run that was intact stays so, up to transactions that were replaced |
| `Admission.ReplayListed` | core/src/miner/mem_pool.rs:253-305 | an accepted input keeps its place and its item until the end of a batch that does not panic |
| `Admission.ConsistentNeverPanics` | core/src/miner/mem_pool.rs:285-301 | a batch without two different transactions for one slot never reaches the `unreachable!` |
| `Admission.TwoForOneSlot` | core/src/miner/mem_pool.rs:285-301 | two funded local transactions for one slot do reach it, whatever the limits |
| `Eviction.GetOrdersToDrop` | core/src/miner/mem_pool.rs:147-162 | exactly the external orders at which the running count or memory, local orders included, exceeds its limit, each once |
| `Eviction.DropIsEviction` | core/src/miner/mem_pool.rs:145-198 | what has to go is external and sorts last, and what is left is within both limits |
| `Eviction.EvictedIsExternal` | core/src/miner/mem_pool.rs:145-198 | only external transactions go, and only if the external ones of their queue exceed a limit |
| `Eviction.DearerGoesFirst` | core/src/miner/mem_pool.rs:145-198 | of two transactions with the same origin and height, the one that pays more per byte goes first |
| `Eviction.EvictedExact` | core/src/miner/mem_pool.rs:145-198 | an exactly placed signer stays so if and only if none of its current transactions has to go |
| `Removal.LoseOne` | core/src/miner/mem_pool.rs:518-551 | one more removed transaction leaves the table and is noted if it is the lowest its signer has lost |
| `Removal.RunToGap` | core/src/miner/mem_pool.rs:566-567 | taking the lowest lost seq as the end is right if and only if everything before it is ready |
| `Removal.RunGoesOn` | core/src/miner/mem_pool.rs:568-570 | a signer that lost nothing keeps its run, which goes on from its old end |
| `Removal.RemovedEndIsRun` | core/src/miner/mem_pool.rs:556-570 | for a signer that was placed exactly, the new end is that of the maximal ready run if and only if the removal is smooth |
| `PoolSteps.AdditionPlaces` | core/src/miner/mem_pool.rs:238-384 | after an addition every queue is what the recorded seqs say, counted from the account seqs |
| `PoolSteps.AdditionExact` | core/src/miner/mem_pool.rs:238-384 | a signer that was placed exactly still is, if and only if no limit takes a current transaction of its away |
| `PoolSteps.StagedOthers` | core/src/miner/mem_pool.rs:307-358 | slots that no input claims keep their transactions unless these are old, with recounted heights and the origin Local if the account has just become local |
| `PoolSteps.AcceptedStays` | core/src/miner/mem_pool.rs:253-384 | an accepted input is stored as it came in, with the time of the call and its effective origin, and is in the pool afterwards if and only if no limit takes it away |
| `PoolSteps.LocalsInWords` | core/src/miner/mem_pool.rs:261-358 | local afterwards are the accounts that were or have sent a local transaction, unless they had transactions and all of them were old |
| `PoolSteps.OrderOfItem` | core/src/miner/mem_pool_types.rs:135-154 | everything in an order but the origin is determined by the item and the account seq |
| `PoolSteps.OutcomesInWords` | core/src/miner/mem_pool.rs:370-383 | an accepted input that is still there is answered as current exactly when its seq is below the recorded end of its signer's run |
| `PoolSteps.StaleInWords` | core/src/miner/mem_pool.rs:398-424 | what keeps a transaction from being stale, in terms of its block, expiration, fee and quantity |
| `PoolSteps.RemovalPlaces` | core/src/miner/mem_pool.rs:509-605 | after a removal every queue is what the recorded seqs say, counted from the account seqs |
| `PoolSteps.RemovalExact` | core/src/miner/mem_pool.rs:509-605 | a signer that was placed exactly still is, if and only if what it loses is smooth |
| `PoolSteps.RemovalKeeps` | core/src/miner/mem_pool.rs:509-605 | exactly the listed transactions and those older than their accounts are gone |
| `Recovery.PoolIsBackup` | core/src/miner/backup.rs:33-58 | what a pool leaves in its backup is one item per hash and slot, with different ids |
| `Recovery.RecoveredOrders` | core/src/miner/mem_pool.rs:445-490 | recovered orders are those their items get with the present account seqs, and no account stops being local |
| `Recovery.RecoveredExact` | core/src/miner/mem_pool.rs:469-490 | every recovered signer is placed exactly |
| `MemPool.MemPool.constructor` | core/src/miner/mem_pool.rs:118-138 | a new pool is valid and empty |
| `MemPool.MemPool.CheckTransactions` | core/src/miner/mem_pool.rs:609-630 | returns the end of the maximal ready run |
| `MemPool.MemPool.CheckNewTransactions` | core/src/miner/mem_pool.rs:635-664 | returns the smallest of the seqs below the end that must wait, or tells that all are ready |
| `MemPool.MemPool.MoveQueue` | core/src/miner/mem_pool.rs:668-695 | moves exactly the queued transactions of the interval |
| `MemPool.MemPool.AddNewOrdersToQueue` | core/src/miner/mem_pool.rs:699-722 | puts exactly the listed new transactions into the queue their seq belongs to |
| `MemPool.MemPool.UpdateOrders` | core/src/miner/mem_pool.rs:726-774 | drops the old transactions, recounts heights and origins of the queued ones and sorts them by the new end |
| `MemPool.MemPool.InsertItem` | core/src/miner/mem_pool.rs:282-301 | a new transaction takes its slot, and the one it replaces leaves tables, queue and backup |
| `MemPool.MemPool.EffectiveMinimumFee` | core/src/miner/mem_pool.rs:218-224 | one more than the lowest fee of a full queue, and nothing otherwise |
| `MemPool.MemPool.VerifyTransaction` | core/src/miner/mem_pool.rs:779-870 | finds the first thing that is wrong, and nothing exactly for acceptable transactions |
| `MemPool.MemPool.ImportOne` | core/src/miner/mem_pool.rs:253-305 | panics exactly when the input is accepted although its slot is new; otherwise the tables are those of the replay, and the answer is the first error |
| `MemPool.MemPool.Gather` | core/src/miner/mem_pool.rs:253-305 | panics exactly when some input clashes with an earlier one; otherwise tables, answers and new local accounts are those of the replay |
| `MemPool.MemPool.NextAfterAdd` | core/src/miner/mem_pool.rs:310-329 | finds the first seq at which the run stops, looking below the recorded end at new transactions only |
| `MemPool.MemPool.Reconcile` | core/src/miner/mem_pool.rs:331-349 | either branch re-sorts the row for the account seq and the new end, and records both |
| `MemPool.MemPool.SettleSigner` | core/src/miner/mem_pool.rs:309-358 | one row is settled for its new end, and nothing else changes |
| `MemPool.MemPool.SettleAll` | core/src/miner/mem_pool.rs:307-358 | in any order of the signers the table becomes the settled one; exactly the accounts whose rows are drained stop being local |
| `MemPool.MemPool.EnforceLimit` | core/src/miner/mem_pool.rs:145-198 | exactly the transactions that exceed a limit go; what is left is within both limits and sorts before what goes |
| `MemPool.MemPool.Report` | core/src/miner/mem_pool.rs:370-383 | the answer names the first error, the queue the transaction is in, or the limit |
| `MemPool.MemPool.Add` | core/src/miner/mem_pool.rs:238-384 | panics exactly when an input is accepted for a slot an earlier one took; otherwise the whole new state and all answers are those of an addition, and both queues are within both limits |
| `MemPool.MemPool.Purge` | core/src/miner/mem_pool.rs:518-551 | takes exactly the listed transactions out and notes each signer's lowest lost seq |
| `MemPool.MemPool.NextAfterRemove` | core/src/miner/mem_pool.rs:556-570 | the end of the run from scratch, the lowest lost seq, or the end of the run from the recorded end on |
| `MemPool.MemPool.ResettleAll` | core/src/miner/mem_pool.rs:553-595 | in any order of the signers the table becomes the settled one; exactly the accounts whose rows are drained stop being local |
| `MemPool.MemPool.Remove` | core/src/miner/mem_pool.rs:509-605 | the whole new state is that of a removal of the listed hashes |
| `MemPool.MemPool.Stale` | core/src/miner/mem_pool.rs:398-424 | exactly the transactions that are not local and expired, too old, or old and too expensive |
| `MemPool.MemPool.RemoveOld` | core/src/miner/mem_pool.rs:388-429 | the whole new state is that of a removal of the stale transactions; what stays is exactly what is not older than its account and is local, or recent, unexpired and, once it has been there for a while, still payable with its quantity |
| `MemPool.MemPool.RecoverFromDb` | core/src/miner/mem_pool.rs:432-502 | overflows exactly when an account has moved past a stored transaction; otherwise rebuilds the same items with fresh orders, makes the maximal ready runs current, and makes exactly the owners of local items local |
| `PoolRuns.AdditionFits` | core/src/miner/mem_pool.rs:145-198 | if the stored and the added transactions together are within the limits, no limit takes anything away |
| `PoolRuns.AddAll` | core/src/miner/mem_pool.rs:238-384 | any run of additions to an empty pool goes through one pool state per call, each the exact result of that addition, up to the first panic, which only a batch with two transactions for one slot can cause; if all transactions together are within the limits, every signer's current transactions are its maximal ready run |
| `PoolRuns.LifeExact` | core/src/miner/mem_pool.rs:238-605 | over any run of additions and removals a signer is placed exactly after every call, if and only if every call is harmless to it |
| `PoolRuns.Determined` | core/src/miner/mem_pool.rs:432-502 | items, account seqs and time determine the tables of a pool whose orders are as its items say and whose current transactions are the maximal ready runs |
| `PoolRuns.OriginsDecide` | core/src/miner/mem_pool.rs:331-336 | where heights are counted from the account seqs, orders are as their items say if and only if the origins agree |
| `PoolRuns.Restart` | core/src/miner/mem_pool.rs:432-502 | a pool opened over a backup overflows exactly when an account has moved past a transaction; otherwise it holds the same transactions, in the same places if and only if the first one had every order as its item says and the maximal ready runs current; for one placed exactly at that time, if and only if the origins agree |
| `PoolGaps.TwoForOneSlotPanic` | core/src/miner/mem_pool.rs:299-299 | two different funded local transactions for one slot make `add` panic |
| `PoolGaps.RemovingFutureLeavesGap` | core/src/miner/mem_pool.rs:566-567 | a pool with seq 2 current and 1 missing, after adding 0, 2 and 3 and removing 3 |
| `PoolGaps.RemovingAllLeavesGap` | core/src/miner/mem_pool.rs:553-595 | a pool with seq 1 current and 0 missing, after adding and removing 0 and adding 1 |
| `PoolGaps.EvictionLeavesGap` | core/src/miner/mem_pool.rs:145-198 | a pool with seq 2 current and 1 missing, after 1 had to go for a limit |
| `PoolGaps.RestartForgetsLocal` | core/src/miner/mem_pool.rs:432-502 | a pool whose restart turns a local order back into an external one |
| `Framing.PrefixCode` | network/src/stream.rs:82-104 | no frame is a proper prefix of another |
| `Framing.CutsFirstFrames` | network/src/stream.rs:153-202 | frames cut off the front of a stream of frames are its first ones |
| `Framing.CutsAllFrames` | network/src/stream.rs:153-202 | when the stream is used up all frames have been cut off and nothing is left over |
| `Framing.ListIsFrame` | network/src/stream.rs:303-310 | every RLP list, short or long, is a frame with the payload it was made from; exactly payloads of at most 55 bytes take a one-byte header |
| `Stream.ParseLen` | network/src/stream.rs:82-91 | the announced payload length and the header length |
| `Stream.ParseLongLen` | network/src/stream.rs:97-104 | the loop computes the big-endian value of the length bytes |
| `Stream.TryStream.ReadLengthOfLength` | network/src/stream.rs:107-125 | no byte is lost or duplicated; if the socket does not stall, all of the header that has arrived is read |
| `Stream.TryStream.ReadLen` | network/src/stream.rs:127-151 | as above from the first byte; the socket is shut down for a byte that starts no list, and only then |
| `Stream.TryStream.ReadPayload` | network/src/stream.rs:179-201 | if the socket does not stall, the frame is returned as soon as all of it has arrived, unless its payload is empty |
| `Stream.TryStream.ReadNext` | network/src/stream.rs:153-202 | everything consumed is whole frames plus the interrupted one; if the socket does not stall, the answer is the frame that the bytes at hand start with, and if that is incomplete, all of them are kept |
| `Stream.TryStream.WriteFirst` | network/src/stream.rs:204-232 | bytes sent plus bytes queued stay the same; done exactly when the socket takes all it is offered |
| `Stream.TryStream.WriteBytes` | network/src/stream.rs:234-236 | appends the message to the bytes on their way |
| `Stream.TryStream.Flush` | network/src/stream.rs:238-245 | terminates and keeps bytes sent plus bytes queued; if the socket does not stall, nothing is left |
| `Stream.NeverClosed` | network/src/stream.rs:139-147 | a reader of well-formed messages never shuts its socket down |
| `Stream.Converse` | network/src/stream.rs:74-245 | for every interleaving of queueing, sending, arrival and reading, what was delivered is a prefix of the queued messages, and all of them once nothing is left to send, to arrive or to read |
| `Stream.Finish` | network/src/stream.rs:74-245 | whatever happened before, once the rest is queued, sent and arrived, one read per message delivers all of them, if neither socket stalls |
| `Script.WireFormat` | vm/src/opcode.rs:17-40 | the bytes of every instruction |
| `Script.EncodingPrefixFree` | vm/src/decoder.rs:27-93 | no instruction's encoding is the beginning of another's |
| `Script.DecodesOnce` | vm/src/decoder.rs:27-93 | bytes are the encoding of one program at most |
| `Script.DecodesConcat` | vm/src/decoder.rs:27-93 | decoding distributes over concatenation when the left part decodes |
| `Script.DecodeOne` | vm/src/decoder.rs:31-89 | consumes exactly the encoding of the instruction, or names what is wrong with the rest |
| `Script.DecodeBlob` | vm/src/decoder.rs:54-62 | reads exactly the announced number of bytes |
| `Script.Decode` | vm/src/decoder.rs:27-93 | succeeds exactly on encodings and then returns the program; otherwise tells the first error behind a decodable beginning |
| `MultiSig.GreedySound` | vm/src/executor.rs:357-370 | a successful scan yields a matching |
| `MultiSig.GreedyComplete` | vm/src/executor.rs:357-370 | if any strictly increasing matching exists the scan succeeds |
| `MultiSig.CheckMultiSig` | vm/src/executor.rs:357-370 | true exactly when a strictly increasing matching of signatures with keys exists |
| `Machine.OneOfOne` | vm/src/executor.rs:247-287 | one signature against one key is the same with either instruction, errors included |
| `Machine.RunFirst` | vm/src/executor.rs:190-337 | a script runs its first instruction and then the rest from where it leads |
| `Machine.RunBehind` | vm/src/executor.rs:190-212 | jumps are relative: a script runs the same behind any other |
| `Machine.RunConcat` | vm/src/executor.rs:190-212 | a script runs in its second part from where the first leaves off, jumps across the border included |
| `Machine.ReplaceBlock` | vm/src/executor.rs:190-345 | a piece of a script can be replaced by one that does the same wherever it is entered |
| `Machine.ReplaceOne` | vm/src/executor.rs:190-345 | an instruction can be replaced by one with the same effect on every stack |
| `Machine.RunPushes` | vm/src/executor.rs:187-188 | running pushes and then a script is running the script on what they push, if that fits |
| `Executor.Stack.Push` | vm/src/executor.rs:128-136 | fails exactly when memory would be exceeded; the count stays the memory of the items |
| `Executor.Stack.Pop` | vm/src/executor.rs:138-142 | takes the topmost item, and the count stays the memory of the items |
| `Executor.Stack.Remove` | vm/src/executor.rs:152-160 | takes the item at the index, and the count stays the memory of the items |
| `Executor.PopItems` | vm/src/executor.rs:260-276 | pops the items in order, failing at the first missing or ill-sized one |
| `Executor.StepCheckSig` | vm/src/executor.rs:247-257 | the checks happen in the order of their errors, and the verdict is that of the verifier |
| `Executor.StepCheckSigs` | vm/src/executor.rs:258-287 | keys, signatures and tag are read in order, and the verdict is that of the matching |
| `Executor.StepTimelock` | vm/src/executor.rs:308-334 | compares the operand with the quantity that the kind selects |
| `Executor.ReadU64` | vm/src/executor.rs:347-354 | the right-aligned bytes have the value of the item |
| `Executor.StepOne` | vm/src/executor.rs:193-335 | every instruction does what its meaning says and keeps the memory count |
| `Executor.PushesAreCheap` | vm/src/instruction.rs:53-57 | a valid unlock script contains nothing expensive |
| `Executor.RunScript` | vm/src/executor.rs:190-345 | the loop computes the meaning of the script, executing at most as many instructions as it has |
| `Executor.Execute` | vm/src/executor.rs:163-345 | the concatenated script is the lock script on the pushed items and the reversed parameters, or out of memory when they do not fit; a bad unlock script is rejected |
| `ScriptLaws.UnlockInWords` | vm/src/instruction.rs:45-51 | an unlock script is accepted exactly if it only pushes |
| `ScriptLaws.AtEnd` | vm/src/executor.rs:339-344 | a script that has come to its end unlocks exactly with one item, some byte of which is not zero |
| `ScriptLaws.Stops` | vm/src/executor.rs:195-197 | burning, succeeding and failing end a script |
| `ScriptLaws.Jumps` | vm/src/executor.rs:210-223 | a jump skips as many instructions as it says, always, if the topmost item is true, or if it is not |
| `ScriptLaws.Copies` | vm/src/executor.rs:237-243 | copies the item with that many items above it, if it fits |
| `ScriptLaws.Drops` | vm/src/executor.rs:244-246 | drops the item with that many items below it |
| `ScriptLaws.Swaps` | vm/src/executor.rs:231-236 | exchanges the two topmost items |
| `ScriptLaws.Compares` | vm/src/executor.rs:202-206 | replaces two items by one that is true exactly when they are equal |
| `ScriptLaws.Negates` | vm/src/executor.rs:198-201 | replaces an item by a true one exactly when it is not true |
| `ScriptLaws.Hashes` | vm/src/executor.rs:288-307 | every hash instruction replaces the topmost item by its own hash |
| `ScriptLaws.Timelocks` | vm/src/executor.rs:308-334 | a timelock is over once the block number, the age, the time or the age in seconds has reached the number on the stack |
| `ScriptLaws.Underflows` | vm/src/executor.rs:138-160 | what is missing on the stack is an error |
| `ScriptLaws.ChecksOne` | vm/src/executor.rs:247-257 | one signature, a tag and a key: true exactly when the signature verifies for what the tag selects |
| `ScriptLaws.ChecksMany` | vm/src/executor.rs:258-287 | m signatures and n keys: true exactly when the signatures can be given to different keys in order |
| `ScriptLaws.BadCount` | vm/src/executor.rs:267-270 | no signatures, more than six or more than keys are an error |
| `ScriptLaws.ConditionalBurn` | vm/src/executor.rs:163-345 | the repository's burning lock, on any two items and any memory: unlocked exactly if they are equal and fit, burnt if they differ |
| `ScriptLaws.PayToPublicKey` | vm/src/executor.rs:163-345 | paying to a public key is unlocked exactly by a signature that verifies under it |
| `ScriptLaws.PayToMany` | vm/src/executor.rs:163-345 | paying to m of n keys is unlocked exactly by signatures that can be given to different keys in order |
| `BitSets.BitSet.constructor` | core/src/consensus/bit_set.rs:31-33 | a new set is empty |
| `BitSets.BitSet.IsSet` | core/src/consensus/bit_set.rs:59-64 | membership |
| `BitSets.BitSet.Set` | core/src/consensus/bit_set.rs:66-71 | adds exactly the index |
| `BitSets.BitSet.Reset` | core/src/consensus/bit_set.rs:73-78 | removes exactly the index |
| `BitSets.BitSet.Count` | core/src/consensus/bit_set.rs:80-85 | the sum over the bytes is the number of indices |
| `BitSets.BitSet.Sub` | core/src/consensus/bit_set.rs:148-158 | set difference |
| `BitSets.BitSet.NextIndex` | core/src/consensus/bit_set.rs:165-185 | the iterator's step finds the lowest index from a position on |
| `Votes.StepCollector.Insert` | core/src/consensus/vote_collector.rs:85-103 | the first message of a signer counts; k different messages of a signer yield k - 1 reports, each of two different messages |
| `Votes.StepCollector.CountBlock` | core/src/consensus/vote_collector.rs:106-114 | the validators whose first message is for the block |
| `Votes.StepCollector.Count` | core/src/consensus/vote_collector.rs:117-126 | everyone who voted, and the assertion against voting twice never fires |
| `Votes.OneBlockEach` | core/src/consensus/vote_collector.rs:85-126 | a validator counts for one block: that of its first message |
| `Votes.NoTwoMajorities` | core/src/consensus/vote_collector.rs:106-126 | two blocks cannot both have more than half of the votes |
| `Votes.VoteCollector.constructor` | core/src/consensus/vote_collector.rs:129-138 | starts with an empty first round |
| `Votes.VoteCollector.Vote` | core/src/consensus/vote_collector.rs:142-144 | a vote concerns its own round only, and is reported exactly when the signer had sent another message there |
| `Votes.VoteCollector.IsOldOrKnown` | core/src/consensus/vote_collector.rs:147-164 | true exactly for received messages and for rounds before all recorded ones |
| `Votes.VoteCollector.ThrowOutOld` | core/src/consensus/vote_collector.rs:167-172 | forgets exactly the earlier rounds |
| `Votes.VoteCollector.RoundVotes` | core/src/consensus/vote_collector.rs:220-226 | exactly the signers with a message in the round |
| `Votes.VoteCollector.BlockRoundVotes` | core/src/consensus/vote_collector.rs:211-217 | exactly the signers whose first message in the round is for the block |
| `Regroup.ValueDecides` | key/src/platform_address.rs:72-104 | groups of one width and number are told apart by the number they make up |
| `Regroup.AddChunk` | key/src/platform_address.rs:81-101 | each step appends the next bits to the bit string of the groups, in the right place |
| `Regroup.RearrangeBits` | key/src/platform_address.rs:72-104 | overflows exactly when whole bytes are to be moved; otherwise every group fits its width, and the bit string is that of the input, filled up with less than one group of zeros |
| `Regroup.GroupCount` | key/src/platform_address.rs:73-73 | there are ceil(n * from / into) groups |
| `Regroup.BackToBytes` | key/src/platform_address.rs:106-159 | to groups of five and back gives the bytes, plus one zero byte unless the bits divide by five |
| `Regroup.AddressData` | key/src/platform_address.rs:106-159 | version and address survive the regrouping of Display and FromStr |
| `Routing.SameSession` | network/src/routing_table.rs:319-548 | an answer meant for the initiator's key gives both ends the same secret and nonce |
| `Routing.RoutingTable.Touch` | network/src/routing_table.rs:230-234 | an unknown peer becomes a candidate; a known one is unchanged |
| `Routing.RoutingTable.RegisterRemotePublic` | network/src/routing_table.rs:243-260 | binds exactly candidates and registered peers to the key, as preimported; any other peer is unchanged |
| `Routing.RoutingTable.ResetLocalKey` | network/src/routing_table.rs:262-283 | a fresh local key for exactly candidates and registered peers, all else kept; any other peer is unchanged |
| `Routing.RoutingTable.TryEstablish` | network/src/routing_table.rs:285-317 | succeeds exactly for candidates and for registered peers whose exchange works, and then a handshake is on the way with the same keys; otherwise the peer is unchanged |
| `Routing.RoutingTable.SetRecipientEstablish1` | network/src/routing_table.rs:319-391 | replies exactly when the peer is not engaged nor bound to another key and the cryptography works; the reply encrypts the session's nonce under the exchanged secret; stays silent exactly when our own handshake awaits that key; without a reply the peer is unchanged |
| `Routing.RoutingTable.SetRecipientEstablish2` | network/src/routing_table.rs:393-497 | as above, and only for our own current key |
| `Routing.RoutingTable.SetInitiatorEstablish` | network/src/routing_table.rs:499-548 | completes exactly when our handshake awaits that key and the cryptography works, with the nonce decrypted under the exchanged secret; otherwise the peer is unchanged; the debug assertion holds |
| `Routing.RoutingTable.ResetInitiatorEstablish` | network/src/routing_table.rs:550-578 | exactly a handshake on the way goes back to where it started; any other peer is unchanged |
| `Routing.RoutingTable.Ban` | network/src/routing_table.rs:581-594 | the peer is banned; tells whether it had a session |
| `Routing.RoutingTable.Unban` | network/src/routing_table.rs:596-605 | exactly a banned peer becomes a candidate with a fresh key; any other peer is unchanged |
| `Routing.RoutingTable.Remove` | network/src/routing_table.rs:607-614 | forgets a peer unless it is banned |
| `Routing.AppliedKeeps` | network/src/routing_table.rs:230-621 | an event changes nothing at other peers, rebinds a bound peer only by registering, banning or removing it, and changes its local key only by resetting, banning, unbanning or removing it |
| `Routing.AllAppliedKeep` | network/src/routing_table.rs:230-621 | the same over any sequence of events |
| `Routing.PerformAll` | network/src/routing_table.rs:230-621 | every run leaves the table that its events describe one after the other; secrets stay those of the keys, a bound peer stays bound until registered again, banned or removed, and keeps its local key until reset |
| `Routing.Handshake` | network/src/p2p/handler.rs:379-887 | in both kinds of handshake, with anything happening in between but a new key for the peer, the recipient has a session exactly if the initiator could start and the recipient could answer the key it was sent under the name it was given, with the exchanged secret and the nonce; the initiator has one exactly if it still awaits that key, and then the same one |
| `Routing.FirstContact` | network/src/p2p/handler.rs:379-887 | two nodes that do not know each other end with the same session exactly if the cryptography works for their keys, and otherwise neither has one |
| `Routing.KnownContact` | network/src/p2p/handler.rs:379-887 | when both have registered keys beforehand, both end with the same session if the initiator was given the recipient's key, and neither has one if it was given another |

## Modelling decisions

- The chain uses the default engine hooks, under which every heavier header may become the best one.
- Headers that are inserted stand on a stored parent with the next number, have a positive score and a number below
  2^32 (the index key keeps four bytes); blocks repeat no transaction of their branch. The importer takes the header
  check and block verification as functions, of a header and its parent and of the stored chain and a block, that accept
  such headers and blocks only.
- A batch is a list of puts and deletes, the database a map per column, and each call is atomic. One insertion is
  written and committed before the next, as the importer does.
- The two pool queues are owned values inside the pool object, so that they are datatypes with update functions; the
  signer table is a map from signer and seq, whose rows vanish with their last entry.
- A panic is an outcome of a method; what the object is worth afterwards is not described.
- `fetch_account` is a fixed function during a call. Keys, hashes, ids and nonces are numbers of which only equality
  (for ids and seqs also order) is used. Fresh keys and nonces are parameters.
- The socket is nondeterministic: it may block at any time and moves any positive number of bytes; only between two
  frames may it report its end. It stalls when it gives less than it has and was asked for, or takes less than it was
  offered; `TryStream.stalls` counts this.
- Cryptography is a record of functions of which nothing is known, except where `Routing.Sensible` says that key exchange
  is symmetric and decryption inverts encryption.
- Bitwise `or` of numbers without common bits is their sum (`Regroup.Or`, whose precondition says so).

## Left out

- Tendermint: engine hooks and `update_best_as_committed`, whose comment (core/src/blockchain/blockchain.rs:229-230) and
  code (core/src/blockchain/blockchain.rs:276-278) differ about the best proposal block.
- Invoices, the state trie, the miner loop, the verification queues and the network handlers other than the order of
  handshake messages.
- Importer: enacted and retracted blocks are only reported when the verification queue is empty; the queue, the proposal
  hooks and the notifications are not modelled.
- Compression and encoding of stored values, RocksDB, locks and concurrency between calls.
- Overflow of 256-bit scores and 64-bit fees and seqs; totals are unbounded numbers.
- Pool queries (`top_transactions`, counts, status), `set_limit` and `clear`: single reads or resets.
- Socket errors and the end of the stream inside a frame, on which the payload loop would not come to an end; `Stream::clear`.
- Bech32 checksum and characters, network ids: only the regrouping of `PlatformAddress` is modelled.
- Votes: signatures and indices by round, messages by round: plain reads.
