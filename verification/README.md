# A verified model of the Hacash full node

This project models the core of a Hacash full node in Dafny 4.11 and proves how its parts hold
together. `dafny verify dfyconfig.toml` checks all of it.

**The chain.** A node keeps the blocks of the last few heights as a tree of chunks. The root of the tree
is the newest block that cannot be undone; every chunk holds the changes its block made to the state as
a memory overlay over its parent's overlay, and the overlays end at one disk map. Inserting a block runs
it on a fork of its parent's state, hangs it on the tree, and may move the head, switch to another
fork, rewrite the index from heights to blocks, move the root one block forward and flush that block's
overlay to the disk.

* `ChainSpec` is the simple picture: one flat state for each block, one canonical path, one insert at a
  time. It holds the invariant of the chain and what follows from it for all runs.
* `ChainState` and `RollTree` are the fast form: overlays with weak links, chunks with child lists.
* `Engine` is the node's class with its chunks, states, disk and store as objects in the heap. `Abs`
  maps it to the picture of `ChainSpec`, `Valid` ties every overlay to the flat state of its block, and
  every method is proved to do to the picture what `ChainSpec` says.
* `SyncPipeline` lets the stages of a sync run in any interleaving and proves that the outcome is that
  of inserting the blocks one at a time; `Engine.BlockEngine.InsertSync` runs those stages on the heap,
  with the accesses of an execution one by one between the turns of the other stages.
* `Restart` proves that the store and disk left by any run rebuild the canonical path.

**The ledger.** `Ledgers` says what each operation makes of balances, channels and diamonds;
`LedgerState` is the class that writes these records one after the other and is proved to agree with
it. `DiamondIndex` keeps the three indexes of diamonds (by name, by owner's list, by counter) in
agreement, `ChannelLife` follows payment channels, `CoinTotals` counts coins, and `Accounting` puts them
together for actions, transactions, blocks and whole chains. `Outcomes`, `Inscriptions` and
`BlockOutcomes` say of each action, of a transaction and of a block when it is accepted and all that it
then changes, in terms of balances and records alone. `ChannelHistory` lists the actions of a
chain one by one and says how often each channel is opened and paid out, and to whom; `Replay` shows that
no transaction is carried out twice. `OwnedForm` is the packed list of an owner's diamonds with its
compaction in place, and `LossyClose` holds two channels whose interest goes wrong.

**Both together.** `Records` writes a ledger as records under keys, `LedgerPrograms` writes blocks as
programs that read and write these records, and `LedgerChain` proves that every node of the tree reads
the ledger of its chain, so what is proved of ledgers holds on every fork, after every roll and restart.

**Numbers and codes.** `Amount.dfy`, `Interest`, `Supply`, `Difficulty`, `AutoU64.dfy`, `Merkle` and
`Octets` hold the decimal amounts, compound interest, block rewards, the compact difficulty number with
its adjustment, the prefix code for 64-bit numbers, the Merkle root with its coinbase path, and
big-endian numbers. `Base` holds options, results, powers and sums over maps.

What lies outside is a parameter: the block hash is an uninterpreted function with an inverse, the
execution of a block is any program of reads and writes (`ChainSpec.Prog`) for the chain, and the program
of the ledger's block in `LedgerChain`. Which weak links still upgrade is an arbitrary set that contains the
tree's own objects, and anything else may leave that set between any two steps.

## What the code does that one might not expect

* An amount with exponent 0 counts as empty, so integers that are not multiples of ten are lost
  (`Amounts.RoundTrip`).
* The ordering of amounts is not antisymmetric: two forms of one value are each less than the other
  (`Amounts.CmpNotAntisymmetric`). On amounts that arithmetic made, it is the order of the values.
* A balance can be refused although it covers the amount, when both are worth the same in different forms
  (`CoinTotals.HacSubRefused`, `CoinTotals.CoveredRefused`).
* Interest on an amount of unit 8 whose digits cannot be stripped is read back as zero, so the amount is
  lost (`Interest.LossExample`). When a channel is closed, `src/mint/operate/channel.rs:59` compares only
  the sums: if the lost share is worth more than the other side's interest, the close is refused
  (`LossyClose.CloseRefused`); otherwise it is accepted, and the side gets nothing of what it put in
  (`LossyClose.CoinLost`). `ChannelLife.InterestTooLowExact` and `ChannelLife.CloseShortPays` say exactly
  when the one and the other happens.
* The closed form of the supply stops growing at height 6,600,000, although one coin per block goes on
  (`Supply.CumulativeExact`).
* A state that does not descend from the new root can read wrong values after a flush
  (`ChainState.StaleReads` says exactly for which keys, `ChainState.WrongReads` gives two such states); no
  state of the tree can.
* The difficulty number of a target from 1 to 2^23 - 1 cannot be decoded, and that of target zero is the
  easiest of all (`Difficulty.CanonicalFrom`, `Difficulty.NumberOfZero`).

## Model

| member | source | states |
|---|---|---|
| ChainSpec.InsertInv | src/chain/engine/insert.rs:138-191 | Accepting a block keeps the whole invariant: the tree is closed under ancestors down to the root, the head descends from the root, no node is higher than the head, the head is at most `unstable` above the root, the pointer at each height from 1 to the head is the head's ancestor there and none is above, and the store holds every body that a restart needs |
| ChainSpec.RunInv | src/chain/engine/insert.rs:138-191 | So every run from an invariant picture, with any mix of accepted and rejected blocks, ends in one |
| ChainSpec.StartInv | src/chain/engine/engine.rs:43-79 | A node opened on genesis satisfies the invariant |
| ChainSpec.RollStoreInv | src/chain/engine/roll.rs:6-65 | Moving the head, the root and the pointers for an executed node restores the invariant, also when the head goes over to another fork |
| ChainSpec.RepointAt | src/chain/engine/store.rs:31-43 | The rewrite of a fork switch sets exactly the pointers from its lower end up to the new head's parent, each to the head's ancestor, and no others |
| ChainSpec.IndexAppend | src/chain/engine/store.rs:15-20 | Without a fork switch one new pointer is enough |
| ChainSpec.IndexSwitch | src/chain/engine/store.rs:30-43 | With one, rewriting down to where both paths agree gives the index of the new head |
| ChainSpec.PruneTree | src/chain/engine/roll.rs:56-61 | What the new root reaches is again a tree that holds the new head, and the new root is one above the old |
| ChainSpec.InsertFinal | src/chain/engine/store.rs:16-43 | An insert leaves every pointer at or below the root's height as it is, and the root never goes down |
| ChainSpec.RunFinal | src/chain/engine/store.rs:16-43 | Over any run: once the root has reached a height, its pointer is never changed again |
| SyncPipeline.PipelineRefinesSequence | src/chain/engine/insert.rs:29-135 | For every batch and every interleaving of parsing, locating, executing and rolling, a finished pipeline has the tree, head, root, pointers, bodies and status of inserting the blocks one at a time up to the first bad one, and reports success exactly when all were accepted |
| SyncPipeline.StepKeeps | src/chain/engine/insert.rs:38-124 | Every step of every stage keeps the simulation: the pipeline is a sequential node whose executed but unrolled blocks already hang on the tree, and the final outcome does not change |
| SyncPipeline.RollCommutes | src/chain/engine/insert.rs:107-124 | Rolling the first queued node gives the same result whether or not the later blocks are already on the tree |
| SyncPipeline.QueueIsPath | src/chain/engine/insert.rs:84-94 | Above the head, the queued blocks build one on the other, so no roll can prune one of them |
| SyncPipeline.LocatedStays | src/chain/engine/insert.rs:149-156 | The parent that the executor finds while nodes are queued is still in the tree when the queue has been rolled |
| SyncPipeline.LocateRepeated | src/chain/engine/insert.rs:157-162 | A block found to be repeated while nodes are queued is also a repeat for the sequential node |
| SyncPipeline.SomeStageHasWork | src/chain/engine/insert.rs:42-124 | A pipeline that has not finished is never stuck |
| SyncPipeline.StepUsesWork | src/chain/engine/insert.rs:42-124 | Every step uses up work, so every schedule finishes |
| SyncPipeline.QueuedIsReady | src/chain/engine/insert.rs:107-115 | The next node to be rolled hangs on the tree, is neither root nor genesis and is at most one above the head |
| Restart.RestartRecovers | src/chain/engine/init.rs:2-74 | From the store of any invariant picture, loading the base block (genesis when the state is upgraded) and inserting the stored blocks upwards rejects none of them, stops exactly at the old head and gives the canonical path with the old root, head, pointers and bodies |
| Restart.RestartNeverRolls | src/chain/engine/init.rs:50-73 | A plain restart never moves the root and never writes the status |
| Restart.RecoveredInv | src/chain/engine/init.rs:32-74 | What is recovered satisfies the invariant again, so runs and restarts may follow each other for ever |
| Restart.StartBase | src/chain/engine/init.rs:2-17 | The base block loaded by the stored root height is the canonical block of that height |
| Restart.ReplayNext | src/chain/engine/init.rs:50-70 | Each replayed block is accepted and brings the picture one height up |
| ChainState.State.Fork | src/core/state/fork.rs:5-12 | A fork has no changes of its own, shares the disk and reads what its parent reads |
| ChainState.State.SetAt | src/core/state/state.rs:51-53 | Setting a key changes that key of the flat state and no other |
| ChainState.State.DelAt | src/core/state/state.rs:55-57 | A delete mark takes the key out of the flat state although the base still has it |
| ChainState.State.FlushDisk | src/core/state/flush.rs:3-16 | One batch applies all changes of the overlay, deletions included, to the disk map and nothing else |
| ChainState.State.Execute | src/chain/execute/insert.rs:101-131 | A program run on a fork fails or succeeds as it does on one flat map, and leaves the same flat state |
| ChainState.State.ExecuteDuringRolls | src/chain/engine/insert.rs:163-177 | The same when, between any two reads, the other stage moves the root and flushes it, any number of times, and other links upgrade at every read: the program takes the course it takes on its parent's flat state |
| ChainState.ReadUnder | src/core/state/state.rs:28-49 | Flush transparency: when the disk holds the root's flat state, every state linked to the root reads every key rightly, whichever links at or above the root still upgrade |
| ChainState.ReadDuringRoll | src/chain/engine/roll.rs:56-60 | Also between the root move and the flush every state under the new root reads rightly, even if nothing above the new root is left |
| ChainState.StaleReads | src/core/state/state.rs:38-48 | Once the disk holds the new root's state, any state, wherever its live links end, reads a key rightly if and only if it meets the key on those links or the new root agrees with it there; otherwise it reads what the root has |
| ChainState.ReadsTrueExactly | src/core/state/state.rs:38-48 | So all its reads are right if and only if it differs from the new root only in keys that its live links hold |
| ChainState.WrongReads | src/core/state/state.rs:38-48 | Two states that do go wrong: a fork whose sibling has become the root finds the sibling's key, and so does a block on top of that fork, although the fork itself is still held |
| RollTree.ScanFinds | src/chain/engine/roll.rs:71-81 | Within the tree, climbing `step` parents finds the node of the ancestor that many heights below |
| RollTree.OnlyChild | src/chain/engine/roll.rs:31-38 | The ancestor of the head one above the root is in the tree, and a root with one child has just that ancestor |
| RollTree.ChoiceIsAncestor | src/chain/engine/roll.rs:31-50 | Both ways to choose the next root give the head's ancestor one above the old root |
| RollTree.RepeatIsListed | src/chain/engine/insert.rs:157-162 | Looking through the children of the base finds a repeated block anywhere in the tree |
| RollTree.GrowOk | src/chain/engine/insert.rs:173-177 | Appending a chunk keeps parents, child lists and hashes of all chunks in agreement |
| RollTree.MoveOk | src/chain/engine/roll.rs:56-61 | Moving the root leaves exactly the descendants of the new root in the tree, with all links right |
| RollTree.UnderSomeChild | src/chain/roller/find.rs:8-13 | A block under a node is the node itself or under one of its children |
| RollTree.NodeLinked | src/core/state/fork.rs:5-12 | The state of every node leads to the root's state through links that all upgrade |
| Engine.BlockEngine.Open | src/chain/engine/engine.rs:45-74 | A new engine has one node, its root and head, over the opened disk |
| Engine.BlockEngine.SearchChunk | src/chain/roller/find.rs:3-16 | The recursive search finds exactly the node of a hash under the given chunk |
| Engine.BlockEngine.LocateBaseChunk | src/chain/roller/find.rs:20-28 | Trying the head first changes nothing: the node of the hash is found exactly when the tree has it |
| Engine.BlockEngine.Locate | src/chain/engine/insert.rs:144-162 | Unknown parent, repeated block and found base chunk, each exactly in its case |
| Engine.BlockEngine.DoCheckInsert | src/chain/execute/insert.rs:19-27 | A block of the wrong height is refused; another one is accepted exactly when it executes on its parent's flat state, and its new overlay then stands for the block's flat state |
| Engine.BlockEngine.NodeReads | src/core/state/state.rs:28-49 | In every valid engine every node of the tree reads, for every key, the flat state of its block, whichever other states are still alive |
| Engine.BlockEngine.ReadsBeforeFlush | src/chain/engine/roll.rs:56-60 | In every valid engine, after the root has moved and before the flush, each node under the new root reads the flat state of its block, even if only what the new root reaches is left |
| Engine.BlockEngine.ExecState | src/chain/engine/insert.rs:144-180 | The first stage does to the picture what the simple chain does, error by error, and an error changes nothing |
| Engine.BlockEngine.FlushGives | src/chain/engine/roll.rs:57-60 | Flushing the next root's overlay onto a disk that holds the old root's state gives the new root's state |
| Engine.BlockEngine.RollTo | src/chain/engine/roll.rs:56-61 | After root move and flush the engine is valid again, so the disk equals the new root's flat state |
| Engine.BlockEngine.ChooseRoot | src/chain/engine/roll.rs:31-50 | While the head is at most one past the limit neither roll error occurs, and the choice is the head's ancestor one above the root |
| Engine.BlockEngine.DoRoll | src/chain/engine/roll.rs:6-65 | Which of head, root, disk and the three status flags change, and to what |
| Engine.BlockEngine.RewritePtrs | src/chain/engine/store.rs:31-43 | Climbing parents until a link no longer upgrades, even past the root, gives the pointers of a rewrite that stops at the root |
| Engine.BlockEngine.DoStore | src/chain/engine/store.rs:6-45 | Body, pointers and status after storing a node, in each of the cases uncle, append, roll and fork switch |
| Engine.BlockEngine.RollStore | src/chain/engine/insert.rs:182-191 | The second stage succeeds for every executed node and does to the picture what the simple chain does, even if the roll drops everything that the new root does not reach before the node is stored |
| Engine.BlockEngine.InsertUnsafe | src/chain/engine/insert.rs:138-141 | One insert on overlays, chunks, disk and store is one insert of the simple chain: same acceptance, same error, same picture; a rejected block changes nothing. Links out of the tree may die in the roll and after it |
| Engine.BlockEngine.InsertSync | src/chain/engine/insert.rs:29-135 | A whole sync on the heap, its stages taking turns in any order, a turn of the execution being a single state access, and with any links out of the tree dying before any turn, ends in the picture of sequential inserts and reports success exactly when all blocks were accepted |
| Engine.BlockEngine.AccessOne | src/chain/execute/insert.rs:101-131 | An access of a running execution, after other stages have moved the head and the root, goes on as on the parent's flat state and disturbs no node |
| Engine.BlockEngine.Rebuild | src/chain/engine/init.rs:32-74 | The replay loop ends in the recovered picture and never meets the panic on a rejected block, although every roll of a replay may drop the old root |
| Engine.LoadBaseBlock | src/chain/engine/init.rs:2-17 | In the store that any run leaves, the panic does not occur, and the block that is loaded is the old root: the head's ancestor at the stored root height |
| Engine.Reopen | src/chain/engine/engine.rs:45-79 | Opening on the disk and store of a closed node, upgraded or not, gives a valid engine with the recovered picture, so every canonical block has its flat state back |
| DiamondIndex.NewLedgerOk | src/mint/operate/diamond.rs:100-124 | Before any diamond exists the three indexes agree |
| DiamondIndex.MintKeeps | src/mint/action/diamond_mint.rs:138-240 | A mint keeps the agreement: each address's list holds, once each, exactly the diamonds whose record names it, its length is the balance counter, and numbers 1 up to the latest map one to one to names |
| DiamondIndex.MoveEachResult | src/mint/action/diamond.rs:107-110 | The loop over the names succeeds exactly when the names are distinct, all normal and owned by a sender who is not the receiver, and then changes just their owners |
| DiamondIndex.OwnedMoveSucceeds | src/mint/operate/diamond.rs:106-124 | After that loop the move between the packed lists cannot fail, and moves just those names |
| DiamondIndex.CountersFollow | src/protocol/operate/diamond.rs:44-60 | Nor can the counters fail, and they follow the lists |
| DiamondIndex.TransferExact | src/mint/action/diamond.rs:103-116 | A transfer succeeds if and only if the list is well formed and the loop over the names succeeds; no later step can fail, the three indexes agree afterwards, and nothing but owners, lists and counters changes |
| DiamondIndex.EngraveEachOwners | src/mint/operate/diamond.rs:37-94 | Inscribing or cleaning any names changes no owner, no status and no other part of the ledger |
| OwnedForm.WithoutExact | src/mint/component/diamond.rs:91-125 | A drop succeeds if and only if the names are distinct and all present; what remains is, as a multiset, the old list less the names |
| OwnedForm.ScanResult | src/mint/component/diamond.rs:98-116 | The scan counts the names it found, and what it kept behind them is what it was given less those, although records are moved over each other |
| OwnedForm.SetSize | src/core/field/diamond.rs:107-109 | The set of the names has as many members as the list exactly when the names are distinct |
| OwnedForm.FormRecords | src/core/field/diamond.rs:103-105 | Splitting the packed form gives the names back |
| OwnedForm.DiamondOwnedForm.Drop | src/mint/component/diamond.rs:91-125 | The compaction in place over the byte array does what the scan says, and returns the byte length that is left |
| OwnedForm.DiamondOwnedForm.Sweep | src/mint/component/diamond.rs:98-116 | The loop that copies records over each other, with its early end, is the scan |
| OwnedForm.DiamondOwnedForm.CopyWithin | src/mint/component/diamond.rs:108-109 | Copying six bytes replaces exactly one record |
| OwnedForm.DiamondOwnedForm.Push | src/mint/component/diamond.rs:85-88 | Pushing appends the names in order |
| CoinTotals.HacAddEffect | src/protocol/operate/hacash.rs:5-34 | A successful add raises one balance and the total by the exact amount, and no other balance |
| CoinTotals.HacSubEffect | src/protocol/operate/hacash.rs:37-45 | A successful subtraction was covered, lowers one balance and the total by the exact amount, changes no other balance and leaves nobody in debt |
| CoinTotals.HacSubRefused | src/protocol/operate/hacash.rs:37-42 | A balance is found too low if and only if the amount is positive and the balance is worth less, or the same in another form |
| CoinTotals.CoveredRefused | src/protocol/operate/hacash.rs:37-42 | A balance of one hundred that does not cover one hundred |
| CoinTotals.HacMoveEffect | src/protocol/operate/hacash.rs:52-75 | A transfer conserves coins; to oneself it changes nothing |
| CoinTotals.SelfTransferExact | src/protocol/operate/hacash.rs:52-89 | A transfer to oneself is accepted if and only if the height is below 200,000, or the amount is positive and the balance is worth more or is that very amount; it changes nothing |
| CoinTotals.CounterKeepsCoins | src/protocol/operate/diamond.rs:6-16 | Writing a diamond counter changes no coins |
| ChannelLife.OpenEffect | src/mint/action/channel.rs:26-110 | Opening conserves coins, moving both amounts from the balances into the channel, keeps the counter equal to the number of open channels, and gives the first or next larger reuse version |
| ChannelLife.CloseEffect | src/mint/operate/channel.rs:20-103 | However the locked coins are divided, closing changes the total by exactly the interest, which is not negative, keeps the counter right and ends the opening |
| ChannelLife.CloseReturns | src/mint/operate/channel.rs:52-71 | Each side gets its part plus the interest on that part, and nobody else anything |
| ChannelLife.CloseShortPays | src/mint/operate/channel.rs:52-71 | An accepted close of a positive total pays a side less than its part if and only if a round is due and that part is positive, of unit 8, and its grown number does not end in a zero; the side then gets nothing |
| ChannelLife.CountNeverUnderflows | src/mint/operate/channel.rs:45-48 | For every distribution, the counter of open channels is never taken below zero |
| ChannelLife.InterestTooLowExact | src/mint/operate/channel.rs:58-61 | A close is refused for too low interest if and only if one part is lost in that way and is worth more than the interest on the other |
| LossyClose.CloseRefused | src/mint/operate/channel.rs:58-61 | A channel that cannot be closed: opened at any height from 1 to 200,000 with one coin of unit 8 on one side alone, the opening is accepted, and its close 5,000 blocks later is refused |
| LossyClose.CoinLost | src/mint/operate/channel.rs:58-70 | A channel that is closed while one side loses all it put in: the same coin next to a larger share, after an accepted opening at any such height |
| ChannelHistory.PaidOnce | src/mint/operate/channel.rs:27-30 | In any chain, an opening of a channel is paid out exactly once if it is over and otherwise never, and the reuse version of an id counts its openings |
| ChannelHistory.OpenedThenPaid | src/mint/operate/channel.rs:3-13 | Whatever a chain closes was opened by an earlier action of the same chain, which took these shares from these two sides; the channel has not changed since, and each side is paid its own share with its interest |
| ChannelHistory.ChainLater | src/mint/action/channel.rs:68-81 | As a chain grows no channel disappears or changes its two addresses, its reuse version never falls, and within one opening the only change is the close |
| ChannelHistory.ChainLeads | src/chain/execute/insert.rs:111-121 | The actions of a chain, in order, lead from no channels to its channels, and nothing else touches a channel |
| ChannelHistory.EventChannels | src/protocol/action/macro.rs:114-147 | An accepted action opens one channel that is not open, closes one that is, or leaves all channels as they are |
| ChannelHistory.CountsExact | src/mint/operate/channel.rs:27-30 | The count of closes and of openings for any run of accepted actions from no channels |
| ChannelHistory.Provenance | src/mint/action/channel.rs:85-100 | Every channel holds what one of the actions before it opened |
| ChannelLife.ReuseGrows | src/mint/action/channel.rs:68-81 | A reopened id keeps its two addresses and gets a strictly larger reuse version |
| Accounting.ActWent | src/protocol/action/macro.rs:114-147 | Every accepted action keeps indexes, channels and non-negative balances, and changes all coins by exactly its interest less its burnt inscription cost |
| Accounting.FeeGotValue | src/protocol/transaction/macro.rs:161-177 | Of a fee under burning the miner's part is exactly one tenth, unless the unit leaves no smaller one; without burning it is the whole fee |
| Accounting.TxsWent | src/chain/execute/insert.rs:111-121 | After any number of transactions what is missing from the total is the fees collected for the miner plus what was burned |
| Accounting.InitializeWent | src/mint/checker/initialize.rs:2-20 | At height 1 the three fixed balances add exactly the allocation |
| Accounting.BlockWent | src/chain/execute/insert.rs:101-131 | An accepted block keeps the ledger sound and changes all coins, locked ones included, by exactly reward plus interest, less the burned parts of fees and the inscription costs, plus the allocation at height 1 |
| Accounting.ChainSound | src/chain/execute/insert.rs:101-131 | Every ledger reached from genesis by any chain of accepted blocks has agreeing diamond indexes, right channel counts and no negative balance |
| Accounting.ChainTotal | src/chain/execute/insert.rs:101-131 | Its total is the sum over its blocks of the fixed part, which depends on the height only, and of interest less burns |
| Accounting.ChainClosedForm | src/mint/coinbase/reward.rs:34-48 | Below the end of the reward table the total is the allocation, plus what summing the table by steps gives, in coins, plus interest less burns |
| Accounting.MainNetConstants | src/mint/checker/initialize.rs:7-17 | The main network begins with twelve, one and one times 10^244 for its three addresses in this order |
| Replay.NoReplay | src/protocol/transaction/macro.rs:243-262 | In any chain a transaction occurs exactly once if its mark stands and otherwise never, so none is carried out twice |
| Replay.TxsMark | src/chain/execute/insert.rs:113-121 | The transactions of a block are marked for the first time, each once, also among themselves |
| LedgerState.State.TransferHac | src/protocol/operate/hacash.rs:52-75 | The two balance writes conserve coins: the sender had the amount and loses it, the receiver gains it, and nobody else's coins change |
| LedgerState.State.MoveOwned | src/mint/operate/diamond.rs:106-124 | Dropping from the packed bytes, deleting an empty list and pushing are the list move of the ledger |
| LedgerState.State.MoveDiamonds | src/mint/action/diamond.rs:103-116 | The loop, the list move and the counters are the transfer of the ledger, with the error of the first step that fails |
| LedgerState.State.MintDiamond | src/mint/action/diamond_mint.rs:108-244 | The writes of an accepted mint give the next number to a new name and the name to its address, leave the three indexes in agreement, and change no coins and no channels |
| LedgerState.State.InscribeAll | src/mint/action/diamond_insc.rs:24-152 | Each listed diamond, listed once, has the content at the end of its list and this height, or after a clear no inscription and height 0; no other diamond changes, and the main address alone pays the stated cost, which is at least the sum of what each diamond costs |
| LedgerState.State.OpenPayChannel | src/mint/action/channel.rs:26-110 | The writes of an accepted opening take from each side just what that side puts in, lock exactly the two amounts, conserve coins, leave nobody in debt and the counter right, and keep the sides of a reused id |
| LedgerState.State.CloseWithDistribution | src/mint/operate/channel.rs:20-103 | The writes of an accepted close, for any distribution, pay each side its part with interest, change the total by that interest alone, end the opening and keep the counter right |
| LedgerState.State.ClosePayChannel | src/mint/action/channel.rs:131-148 | Only with the signatures of both sides, and then as a close at the shares that were locked |
| LedgerState.State.PayTxFee | src/protocol/transaction/macro.rs:237-282 | A marked transaction is refused; otherwise exactly the mark is set and the fee taken, from the main address alone, which had it |
| LedgerState.State.ExecuteAt | src/protocol/action/macro.rs:114-147 | An action that must be unique runs exactly when the transaction has no other of its kind |
| LedgerState.State.ExecuteTxs | src/chain/execute/insert.rs:111-121 | The loop over the transactions: actions, then the miner's fee, then the payment, up to the first failure |
| LedgerState.DoCheckInsert | src/chain/execute/insert.rs:94-131 | The block runs on a fork, so the base state stays as it is, accepted or not. Of an accepted block the miner, and nobody else, gets the reward of the height before the transactions, and the sum of what each transaction leaves after them |
| Amounts.RoundTrip | src/core/field/amount.rs:343-390 | An integer comes back from its amount if and only if it is a multiple of ten; any other comes back as zero |
| Amounts.SumIsExact | src/core/field/amount.rs:511-523 | Sums and differences of any two amounts are exact when they succeed, and are in normal form |
| Amounts.CanonicalIsNormal | src/core/field/amount.rs:343-376 | A normal form is what its own value is written as |
| Amounts.CanonicalEquality | src/core/field/amount.rs:554-561 | On normal forms equality of fields is equality of values |
| Amounts.NormalFormExists | src/core/field/amount.rs:343-362 | An amount has a normal form if and only if its value ends in at most 255 zeros |
| Amounts.NormalFormMissing | src/core/field/amount.rs:350-352 | An amount of the largest unit that has none |
| Amounts.ComparesByValue | src/core/field/amount.rs:567-613 | The four comparisons go by value, whatever the form |
| Amounts.CmpByValue | src/core/field/amount.rs:53-63 | The ordering goes by value if and only if the two amounts are not two forms of one value |
| Amounts.CmpOnCanonical | src/core/field/amount.rs:53-63 | On amounts in normal form, such as arithmetic gives, the ordering is that of the values |
| Amounts.CmpNotAntisymmetric | src/core/field/amount.rs:53-63 | Two amounts of equal value, each less than the other |
| Amounts.FromUnitsValue | src/core/field/amount.rs:175-205 | Moving zeros of a number into the unit keeps its value and gives a normal form |
| Interest.CompoundBounds | src/mint/coinbase/channel.rs:15-22 | After n floored rounds the result is at most the exact compound value and falls short of it by at most the stated cost of rounding |
| Interest.NeverLess | src/mint/coinbase/channel.rs:19-22 | Floored rounds never shrink the number |
| Interest.StripKeeps | src/mint/coinbase/channel.rs:23-30 | Moving zeros into the unit keeps the value; nothing moves exactly when no zero ends the number or the unit is 255 |
| Interest.InterestValue | src/mint/coinbase/channel.rs:5-37 | A successful calculation adds exactly the gain of the base to the user's amount |
| Interest.GainSign | src/mint/coinbase/channel.rs:9-33 | Interest is negative if and only if the base is a positive amount of unit 8 whose grown number cannot be stripped |
| Interest.LossExample | src/mint/coinbase/channel.rs:23-32 | One coin of unit 8 is lost after two rounds at the lower rate |
| Interest.InterestAdds | src/mint/coinbase/channel.rs:40-80 | Both shares together grow by exactly the total gain, and before the first round is due neither changes |
| Interest.BothGrow | src/mint/coinbase/channel.rs:40-59 | For every attribution: each side receives its share and the gain of its own share, or one side receives the gain of the sum and the other just its share |
| Interest.NoLoss | src/mint/operate/channel.rs:54-61 | Without an amount of unit 8 among the shares and their sum, a close never pays less than was locked |
| Interest.CalculateInterest | src/mint/coinbase/channel.rs:5-37 | The two loops compute the interest that the lemmas above speak of |
| Interest.CalculateInterestOfHeight | src/mint/coinbase/channel.rs:61-80 | Refused exactly below the opening height. For a channel opened above height 200,000 one round of ten in ten thousand is due every 10,000 blocks, for an older one a round of one every 2,500 blocks; before the first round both shares are returned as they are, and from then on each side has its share with the gain that the attribution gives it |
| Interest.CalculateBoth | src/mint/coinbase/channel.rs:40-59 | The four cases of the attribution pay each side its share and just the gain that is its own |
| Supply.CumulativeExact | src/mint/coinbase/reward.rs:34-48 | Summing the table by steps gives the sum of the rewards of blocks 1 to h if and only if h is below the end of the table; from there on it lacks one coin for every block |
| Supply.TableIsSum | src/mint/coinbase/reward.rs:38-46 | From any step on, whole steps times their reward and the rest of the blocks times theirs is the sum over the blocks |
| Supply.RewardsEnd | src/mint/coinbase/reward.rs:2-12 | The table has 66 steps and ends at height 6,600,000 |
| Supply.CumulativeBlockReward | src/mint/coinbase/reward.rs:34-48 | The loop over the table, with its early end, computes that sum by steps |
| Difficulty.DecodeEncode | src/mint/difficulty/util.rs:47-59 | Decoding the number of a target from 2^23 up to 2^256 gives the target rounded down to its first 24 digits |
| Difficulty.EncodeDecode | src/mint/difficulty/util.rs:32-59 | Encoding the target of a canonical number gives the number back |
| Difficulty.NumberOrder | src/mint/difficulty/util.rs:47-59 | Encoding is monotone on positive targets |
| Difficulty.NumberOfZero | src/mint/difficulty/util.rs:47-59 | The number of target zero is the largest of all |
| Difficulty.NumberIsFloor | src/mint/difficulty/util.rs:32-59 | Decoding and encoding are adjoint: a canonical number's target is at most x if and only if the number is at most that of x |
| Difficulty.CanonicalFrom | src/mint/difficulty/util.rs:47-59 | The number of a target is canonical if and only if the target is zero or at least 2^23 |
| Difficulty.U32ToHash | src/mint/difficulty/util.rs:32-45 | The bit packing gives the 32 bytes of the number's target |
| Difficulty.HashToU32 | src/mint/difficulty/util.rs:47-59 | The bit packing gives the number of the hash read as an integer, for every hash, also zero |
| Difficulty.LeftZero | src/mint/difficulty/util.rs:80-89 | The position of the first one, everything before it being zero |
| Difficulty.HashBigThan | src/mint/difficulty/util.rs:63-78 | The byte-wise comparison is that of the integers, over the common length |
| Difficulty.TargetToHashIs | src/mint/difficulty/util.rs:17-26 | A target is written in full when it fits and otherwise as the largest hash |
| Difficulty.AdjustBounds | src/mint/difficulty/target.rs:27-36 | One adjustment changes a target at most fourfold, up to rounding |
| Difficulty.AdjustOrder | src/mint/difficulty/target.rs:27-36 | It is monotone in the measured span |
| Difficulty.SlowerIsEasier | src/mint/difficulty/target.rs:17-39 | Of two cycles from the same number, the slower one's target and number are not smaller |
| Difficulty.OnTime | src/mint/difficulty/target.rs:17-39 | A cycle that took exactly its time leaves a canonical number and its target as they are |
| Difficulty.RunStaysCanonical | src/mint/difficulty/target.rs:7-40 | Over any run of heights, numbers stay canonical while targets stay at or above 2^23 |
| Difficulty.RequiredTarget | src/mint/difficulty/target.rs:7-40 | Number, hash and target by height: the lowest difficulty for two cycles, the previous number within a cycle, and at its end the previous target times the time taken over the time meant, at a time below a quarter times that quarter over the time meant, and beyond four times it four times the target |
| AutoU64Code.RoundTrip | src/base/field/autou64.rs:141-201 | Every 64-bit number is read back from its code in front of any suffix, and its length is one more than the limits it reaches |
| AutoU64Code.RoundTripAt | src/base/field/autou64.rs:143-159 | Also behind any prefix |
| AutoU64Code.PrefixFree | src/base/field/autou64.rs:166-186 | No code is a proper prefix of another |
| AutoU64Code.EncodeIsShortest | src/base/field/autou64.rs:143-186 | Whatever bytes the parser accepts, the serializer's code of that number is no longer, and is those bytes exactly when they are no longer either |
| AutoU64Code.OnesFrom | src/base/field/autou64.rs:24-35 | The chain of bit tests finds the number of leading ones and the bits after the first zero |
| AutoU64Code.AutoU64.Parse | src/base/field/autou64.rs:143-159 | Moves past the code and sets the value, or reports how many bytes were missing and leaves the value |
| AutoU64Code.AutoU64.Serialize | src/base/field/autou64.rs:166-186 | Marking the first byte in place gives the code |
| AutoU64Code.AutoU64.Size | src/base/field/autou64.rs:188-199 | The size is the length of the code |
| Merkle.CoinbaseUpdate | src/protocol/block/util.rs:49-89 | For every non-empty list and every new coinbase, climbing the kept path gives the full root of the changed list, whatever the lengths of the levels |
| Merkle.PathLength | src/protocol/block/util.rs:63-76 | The path is as long as the binary logarithm of the list's length, rounded up |
| Merkle.MergeAt | src/protocol/block/util.rs:5-24 | Each entry of the next level is the hash of two neighbours in order, an odd last one counting twice |
| Merkle.MrklMerge | src/protocol/block/util.rs:5-24 | The loop gives the next level, every entry the hash of the two below it |
| Merkle.CalculateMrklroot | src/protocol/block/util.rs:29-43 | The loop gives the top of a row of such levels |
| Merkle.CalculateMrklCoinbaseModify | src/protocol/block/util.rs:49-77 | The kept path leads any coinbase to the root of the list with that coinbase |
| Merkle.CalculateMrklCoinbaseUpdate | src/protocol/block/util.rs:83-89 | The loop starts from the coinbase and takes in each entry of the path from the right, by one hash each |
| Records.WriteHolds | src/core/state/state.rs:51-53 | Writing one record under its key changes exactly that record of the ledger that the view holds |
| LedgerPrograms.MoveHacRuns | src/protocol/operate/hacash.rs:52-75 | The reads and writes of a transfer end exactly when the ledger accepts it, in a view of the ledger's result |
| LedgerPrograms.MoveDiamondsRuns | src/mint/action/diamond.rs:103-116 | So do those of a transfer of diamonds |
| LedgerPrograms.MintRuns | src/mint/action/diamond_mint.rs:108-244 | So do those of a mint |
| LedgerPrograms.InscribeRuns | src/mint/action/diamond_insc.rs:24-152 | So do those of inscriptions, with their cost; `LedgerChain.InscriptionInView` says what the records then hold |
| LedgerPrograms.OpenRuns | src/mint/action/channel.rs:26-110 | So do those of opening a channel |
| LedgerPrograms.CloseRuns | src/mint/action/channel.rs:131-148 | So do those of closing one, with the interest |
| LedgerPrograms.PayFeeRuns | src/protocol/transaction/macro.rs:237-282 | So do those of marking a transaction and paying its fee |
| LedgerPrograms.BlockRuns | src/chain/execute/insert.rs:101-131 | The program of a whole block is stuck when the ledger rejects the block, and otherwise ends in a view that holds the ledger after the block; `LedgerChain.BlockPays` says who is paid in it |
| LedgerChain.StateIsLedger | src/chain/execute/insert.rs:101-131 | The flat state of every good block holds the ledger that its chain of blocks gives from genesis |
| LedgerChain.AcceptedExactly | src/chain/execute/insert.rs:101-131 | On a good parent a block is good if and only if its header passes and the ledger of the parent's chain accepts its transactions |
| LedgerChain.GoodIsSound | src/chain/execute/insert.rs:101-131 | The ledger at every good block is sound and its coins are those accounted for on its chain |
| LedgerChain.AncestorChannels | src/mint/action/channel.rs:26-110 | Between a block and any ancestor no channel disappears or changes its sides, and no reuse number falls |
| LedgerChain.NodeShowsLedger | src/core/state/state.rs:28-49 | In every valid engine every node, on every fork, reads record by record the ledger of its chain through overlays and disk, and that ledger is sound with all its coins accounted for |
| LedgerChain.BlockPays | src/chain/execute/insert.rs:101-126 | Whatever view a block's program ends in holds a ledger in which the miner, and nobody else, has got reward and fees |
| LedgerChain.InscriptionInView | src/mint/operate/diamond.rs:37-94 | The program of inscriptions is stuck, or leaves in the record of each listed diamond the new inscription, or none after a clear, and all other diamond records as they were |
| Outcomes.TransferExactly | src/protocol/operate/hacash.rs:4-75 | A transfer is accepted exactly when the balance is worth more than the amount, or is that very amount, and both new balances fit into ten bytes of digits |
| Outcomes.TransferDone | src/protocol/operate/hacash.rs:52-75 | The amount goes from the one to the other and nothing else changes |
| Outcomes.OpenExactly | src/mint/action/channel.rs:26-110 | An opening is accepted exactly when its id, sides and amounts are in order, both sides have what they put in, and the id is new or was closed by agreement between the same sides |
| Outcomes.OpenDone | src/mint/action/channel.rs:60-110 | Each side has paid what it put in, and the record of the channel is the new opening with the next reuse number |
| Outcomes.CloseExactly | src/mint/operate/channel.rs:20-103 | A close is accepted exactly when the channel is open, both sides are private keys and have signed, and what is due at this height is no less than what is locked and fits both balances |
| Outcomes.CloseDone | src/mint/operate/channel.rs:20-103 | Of an accepted close both sides had signed an open channel; each gets its share with what is due on it, and only the channel's status and its final left share change |
| Outcomes.MintExactly | src/mint/action/diamond_mint.rs:108-190 | A mint is accepted exactly with the next number, after the last one's block, with a mined and new name, for a private key, and in a block of a height divisible by five or in none yet |
| Outcomes.MintDone | src/mint/action/diamond_mint.rs:150-244 | All records that a mint writes, and what they hold |
| Outcomes.DiamondsExactly | src/mint/action/diamond.rs:103-116 | A transfer of diamonds is accepted exactly when it names up to 200 of the sender's diamonds, each once |
| Outcomes.DiamondsDone | src/mint/action/diamond.rs:103-116 | Their owner, the two lists and the two counters change, and nothing else |
| Outcomes.NameLetters | src/core/field/diamond.rs:4-34 | A name is six letters out of sixteen |
| Outcomes.LimitExactly | src/protocol/action/subchain.rs:8-37 | A height limit passes exactly between its two heights |
| Outcomes.ChainExactly | src/protocol/action/subchain.rs:45-63 | A chain id passes exactly on its own chain |
| Inscriptions.InscriptionDone | src/mint/operate/diamond.rs:37-71 | An accepted inscription lists each diamond once; each was the main address's, rested for a thousand blocks and had fewer than 200 inscriptions, and now has its old list plus the content and this height; the stated cost covers the list and is paid by the main address alone |
| Inscriptions.ClearDone | src/mint/operate/diamond.rs:76-94 | After an accepted clear each listed diamond has no inscriptions and height 0, and all others are as before |
| Inscriptions.CostOfOne | src/mint/operate/diamond.rs:37-94 | A diamond with ten inscriptions costs its average bid in unit 247, one with fewer nothing, and cleaning the bid in unit 248 |
| Inscriptions.CostsAdd | src/mint/action/diamond_insc.rs:57-63 | The costs of several diamonds add up |
| Inscriptions.InscriptionRefused | src/mint/operate/diamond.rs:37-71 | An inscription that meets all conditions is refused only for an amount that does not fit or a balance that does not cover it |
| Inscriptions.ClearRefused | src/mint/operate/diamond.rs:76-94 | So is a clear |
| BlockOutcomes.ActionsExactly | src/protocol/action/macro.rs:114-147 | The actions of a transaction are accepted exactly when there are 1 to 65,535, none of a kind that may stand once stands twice, and each is accepted on what the one before has left |
| BlockOutcomes.FeeExactly | src/protocol/transaction/macro.rs:237-282 | A fee is accepted exactly when the transaction is not marked, its form is in order and its main address has the fee |
| BlockOutcomes.FeeDone | src/protocol/transaction/macro.rs:262-282 | The mark is set, and the main address alone pays |
| BlockOutcomes.FeeGotIsLeft | src/protocol/transaction/macro.rs:160-177 | A tenth of the fee is left for the miner when an action is a mint above number 30,000, an inscription or a clear, and the fee's unit is above 1; otherwise all of it |
| BlockOutcomes.TransactionsExactly | src/chain/execute/insert.rs:111-121 | The transactions are accepted exactly when a row of ledgers leads through them one by one, and the fees are the sum of what each leaves |
| BlockOutcomes.BlockDone | src/chain/execute/insert.rs:101-131 | An accepted block: the three first balances at height 1, the reward of the height to the miner alone, the transactions in order, and what they leave to the miner alone |
| BlockOutcomes.BlockExactly | src/chain/execute/insert.rs:101-131 | A block is accepted exactly when it states the reward of its height, its transactions run one after the other, and the miner's balance can take reward and fees |
| Interest.InterestRuns | src/mint/coinbase/channel.rs:5-37 | The interest in figures: the digits eight places below the unit, multiplied by the rate and rounded down once a round, take the place of the base; in unit 8 they count for nothing unless they end in zero |
| Interest.GainIsPositive | src/mint/coinbase/channel.rs:5-37 | From the first round on a share gains exactly when its unit is 8 or more and it is not lost |
| Interest.ShareHasGrown | src/mint/coinbase/channel.rs:61-80 | After 10,000 blocks, or 2,500 for an old channel, a share in a unit above 8 has grown, by its compound interest within the bounds of rounding |
| Supply.RewardByHeight | src/mint/coinbase/reward.rs:2-29 | The reward of the main network at every height |
| Supply.RewardsTotal | src/mint/coinbase/reward.rs:2-16 | The table gives out 22 million coins in all |
| Difficulty.NextIsRuled | src/mint/difficulty/target.rs:7-40 | The rule in figures: which number and target every height has, and the three cases of an adjustment |
| Difficulty.TargetInFigures | src/mint/difficulty/util.rs:32-45 | A number's lower three bytes count two to the power of its first byte less 23 |
| Difficulty.NumberInFigures | src/mint/difficulty/util.rs:47-59 | The number of a target in figures, for every length |
| AutoU64Code.CodeInFigures | src/base/field/autou64.rs:166-186 | A number of seven bits for each of its bytes is the number itself in big-endian form with that many leading ones on top |
| AutoU64Code.LongCodeInFigures | src/base/field/autou64.rs:166-186 | One of more than 56 bits is a full byte and the number in eight |
| Merkle.RootLevels | src/protocol/block/util.rs:29-43 | The root is the top of the levels that pairing gives |
| Merkle.RootCommits | src/protocol/block/util.rs:4-43 | When the hash meets no collision on 64 bytes, two lists of one length have the same root exactly when they are the same |
| Merkle.OddEnd | src/protocol/block/util.rs:11-14 | The length has to be known: an odd last entry counts as its own double |

## Left out

- Inserters that run at the same time: `src/chain/engine/insert.rs:11` and `:17` drop their lock at once, so no mutual exclusion is claimed; calls are taken one after the other, and only the stages of one sync interleave.
- Engine.BlockEngine.InsertSync: takes parsing, locating, hanging a finished block and a roll with its flush as whole turns, and execution one access at a time between them. That reads may also fall between the root move and the flush is `ChainState.State.ExecuteDuringRolls` and `Engine.BlockEngine.ReadsBeforeFlush`. The sizes of the channels between the threads only take schedules away.
- A crash between the flush of the state and the write of the status: an insert is one step for `Restart`.
- Fast sync, which skips the checks, and the exceptions for old heights in the consensus check (below 288 * 200) and for one historical transaction: the model always checks.
- Replay.NoReplay: holds without the one transaction that `src/protocol/transaction/macro.rs:254` lets pass a second time by its hash.
- The checks before execution in `src/chain/execute/insert.rs:31-95` (times, sizes, counts, signatures, Merkle root, difficulty): in `ChainSpec` they are part of whether a block executes; in `Ledgers` only the reward is checked, and the set of addresses that signed is part of the transaction.
- The clock, the console, the recent-block statistics, the block scanner's notice and the weak link `roller.state`, which is only read by callers of the node.
- ChainSpec.RunInv: the accesses of a block are bounded by a number that is the same for all blocks; the code has no such bound. `LedgerChain.AcceptedExactly` requires that it suffices for the block at hand.
- LedgerChain.StateIsLedger: how keys and records are written as bytes is any encoding that can be read back, and the checks on a block's header are any condition on it and its parent.
- Reading a write to the block store during execution (the cycle block of the difficulty, the record of a mined diamond): they are parameters of the rule and of the world.
- The pointer of height 0, which a fork switch may write and nothing reads: it is shown to be genesis and left out of the picture.
- Satoshi balances and bills, arbitration and challenge periods of channels, lending of diamonds, contracts and virtual machine actions.
- Counters kept as floating point or for display only (interest, deposits, burns in zhu, engraved diamonds), the mempool, the network, the RPC server and mining.
- The genes of a diamond, the mining of diamonds and its difficulty, which characters are readable, and the average bid: parameters of the world.
- Address lists of a transaction and pointers into them (actions carry resolved addresses), and the requirement of signatures by the source of a transfer, which is checked before execution.
- A second coinbase transaction in a block: only the first transaction of a block is one.
- Fixed widths of diamond counters, reuse versions, heights and times: they are unbounded here, so the wrap-around of `u32` counters is not modelled; amounts, AutoU64 and difficulty numbers have their widths.
- Difficulty.U32ToHash: does not cover numbers with a first byte below 23, for which the bit list would be longer than 256 and the code panics.
- Difficulty.RequiredTarget: takes the time of the cycle's first block from outside and requires that it is not after the previous block's, which `src/chain/execute/insert.rs:45` ensures for every pair of blocks.
- Inscriptions.InscriptionRefused: leaves open whether the costs, the balance and their difference can be written as amounts; so does `Inscriptions.ClearRefused`.
- Interest.NoLoss: goes one way; the two-way conditions are `Interest.GainSign` for one amount and `ChannelLife.InterestTooLowExact` and `ChannelLife.CloseShortPays` for a close.
- Amount.compress, parsing and printing of amounts, and parsing of address pointers.
- Engine.BlockEngine.SearchChunk: is a function, as the search changes nothing; the locks around child lists are not modelled.
