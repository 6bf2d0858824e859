# A verified model of the Electra node core

This project models the cores of the Electra proof-of-stake node in Dafny and proves what they
promise over every input and every run.

* **Chain state.** `Transactions`, `Marks`, `Supply`, `History`, `Inputs`, `Blocks`, `Mint`, `BlockTree`,
  `ChainFold`, `Reorg`, `ChainSupply`, `Trust`, `Chain`, `StuckRun`: fetching, connecting and disconnecting transactions and
  blocks, the block tree, reorganisation, the best chain. Every operation is specified from every state
  the node can be in, with the exact condition for its success. In a settled state the transaction index
  is the plain fold of the main chain, `nMoneySupply` is the total of the unspent outputs, and `pnext` is
  set exactly on the main chain below the tip; it is proved which steps keep the node settled. The node follows the chain
  with the most trust, and what a chain has unspent is bounded by its rewards.
* **Synchronized checkpoints.** `Checkpoints`, on top of the chain state, settled or not: over every
  run each checkpoint stays on the best chain for ever, and later ones only descend.
* **Address manager.** `AddrMan` keeps the full cross-container invariant through every operation and
  specifies each on what the tables mean (address -> data, tried or not, set of new buckets);
  `AddrPolicy` says what the rules mean over time and how far one network group reaches; `AddrFile` saves
  and loads with ids renumbered.
* **Parallel check queue.** `CheckQueue`: all interleavings of one master and any number of workers.
* **Memory pool and block assembly.** `Mempool`, `Miner`, on top of `Inputs` and `Blocks`; `MinedBlock`
  proves that what the miner assembles is what the chain accepts.
* **Smaller algorithms.** `StakeModifier`, `Merkle`, `Blake`, `Radix`, `Bignum`, `Base58`, `Retarget`,
  `Locator`. `Basics` holds what several modules share.

Code that edits state is written as methods that take and return the values they change, each proved
against a specification, with a class around them that holds the fields (`ChainState`, `SyncState`,
`Manager`, `TxMemPool`, `BigContext`).

Modelling decisions:

* Hashes are fields or parameters. Equal transaction ids mean equal transactions, and a transaction is
  deeper (`Tx.depth`) than those it spends from. That no id repeats along a chain is not assumed: it is
  proved from the coinbase-height rule (`History.IdsNeverRepeat`).
* Signatures, maturity, fee and signature-operation counts, rewards and coin age are parameters
  (`Rules`, `BlockRules`); failing reads and commits are given by `Env`; random draws and clocks are
  parameters.
* Integers are unbounded where the source uses 64-bit amounts and counters; BLAKE counters, compact
  targets and byte formats keep their widths.

Where the code does less than its comments say, the model follows the code:

* `SetBestChain` makes the new block the best one even if connecting a postponed block failed
  (src/main.cpp:1871-1900). From a settled state it succeeds exactly under `Reorg.AdoptOk`, and the node
  is settled afterwards exactly under `Reorg.FinishOk`: every postponed block can be read, connects on
  top of its parent's chain and can be committed (`ChainState.SetBestChain`). If not, the index differs
  from that of the best chain (`Reorg.StuckIndexDiffers`). `StuckRun.Stuck` is a run of two blocks from
  the start that ends there.
* `SetBestChainInner` removes the block's transactions from the pool but not what conflicts with them
  (src/main.cpp:1818-1820). `Mempool.ConflictCanStay` is an example, `Mempool.AfterAttach` the exact condition.
* `SelectTried` returns the position its choice was drawn from, where another entry now is
  (src/addrman.cpp:131-146). The entry returned is the chosen one exactly if the draw of its place had
  left it where it was (`AddrMan.SelectTried`); `AddrMan.WrongEntryGoes` is a bucket of two entries
  where it is not.
* Recursive `remove` misses a child that names an output its parent does not have
  (src/main.cpp:725-731). `Mempool.UnrealInputEscapes` is an example, and `Mempool.OrphanFreeIff` says
  exactly for which pools no removal leaves an orphan. The pool of a node is one of them: all its inputs
  are existing outputs, over every run of `Mempool.TxMemPool`.
* A proof-of-work block may contain coinstakes from the third transaction on: only proof-of-stake blocks
  are checked for further ones (src/main.cpp:2116-2133), and a coinstake pays no fee
  (src/main.cpp:1464-1482). The subsidy bounds what a proof-of-work block creates exactly under the
  condition of `Mint.WorkBlockBound`, always if it has no coinstake (`Mint.WorkBlockMint`);
  `Mint.MoreThanSubsidy` is an accepted block that creates more.
* A shorter time between blocks than intended never raises the target, but for a target of 1, which is
  rounded to 0 and then replaced by the limit (src/main.cpp:1136-1152): `Retarget.TargetFollows`.
* The Merkle root does not decide the number of leaves (src/main.h:967-985): `Merkle.OddIsDoubled`. For
  lists of one length it does (`Merkle.RootDecides`).
* Disconnecting a block undoes connecting it exactly if the block replaced no completely spent entry
  (src/main.cpp:1599-1604): `Marks.UndoIffFresh`.

## Model

| member | source | states |
|---|---|---|
| Inputs.FetchInputs | src/main.cpp:1273-1346 | succeeds exactly if every input can be looked up and names an existing output; returns what the queue, database, disk or pool holds |
| Inputs.ConnectInputs | src/main.cpp:1390-1486 | succeeds exactly if all inputs are mature, older, in money range, unspent, distinct, signed and pay the fee; an ordinary transaction that passes has inputs worth its outputs and the fee; then the queue is overlaid with the marks |
| Inputs.FreeAtEveryStep | src/main.cpp:1432-1462 | the step-by-step double-spend test passes exactly if all outputs were unspent before and none is named twice |
| Inputs.QueueWritten | src/main.cpp:1456-1461 | writing back after every mark equals overlaying all marks at once |
| Inputs.DisconnectInputs | src/main.cpp:1237-1270 | succeeds exactly if every input is indexed; clears its marks and erases the transaction |
| Marks.ConnectAllUndo | src/main.cpp:1538-1543 | disconnecting a block restores the index it was connected to, spends inside the block included |
| Marks.UndoIffFresh | src/main.cpp:1599-1604 | the undo is exact if and only if the block replaced no index entry |
| Supply.TotalConnectAll | src/main.cpp:1643-1670 | the total of unspent outputs changes by value out minus value in of the block |
| History.FoldIsSpenderTable | src/main.cpp:1456-1461 | in the fold of a chain a mark is set exactly if one and only one transaction spends the output, and to its position |
| History.IdsNeverRepeat | src/main.cpp:2239-2243 | no transaction id repeats along a chain whose coinbases carry their height |
| Blocks.ConnectBlock | src/main.cpp:1562-1699 | accepts exactly the blocks of `BlockOk`; the new index is the fold of the block, the supply moves by value out minus value in |
| Blocks.DisconnectBlock | src/main.cpp:1538-1560 | succeeds exactly if every transaction in reverse order can be disconnected, and gives the undone index |
| Blocks.ConnectedCanDisconnect | src/main.cpp:1538-1543 | a connected block can always be disconnected |
| Blocks.StakeBlockMint | src/main.cpp:1655-1670 | an accepted proof-of-stake block raises the unspent total by at most GetProofOfStakeReward(coin age, 0) |
| Mint.OrdinaryNeverMints | src/main.cpp:1464-1482 | connecting an accepted transaction that is neither coinbase nor coinstake never raises the total of unspent outputs, and lowers it by at least the fee asked for |
| Mint.FeeIsWhatIsLeft | src/main.cpp:1464-1482 | a transaction with its inputs in order is accepted exactly if it is a coinstake or its inputs are worth its outputs and an allowed fee |
| Mint.FeesAtLeast | src/main.cpp:1630-1640 | the fees of an accepted block are never negative and at least those asked for |
| Mint.InputsAreSound | src/main.cpp:1396-1452 | every input of an accepted transaction is an unspent, stored, older output, mature where it must be, and signed for |
| Mint.BlockRise | src/main.cpp:1643-1670 | an accepted block changes the total by its coinbase and what its coinstakes create, less the fees |
| Mint.WorkBlockMint | src/main.cpp:1646-1653 | an accepted proof-of-work block raises the total by at most the subsidy and what coinstakes in it create; without any, by at most the subsidy |
| Mint.WorkBlockBound | src/main.cpp:1646-1653 | the subsidy bounds the rise exactly if coinbase and coinstakes together stay within subsidy and fees |
| Mint.MoreThanSubsidy | src/main.cpp:2116-2133 | an accepted proof-of-work block with a coinstake in third place that creates more than the subsidy |
| ChainSupply.SupplyBound | src/main.cpp:1643-1670 | what a chain has unspent is at most the sum of the rewards of its blocks |
| ChainSupply.SupplyIsMoney | src/main.cpp:1643-1670 | every indexed transaction has outputs in money range, so the supply of a chain is never negative |
| BlockTree.FindFork | src/main.cpp:1705-1717 | finds the lowest common ancestor of two blocks of any heights |
| BlockTree.ForkUnique | src/main.cpp:1705-1717 | two blocks have only one lowest common ancestor |
| BlockTree.InMainChainMeans | src/main.h:1242-1245 | IsInMainChain holds exactly for the best block and its ancestors |
| BlockTree.InMainChainIsAbove | src/main.h:1242-1245 | also with links missing, what IsInMainChain holds for is the best block or an ancestor of it |
| BlockTree.LinksInBelow | src/main.cpp:1898-1901 | links that stop at a block remain links along the chain of every block below it |
| ChainFold.TipUndo | src/main.cpp:1735-1742 | disconnecting the tip of a connected chain never fails and gives the fold up to its parent |
| ChainFold.FoldToMeans | src/main.cpp:1701-1798 | the fold of a connected chain is well formed and is the spender table of its transactions |
| Reorg.ConnectOn | src/main.cpp:1753-1761 | succeeds exactly if ConnectBlock accepts the block on the index at hand; gives the block folded in and a supply that moves with the unspent total, a stake block minting at most its reward and a work block without coinstakes at most its subsidy |
| Reorg.DisconnectDown | src/main.cpp:1733-1747 | succeeds exactly if every block can be read and disconnected in turn, and gives the index with all of them undone |
| Reorg.RevertedStands | src/main.cpp:1733-1747 | from the fold of the best chain disconnecting fails only for an unreadable block, and ends at the fold of the fork |
| Reorg.ConnectUp | src/main.cpp:1749-1766 | succeeds exactly if every block of the branch can be read and connects on those before it; ends with all folded in, the supplies of both branches being right |
| Reorg.Switch | src/main.cpp:1701-1798 | Reorganize succeeds exactly under `CanSwitch`; index, supply and links of the best chain become those of the new tip; a failure leaves index and links unchanged |
| Reorg.CanSwitchIff | src/main.cpp:1701-1798 | from the fold of the best chain Reorganize succeeds exactly if all blocks left can be read, all blocks entered connect on their parents' folds and the commit works |
| Reorg.Attach | src/main.cpp:1801-1823 | SetBestChainInner succeeds exactly if ConnectBlock accepts the block and the commit works; then index, supply and links move on by it, else index and links are unchanged |
| Reorg.Postpone | src/main.cpp:1846-1858 | lists the blocks from the new one down to the first whose parent has no more trust than the best block |
| Reorg.AttachAll | src/main.cpp:1871-1887 | attaches exactly the blocks up to the first that cannot be read, connected or committed; index, supply and links are those of the block reached |
| Reorg.ClimbIff | src/main.cpp:1871-1887 | from the fold of their start the postponed connects reach the new block exactly if each can be read, connects on its parent's fold and can be committed |
| Reorg.AdoptsIff | src/main.cpp:1840-1888 | from the fold of the best chain the success of SetBestChain is a condition on the blocks alone |
| Trust.TrustIsSum | src/main.cpp:2041-2042 | nChainTrust of every block is the sum of the block trusts along its chain |
| Trust.ChainAccepted | src/main.cpp:2202-2204 | every chain of the tree carries the targets required along it |
| Trust.TrustRisesBelow | src/main.cpp:2271-2280 | every block further down a branch has at least 2^20 more trust |
| Trust.IntermediateIsFirst | src/main.cpp:1846-1858 | the block SetBestChain reorganizes to is the first on the way with more trust than the best block |
| Chain.ChainState.SwitchInSteps | src/main.cpp:1844-1888 | succeeds exactly if the reorganisation does; the database then stands exactly where the postponed connects stop, which is the new block if and only if all of them succeed |
| Chain.WalkTo | src/main.cpp:938-941 | from any main-chain block the two loops reach the ancestor of the tip at the wanted height |
| Reorg.StuckIndexDiffers | src/main.cpp:1871-1900 | an index left standing at an ancestor of the best block is that of the best chain exactly if the ancestor is the best block itself |
| StuckRun.SwitchesButStops | src/main.cpp:1871-1900 | a concrete store where SetBestChain succeeds and does not finish |
| StuckRun.Stuck | src/main.cpp:1825-1905 | a run of two received blocks from the start after which the index is not that of the best chain |
| Chain.ChainState.constructor | src/main.cpp:1832-1838 | starts settled at the genesis block |
| Chain.ChainState.AddChecked | src/main.cpp:2181-2253 | indexes a block exactly if it is new, has an indexed parent, carries the required target, passes its checks and its coinbase starts with its height; every state stays valid, a settled one settled |
| Chain.ChainState.AcceptBlock | src/main.cpp:2181-2253 | the store grows exactly by an indexable block; the best block changes only to one with more nChainTrust, and does so if SetBestChain succeeds; if none is refused the best block stays the heaviest; a settled node stays settled exactly if the best block did not change or its postponed connects all succeed |
| Chain.OfferAll | src/main.cpp:2074-2077 | over every run of offered blocks the trust of the best block never falls, and only blocks that never were accepted can have more |
| Chain.ChainState.FindBlockByHeight | src/main.cpp:929-944 | returns the tip's ancestor at the height, whatever the cached start |
| Chain.ChainState.Reorganize | src/main.cpp:1701-1798 | succeeds exactly under `CanSwitch`; the index is then the one switched to; a failure leaves index, best marker and links unchanged |
| Chain.ChainState.SetBestChainInner | src/main.cpp:1801-1823 | succeeds exactly if the block is accepted and committed; the index then has it folded in; a failure leaves index, best marker and links unchanged |
| Chain.ChainState.SetBestChain | src/main.cpp:1825-1905 | from every state: succeeds exactly under `Adopts`, says where the database then stands, and a failure changes nothing; from a settled one: success is `AdoptOk` and the node is settled again exactly under `FinishOk`, both conditions on the state before |
| Chain.ChainState.ConnectPostponed | src/main.cpp:1871-1887 | the database stops at the first postponed block that fails, and reaches the new block exactly if none does |
| Checkpoints.ValidateSyncCheckpoint | src/checkpoints.cpp:92-132 | passes exactly the proper descendants of the current checkpoint; marks as invalid exactly the blocks on another branch |
| Checkpoints.CheckSync | src/checkpoints.cpp:204-229 | a block not yet indexed passes exactly if it extends the checkpoint |
| Checkpoints.SyncState.AcceptPending | src/checkpoints.cpp:150-191 | takes the pending checkpoint exactly if it is indexed, extends the current one, is on the best chain or can be switched to, and can be written; drops it if it does not extend the current one |
| Checkpoints.SyncState.ProcessSyncCheckpoint | src/checkpoints.cpp:376-424 | an unsigned message changes nothing, an unknown block becomes pending, a known one is taken exactly if it extends the current checkpoint, can be followed and written |
| Checkpoints.SyncState.AcceptBlock | src/main.cpp:2181-2253 | indexes exactly the indexable blocks that extend the checkpoint, then looks at the pending checkpoint; one that arrives and becomes the best block is taken |
| Checkpoints.SyncState.Advance | src/checkpoints.cpp:162-179 | the checkpoint moves exactly if the node follows its chain and it can be written; the best block changes exactly if the checkpoint was off the best chain; an unfollowable one is marked invalid |
| Checkpoints.Handle | src/checkpoints.cpp:376-424 | every event keeps the checkpoint on the best chain and is a step of a run, whether or not the database follows |
| Checkpoints.HandleAll | src/checkpoints.cpp:150-191 | whatever events arrive in whatever order, what the node shows is a run, so that the next two rows hold of it |
| Checkpoints.CheckpointsStay | src/checkpoints.cpp:150-190 | over every run each checkpoint stays on the best chain and later ones are it or proper descendants |
| Checkpoints.NewBlocksExtend | src/main.cpp:2230-2234 | over every run each newly indexed block properly descends from every earlier checkpoint |
| AddrMan.SwapKeeps | src/addrman.cpp:105-123 | swapping two places of vRandom keeps the invariant and the meaning of the tables |
| AddrMan.CreatedKeeps | src/addrman.cpp:93-103 | creating an entry keeps the invariant, its first bucket pending |
| AddrMan.CreatedMeans | src/addrman.cpp:93-103 | creating an entry adds just that address |
| AddrMan.DropKeeps | src/addrman.cpp:161-169 | taking an entry out of a new bucket deletes it exactly if that was its last bucket, and keeps the invariant |
| AddrMan.SelectTried | src/addrman.cpp:125-147 | for any draws, shuffles the bucket by them, finds the first least recently successful of the inspected entries at `first` and returns `draws[first]`: the entry there is the one found exactly if `draws[first] == first` |
| AddrMan.WrongEntryGoes | src/addrman.cpp:131-146 | two entries and two draws for which the more recently successful entry is returned |
| AddrMan.ShrinkNew | src/addrman.cpp:149-201 | drops the terrible entry with the smallest id if there is one, otherwise the oldest of the entries at the drawn places, equally old ones by id |
| AddrMan.TakeFromAll | src/addrman.cpp:207-215 | leaving all new buckets brings the reference count to 0 |
| AddrMan.MakeTried | src/addrman.cpp:203-259 | the entry becomes tried; from a full tried bucket the entry SelectTried returns goes back to exactly one new bucket: its own, or the one vacated if its own is full |
| AddrMan.FindBucket | src/addrman.cpp:288-304 | the search always finds a bucket of a new entry, so the "something bad happened" branch is not reached |
| AddrMan.Good | src/addrman.cpp:261-310 | marks a known service as good and moves it to the tried table; other addresses are untouched but for the eviction that SelectTried decides, whose entry goes back as for `AddrMan.MakeTried` |
| AddrMan.Add | src/addrman.cpp:312-368 | reports a new entry exactly if the address is routable and unknown; updates it, and puts it in its source's bucket, which loses the entry ShrinkNew decides if full |
| AddrMan.Attempt | src/addrman.cpp:370-387 | changes only last try and attempts of a known service |
| AddrMan.Connected | src/addrman.cpp:509-527 | changes only the time of a known service, if 20 minutes old |
| AddrMan.GetAddr | src/addrman.cpp:493-507 | returns min(2500, 23 %) distinct known addresses and keeps the meaning of the tables |
| AddrMan.SizeIsRandom | src/addrman.cpp:439 | vRandom, mapInfo, mapAddr and nNew + nTried all count the entries |
| AddrMan.Manager.constructor | src/addrman.h:382-390 | starts empty with the invariant |
| AddrMan.Manager.Add_ | src/addrman.cpp:312-368 | keeps the invariant; the effect on the known addresses as for `AddrMan.Add` |
| AddrMan.Manager.Good_ | src/addrman.cpp:261-310 | keeps the invariant; the effect as for `AddrMan.Good` |
| AddrMan.Manager.Attempt_ | src/addrman.cpp:370-387 | keeps the invariant; the effect as for `AddrMan.Attempt` |
| AddrMan.Manager.Connected_ | src/addrman.cpp:509-527 | keeps the invariant; the effect as for `AddrMan.Connected` |
| AddrMan.Manager.GetAddr_ | src/addrman.cpp:493-507 | keeps the invariant and the known addresses |
| AddrPolicy.GroupInFewTried | src/addrman.cpp:8-21 | the addresses of one network group are in at most 4 tried buckets |
| AddrPolicy.SourceReachesFewNew | src/addrman.cpp:23-35 | whatever the sources of one group advertise reaches at most 32 new buckets |
| AddrPolicy.GoodHasAWeek | src/addrman.cpp:37-56 | no number of failures makes an address terrible within a week after it was good |
| AddrPolicy.TenFailures | src/addrman.cpp:37-56 | after that week and within a month it is terrible exactly from the tenth failure on |
| AddrPolicy.ThreeFailures | src/addrman.cpp:37-56 | an address never good is terrible exactly from the third failure on |
| AddrPolicy.TimeDecides | src/addrman.cpp:37-56 | a try spares an address for a minute; without one it is terrible if it has no time or one too far off |
| AddrPolicy.RefreshedIsFresh | src/addrman.cpp:321-330 | Add_ never makes a known address older or forgets a service, and leaves it at most a day and the penalty behind |
| AddrPolicy.MetIsFresh | src/addrman.cpp:509-527 | Connected_ leaves a time at most 20 minutes old and never an older one |
| AddrPolicy.StaleMovesNothing | src/addrman.cpp:332-350 | an advertisement without news, or of a tried address, moves no entry |
| AddrPolicy.AddMovesOne | src/addrman.cpp:312-368 | of the other addresses at most the bucket of the source loses one, which is forgotten exactly if it was in no other |
| AddrFile.WriteEntries | src/addrman.h:283-307 | in spite of the early exit writes all new (or all tried) entries, numbering the new ones |
| AddrFile.Save | src/addrman.h:270-319 | the file is well formed and describes the tables up to nLastTry |
| AddrFile.Load | src/addrman.h:320-378 | a well-formed file loads with nothing lost, the invariant holding and exactly the described meaning |
| AddrFile.SaveAndLoad | src/addrman.h:248-380 | saving and loading gives the same addresses, data, new buckets and tried flags, nLost 0, nLastTry forgotten |
| CheckQueue.StepKeeps | src/checkqueue.h:67-147 | every step of every thread keeps the accounting of checks and counters |
| CheckQueue.WaitIsRight | src/checkqueue.h:61-147 | in every interleaving, each finished Wait had every added check taken once, and returned true exactly if all are good |
| CheckQueue.CountersAreRight | src/checkqueue.h:67-111 | nTodo counts queued and outstanding checks, nTotal - nIdle the threads holding a batch |
| CheckQueue.ControlAsserts | src/checkqueue.h:164-171 | the three asserts of CCheckQueueControl hold whenever the master is outside with nothing added |
| CheckQueue.WaitLeavesUnused | src/checkqueue.h:82-91 | a returning Wait leaves the queue as the next control object expects it |
| CheckQueue.MasterNeverStuck | src/checkqueue.h:71-95 | a master asleep without a notification always has a worker with a batch that can step |
| CheckQueue.QueueIsAttended | src/checkqueue.h:136-147 | in every interleaving, while a check is queued some worker has a batch or was notified, unless none of them sleeps |
| CheckQueue.BatchIsFair | src/checkqueue.h:96-101 | a batch is one check, or the largest within the configured size that leaves a share for every thread |
| Mempool.SpenderIndex | src/main.cpp:703-714 | mapNextTx holds exactly the spent outpoints with their only spender |
| Mempool.RemoveRecursive | src/main.cpp:717-739 | terminates and removes exactly the transaction and its descendants by existing outputs |
| Mempool.Remove | src/main.cpp:717-739 | removes exactly the one transaction and its spender entries |
| Mempool.NoOrphansLeft | src/main.cpp:717-739 | if pool inputs name existing outputs, no removal leaves a transaction that spends from what was removed |
| Mempool.OrphanFreeIff | src/main.cpp:717-739 | no removal leaves an orphan if and only if every input naming an output its pool parent lacks belongs to a transaction that descends from that parent anyway |
| Mempool.RootedIsReal | src/main.cpp:717-739 | if every pool input is an output of a known transaction, pool parents have the outputs their children name |
| Mempool.FetchedRooted | src/main.cpp:1273-1346 | what FetchInputs finds are existing outputs of known transactions |
| Mempool.ConnectedRooted | src/main.cpp:1784-1787 | the inputs of connected blocks, which a reorganisation offers unchecked, are existing outputs |
| Mempool.UnrealInputEscapes | src/main.cpp:725-731 | a child naming an output its parent lacks stays in the pool and is an orphan |
| Mempool.RemoveConflicts | src/main.cpp:741-754 | nothing left but the transaction itself spends its inputs, and only conflicts and their descendants went |
| Mempool.Accept | src/main.cpp:547-696 | accepts exactly the checked, standard transactions that conflict with none and, if inputs are checked, fetch, pay and connect by FetchInputs and ConnectInputs; keeps the spender index |
| Mempool.CheckPays | src/main.cpp:611-674 | passes exactly if all inputs can be fetched, are standard, unspent and signed, and pay the fees |
| Mempool.AcceptedRooted | src/main.cpp:547-696 | a transaction accepted with checked inputs keeps all pool inputs existing outputs |
| Mempool.AfterReorganize | src/main.cpp:1784-1792 | no pool transaction is in a newly connected block or spends an input of one, and of the pool with the resurrected transactions only those and descendants of conflicts are gone |
| Mempool.AfterAttach | src/main.cpp:1818-1820 | only the block's transactions leave; the pool is free of conflicts exactly if no other transaction had one |
| Mempool.ConflictCanStay | src/main.cpp:1818-1820 | a conflicting transaction can stay in the pool after a block is attached |
| Mempool.TxMemPool.AcceptTx | src/main.cpp:547-696 | as `Mempool.Accept`, keeping over every run that all pool inputs are existing outputs |
| Mempool.TxMemPool.RemoveTx | src/main.cpp:717-739 | as `Mempool.Remove` and `Mempool.RemoveRecursive`; the recursive removal leaves no orphan |
| Mempool.TxMemPool.RemoveConflictsOf | src/main.cpp:741-754 | as `Mempool.RemoveConflicts`, on the pool's fields |
| Mempool.TxMemPool.FollowReorganize | src/main.cpp:1784-1792 | as `Mempool.AfterReorganize`, keeping the run invariant |
| Mempool.TxMemPool.FollowAttach | src/main.cpp:1818-1820 | as `Mempool.AfterAttach`, keeping the run invariant |
| Miner.Scan | src/miner.cpp:181-247 | every eligible transaction waits for exactly its unconfirmed parents, and is queued if it has none |
| Miner.Release | src/miner.cpp:334-350 | after an inclusion exactly the transactions whose parents are now all included have been queued |
| Miner.TryAdd | src/miner.cpp:262-327 | adds a candidate exactly if it keeps the limits of size, time and signature operations, is not a free one to skip, pays the fee and connects on chain and block so far; otherwise totals and test pool are unchanged |
| Miner.CreateNewBlock | src/miner.cpp:168-354 | terminates; every transaction connects on those before it, none twice, limits kept, fees and sizes summed; a transaction is tried exactly if all unconfirmed parents are in, and one tried and left out was not worth adding on top of a prefix of the block |
| Miner.ParentsFirst | src/miner.cpp:300-319 | every input is of the chain or of an earlier transaction of the block |
| Miner.SpentOnce | src/main.cpp:1437-1462 | no outpoint is spent twice in a block |
| Miner.ParentsAreOlder | src/main.cpp:1418-1419 | a block transaction is not older than one it spends from |
| Miner.MinedAreFinal | src/miner.cpp:183-185 | only final pool transactions are mined, and no coinbase or coinstake |
| Miner.MinedPays | src/miner.cpp:300-319 | every mined transaction spends what it creates and its fee |
| Miner.AssembledMeans | src/miner.cpp:262-333 | size, signature operations and times of an assembled block are within the limits, and its fees are not negative |
| MinedBlock.AssembledConnects | src/miner.cpp:168-361 | a proof-of-work block assembled on the chain, passing CheckBlock and claiming the subsidy and the counted fees, is accepted by ConnectBlock, though its transactions are then found on disk instead of in the pool |
| Miner.DropLater | src/main.cpp:2435-2436 | the filter of SignBlock keeps exactly the transactions up to the time, in their order |
| Miner.FilterKeepsParents | src/main.cpp:2435-2436 | the filter never keeps a transaction and drops its parent |
| StakeModifier.SelectionInterval | src/kernel.cpp:64-70 | sums the 64 sections |
| StakeModifier.SectionsGrow | src/kernel.cpp:57-61 | sections grow from a third of the interval to the whole |
| StakeModifier.StakeIsFavoured | src/kernel.cpp:92-101 | a stake block is preferred to a work block unless its hash is more than 2^32 times larger |
| StakeModifier.SelectBlockFromCandidates | src/kernel.cpp:75-116 | selects the first minimum-hash unselected candidate up to the stop, or the earliest unselected one; fails only if all are selected |
| StakeModifier.SelectAll | src/kernel.cpp:168-186 | min(64, candidates) rounds never fail; each pick is the right one given those before; the word holds their entropy bits |
| StakeModifier.PicksDistinct | src/kernel.cpp:168-186 | the picked blocks are pairwise different |
| StakeModifier.Generate | src/kernel.cpp:151-186 | candidates are the recent blocks in order; 64 rounds stop exactly at the start of the current period |
| StakeModifier.GetLastStakeModifier | src/kernel.cpp:43-54 | finds the last block that generated; fails exactly if none did |
| StakeModifier.ComputeNextStakeModifier | src/kernel.cpp:131-217 | keeps the last modifier within its period and generates a new one in a later period |
| StakeModifier.AddToChain | src/main.cpp:2050-2055 | on a chain grown block by block the computation never fails |
| Merkle.BuildMerkleTree | src/main.h:967-985 | the flat array is all levels in order and its last element the recursive root |
| Merkle.GetMerkleBranch | src/main.h:986-1000 | reads the siblings of each level from the flat array |
| Merkle.CheckMerkleBranch | src/main.h:1002-1015 | hashes up along the branch; 0 for index -1 |
| Merkle.BranchLeadsToRoot | src/main.h:967-1015 | for any number of leaves the branch of a leaf leads from it to the root |
| Merkle.BranchProvesLeaf | src/main.h:1002-1015 | without collisions a branch leads to the root exactly from its own leaf |
| Merkle.RootDecides | src/main.h:967-985 | without collisions lists of equal length have the same root exactly if they are equal |
| Merkle.OddIsDoubled | src/main.h:967-985 | a list of odd length has the root of that list with its last leaf repeated |
| Blake.ChunksDoNotMatter | src/blake.c:905-941 | feeding in any chunks gives the state of feeding at once |
| Blake.FedIs | src/blake.c:905-941 | feeding compresses the full blocks with the number of message bits so far, and keeps the rest |
| Blake.PaddingIsRight | src/blake.c:960-987 | the padded bits are message, one, fewest zeros to 895 mod 1024, final bit, 128-bit length |
| Blake.PresetIsRight | src/blake.c:965-973 | the counter preset makes the next compression count the message bits, or 0 if the block has none |
| Blake.DigestIsRight | src/blake.c:943-994 | closing compresses exactly the padded blocks, each with the message bits so far or 0 |
| Blake.BigContext.constructor | src/blake.c:895-903 | starts with the initial value and an empty buffer |
| Blake.BigContext.Update | src/blake.c:905-941 | the buffered loop is the specified feeding |
| Blake.BigContext.Close | src/blake.c:943-994 | closing gives the specified result whatever the local buffer held |
| Bignum.MpiRoundTrip | src/bignum.h:294-319 | the signed byte format loses nothing |
| Bignum.VchRoundTrip | src/bignum.h:294-319 | setvch undoes getvch |
| Bignum.CompactRound | src/bignum.h:321-344 | the compact form of a positive number is positive, not larger, loses less than a 2^-15 part and is a fixed point |
| Bignum.SetCompactIs | src/bignum.h:321-331 | compact bits stand for a three-byte mantissa times a power of 256 |
| Base58.EncodeBase58 | src/base58.h:27-65 | a '1' per leading zero byte, then the number in base 58 |
| Base58.DecodeBase58 | src/base58.h:75-119 | reads up to an embedded NUL; spaces around are skipped, other characters refused; leading ones become zero bytes before the number in base 256 |
| Base58.Base58RoundTrip | src/base58.h:27-119 | decoding undoes encoding for every byte string |
| Base58.DecodeEncode | src/base58.h:27-119 | whatever decodes is, between spaces and up to an embedded NUL, the encoding of what it decodes to |
| Base58.DigitStringRoundTrip | src/base58.h:27-119 | every string of base-58 digits decodes and is the encoding of the result |
| Base58.DecodeBase58Check | src/base58.h:143-160 | succeeds exactly if the last four bytes are the checksum of the rest |
| Base58.CheckRoundTrip | src/base58.h:132-160 | decoding with checksum undoes encoding with checksum |
| Retarget.GetLastBlockIndex | src/main.cpp:1102-1107 | walks back to the last block of the kind, or to the first block: every block passed is of the other kind |
| Retarget.GetNextTargetRequired | src/main.cpp:1109-1154 | is the compact form of `NextTarget`, which the following rows determine |
| Retarget.TargetIs | src/main.cpp:1127-1152 | for a gap a between the last two blocks of the kind the target is the floor of t * (750 + 2a) / 1050 after the fork and t * (600 + 2a) / 1200 before it, or the limit exactly if that is beyond it or 0; a negative gap leaves it alone |
| Retarget.TargetFollows | src/main.cpp:1127-1152 | a gap longer than the spacing never lowers the target, a shorter one raises only a target of 1, the spacing itself keeps it |
| Retarget.LongerIsEasier | src/main.cpp:1127-1152 | a longer gap gives a target at least as large, but for a target of 1 |
| Retarget.LimitAtStart | src/main.cpp:1113-1125 | the limit is required as long as there are not two blocks of the kind, and at the reset height |
| Retarget.RequiredInRange | src/main.cpp:1109-1154 | every required target is in (0, limit], within a 2^-15 part of the computed one |
| Retarget.AcceptedTarget | src/main.cpp:2202-2204 | every accepted block has its target in (0, limit] |
| Retarget.ShrinkBound | src/main.cpp:1136-1154 | after the fork a target is at least floor(5/7) of the last, up to the encoding loss |
| Retarget.TrustRises | src/main.cpp:2271-2280 | chain trust rises by at least 2^20 with every accepted block |
| Retarget.BlockTrustIs | src/main.cpp:2271-2280 | the trust of a block is the floor of 2^256 by its target and one more, 0 without a positive target |
| Retarget.HarderIsHeavier | src/main.cpp:2271-2280 | a smaller target never has less trust |
| Locator.Set | src/main.h:1503-1518 | lists the ancestors at distances 0..11, then 9 + 2^k, and ends with genesis |
| Locator.GetDistanceBack | src/main.h:1520-1539 | returns exactly the listed distance of the first entry on the main chain |
| Locator.GetBlockIndex | src/main.h:1541-1555 | returns the first entry on the main chain |
| Locator.FindsFork | src/main.h:1541-1555 | some listed block is always found; it is the fork if that is at most 11 back, otherwise less than twice as far back |
| Locator.ForkExists | src/main.h:1541-1555 | for every sender and receiver the shared part of the sender's chain is everything up to some height |

## Left out

- Script evaluation, signature checking, standardness, maturity, minimum fees, rewards and coin age: parameters of the model. In `Mempool` they and the rate limiter of free transactions are fields of `Policy`.
- 64-bit overflow of amounts: `GetValueOut` throws where the model adds mathematical integers; money range checks are modelled.
- CheckTransaction's and CheckBlock's byte-size limits, proof of work, Merkle root and block signature: one flag of `BlockRules`.
- Block index records on disk, wallet callbacks, relaying, alerts and the rest of the peer code.
- Storage failures other than unreadable blocks and failing commits; `fJustCheck` connects.
- Chain.ChainState.AcceptBlock: blocks go to unused places on disk and fit the hash model (`Storable`); `Checkpoints.Handle` ignores others.
- Chain.ChainState.FindBlockByHeight: is stated for settled states, because with links missing the forward walk of the source meets a null pointer.
- The memory pool is modelled beside the chain state: `Mempool.AfterReorganize` and `Mempool.AfterAttach` are the pool's part of a reorganisation.
- Chain.OfferAll: is about offered blocks; a synchronized checkpoint can move the best block to a branch with less trust.
- MinedBlock.AssembledConnects: covers proof-of-work blocks; that signature operations in scripts are counted whatever the place of the previous transactions is a hypothesis (`CountsByTx`), as is CheckBlock.
- Of AcceptBlock's checks: heights that allow proof of work or stake, timestamps, finality, hardened checkpoints and the stake kernel (`contextOk`).
- Checkpoints in ADVISORY and PERMISSIVE mode, on the test network, hardened checkpoints, the master key and sending.
- AddrFile.Load: covers files with the current number of new buckets as Save writes them; malformed files and changed bucket counts are not covered.
- CAddrMan's Select_ and GetChance, which use floating point.
- Miner.CreateNewBlock: priorities and fee rates are doubles in the source; the queue is popped in any order, so the result holds for every order. `World.Ok` supposes that the pool is closed under parents, as the source's comment says it always is, and that no pool transaction is in the database already.
- StakeModifier: block times are non-negative, test network constants are left out; stake kernel hashing and modifier checksums are not modelled.
- Blake.BigContext.Close: the 64-byte BLAKE-224 and BLAKE-256 variants repeat the same shape; the compression function itself is a parameter.
- Retarget: the test network's limits and spacings; 256-bit overflow of chain trust.
- RPC, IRC, start-up, key storage, encryption and the database backend.
