# ixo-blocksync: a verified model of its state machines

ixo-blocksync replays chain blocks into Postgres. This project models the parts of it whose guarantees
hold over whole runs and proves those guarantees for all inputs, all failures and all restarts.
`dafny verify dfyconfig.toml` checks everything.

The files follow the program:

| files | part of the program |
|---|---|
| `Transactions.dfy` | the transaction helper and the shared client every query is routed through |
| `BlockLoop.dfy`, `BlockRuns.dfy`, `RunTheorems.dfy`, `BlockEffects.dfy`, `ProcessRuns.dfy`, `RunContent.dfy` | the block loop with its retries and restarts, and the two one-shot snapshots in front of it; one commit at a time; every run; what each kind of commit leaves in the tables; how long a process lives; the content every run arrives at |
| `EventPipeline.dfy`, `WasmAttributes.dfy`, `TokenEvents.dfy`, `TokenLedger.dfy`, `BlockLedger.dfy` | the event loop and its one-slot delayed function, the un-interleaving of wasm attributes, the token handler, the ledger and its balance index, and all of it over one block |
| `DaoStaking.dfy`, `DaoTotals.dfy`, `DaoRuns.dfy`, `DaoEffects.dfy`, `DaoSnapshot.dfy` | staker and member tables and the four ways cached voting weights are kept beside them; one step, whole runs, every step field by field, and the snapshot's passes with what they leave |
| `ScopedCache.dfy`, `CacheLogs.dfy`, `ArchiveApi.dfy`, `ArchiveQueries.dfy` | caches scoped to one height with fetches in flight, and the discipline that keeps them invisible; the archive node client's cache and retries; listings read page by page, and authz queries moved to a kept height with a cache of their own |
| `AuthzGrants.dfy`, `ExecAttribution.dfy`, `LongDecimal.dfy` | the active-grant index, the search through nested MsgExec messages, 64-bit values stored as halves |
| `Sums.dfy`, `Wrappers.dfy` | sums over table columns, optional values |

Tables are maps and sequences, the archive is a fixed function of path and height, and what the outside
world does (a fetch that fails, a statement the server rejects, a kill) is data handed to the model, so a
theorem over all that data is a theorem over all behaviours. Code that changes things step by step is a
class or a loop here too, proved equal to a function of its inputs and its old state; the theorems are
about those functions. Such a function is checked in turn against a reading of its inputs that does not use
it: a message against its attributes, an authz event against the table, a handler against the rows and totals
it leaves, a block against its statements, a process against what its iterations meet.

Three assumptions carry the run-level theorems. A COMMIT that reports an error did not commit. After a
failed statement every later statement of the transaction fails and COMMIT rolls back silently, as
PostgreSQL does. And once one branch of a block's `Promise.all` (src/sync/sync_blocks.ts:76-83) has
failed, its siblings issue no further statement: the code does not wait for them. That one is a
visible hypothesis, `NoStrays`, and `StraysBreakReplay` is a run that shows what happens without it.

No assumption is made about archive calls that overlap. A reply is stored when it arrives, under whatever
height the cache has by then, and a failed attempt at a block can leave calls in flight behind it. The
exact condition under which both caches stay invisible is proved instead, see below.

## Promises that hold on a condition

For each the exact condition is proved, in both directions; the lemmas named as runs show a failure.

- No row below the v7 upgrade height keeps an empty pool id, in every run, exactly when the upgrade
  height is not 2 (`V7SnapshotHolds`). At 2 the stored height is still 1 when the snapshot commits, a
  restart replays block 1, and its rows are never relinked (`SnapshotUndoneAtTwo`).
- All deferred functions of a block run exactly when every deferral fits (`AllRunIffFits`). In a block
  that does not raise, the mint a token event leaves reaches the ledger exactly when an event follows and no
  odd number of entity mints stands directly before it (`QuietBlockWrites`); otherwise it is lost without an
  error, as in the two blocks of `LostMints`.
- The splitter recovers messages laid out one after another exactly when the first holds more than its
  action, or there are several and none does (`SplitInvertsSequential`).
- Voting weights agree with their rows after a step exactly when it is none of five harmful ones
  (`StepSettles`): a cw4 group emptied of members, one filled after a module joined it, a module created
  already linked to a contract with stakers, a staking link abandoned because the contract's config cannot
  be parsed, a snapshot over rows it does not list. `AbandonedLink` and `EmptiedGroup` are runs that show two of them.
- cw721 rows are the end-of-block set exactly when an unstake was among the events or no stale row was
  there before (`SelfHeal`).
- A listing is complete exactly when the contract serves as many entries a page as asked, or holds no more
  than it serves at once (`ListAll`).
- With one call at a time the archive cache is invisible exactly on runs whose heights never decrease
  (`InvisibleIffForward`). With overlapping calls it is exactly when each call that may read what another
  stored is for the same height (`OverlappingCalls`), and that can be relied on at every moment exactly
  when heights never decrease and no call is issued for another height while one waits for the network
  (`SafeIffForwardAndNoneOvertaken`); a call answered from the cache waits for nothing (`HitIsNotOvertaken`).
  `OvertakenReply` is a run with rising heights that goes wrong. For the cache of snapped authz results it is
  the second half alone (`SnapsSafeIffNoneOvertaken`). In every log of either client that keeps to its
  condition each answer is the archive's (`ArchiveClient.Begin` and `End`, `AuthzQueries.BeginSnap` and
  `EndSnap`).
- Staker rows equal the chain's stakes exactly for those whose moves in the cutoff block net to nothing: the
  snapshot copies the stakes held at the end of that block, and its events are then applied on top
  (`RowsMeetChain`).
- After each committed block the database is the chain played block by block without failures, in every
  run exactly when no snapshot is due at height 2 (`PlaysOnIffNoneDueAtTwo`, with `InterruptedRun` as the
  failure); the fold over the committed transactions it is always (`DatabaseIsFold`).
- The balance index agrees with the amount of the whole-ledger query exactly when recorded self-transfers
  add up to nothing (`AccountQueryAgrees`); the handler records none (`HandledLedgerAgreesWithQuery`).

The comment over the splitter says the layouts are told apart by the first two keys both being "action";
the code asks only whether the second differs. The model follows the code.

## Model

| member | source | states |
|---|---|---|
| Transactions.AllOrNothing | src/postgres/client.ts:57-83 | a transaction commits if and only if every statement of its body succeeded and connecting, BEGIN and COMMIT did; then all its writes are in, otherwise none, late statements of stray siblings aside |
| Transactions.GuardedReportsTruthfully | src/sync/sync_blocks.ts:73-92 | if the body's last statement is one whose error nobody swallows, success is reported if and only if the transaction was committed |
| Transactions.UnguardedHidesRollback | src/sync_handlers/transaction_sync.ts:90-100 | without such a guard a swallowed error makes withTransaction report success although everything was rolled back |
| Transactions.RelinkAll | src/postgres/liquidstake.ts:131-142 | every row, and only a row, with an empty pool id below the height gets the legacy pool id; no row moves |
| Transactions.Client.DbQuery | src/postgres/client.ts:88-91 | inside a transaction a statement changes only its view and fails once one has failed; outside it commits by itself |
| Transactions.Client.RunBody | src/postgres/client.ts:68 | running a body statement by statement, errors swallowed or not, ends as its meaning says and makes nothing durable |
| Transactions.Client.WithTransaction | src/postgres/client.ts:57-83 | the in-place BEGIN, COMMIT and ROLLBACK sequence has exactly the effect and the report of Transact, and leaves the client idle |
| BlockLoop.BlockSync.EnsureDaodaoSnapshot | src/sync/daodao_snapshot.ts:90-156 | does nothing below the cutoff, when switched off or when completed, and otherwise one all-or-nothing transaction |
| BlockLoop.BlockSync.EnsureV7Snapshot | src/sync/v7_snapshot.ts:71-136 | the same for the v7 upgrade height |
| BlockLoop.BlockSync.IndexBlock | src/sync/sync_blocks.ts:63-92 | the two snapshots, then the block's transaction, each only after the one before succeeded |
| BlockEffects.AttemptAtBlock | src/sync/sync_blocks.ts:57-92 | an attempt is indexed if and only if both snapshots are not due, completed or taken now, the block goes well and the process is not killed, failed if and only if one of these goes wrong before a kill; indexed, it has left the block's content on top of the snapshots' |
| BlockEffects.BlockTried | src/sync/sync_blocks.ts:73-92 | a block commits if and only if no statement that reaches the server is rejected, no handler raises and nothing fails around it; it has then logged one write for each DAO statement if there is no cutoff or its height has reached it, and none otherwise, added its stake rows in order, and left under every key what was put or removed last, or what was there, its sweep's keys gone |
| BlockEffects.DaoTried | src/sync/daodao_snapshot.ts:128-141 | the DAO snapshot commits if and only if nothing of it goes wrong, logs one write for each of its rows and is stored as completed at its height |
| BlockEffects.V7Tried | src/sync/v7_snapshot.ts:109-122 | the v7 snapshot commits if and only if nothing of it goes wrong; its rows hold what was put last, every stake row below the upgrade height without a pool id has the legacy one, and no other row changes |
| BlockEffects.RunLogs | src/constants/daodao_cutoff.ts:57-58 | in every run the log of writes to DAO tables is that of the committed transactions: all rows of the snapshot, and one entry for each DAO statement of a block from the cutoff on |
| BlockLoop.BlockSync.Iteration | src/sync/sync_blocks.ts:42-145 | one loop iteration is one step of the run: fetch, index, count, or give up after the fourth error in a row |
| BlockLoop.BlockSync.StartSync | src/sync/sync_blocks.ts:30-146 | a whole life of the process, whatever its iterations meet, is the run of its steps from the stored height |
| BlockRuns.TryTellsTheTruth | src/sync/sync_blocks.ts:73-92 | for blocks and both snapshots: taken for done if and only if every statement succeeded and was committed; taken for failed leaves the database untouched |
| BlockRuns.StrayStatementsEscape | src/sync/sync_blocks.ts:73-92 | without the assumption on siblings a failed block leaves exactly their late statements behind |
| BlockRuns.BlockWritesEffect | src/constants/daodao_cutoff.ts:57-58 | stake rows and the log of writes to DAO tables, whatever these writes do, only grow by entries of the block's own height, the log only at or above the cutoff; the stored height becomes the block's |
| BlockRuns.DaoEffect | src/sync/daodao_snapshot.ts:128-141 | a committed DAO snapshot logs only writes of its own and sets the completed marker |
| BlockRuns.V7Effect | src/sync/v7_snapshot.ts:109-122 | a committed v7 snapshot relinks every legacy stake row and sets the completed marker, leaving height and DAO tables alone |
| BlockRuns.DaoCommitKeeps | src/sync/daodao_snapshot.ts:90-156 | the first DAO snapshot is taken at the cutoff itself and keeps the invariant of all runs |
| BlockRuns.V7CommitKeeps | src/sync/v7_snapshot.ts:71-136 | a v7 snapshot keeps the invariant of all runs |
| BlockRuns.BlockCommitKeeps | src/sync/sync_blocks.ts:73-92 | a block committed after the snapshots due before it keeps the invariant and is the next height |
| RunTheorems.TryBlockKeeps | src/sync/sync_blocks.ts:63-92 | however an attempt at a block ends, either nothing of the block is in and it is still next, or all of it is in once |
| RunTheorems.EveryRun | src/sync/sync_blocks.ts:30-146 | the invariant holds after every sequence of failures, rollbacks, kills and restarts |
| RunTheorems.ExactlyOnce | src/sync/sync_blocks.ts:33-37 | the database is the in-order replay of the committed transactions; their blocks are block 1, then 2 to the stored height once each; block 1 again only by a restart at stored height 1 |
| RunTheorems.OnceEach | src/sync/sync_chain.ts:42-51 | in such an order each height from 2 to the top occurs exactly once and no other does |
| RunTheorems.CommittedMeansSucceeded | src/sync_handlers/transaction_sync.ts:90-100 | in every run, no block or snapshot commits unless every statement in it succeeded, swallowed errors included |
| RunTheorems.SnapshotsOnce | src/sync/sync_blocks.ts:57-71 | each of the two snapshots commits at most once, at the very height it is due at and before any block from that height on; once such a block is in, it has been committed exactly once |
| RunTheorems.DaoWritesInOrder | src/constants/daodao_cutoff.ts:57-58 | writes to DAO tables made by events start at the cutoff and follow all writes of the snapshot |
| RunTheorems.StraysBreakReplay | src/sync/sync_blocks.ts:73-92 | a run in which one late sibling statement leaves a database that is no replay of what was committed |
| RunContent.DatabaseIsFold | src/sync/sync_blocks.ts:30-146 | for a chain that is a fixed function of height and database, the committed database is the fold of its content over the committed transactions, in every run |
| RunContent.PlaysOnIffNoneDueAtTwo | src/sync/sync_blocks.ts:33-37 | after each committed block the database is the chain played without failures (block 1, replayed or not, then 2 to the stored height, each after the snapshots due before it), in every run if and only if no snapshot is due at 2 |
| RunTheorems.BoundedIdleness | src/sync/sync_blocks.ts:119-144 | at every loop head the iterations without progress are at most 26 an error plus the empty fetches since, never more than 104 |
| ProcessRuns.LifeOfProcess | src/sync/sync_blocks.ts:30-146 | a process starts at block 1 or behind the stored height, goes on by one with every indexed block, and goes down exactly when it is killed or meets its fourth error since the last indexed block, every 26th empty fetch in a row being one |
| RunTheorems.EmptyFetchesCount | src/sync/sync_blocks.ts:119-144 | the bound is reached: with nothing but empty fetches the counters are n mod 26 and n div 26 and the process goes down at the 104th, no sooner |
| RunTheorems.SnapshotUndoneAtTwo | src/sync/sync_blocks.ts:33-37 | a run that breaks the v7 guarantee when the upgrade height is 2 |
| RunTheorems.V7SnapshotHolds | src/sync/v7_snapshot.ts:71-136 | after the v7 snapshot no row below the upgrade height has an empty pool id, in every run, if and only if the upgrade height is not 2 |
| EventPipeline.SyncEvents | src/sync_handlers/event_sync.ts:10-60 | the loop that mutates its one delayed function does what the recursive reading of one slot says, errors included |
| EventPipeline.NothingRunsTwice | src/sync_handlers/event_sync.ts:10-60 | in every block, fitting or not, a deferred function runs at most once and only if an event handed it back |
| EventPipeline.LoopRefinesSimpleTrace | src/sync_handlers/event_sync.ts:10-60 | when every deferral fits, each deferred function runs exactly once, immediately after its target event |
| EventPipeline.RunsIffAccepted | src/sync_handlers/event_sync.ts:50-58 | one deferred function, whatever the others do, runs if and only if the slot was free for it and its target lies behind it inside the block |
| EventPipeline.AllRunIffFits | src/sync_handlers/event_sync.ts:50-58 | all deferred functions run if and only if every deferral fits |
| WasmAttributes.GetWasmAttr | src/util/helpers.ts:33-42 | the first attribute with the key decides the value, and a key not there gives the empty string |
| WasmAttributes.WasmEvent.SplitAttributesByKeyValue | src/util/helpers.ts:54-111 | drops the first attribute of the event in place and returns, or throws, exactly as the two groupings say |
| WasmAttributes.GroupByAction | src/util/helpers.ts:83-93 | the loop that opens a group at every action computes the sequential grouping |
| WasmAttributes.CountActions | src/util/helpers.ts:100 | counts the attributes keyed action |
| WasmAttributes.Distribute | src/util/helpers.ts:102-107 | the modulo loop puts into group g exactly the attributes at indices g modulo the count, in order |
| WasmAttributes.ActionGroupsKeepAttributes | src/util/helpers.ts:83-93 | sequential grouping never loses, adds or reorders an attribute |
| WasmAttributes.ActionGroupsInvertConcat | src/util/helpers.ts:83-93 | it recovers any messages headed by their only action from their concatenation |
| WasmAttributes.ColumnOfLayout | src/util/helpers.ts:95-108 | in the grouped layout the attributes at indices g modulo the count are message g |
| WasmAttributes.SplitInvertsSequential | src/util/helpers.ts:54-111 | the messages come back from the sequential layout if and only if the first holds more than its action, or there are several and none does |
| WasmAttributes.SplitInvertsGrouped | src/util/helpers.ts:54-111 | messages sharing one key order come back from the grouped layout, a lone message without further attributes and the empty list alone excepted |
| WasmAttributes.SplitOfAnyList | src/util/helpers.ts:54-111 | on any attribute list: throws if and only if there is no action behind the address or nothing behind a lone one; otherwise the list is cut before every action if it starts with one action, and else dealt in turn to as many groups as there are actions |
| TokenEvents.SyncTokenEvent | src/sync_handlers/event_data_sync_wasm.ts:105-143 | one token event appends its movements up to the first mint to the ledger, balances following, and hands a mint back |
| TokenEvents.ProcessMessage | src/sync_handlers/event_data_sync_wasm.ts:112-141 | one message, by the first value of its from, to, amount and token_id: a transfer or burn becomes the row with these in their places, a mint is deferred with them, a transfer to self or a message naming neither side is skipped, an amount that is no number fails |
| TokenEvents.MessageIsRecorded | src/sync_handlers/event_data_sync_wasm.ts:112-141 | the same of the function the loop refines: who pays, who is paid, how much of which token, read off the attributes alone |
| TokenEvents.MessageMovesBalances | src/sync_handlers/event_data_sync_wasm.ts:121-139 | the receiver's balance rises by the amount and the sender's falls by it, minted without a sender and retired without a receiver; no other balance moves |
| TokenEvents.EventFailsWhere | src/sync_handlers/event_data_sync_wasm.ts:105-143 | a token event fails if and only if its attributes cannot be split or, before or at the first mint, a message moves an amount that is no number |
| TokenEvents.ProcessMessages | src/sync_handlers/event_data_sync_wasm.ts:112-141 | the message loop with its skips and early return computes the same |
| TokenEvents.RowsAreMovements | src/sync_handlers/event_data_sync_wasm.ts:112-141 | the rows are exactly the messages with a from or a to and from different from to, before the first mint, in order |
| TokenEvents.LayoutsAgree | src/sync_handlers/event_data_sync_wasm.ts:105-143 | one batch is handled alike in the sequential and the grouped layout |
| TokenEvents.BatchWithoutMints | src/sync_handlers/event_data_sync_wasm.ts:105-143 | a batch without mints ends in the same ledger and balances in both layouts: all its movements, in order |
| TokenEvents.ProcessRecordsNoSelfTransfer | src/sync_handlers/event_data_sync_wasm.ts:116-119 | no transfer to self is ever recorded, and only a mint is deferred |
| TokenEvents.HandledLedgerAgreesWithQuery | src/postgres/token.ts:389-416 | on ledgers the handler builds, an indexed amount is what the whole-ledger query returns |
| TokenLedger.TokenTables.ApplyTokenBalanceDelta | src/postgres/token.ts:51-73 | upsert, then deletion of an all-zero row, is addition to the row |
| TokenLedger.TokenTables.CreateTokenTransaction | src/postgres/token.ts:75-93 | appends one ledger row and keeps the balance table the index of the ledger |
| TokenLedger.IndexIsLedgerFold | src/postgres/token.ts:31-93 | each balance row is credits minus debits, minted to and retired by, over the whole ledger, and exists if and only if these are not all zero |
| TokenLedger.Conservation | src/postgres/token.ts:75-93 | per token, in every reachable state, the amounts of all addresses add up to total minted minus total retired |
| TokenLedger.TransfersKeepTotals | src/postgres/token.ts:75-93 | a transfer leaves all three totals of a token unchanged; with non-negative amounts nothing minted or retired ever decreases |
| TokenLedger.AccountQueryAgrees | src/postgres/token.ts:389-416 | the query's amount differs from the indexed one by exactly the recorded self-transfers |
| BlockLedger.QuietBlockWrites | src/sync_handlers/event_sync.ts:10-60 | over every block that does not raise, the ledger gains exactly each token event's rows in order, with a mint right behind the rows of the next event if and only if there is a next event and an even number of entity mints, or none, stands directly before the mint's event; every balance row exists and has its value by that ledger |
| BlockLedger.AcceptedIffSlotFree | src/sync_handlers/event_sync.ts:50-58 | what an event defers is accepted if and only if an even number of entity mints stands directly before it |
| BlockLedger.RaisesIffNotQuiet | src/sync_handlers/event_sync.ts:10-60 | a block raises if and only if one of its events does: a token event that fails, or another handler |
| BlockLedger.BlockWrites | src/sync_handlers/event_sync.ts:10-60 | so over a block whose deferrals fit each deferred mint is there, right behind the next event's rows |
| BlockLedger.SyncBlockEvents | src/sync_handlers/event_sync.ts:10-60 | the loop run on the tables raises when its trace does, and otherwise leaves the ledger with the rows of its trace, which are those just described, and the balances in step |
| BlockLedger.LostMints | src/sync_handlers/event_data_sync_wasm.ts:78-141 | two blocks that lose a mint: alone in the last event, and directly behind a lone entity mint; only the event's other rows are there |
| DaoStaking.SumRows | src/postgres/dao.ts:857-865 | adds up a contract's rows, whatever the order |
| DaoStaking.SumOfListing | src/sync/daodao_snapshot.ts:523-557 | copying a listing without repeats leaves its total plus the rows it does not mention |
| DaoStaking.DaoTables.ProcessCw20Stake | src/sync_handlers/event_data_sync_wasm_dao.ts:1111-1132 | adds to the staker's row and sets every linked module's total to the former sum plus the amount |
| DaoStaking.DaoTables.ProcessCw20Unstake | src/sync_handlers/event_data_sync_wasm_dao.ts:1134-1158 | takes from the row, deleting it at zero, and sets every linked total |
| DaoStaking.DaoTables.ProcessNativeStake | src/sync_handlers/event_data_sync_wasm_dao.ts:728-747 | adds to the row and to the module's own total; fails where the module does not exist |
| DaoStaking.DaoTables.ProcessNativeUnstake | src/sync_handlers/event_data_sync_wasm_dao.ts:800-823 | takes from both, deleting a row at zero |
| DaoStaking.DaoTables.ProcessNftEvent | src/sync_handlers/event_data_sync_wasm_dao.ts:707-769 | inserts the re-queried tokens, after clearing the staker's rows on unstake, and recounts the module |
| DaoStaking.DaoTables.ProcessLinkStaking | src/sync_handlers/event_data_sync_wasm_dao.ts:930-967 | links the module first and then sets all linked totals to the sum, unless the config query is unreadable in between |
| DaoStaking.DaoTables.ProcessLinkGroup | src/sync_handlers/event_data_sync_wasm_dao.ts:900-916 | takes the group's weight sum as total and joins the group |
| DaoStaking.DaoTables.ProcessInstantiateGroup | src/sync_handlers/event_data_sync_wasm_dao.ts:1281-1291 | a new group's members are replaced by a non-empty listing and no total is touched |
| DaoStaking.DaoTables.ProcessUpdateMembers | src/sync_handlers/event_data_sync_wasm_dao.ts:1238-1258 | replaces the group's members by a non-empty listing and sets joined totals to the listing's sum |
| DaoStaking.DaoTables.CreateVotingModule | src/postgres/dao.ts:490-516 | adds a module with total 0, or leaves the one that is there |
| DaoStaking.DaoTables.SnapshotCw4Members | src/sync/daodao_snapshot.ts:509-521 | the same step as a membership update, and nothing when the listing is empty; what it leaves is in `StepLeaves` |
| DaoStaking.DaoTables.SnapshotCw20Stakers | src/sync/daodao_snapshot.ts:523-545 | upserts the listing and sets linked totals to its running sum; an empty listing changes nothing |
| DaoStaking.DaoTables.SnapshotNativeStakers | src/sync/daodao_snapshot.ts:559-584 | the same for a native module |
| DaoTotals.ResetTotals | src/postgres/dao.ts:567-575 | setting linked totals settles all modules if and only if the number set is the contract's sum, or none is linked |
| DaoTotals.StepSettles | src/sync_handlers/event_data_sync_wasm_dao.ts:1110-1158 | after any handler or snapshot step every total equals the sum, or count, of its rows if and only if the step is none of the five harmful ones |
| DaoRuns.RunSettles | src/sync_handlers/event_data_sync_wasm_dao.ts:728-967 | from empty tables, after any run without a harmful step, every total is right |
| DaoRuns.AbandonedLink | src/sync_handlers/event_data_sync_wasm_dao.ts:941-966 | a link abandoned on an unparseable config leaves a module at 0 beside a stake |
| DaoRuns.EmptiedGroup | src/sync_handlers/event_data_sync_wasm_dao.ts:1246-1258 | a group reported empty leaves a total of 0 beside the rows it keeps |
| DaoRuns.NoZeroRows | src/sync_handlers/event_data_sync_wasm_dao.ts:1110-1158 | with positive amounts and no unstake beyond the stake, no staker row is ever zero or negative |
| DaoRuns.RowsAreNet | src/sync_handlers/event_data_sync_wasm_dao.ts:1110-1158 | a staker's row is the net of that staker's own events since the last snapshot listing them, and exists if and only if that is positive |
| DaoRuns.RowsMeetChain | src/sync/daodao_snapshot.ts:523-584 | from the cutoff on a row exceeds the chain's stake by the net of the staker's moves in the cutoff block, so it is right if and only if they net to nothing |
| DaoRuns.SelfHeal | src/sync_handlers/event_data_sync_wasm_dao.ts:707-769 | after a staker's events in a block the cw721 rows are the end-of-block set if and only if one was an unstake or no stale row existed; other stakers keep theirs |
| DaoRuns.RowsCatchUp | src/postgres/dao.ts:877-911 | rows within the set held before the block are the set held after it, whatever moves happened |
| DaoEffects.StepLeaves | src/sync_handlers/event_data_sync_wasm_dao.ts:707-1291 | every handler and snapshot pass field by field: when a statement of it fails, which rows it writes, adds or removes and with what amounts, which totals it sets and to what, whom it links and joins, and that all else stays |
| DaoEffects.MembersAndLinks | src/sync_handlers/event_data_sync_wasm_dao.ts:900-967 | after any run a group's members are those of its last non-empty listing, account by account, and a module exists if and only if it was created, with its first kind and the contract and group it was last linked to and joined to |
| DaoEffects.HeldTotal | src/postgres/dao.ts:857-865 | rows that are a listing's add up to the listing's total |
| DaoSnapshot.SnapshotSettles | src/sync/daodao_snapshot.ts:181-255 | on a fresh database the passes, in their order, never refer to a missing row and leave every module's total right |
| DaoSnapshot.SnapshotLeaves | src/sync/daodao_snapshot.ts:162-262 | on a fresh database member, cw20 and native staker rows are the chain's listings account by account and no others; the modules are those on record, linked and joined as the chain answered, each with the total of its listing as weight |
| DaoSnapshot.RunSnapshot | src/sync/daodao_snapshot.ts:162-262 | the loops over modules, groups and stakers do those passes in place, fail exactly when a pass cannot be applied, and on fresh tables leave what was just said |
| ArchiveApi.FetchStopsAtFirst | src/util/archive-api.ts:37-71 | the answer is the first reply that is final; to be retried are a lost network, 429, 502, 503, 504, and 500 unless its body is an envelope that does not speak of a future height |
| ArchiveApi.FourFetches | src/util/archive-api.ts:109-191 | a call gives up if and only if all four fetches were worth retrying |
| ArchiveApi.ArchiveClient.CleanupOldHeights | src/util/archive-api.ts:23-27 | moves the watermark up and empties the cache, or does nothing |
| ArchiveApi.ArchiveClient.Begin | src/util/archive-api.ts:90-107 | a call up to its first await: watermark and cache, then an answer at once or a call in flight; in a log that keeps to the condition an answer at once is the archive's at the requested height |
| ArchiveApi.ArchiveClient.FetchWithRetries | src/util/archive-api.ts:109-191 | the bounded retry loop stops at the reply that decides |
| ArchiveApi.ArchiveClient.End | src/util/archive-api.ts:117-125 | a reply is stored on arrival under whatever height the cache has by then, and answers its own call with the archive's value |
| ArchiveApi.ArchiveClient.QueryArchiveApi | src/util/archive-api.ts:90-197 | cache, watermark and answer of a call nothing happens during, bypassing or not |
| ArchiveApi.AskIsIssueThenArrive | src/util/archive-api.ts:90-197 | such a call is its issue alone when the cache answers it, which leaves nothing in flight, and its issue followed at once by its reply otherwise |
| ArchiveApi.CacheInvisible | src/util/archive-api.ts:20-27 | for calls that do not overlap: if non-bypassed heights never decrease, every answer is the archive's at the requested height, bypassing calls interleaved anywhere |
| ArchiveApi.InvisibleIffForward | src/util/archive-api.ts:90-105 | for calls that do not overlap that condition is exact: any run that goes back in height can be given a wrong answer |
| ArchiveApi.OverlappingCalls | src/util/archive-api.ts:90-125 | over a timetable of overlapping calls, for every set of two paths or more: all answers are right, whichever of them are asked for and whatever is held, if and only if each call that may read what another stored is for the same height |
| ArchiveApi.SafeIffForwardAndNoneOvertaken | src/util/archive-api.ts:90-125 | answers are right, whatever is held, at every moment of a run and however it goes on at the cache's height, if and only if heights never decrease and no call is issued for another height while one waits for the network |
| ArchiveApi.HitIsNotOvertaken | src/util/archive-api.ts:101-105 | fetched, answered from the cache, and asked for at the next height is a run that keeps to that condition |
| ArchiveApi.OvertakenReply | src/util/archive-api.ts:103-124 | rising heights are not enough: a reply overtaken by a call for the next height is served to the next call for its path |
| ScopedCache.TimelyIsRight | src/util/archive-api.ts:101-124 | on every timetable in which calls read only what was asked for their own height, each answer, from the cache or the network, is the archive's at the requested height |
| ScopedCache.InvisibleIffTimely | src/util/archive-api.ts:101-124 | and on every other one some archive and some requests make an answer wrong |
| CacheLogs.InStepIsRight | src/util/archive-api.ts:101-124 | in a log in which all that is in flight is always for the cache's height, and every request leaves the cache at its own, each answer is the archive's |
| CacheLogs.InStepMeans | src/util/archive-queries.ts:832-869 | which for either cache means no request for another height while one waits for the network, and for the one cleared by rising heights that they never decrease besides |
| CacheLogs.InvisibleIffOwnHeight | src/util/archive-api.ts:101-124 | under every archive the answers of one log are right if and only if each was fetched for the height it answers |
| CacheLogs.SafeIffInStep | src/util/archive-api.ts:101-124 | a log can go on safely at the cache's height from every moment, whatever is held, if and only if it keeps in step |
| ArchiveQueries.RestAfter | src/util/archive-queries.ts:615 | the last key of a page, as cursor, continues with the very next key |
| ArchiveQueries.ListAll | src/util/archive-queries.ts:593-618 | the listing comes back whole, in order, without repeats if and only if pages are as large as asked or all fits in one; one request more than there are full pages |
| ArchiveQueries.Snapped | src/util/archive-queries.ts:810 | the next multiple of 100, less than 100 later, and the height itself if and only if it is one |
| ArchiveQueries.CacheKeyInjective | src/util/archive-queries.ts:831 | two pairs whose granters hold no colon never share a cache entry |
| ArchiveQueries.ColonsCollide | src/util/archive-queries.ts:831 | with colons they can |
| ArchiveQueries.AuthzQueries.ReadGrants | src/util/archive-queries.ts:840-868 | following next keys, a hundred grants a request, returns the whole list if and only if every request was served, and else the error of the first that was not |
| ArchiveQueries.AuthzQueries.BeginSnap | src/util/archive-queries.ts:831-839 | a snapped query up to its first await: the cache moves to its height, then an answer at once or a query in flight; in a log in which none was overtaken an answer at once is the archive's at the query's height |
| ArchiveQueries.AuthzQueries.EndSnap | src/util/archive-queries.ts:840-871 | the pages read, a whole list, the archive's at the query's height, is stored without another look at the cache's height; the cache stays right if that is still the query's |
| ArchiveQueries.AuthzQueries.AuthzGrantsAt | src/util/archive-queries.ts:825-871 | cached or fetched, the answer to a query nothing happens during is the archive's at the given height, whatever heights were asked before |
| ArchiveQueries.OverlappingSnaps | src/util/archive-queries.ts:832-869 | overlapping snapped queries are answered right, whichever pairs are asked for and whatever grants are held, if and only if each that may read what another stored is for the same height |
| ArchiveQueries.SnapsSafeIffNoneOvertaken | src/util/archive-queries.ts:832-869 | that can be relied on at every moment if and only if none is snapped to another height while one waits for the network, in any height order |
| ArchiveQueries.PairKeys | src/util/archive-queries.ts:831 | the strings that hold a colon are exactly the cache keys of pairs with a colon-free granter |
| ArchiveQueries.KeyStandsForPair | src/util/archive-queries.ts:831 | a cache key of a colon-free granter stands for its pair alone |
| ArchiveQueries.AuthzQueries.AuthzGrantsQuery | src/util/archive-queries.ts:805-823 | a height is remembered if and only if it is no multiple of 100 and the first request not served was refused as pruned; until then a query nothing happens during has the outcome of its requests at the height itself, and from then on, that query included, the list at the next multiple of 100, answered if its requests are served or the cache holds it, and kept in the cache |
| AuthzGrants.TableIsHistory | src/postgres/authz.ts:24-113 | a key is present if and only if its latest grant-or-revoke is a grant and no sweep since reached the expiration then stored; its payload is the last given, its provenance the grant's |
| AuthzGrants.RefreshKeepsGrants | src/postgres/authz.ts:84-113 | a refresh adds and removes no key, changes one payload at most and no provenance |
| AuthzGrants.OnlyGrantsAdd | src/postgres/authz.ts:84-113 | a key swept, revoked or never granted comes back only by a grant |
| AuthzGrants.AfterEachBlock | src/sync/sync_blocks.ts:85-88 | with block times that never decrease no row outlives a block that reached its expiration, and an unrefreshed grant stands exactly while the last block has not reached it |
| AuthzGrants.FirstMatch | src/sync_handlers/event_data_sync.ts:515-521 | the first live grant for the message type, and none if and only if there is none |
| AuthzGrants.GrantIsRecorded | src/sync_handlers/event_data_sync.ts:454-542 | no grant event is lost: its row has its own provenance, bare if no payload is found, unless a richer event follows |
| AuthzGrants.CompanionsAgree | src/sync_handlers/event_data_sync.ts:499-590 | the two events of an entity grant together write its one full row, those of its revocation remove it, and no other row changes |
| AuthzGrants.AuthzIndex.UpsertAuthzGrant | src/postgres/authz.ts:24-53 | keeps the table the one of its history, one upsert longer |
| AuthzGrants.AuthzIndex.DeleteAuthzGrant | src/postgres/authz.ts:58-68 | the same for a revoke |
| AuthzGrants.AuthzIndex.RefreshAuthzGrantPayload | src/postgres/authz.ts:88-113 | the same for a refresh, reporting one row if and only if the key was there |
| AuthzGrants.AuthzIndex.DeleteExpiredAuthzGrants | src/postgres/authz.ts:75-82 | the same for a sweep, reporting how many rows went |
| AuthzGrants.AuthzIndex.SyncEvent | src/sync_handlers/event_data_sync.ts:454-590 | a revocation removes its row; a grant writes its own row with the message's payload, the first live one, the fixed or the bare one, unless a richer event follows; a consumption replaces the payload of a row that is there; every other row, and the table after any other event, stays |
| AuthzGrants.ActionLeaves | src/sync_handlers/event_data_sync.ts:454-590 | the same of the action chosen for an event, whatever the table |
| AuthzGrants.AuthzIndex.SyncBlock | src/sync/sync_blocks.ts:76-88 | the table goes through the block's events in order, after each as that event says, and then loses exactly the rows expired by the block's time |
| ExecAttribution.ChainFindsFirst | src/util/authz.ts:131-167 | from the message on: nothing if and only if it is missing, is no MsgExec that decodes, or holds no match; otherwise the grantee around the first match |
| ExecAttribution.WalkFindsFirst | src/util/authz.ts:131-167 | the grantee of the MsgExec directly around the first match in depth-first order through non-empty grantees, and nothing if and only if there is none |
| ExecAttribution.PruningIsInvisible | src/util/authz.ts:143-158 | undecodable branches anywhere do not change the result |
| LongDecimal.OrIsSum | src/util/authz.ts:28 | or-ing an unsigned low word under a shifted high word, negative or not, is adding it |
| LongDecimal.LongRoundTrip | src/util/authz.ts:27-30 | every 64-bit value, signed or unsigned, comes back from its two signed halves as its decimal |
| LongDecimal.DecimalReadsBack | src/util/authz.ts:27-30 | and that decimal stands for that value and no other |

## Left out

- SQL text, connection pools, HTTP, sleeps, timeouts, logging and migrations: plumbing; a statement succeeds or fails, a fetch answers or not.
- A query the client gives up on while the server still finishes it: taken for a failure of the server too.
- JavaScript numbers: staking amounts and totals are exact integers here, which holds below 2 to the 53rd.
- Handlers that copy fields into one row (IID, entity, bond, names, liquidstake pools): in the block loop they are writes to unnamed rows.
- Claims queues of unstaking (`insertDaoStakingClaim`): appended after the staking rows, never read back by them.
- The registries behind staking contracts and groups: a missing registry row fails the statement and rolls the block back, which adds no committed state.
- A voting module event with both a staking contract and a group is two steps here, in the code's order.
- The snapshot passes over proposals, pre-propose modules and DAO cores: in the block loop they are snapshot rows, in `DaoSnapshot` they are not modelled.
- Same-block visibility of a token class: the lookup reads committed rows only (src/postgres/token.ts:154-161); a token event here is one whose class is known.
- Protobuf and base64 decoding: trees arrive decoded, with leaves for what does not decode.
- BigInt of an amount: a given function that yields an integer or fails.
- The map from an authorization to its message type (`msgTypeUrlForAuthorization`): a lookup table; live grants carry its result.
- The archive behind authz queries is asked directly; the response cache in front of it changes no exact-height answer under the condition of `SafeIffForwardAndNoneOvertaken`.
- Swap, bonds and epoch handlers, and floating-point conversions: library rounding or one row in, one row out.
