# Verified model of the EVM benchmark

A Dafny model of the parts of the benchmark whose correctness is not visible from one function: the
hand-assembled ERC-20 bytecode of the reth devnet and the load sent to it, the concurrent signer and sender,
the pacing of replacement transactions, block statistics and waiting on a shared chain, and the encoders,
merges and sums around them. `dafny verify dfyconfig.toml` checks all of it.

Two chains of modules carry results from one end to the other.

- **Token load.** `Evm` interprets the opcodes the token uses (Yellow Paper, section 9 and Appendix H; PUSH0 is
  EIP-3855). `TokenCode` holds the bytes and their listing, `TokenRun` one lemma per instruction, and `Token` proves
  that the bytes refine an abstract token. `TokenSupply` and `TokenGenesis` conserve the supply from genesis,
  `Calldata` and `HotShare` describe what the generator sends, and `TokenLoad` shows a whole generated load
  running through the bytes without a revert.
- **Sending.** `Broadcast` is the worker protocol as steps over shared state. `BroadcastAccount` proves exactly-once
  sending, `BroadcastTally` what is reported of the answers, `BroadcastProgress` how few steps a run has, `BroadcastOrder` per-channel order, `PoolGate` the
  recorded depth and the pool bound, `PoolOverrun` exactly which loads can break it, `PoolLooks` when workers look at the
  pool and what they make of it, and `SendOptions` what a caller's options come to.
  `Streams` builds the channels, and `TempoNonces` follows one account's nonces from signing to the node.
  `Signing` is the parallel signer and `Funding` the top-up from account 0.

Besides these: `Unstick`, `UnstickProgress` and `PooledTops` (replacement pacing), `BlockStats` and `BlockRates`
(per-second statistics), `WaitForTxs`, `Rlp` and `TempoTx` (the 0x76 envelope; RLP is Yellow Paper, Appendix B),
`Launcher` (read back by XCU sections 2.2 and 2.3 of POSIX.1-2017), `Trees` and `DeepMerge`, and the libraries
`Arithmetic`, `Bytes`, `Stepping` and `Sums`.

## Form and assumptions

Code that updates fields, arrays or maps is a class or a method with the source's loops, proved against a
specification function; goroutines are step relations, and a run is any sequence of enabled steps. Requests,
clocks and schedules are nondeterministic inputs. `keccak`, signing and the node are function parameters.

The lemmas name what they rely on: balance slots of the run's own accounts that differ, where their balances are told
apart, and keccak's four selector bytes where calldata meets code; block timestamps that never decrease and positive
heights; an on-chain nonce that never goes down; an own hash in at most one block; uint64 products below 2^64
where the code multiplies uint64 values; RLP payloads below 2^64 bytes.

A request that ends may leave transactions that are neither in the pool nor refused: it was never answered, or the node
keeps them behind a missing nonce. The node may admit these at any later time, so the pool bound counts them.

Where the code does less than its comments say, the model follows the code and proves the exact condition:

- The watermark cannot hold back what the node admits after its request failed: the pool stays within the watermark and
  one batch per worker plus the transactions of failed requests (`PoolGate.PoolBoundedByFailures`), and without that
  allowance only when the load is no larger (`PoolOverrun.AlwaysWithinIff`).
- `WaitForTxs` counts quiet blocks from the first head it sees, so on a node behind the start block it can give up on
  blocks nobody read (`WaitForTxs.GivingUpIff`).
- `outbid` adds a quarter in whole units, so a price of 1 to 3 never rises (`Unstick.OutbidRaises`,
  `UnstickProgress.ClearsIff`).
- The last second's rate does depend on the first block after the load (`BlockRates.AppendKeepsRates`).
- The fee reserve covers fees rounded down plus the unit each transaction transfers; with fees rounded up it misses
  one unit per transaction unless nothing is rounded (`Funding.ReserveCovers`).
- The funding amount, the checked fee product and twice the gas price are cut to 64 bits (`Funding.PaysReserveIff`,
  `Funding.CheckedFeesExactIff`, `Funding.MaxFeeIff`).
- A patch with a leaf where its neighbours have objects makes merging non-associative (`Trees.AssociativeIff`).

## Model

| member | source | states |
|---|---|---|
| TokenCode.Layout | internal/activities/reth_devnet.go:63-72 | the code is 142 bytes and each fragment of the literal starts at the offset the comment gives |
| TokenCode.TokenListing | internal/activities/reth_devnet.go:43-72 | decoding the bytes at every reached offset gives the instructions of the commented listing |
| TokenCode.JumpTargets | internal/activities/reth_devnet.go:44-59 | 0x1b, 0x79 and 0x8a are JUMPDEST instructions reached on instruction boundaries, not push data |
| TokenCode.TopicValue | internal/activities/reth_devnet.go:54 | the pushed 32 bytes are the Transfer event topic |
| Token.RunsSelector | internal/activities/reth_devnet.go:43 | from the start, four steps leave the call's selector on the stack, whatever the calldata length |
| Token.RunsNoMatch | internal/activities/reth_devnet.go:44-46 | a selector that is neither known one reverts |
| Token.RunsBalanceOf | internal/activities/reth_devnet.go:56-58 | balanceOf returns the storage word at keccak(owner . 0) |
| Token.RunsShort | internal/activities/reth_devnet.go:50-59 | a balance below the amount reverts with storage as it was |
| Token.RunsDebit | internal/activities/reth_devnet.go:48-50 | the from slot is debited by the amount |
| Token.RunsCredit | internal/activities/reth_devnet.go:51-52 | the to slot is read again after the debit and credited modulo 2^256 |
| Token.RunsLog | internal/activities/reth_devnet.go:53-54 | Transfer(from, to, amount) is logged with three topics and the amount as data |
| Token.RunsReturnTrue | internal/activities/reth_devnet.go:55 | the word 1 is returned |
| Token.RunsTransfer | internal/activities/reth_devnet.go:47-59 | the transfer branch halts in the abstract token's transfer outcome within the steps left |
| Token.BytesRefineToken | internal/activities/reth_devnet.go:39-72 | for every calldata, caller, storage and keccak, the bytes halt within 64 steps without stack underflow or a bad jump, in exactly the abstract token's outcome: storage, return data, log or revert |
| TokenSupply.TotalUpdate | internal/activities/reth_devnet.go:49-52 | storing a word changes the sum of all storage words by the difference to the old one |
| TokenSupply.MoveBetween | internal/activities/reth_devnet.go:49-52 | debit then re-read then credit keeps the sum and never wraps, also when both slots are one |
| TokenSupply.MovedExactly | internal/activities/reth_devnet.go:48-52 | while the total is below 2^256 a transfer, self-transfers included, moves exactly its amount |
| TokenSupply.CallKeepsSupply | internal/activities/reth_devnet.go:39-72 | any one call of the bytes keeps the sum of all storage words |
| TokenSupply.SupplyConserved | internal/activities/reth_devnet.go:39-72 | any finite sequence of calls by anyone keeps the sum of all storage words |
| TokenGenesis.SlotsAgree | internal/activities/reth_devnet.go:161-165 | the slot genesis writes for an address is the slot the bytes compute for it |
| TokenGenesis.TokenStorage | internal/activities/reth_devnet.go:105-114 | the loop over the signers and the seeded hot recipient produce the specified genesis storage |
| TokenGenesis.GenesisBalances | internal/activities/reth_devnet.go:35-36 | every sender holds 2^128, the hot recipient 1, and the storage sums to senders * 2^128 + 1 |
| TokenGenesis.GenesisSupply | internal/activities/reth_devnet.go:104-120 | from genesis, after any calls, the storage words sum to exactly senders * 2^128 + 1 while that is below 2^256 |
| Calldata.TransferReads | internal/tempotx/tip20.go:48-51 | the bytes read back from transfer calldata the selector, the recipient and the amount it was built from |
| Calldata.BalanceOfReads | internal/tempotx/tip20.go:43-46 | likewise for balanceOf calldata and its holder |
| Calldata.TransferInjective | internal/tempotx/tip20.go:39-51 | equal transfer calldata means equal recipient and amount |
| HotShare.HotStep | internal/bench/txgen.go:149-152 | where no uint64 product wraps, a nonce is hot exactly when the running floor grows, and it grows by one |
| HotShare.WindowCount | internal/bench/txgen.go:145-152 | any window of nonces holds the difference of two floors of hot ones |
| HotShare.WindowShare | internal/bench/txgen.go:145-152 | any window of n nonces is within one of n * percent / 100 hot ones, and the whole run has its floor |
| TokenLoad.TransferSucceeds | internal/bench/txgen.go:129-143 | a generated transfer from a sender with any balance returns true and moves one unit, through bytes and calldata |
| TokenLoad.LoadBalances | internal/bench/txgen.go:129-152 | after any prefix of any interleaving each sender has lost its hot transfers so far and the hot recipient has gained all of them |
| TokenLoad.LoadNeverReverts | internal/bench/txgen.go:129-143 | no transaction of the load reverts, in any interleaving of the accounts |
| TokenLoad.HotRecipientShare | internal/bench/txgen.go:145-152 | once all is sent the hot recipient holds 1 + accounts * floor(NumTxs * percent / 100) |
| Broadcast.StepHasEffect | internal/bench/rpc.go:394-432 | each step of a sending worker takes, drops, holds, sends, lands, answers or tallies one batch and leaves the other batches, the log and the tally as they are; when it looks at the pool is stated by PoolLooks |
| BroadcastAccount.EffectKeepsAccount | internal/bench/rpc.go:394-432 | sent, held and queued transactions add up to the input in every additive measure, and fall short only once cancelled |
| BroadcastAccount.RunsLeaveEmpty | internal/bench/rpc.go:398-408 | in every run that is not cancelled, a worker that left did so on an empty channel |
| BroadcastAccount.ExactlyOnce | internal/bench/rpc.go:373-434 | for every interleaving nothing is submitted more often than queued, and an uncancelled run that ends submitted each transaction exactly once |
| BroadcastAccount.RunsKeepTally | internal/bench/rpc.go:422-432 | refused, failed and untallied transactions stay among those sent, with at most one refusal per transaction |
| BroadcastAccount.TallyWithinSent | internal/bench/rpc.go:436-448 | Rejected + Failed is at most Sent in every reachable state |
| BroadcastTally.TallyExact | internal/bench/rpc.go:422-448 | once every worker is done, Rejected is the number of refusals in all answers and Failed the number of transactions in requests without one |
| BroadcastProgress.StepsBounded | internal/bench/rpc.go:277-307 | every run: the steps of workers and node are bounded by a budget fixed by the load plus a fixed cost for each time a worker looks at a deep pool again; lost compare-and-swaps cost nothing extra |
| BroadcastProgress.StepWorks | internal/bench/rpc.go:285-307 | each step leaves less work, a won swap pays for all it defeats, and only another look at a deep pool adds work |
| BroadcastProgress.WaitingIs | internal/bench/rpc.go:394-432 | the budget of a queue is one step per transaction and a fixed number per batch |
| BroadcastProgress.CanFinish | internal/bench/rpc.go:394-434 | from every reachable state the run can be completed within the work left, every worker done; nobody waits for anyone |
| BroadcastOrder.WorkerOrder | internal/bench/rpc.go:394-432 | with a channel each, what a worker sent is a prefix of its channel, and all of it when it is done |
| BroadcastOrder.OneChannelOrder | internal/bench/rpc.go:329-333 | transactions that sit in one channel are submitted in its order, seen over all workers |
| PoolGate.SwapKeepsDepth | internal/bench/rpc.go:285-290 | a compare-and-swap, lost or won, leaves every sample recorded or still held by a worker |
| PoolGate.DeepestIsMaximum | internal/bench/rpc.go:285-290 | whatever the interleaving of loads and swaps, the recorded depth ends as the maximum of all samples, -1 before any above it |
| PoolGate.RunsKeepGate | internal/bench/rpc.go:277-307 | when every batch is gated, the pool, all that may land before its sender samples again and all that may land late stay within watermark + workers * batch size + what ended its request unsettled |
| PoolGate.PoolWithinTotal | internal/bench/rpc.go:374-383 | the pool never exceeds the load, unanswered requests included, which is why a load below the watermark need not be gated |
| PoolGate.PoolBounded | internal/bench/rpc.go:277-307 | with true pool reads and no timed-out wait, executable depth never exceeds watermark + workers * batch size + transactions whose request ended before they were in the pool or refused, in any interleaving |
| PoolGate.PoolBoundedByFailures | internal/bench/rpc.go:235-237 | when an answer settles its request, the excess is at most the transactions of requests never answered, and none when all were answered |
| PoolOverrun.AlwaysWithinIff | internal/bench/rpc.go:235-237 | with requests that may go unanswered, watermark + workers * batch size holds in every such run exactly when the whole load is no larger |
| PoolOverrun.Overruns | internal/bench/rpc.go:277-307 | a gated load has such a run that puts all of it into the pool: every request unanswered, every read true and empty, then all admitted at once |
| PoolLooks.CheckLooksIff | internal/bench/rpc.go:398-411 | in every run, told from its steps alone: a worker looks at the pool exactly when what it sent since its last look, with the batch at hand, reaches 256, or any batch when the watermark is below the load; otherwise it sends |
| PoolLooks.LooksInTime | internal/bench/rpc.go:375-383 | what a worker sent since its last look stays below 256 when the load is within the watermark, and is nothing otherwise |
| PoolLooks.EveryBatchLooked | internal/bench/rpc.go:375-411 | with the watermark below the load, every batch sent follows a look at the pool of its own |
| PoolLooks.SampleSendsIff | internal/bench/rpc.go:280-284 | a pool that cannot be read lets the batch through |
| PoolLooks.JudgeSendsIff | internal/bench/rpc.go:291-305 | a batch is sent exactly when the depth its worker read last is within the watermark, or a wait has timed out, now or earlier in the run; else it waits for another look or is dropped with the context |
| PoolLooks.TimeoutReported | internal/bench/rpc.go:294-300 | after a wait on a deep pool has timed out, PoolStalled holds for the rest of the run |
| PoolLooks.TimeoutEndsWaits | internal/bench/rpc.go:291-293 | and whatever any worker judges from then on is sent |
| PoolLooks.ReportedDepth | internal/bench/rpc.go:439-449 | of a finished run the recorded depth is the greatest answer of the pool, and below 0 exactly when there was none of 0 or more |
| SendOptions.RawAsked | internal/bench/rpc.go:317-327 | a shared send has max(concurrency, 1) workers, batches of at most max(batch size, 1) and the watermark the options mean |
| SendOptions.StreamsAsked | internal/bench/rpc.go:334-348 | a send of streams has no more workers than streams |
| SendOptions.WatermarkHolds | internal/bench/rpc.go:361-371 | for the options as given: a positive watermark, or 5000 for 0, bounds the pool up to one batch per worker and what ended unsettled |
| SendOptions.GatedLoadLooks | internal/bench/rpc.go:374-383 | a watermark of 0 or more below the load, with 5000 for 0, has every batch look at the pool; any other load is looked at every 256 transactions |
| SendOptions.NegativeNeverPauses | internal/bench/rpc.go:361-371 | a negative watermark never holds a batch back, and the pool is read every 256 transactions |
| Streams.Channel.Send | internal/bench/rpc.go:354 | a send needs room in the buffered channel |
| Streams.ChunksJoin | internal/bench/rpc.go:350-358 | batches concatenate back to the load, are never empty or above the size, and only the last is shorter |
| Streams.Chunk | internal/bench/rpc.go:350-358 | filling the channel never blocks, and leaves exactly the batches, closed |
| Streams.RawTxsSendOnce | internal/bench/rpc.go:318-327 | the shared queue submits the load exactly once for all options, with Rejected + Failed at most its length |
| Streams.Gather | internal/bench/rpc.go:339-342 | the strided loop gathers exactly the streams with index w modulo workers, in order |
| Streams.StreamQueues | internal/bench/rpc.go:334-348 | each worker gets its own closed channel with its streams in batches, and total counts what was queued |
| Streams.SharesAddUp | internal/bench/rpc.go:337-345 | every stream goes to exactly one worker |
| Streams.StreamsSendOnce | internal/bench/rpc.go:329-348 | an uncancelled run over streams submits every stream's transactions, each exactly once |
| Streams.StreamOrder | internal/bench/rpc.go:329-333 | for transactions told apart by any mark that one stream alone carries, what has been submitted of them is at every moment a prefix of that stream's, and all of it at the end |
| Signing.WorkerCount | internal/bench/txgen.go:27-29 | at least one worker whenever there is an account, at most eight, and cores left over |
| Signing.SignAccountTxs | internal/bench/txgen.go:99-127 | the error of the key derivation, all nonces in order, or the error of the first that fails |
| Signing.SignSequentially | internal/bench/txgen.go:80-96 | the emission loop with each account signed in place is the sequential reference |
| Signing.StepKeepsPlace | internal/bench/txgen.go:60-78 | each account is queued, with one worker, in its slot, or taken: one of these, always |
| Signing.StepKeepsTaken | internal/bench/txgen.go:60-85 | an account the emitter has taken is with no worker and in no slot again |
| Signing.RefinesSequential | internal/bench/txgen.go:49-97 | under every schedule the callback sees a prefix of the sequential sequence, and a call that returns ends exactly as the sequential one |
| Signing.WorkersNeverBlock | internal/bench/txgen.go:60-65 | no worker can block, even after the emitter returned early |
| Signing.EmitterNeverStarves | internal/bench/txgen.go:80-85 | while the emitter has not returned, it or a worker can step |
| Signing.SchedulesEnd | internal/bench/txgen.go:66-97 | every schedule has at most as many steps as the load allows |
| Signing.CanReturn | internal/bench/txgen.go:60-97 | from every reachable state some schedule makes the call return |
| Signing.GivenInAccountOrder | internal/bench/txgen.go:31-42 | the callback gets the accounts' transactions in order, up to the first one it refuses or the first account that fails to sign, and that error is returned |
| TempoNonces.NonceLanes | internal/activities/tempo_txgen.go:41-49 | at least one lane, and exactly one for the swap shape |
| TempoNonces.NonceIsQuotient | internal/activities/tempo_txgen.go:114-150 | transaction i of an account carries its lane's start plus i / lanes |
| TempoNonces.SignAccount | internal/activities/tempo_txgen.go:114-151 | the loop with a counter per lane yields transaction i on key base + i mod lanes with its lane's start plus i / lanes, in uint64 arithmetic |
| TempoNonces.TxAt | internal/activities/tempo_txgen.go:107-150 | where base + lanes stays within 2^64 the keys are base to base + lanes - 1 in turn; the default of base 0 and one lane is key 0 throughout |
| TempoNonces.Generate | internal/activities/tempo_txgen.go:153-175 | in whatever order the signers finish, the load is the accounts' transactions in account order, and there is none exactly when an account failed or the run was cancelled |
| TempoNonces.Slice | internal/activities/stateless.go:560-566 | the slicing loop cuts the load into runs of NumTxs |
| TempoNonces.SlicesRecover | internal/activities/stateless.go:560-566 | those slices are the accounts' lists again |
| TempoNonces.AccountFunded | internal/activities/runtime_tempo.go:138-142 | every account index used by any node lies in the funded range and is not the validator's |
| TempoNonces.AccountsDisjoint | internal/activities/tempo_txgen.go:92-96 | nodes draw disjoint account slices |
| TempoNonces.NoTwoShare | internal/activities/tempo_txgen.go:92-151 | across all nodes no two transactions share account, nonce key and nonce |
| TempoNonces.LaneConsecutive | internal/activities/tempo_txgen.go:107-150 | an account's transactions on one key carry start, start + 1, ... with no gap or repeat |
| TempoNonces.NoncesInOrder | internal/activities/stateless.go:560-568 | from signing to the node, for every interleaving: the transactions submitted for account node * accounts + a + 1 and key base + lane have consecutive nonces from the start, all of them at the end |
| Unstick.Sender.Outbid | cmd/unstick/main.go:202-207 | the outbid object state: a quarter more, everything from lastLatest again |
| Unstick.Sender.Due | cmd/unstick/main.go:182-200 | the new pacing state and exactly the nonces still to send, up to the end of the window or of the pool |
| Unstick.DueFills | cmd/unstick/main.go:182-200 | a round sends every nonce from the old next on, or all outstanding ones after five still rounds, and stops only at min(pending, latest + window) |
| Unstick.RoundFillsWindow | cmd/unstick/main.go:86-94 | after any round of any run no nonce of the window that the pool holds is left unsent at today's price |
| Unstick.EveryFifthOutbids | cmd/unstick/main.go:184-193 | while nothing moves, every fifth round outbids and no other |
| Unstick.RoundIsDue | cmd/unstick/main.go:86-94 | a round of the history sends what due returns, at the price due left |
| Unstick.OutbidRaises | cmd/unstick/main.go:204-207 | an outbid raises the fee by the tenth the pool asks for exactly at price 0 and from 4 up; between 1 and 3 it stays |
| Unstick.EveryRun | cmd/unstick/main.go:182-207 | in every reachable state lastLatest <= next <= lastLatest + window and stalled < 5; the nonces sent since the last outbid and still open are exactly [lastLatest, next), each once; each re-send pays a tenth more from price 4 up |
| UnstickProgress.RoundFalls | cmd/unstick/main.go:69-144 | while a sender is stuck, every round lowers one measure of nonces left, outbids missing and stall rounds left |
| UnstickProgress.SenderClears | cmd/unstick/main.go:69-144 | a sender whose chain answers a high enough fee is never stuck for more rounds than its bound: six per nonce and per outbid missing |
| UnstickProgress.SenderClearsSoon | cmd/unstick/main.go:69-144 | the bound is logarithmic in the fee: four outbids at least double it |
| UnstickProgress.ClearsIff | cmd/unstick/main.go:182-207 | the rounds of every run are bounded exactly when the starting price is at least 4 or already meets the fee |
| UnstickProgress.MainEnds | cmd/unstick/main.go:98-101 | the rounds of main end |
| UnstickProgress.LowPriceCanStall | cmd/unstick/main.go:204-207 | from a price below 4 and below the fee asked for, runs of any length exist in which a sender stays stuck |
| PooledTops.PooledTops | cmd/unstick/main.go:157-180 | every pooled nonce but the last uint64 is below its account's top, and every top is one past a pooled nonce |
| PooledTops.TopsUnique | cmd/unstick/main.go:168-178 | the tops do not depend on the order the maps are walked |
| BlockStats.FindWindow | internal/bench/stats.go:38-50 | the first and last loaded block, or none |
| BlockStats.NextIsNext | internal/bench/stats.go:68-75 | the next second with a block is the least one after t, or t + 1 |
| BlockStats.Accumulate | internal/bench/stats.go:55-63 | each bucket ends with its second's total transactions and greatest height; indexing stays in bounds |
| BlockStats.HeadIsGreatest | internal/bench/stats.go:60-63 | a second's head is the greatest height of its blocks |
| BlockStats.AfterWindow | internal/bench/stats.go:68-75 | the loop with break finds the first later second after the window |
| BlockStats.Rates | internal/bench/stats.go:76-81 | the backward pass gives each occupied second its total over the seconds to the next block; every divisor is positive |
| BlockStats.BucketTPS | internal/bench/stats.go:31-83 | the in-place passes agree with the per-second specification |
| BlockRates.BucketsConserve | internal/bench/stats.go:31-37 | bucket totals add up to all transactions |
| BlockRates.RatesConserve | internal/bench/stats.go:65-67 | rates times seconds to the next block add up to all transactions |
| BlockRates.GapsTile | internal/bench/stats.go:65-82 | those gaps tile the window up to the next block after it |
| BlockRates.SplitKeepsRates | internal/bench/stats.go:31-67 | splitting a block into several of its second leaves every time, count and rate unchanged |
| BlockRates.PrependKeepsRates | internal/bench/stats.go:35-37 | empty blocks before the load change nothing |
| BlockRates.AppendKeepsRates | internal/bench/stats.go:35-75 | empty blocks after the load change nothing exactly when a later block was there already, or the first new later one is in the very next second, or none is later |
| BlockRates.AppendCanChangeRates | internal/bench/stats.go:68-75 | a concrete pair of chains where one more empty block changes the last second's rate |
| BlockRates.Mean | internal/bench/stats.go:85-95 | the average times its seconds is the transactions in them |
| BlockRates.InteriorTotal | internal/bench/stats.go:101-107 | the interior holds all but the first and last seconds' transactions |
| BlockRates.Drain | internal/bench/stats.go:123-128 | the binary search keeps a run of seconds that ends before the last one: exactly those that start after the send ended |
| BlockRates.DrainTotal | internal/bench/stats.go:123-128 | drained, earlier and last-second transactions add up to the run's |
| BlockRates.Summarize | internal/bench/stats.go:213-261 | a run's rates over their seconds give back the transactions they count |
| WaitForTxs.TxSet.constructor | internal/bench/owntxs.go:12-21 | the set is the lower-cased hashes of the raw transactions |
| WaitForTxs.TxSet.Count | internal/bench/owntxs.go:29-42 | entries of a block in the set; entries that are no strings count nothing |
| WaitForTxs.WaitForTxs | internal/bench/wait.go:121-173 | the polling loop ends in the state and outcome of the poll-by-poll specification |
| WaitForTxs.EveryBlockOnce | internal/bench/wait.go:141-151 | whatever reads fail, each block from `from` up to `next` is counted once, and quietSince is the first head or the last block carrying ours |
| WaitForTxs.RunsProgress | internal/bench/wait.go:133-147 | in every run lastHead is the highest head so far and lastProgressAt the time it was first seen; reading goes on from where it was to the head or the first failing read |
| WaitForTxs.OutcomeIs | internal/bench/wait.go:152-166 | a poll ends the wait exactly when no own hash is missing, or idleBlocks passed since the last of ours, or the highest head is haltAfter old |
| WaitForTxs.RemainingIsMissing | internal/bench/wait.go:126-150 | remaining is the number of own hashes not yet seen |
| WaitForTxs.IncludedMeansAll | internal/bench/wait.go:152-160 | "all included" means every own hash was read in a block, and giving up means some was not |
| WaitForTxs.GivesUpOnQuiet | internal/bench/wait.go:121-124 | from a start no later than the block after the first head, giving up means idleBlocks blocks in a row past that head were read and carried none |
| WaitForTxs.LateStartGivesUpEarly | internal/bench/wait.go:128-160 | on a node behind the start block the wait gives up without having read that many |
| WaitForTxs.GivingUpIff | internal/bench/wait.go:121-124 | so giving up can be trusted on every chain exactly when from <= first head + 1 |
| WaitForTxs.DetectIdleOrHalt | internal/bench/wait.go:53-119 | the first poll with an answer gives it: idle for a new head topping idleBlocks empty blocks, stalled or unreachable when no new head came for haltAfter |
| Rlp.ReadHead | internal/tempotx/tempotx.go:50 | the prefix of a payload is read back as its kind and length, short and long forms |
| Rlp.DecodeEncode | internal/tempotx/tempotx.go:50-59 | reading the encoding of any item gives back the item and whatever follows it |
| Rlp.EncodeInjective | internal/tempotx/tempotx.go:50-59 | different items have different encodings |
| TempoTx.BuildFields | internal/tempotx/tempotx.go:84-111 | the built field list is the thirteen specified fields, with the signature as a fourteenth |
| TempoTx.WireLayout | internal/tempotx/tempotx.go:84-111 | the bytes decode to 13 items, 14 with a signature, each in its position: no access list, no validity bounds, no fee payer, no authorizations |
| TempoTx.ReadsBack | internal/tempotx/tempotx.go:47-65 | reading a payload or envelope gives back every field, all calls, and the signature |
| TempoTx.PayloadsDiffer | internal/tempotx/tempotx.go:50-54 | different transactions sign different payloads, and no payload is a signed envelope |
| TempoTx.Normalize | internal/tempotx/tempotx.go:78-80 | the in-place change is the normal form of the old bytes |
| TempoTx.Hash | internal/tempotx/tempotx.go:67-82 | the hash is keccak of the normal form, and none for text that does not decode |
| TempoTx.VIsLast | internal/tempotx/tempotx.go:69-70 | v is the envelope's last byte and nothing before it depends on v |
| TempoTx.HashesAsStored | internal/tempotx/tempotx.go:67-72 | an envelope sent with v in {0, 1} hashes as the stored form with 27 or 28 |
| TempoTx.NormalFormIff | internal/tempotx/tempotx.go:78-80 | two envelopes of one transaction share a normal form exactly when their v agree up to that shift |
| Launcher.Render | internal/activities/devnet.go:234-254 | the builder loop writes the prologue and the exec command |
| Launcher.ScriptLines | internal/activities/devnet.go:234-245 | line by line: the shebang, the banner with the note, strict mode exactly if asked for, the change of directory, the caller's lines in order, then the command |
| Launcher.ScanQuoted | internal/activities/devnet.go:268-271 | a shell reads a quoted string as that one word, whatever it holds |
| Launcher.ScanArgs | internal/activities/devnet.go:246-252 | the argument lines are read as exactly the arguments, also none |
| Launcher.ReadsAsWritten | internal/activities/devnet.go:220-254 | the exec command is read as exec, the binary and each argument, and nothing more, exactly when no string holds a NUL |
| Trees.MergeAt | internal/config/config.go:239-241 | what a merged document holds at every path: src's leaf wins, objects merge, untouched paths keep dst's value |
| Trees.Idempotent | internal/config/config.go:239-241 | applying a patch again changes nothing |
| Trees.MergeIntoEmpty | internal/config/config.go:246-249 | objects src adds are copied whole |
| Trees.AssociativeIff | internal/config/config.go:242-255 | merging is not associative; two groupings agree exactly when, wherever the middle document has a leaf between two objects, the first adds nothing to the last |
| Trees.NotAssociative | internal/config/config.go:242-255 | three documents whose groupings differ |
| DeepMerge.SetText | internal/config/config.go:252 | a value that is no object replaces dst's |
| DeepMerge.MergeObject | internal/config/config.go:244-250 | an object is merged into dst's object under the key, or into a new one |
| DeepMerge.DeepMerge | internal/config/config.go:242-255 | on the heap: dst becomes the merge of both documents, src, whose objects may be shared, is unchanged, and the result shares no object with src |
| Funding.ReserveCovers | internal/activities/tempo_remote.go:126-135 | the reserve is exactly the run's cost with fees rounded down; rounded up it falls short by at most a unit per transaction, and covers it only when nothing is rounded |
| Funding.BuildFunding | internal/activities/tempo_remote.go:217-236 | the group loop builds one transaction per group of at most 32, nonces counting up |
| Funding.FundFromIndex0 | internal/activities/tempo_remote.go:189-247 | refuses exactly when the balance is below the checked cost, and otherwise sends those transactions |
| Funding.MaxFeeIff | internal/activities/tempo_remote.go:206-207 | the fee is at least twice the price exactly when that fits a uint64 or the configured fee is as high |
| Funding.PaysEachOnce | internal/activities/tempo_remote.go:216-236 | each short sender is paid once, in order, in groups of at most 32 with consecutive nonces |
| Funding.PaysReserveIff | internal/activities/tempo_remote.go:220 | the amount paid is the reserve exactly when that fits a uint64 |
| Funding.CheckedFeesExactIff | internal/activities/tempo_remote.go:210 | the uint64 fee product is exact below 2^64 and too low otherwise |
| Funding.CostCovers | internal/activities/tempo_remote.go:209-214 | the checked cost is all transfers plus every maximum fee rounded down, to within one unit per transaction, and misses the rounded-up fees by no more |
| Funding.SentInNonceOrder | internal/activities/tempo_remote.go:239-241 | with no concurrency set one worker sends, so the transactions go out in nonce order |
| Funding.ShortOfFees | internal/activities/tempo_remote.go:249-266 | exactly the accounts below need, in order |
| Funding.FundedNobodyShort | internal/activities/tempo_remote.go:171-180 | once the transfers have landed nobody is short |

## Left out

- HTTP, JSON decoding, retries of unanswered requests and rate limits: a request is one step with an arbitrary answer, so a
  retried request counts as one submission.
- Real time: stall timeouts and polls are nondeterministic, times are given numbers.
- Gas, call value and opcodes the token does not use; a balance check by the chain for gas.
- Keccak, secp256k1, key derivation, hex, TOML, YAML and jsonnet are library code; keys, hashes and signatures are abstract.
- What a signed legacy transaction looks like in bytes: a signed transaction is its account, key and nonce in
  `TempoNonces`, and its sender, nonce and calldata in `TokenLoad`.
- The generator's refusal of fewer than one account or transaction, and its other validation branches.
- The call lists of the other workload shapes, and the precompile calldata beyond transfer and balanceOf.
- `Sent` counts the whole load even after cancellation, in the code and in the model; no claim is made that it counts
  submissions then. Nor that `WaitForTxs` ends when heads advance but every block read fails.
- The progress callback of the signer, which only reports.
- Latency percentiles and report text: sorting by the library, and formatting.
- Rates are real numbers, not float64.
- The launcher's other lines are stated, but only the exec command is read back as a shell would; strings are sequences of
  characters, not bytes.
- Maps under a nil interface, and slices inside a document, which `DeepMerge` shares like any other value that is no object.
- Batched JSON-RPC reads, which match answers to calls by id.
- Faucet funding, the two-minute wait after funding and the refusal of senders with pooled transactions.
- Processes, containers, compose files, port blocks, the Temporal workflow and the command line.
- Token.RunsCredit: the credit is modulo 2^256 for arbitrary storage; that it never wraps is proved for totals below
  2^256, in TokenSupply.MovedExactly.
- BlockRates.Summarize: leaves out the median and the list of peak seconds, which only sort the seconds it states.
- WaitForTxs.TxSet.constructor: lower-casing is of ASCII letters, which is all a hex hash has.
- PooledTops.PooledTops: address and number parsing are parameters.
