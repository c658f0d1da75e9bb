# ParallelChain runtime: a verified model of its state transition

The ParallelChain runtime takes a world state and a transaction to the next world state. This project
models that transition and proves what it promises: a transaction is pre-charged, its commands run one
after the other through a cache and a gas meter, each command is followed at once by the commands its
contract deferred, fees are settled, and the cache is committed. Beside it runs the staking machine:
pools, deposits, stakes, the next, current and previous validator sets, and NextEpoch, which pays
rewards, stakes the flagged ones and rotates the sets.

`dafny verify dfyconfig.toml` checks everything.

## How it is laid out

There are two layers. The first says in functions on values what each part computes, and proves the
theorems about them. The second is the mutable form that the Rust code has (classes with fields updated
in place, loops, a stack), and every method of it is proved to compute the function it belongs to.

| part | functions and theorems | mutable form |
|---|---|---|
| words, sums, bounded heaps | `Words`, `Sums`, `Heap` | |
| pools, deposits, validator sets | `Network`, `Staking`, `Invariant`, `StakingProofs`, `StakingTheorems` | `NetworkAccounts`, `StakingCommands` |
| rewards and NextEpoch | `Products`, `Rewards`, `Epoch`, `EpochProofs`, `RewardProofs`, `EpochTheorems`, `EpochNumbers`, `PowerProofs`, `AutoStakeProofs` | `NetworkAccounts` |
| gas and contracts | `Gas`, `GasProofs`, `Contract`, `ContractProofs` | `ExecutionParts`, `Instances` |
| transactions | `Transaction`, `TransactionProofs`, `PhaseProofs`, `TransactionTheorems`, `CommandTheorems`, `ReceiptTheorems` | `Executor` |
| world state cache | `Cache`, `WorldCache` (overlay functions) | `Cache.CacheData`, `WorldCache.WorldStateCache` |
| unbounded histories | `Chain` | |

Machine words are subset types of `int`: every unchecked `+`, `-` and `*` of the source is a proof
obligation (or, in the charge phase, an explicit panic), every `saturating_*` is `SatAdd` or `SatSub`,
and the `as u64` casts are written as truncation and proved lossless. A Wasm body is an arbitrary finite
tree of metered steps, host transfers, storage writes, branches on what is stored, deferred commands and
child calls; each metered step and each command carries an arbitrary cost.

`Sound(w)` is the invariant of the whole machine. For the live pools and both recorded sets every stake
is covered by its deposit; pool power is at least the stakes; every entry of the next validator set
names a live pool and carries its power; recorded operators are distinct; all balances and deposits
together fit a word.

## Main results

1. Every history of transactions and epoch changes keeps `Sound`, and power that entered the current
   validator set stays covered through that epoch and the next; a chain that starts with accounts only
   starts `Sound` (`Chain`).
2. Over every history the supply is exactly the initial one, plus the rewards distributed, less the burnt
   fees; the rewards distributed are the pool rewards up to the rounding of the split.
3. A failing command or deferred command at any position undoes everything but the fees and the nonce.
4. The executor's stack loop, on the mutable cache, meter and receipt buffer, computes the structured
   transaction, for every transaction and every world.
5. NextEpoch pays everybody exactly its due, in plain arithmetic, stakes what was to be staked, hands out
   at most the pool rewards, rotates the sets, and reports a diff that turns the old set into the new one
   without a redundant entry.
6. Nested contract metering is flat metering, and the gas ledger adds up to the receipts.
7. Every payload does what it says, for whom it should, and is refused exactly when and as it should be; a
   transaction is accepted exactly once.

## Where the code falls short of what one would expect

Each is kept as the code has it, shown by an example, and delimited exactly. The release profile of the
source checks overflow (Cargo.toml:38-39), so an overflow is a panic here.

- Auto-staking a reward into a full pool of larger stakes adds to the pool's power without entering a
  stake. Power equals the stakes after a raise, after a whole NextEpoch, and throughout a history, if and
  only if no such phantom occurs (`Invariant.RaiseExactIff`, `PowerProofs.EpochExactIff`,
  `PowerProofs.PhantomExample`, `Chain.PowerStaysExact`).
- A rejected V2 transaction with commands panics while building a receipt that is then dropped, and an
  accepted one panics when 20 times its base fee overflows; the model has no other panics
  (`TransactionTheorems.PanicsIff`, `TransactionTheorems.RejectedV2Panics`,
  `TransactionTheorems.FeeOverflowPanics`).
- With the gas limit 2^64-1 the counters saturate at the limit, and a command may succeed at less than
  its cost (`TransactionTheorems.SuccessIsExact`, `TransactionTheorems.SaturatedSuccess`).
- WithdrawDeposit, StakeDeposit and UnstakeDeposit may succeed without reporting their amount when
  refunds exceed deductions (`CommandTheorems.AmountReportedIff`, `CommandTheorems.SilentSuccess`).
- `contains` of the cache answers true for a key that a write blanked while the world still has a value
  (`Cache.ContainsExactIff`, `Cache.BlankedIsContained`).
- The comment on `stake_reward` asks for a stake smaller than the total; equality is fine and occurs
  (`Rewards.SoleStake`, `Rewards.SoleStakeExample`).

## Model

| member | source | states |
|---|---|---|
| Chain.EveryReachableWorldIsSound | src/transition.rs:78-135 | after any sequence of transactions (accepted, rejected or panicking) and epoch changes: deposits cover the stakes in the live pools, in vp and in pvp; power is at least the stakes; nvp entries name live pools with their power; the supply fits a u64 |
| Chain.FromGenesis | src/transition.rs:78-135 | from a chain of accounts only, every world reached is sound, its supply is the initial balances plus rewards distributed less fees burnt, and pool power exceeds the stakes by no more than the phantoms entered so far |
| Chain.LockedForTwoEpochs | src/commands/staking.rs:221-304 | lock-up: every stake that a snapshot of the current validator set shows is still covered by its deposit after any history with at most one epoch change, whatever is withdrawn, unstaked or deleted in between |
| Chain.SupplyOverHistory | src/execution/execute_commands/phases.rs:28-170 | conservation over every history: final supply is exactly initial supply plus all rewards distributed less all burnt base fees, and what is distributed is the pool rewards up to the rounding slack |
| Chain.SetsLinger | src/commands/protocol.rs:171-198 | with no epoch change vp and pvp stay; after exactly one, pvp is the old vp |
| Chain.PowerStaysExact | src/commands/staking.rs:541-674 | from exact power, pool power equals operator stake plus delegated stakes in every world along a history if and only if no epoch end auto-stakes a reward into a full pool of larger stakes |
| Chain.StepExactIff | src/commands/protocol.rs:143-169 | the same for one step: every transaction keeps power exact, and an epoch end does if and only if it has no phantom |
| Chain.SurplusOverHistory | src/commands/staking.rs:541-674 | over every history the power of each pool exceeds its stakes by no more than at first plus the phantom amounts entered since; transactions never add to it |
| Chain.AdvanceSound | src/execution/execute_next_epoch.rs:40-85 | one step of a history keeps the invariant; an invalid NextEpoch transaction or a plain transaction never rotates the sets and lets no pool's power gain on its stakes |
| Chain.AdvanceNonces | src/execution/execute_commands/phases.rs:155-167 | a step that goes through, its commands succeeding or not, raises its signer's nonce by one; nothing else touches a nonce |
| Chain.NoncesNeverFall | src/execution/execute_next_epoch.rs:74-82 | over every history no nonce falls |
| Chain.NoReplay | src/execution/execute_commands/phases.rs:48-54 | what went through once is turned down with WrongNonce in every later world, whatever the block; likewise for a NextEpoch transaction |
| TransactionTheorems.TransactionConserves | src/execution/execute_commands/phases.rs:28-170 | any accepted transaction that finishes, succeeding or failing, lowers balances plus deposits by exactly gas_used*base_fee - gas_used*base_fee*20/100, and leaves a sound world |
| TransactionTheorems.AcceptedIff | src/execution/execute_commands/phases.rs:35-84 | accepted if and only if the inclusion cost is within the limit, the nonce is the signer's, and gas_limit*(base_fee+priority_fee) fits a word and the balance; the error of each failing case; the signer has paid exactly that price |
| TransactionTheorems.TransactionCommits | src/execution/execute_commands/phases.rs:105-167 | the final world is what the commands made of it, plus gas_unused*(base_fee+priority_fee) to the signer, gas_used*priority_fee to the proposer and gas_used*base_fee*20/100 to the treasury, whoever coincides, and the nonce |
| TransactionTheorems.FeeNumbers | src/execution/execute_commands/phases.rs:66-130 | prepayment, refund, tip, treasury cut and burnt part in numbers; the cut is a fifth of the base fee rounded down |
| TransactionTheorems.AbortIsAtomic | src/execution/abort.rs:17-42 | if anything fails after pre-charge the final world equals the initial one but for the signer's nonce and, in numbers, the fees from the signer to proposer and treasury |
| TransactionTheorems.SettlePays | src/execution/execute_commands/phases.rs:105-153 | under every coincidence of signer, proposer and treasury each account ends with its balance plus every share due to it, and the total grows by the three shares |
| TransactionTheorems.FeesAddUp | src/execution/execute_commands/phases.rs:66-129 | refund, tip and treasury cut, each of which FeeNumbers gives in numbers, together are the prepaid amount less the burnt part of the base fee, which is never negative |
| TransactionTheorems.ChargeOverflowsIff | src/execution/execute_commands/phases.rs:99-130 | of all unchecked sums and products of the charge phase only 20*gas_used*base_fee can overflow, and all fit if and only if it does |
| TransactionTheorems.FeeGasIsOnTheReceipts | src/gas/gas_meter.rs:88-146 | the gas charged for is the inclusion gas plus the gas on all receipts, within the limit, and exactly the limit after gas exhaustion |
| TransactionTheorems.RejectionChangesNothing | src/execution/execute_commands/executor.rs:136-147 | a transaction that fails pre-charge changes nothing and carries its error, except that V2 with commands panics; that the checks themselves write nothing is in Executor.ExecutionState.PreChargeSigner |
| TransactionTheorems.PanicsIff | src/execution/cache/receipt_buffer.rs:103-132 | in the model, from a sound world, a transaction panics if and only if it is a rejected V2 transaction with commands, or accepted with 20*gas_used*base_fee above u64; never the latter when 20*gas_limit*base_fee fits |
| TransactionTheorems.FeeOverflowPanics | src/execution/execute_commands/phases.rs:128-130 | a concrete affordable transaction, at a base fee of 10^13, whose treasury product overflows |
| TransactionTheorems.RejectedV2Panics | src/execution/execute_commands/executor.rs:197-208 | a concrete V2 transaction that pays for its inclusion, has the wrong nonce, and panics |
| TransactionTheorems.ReceiptV2Shape | src/execution/cache/receipt_buffer.rs:60-133 | one receipt per command, of its kind; successes, at most one failure, then only NotExecuted without gas; overall code and gas are those of the run |
| TransactionTheorems.SuccessIsExact | src/gas/gas_meter.rs:88-146 | the fee gas of a successful transaction is inclusion gas plus the true net cost of every command, sent or deferred, if and only if that sum fits a u64, which it does for every gas limit below 2^64-1 |
| TransactionTheorems.SaturatedSuccess | src/gas/gas_meter.rs:134-139 | at the gas limit 2^64-1, after a call that leaves 5 units of gas, a transfer that costs 10 succeeds and is charged 5 |
| TransactionTheorems.ContractStaysWithinLimit | src/commands/account.rs:174-219 | a contract execution never pushes the meter past the gas limit; one that runs out of gas uses the limit up if and only if it was given none, or deductions covered refunds and the counter had room |
| TransactionTheorems.CommandsPhaseOk | src/execution/execute_commands/executor.rs:66-107 | all guarantees of the commands phase for an arbitrary command list: soundness, gas ledger, receipt shape, schedule |
| PhaseProofs.RunAllOk | src/execution/execute_commands/executor.rs:70-98 | for any command list and whatever contracts defer, tokens are conserved, the invariant kept, and after a failure the view is the world before the first command |
| PhaseProofs.RunAllLedger | src/gas/gas_meter.rs:88-146 | inclusion plus executed gas never passes the limit and equals inclusion plus receipt gas with deferred gas merged in |
| PhaseProofs.RunAllShape | src/execution/cache/receipt_buffer.rs:43-78 | receipts match the started commands; all but the last are successes; a failing deferred command marks its parent |
| PhaseProofs.RunAllSchedule | src/execution/execute_commands/executor.rs:66-104 | the whole executed sequence: each command k with index k, at once followed by exactly the commands that it deferred, in push order; complete unless one fails, and then complete but for what the last command deferred |
| PhaseProofs.LatesSpawnNothing | src/execution/state.rs:167-186 | every deferred command leaves nothing deferred, so what is dropped when it completes is empty |
| PhaseProofs.RunAllAccounts | src/gas/gas_meter.rs:88-113 | over any run of commands the meter charges at most the true net costs, and exactly them, if all succeed, if and only if they fit a u64 |
| PhaseProofs.RunLatesOrder | src/execution/execute_commands/executor.rs:264-278 | deferred commands run right after their call in push order, up to the first failure |
| PhaseProofs.OnlyCallsDefer | src/execution/execute.rs:81-145 | only a Call defers commands, so deferred commands spawn nothing |
| TransactionProofs.ExecMetered | src/execution/abort.rs:30-42 | a command touches the meter only through its current counter; it succeeds only within the limit and reports exhaustion only past it |
| TransactionProofs.ExecOk | src/execution/execute.rs:81-145 | every command, sent or deferred, keeps the invariant and the supply, and a failing one restores the committed world |
| TransactionProofs.StakesKeep | src/execution/execute.rs:112-142 | the dispatch to the nine staking commands keeps invariant and supply, and lets no pool's power gain on its stakes |
| CommandTheorems.ExecEffect | src/execution/execute.rs:81-145 | payload by payload: when a command's checks pass and the error when not; a command that passes runs out of gas or does what its payload says, for the signer or for the contract that deferred it, with the recipient of a transfer and the address of a deploy getting what they should |
| CommandTheorems.StakesAchieve | src/execution/execute.rs:112-142 | each of the nine staking payloads reaches the command it names, with the actor as owner or operator |
| CommandTheorems.CallEffect | src/commands/account.rs:74-219 | a call pays its target, is refused for the first reason that applies, or runs the contract as the target on the gas left and keeps what it did and deferred |
| CommandTheorems.ExecCharges | src/commands/staking.rs:306-339 | what a command other than a call is charged: its own cost, and the cost of its report when its checks pass |
| CommandTheorems.AmountReportedIff | src/commands/staking.rs:306-339 | for WithdrawDeposit, StakeDeposit and UnstakeDeposit: success with the amount exactly when the checks pass and the amount's cost fits the limit (so the last gas check is redundant), and exactly when a success lacks its amount; never so while deductions cover refunds |
| CommandTheorems.SilentSuccess | src/commands/staking.rs:306-340 | a concrete world and meter in which WithdrawDeposit takes out all of an unstaked deposit of 10 and succeeds without its amount |
| CommandTheorems.SentActs | src/execution/execute.rs:50-63 | a command of the transaction acts for its signer on what the commands before it left |
| CommandTheorems.LateActs | src/execution/execute.rs:65-79 | a deferred command acts for the contract that deferred it |
| ReceiptTheorems.EachCommandActs | src/execution/execute_commands/executor.rs:70-104 | command by command, the world after k+1 commands is that after k with what the payload of command k says done to it |
| ReceiptTheorems.EachCallActs | src/execution/execute_commands/executor.rs:70-104 | a successful call pays its target, runs the contract as the target on the gas left, and exactly what the contract deferred runs right after it |
| ReceiptTheorems.SentReceipt | src/execution/state.rs:144-166 | a command adds one receipt with its kind, outcome, gas and the amount shown: its own if reporting it fitted, else zero (V2) or none (V1) |
| ReceiptTheorems.LateReceipt | src/execution/cache/receipt_buffer.rs:43-101 | a deferred command's receipt merges into its call's: gas adds up, the later outcome counts, and which amount is shown in V1 and in V2 |
| ReceiptTheorems.RunAllKeepsReceipts | src/execution/cache/receipt_buffer.rs:38-101 | receipts of earlier commands stay as they are |
| ReceiptTheorems.ReceiptIs | src/execution/cache/receipt_buffer.rs:55-133 | the receipt of an accepted transaction in V1 and in V2, with a NotExecuted receipt without gas and with amount zero for every command that did not run |
| StakingProofs.CreatePoolKeeps | src/commands/staking.rs:34-62 | keeps the invariant, whether or not the new pool gets into nvp, and supply; no pool's power gains on its stakes |
| StakingProofs.SetPoolSettingsKeeps | src/commands/staking.rs:67-93 | keeps the invariant, with the commission rate at most 100, and supply; no pool's power gains on its stakes |
| StakingProofs.DeletePoolKeeps | src/commands/staking.rs:98-116 | keeps index agreement and lock-up although all stakes of the pool vanish |
| StakingProofs.CreateDepositKeeps | src/commands/staking.rs:121-155 | conserves balances plus deposits and keeps the invariant |
| StakingProofs.SetDepositSettingsKeeps | src/commands/staking.rs:160-182 | conserves balances plus deposits and keeps the invariant |
| StakingProofs.TopUpDepositKeeps | src/commands/staking.rs:187-216 | conserves balances plus deposits: the saturating add does not saturate |
| StakingProofs.WithdrawDepositKeeps | src/commands/staking.rs:221-340 | conserves tokens; lock-up, cover and exact power survive because the live stake is capped |
| StakingProofs.StakeDepositKeeps | src/commands/staking.rs:345-433 | stakes never exceed the deposit and power stays exact, also across an eviction |
| StakingProofs.UnstakeDepositKeeps | src/commands/staking.rs:438-514 | power stays exact and index agreement holds, also when the power falls to zero |
| StakingTheorems.WithdrawAmount | src/commands/staking.rs:240-275 | a withdrawal succeeds if and only if there is a deposit larger than what vp and pvp lock and a positive maximum, and then moves the most it may; the error otherwise |
| StakingTheorems.WithdrawEffect | src/commands/staking.rs:277-304 | deposit falls (an emptied one goes, its flag otherwise stays) and balance rises by the reported amount, the live stake is capped at the rest, nvp follows the pool's power, nothing else changes |
| StakingTheorems.StakeEffect | src/commands/staking.rs:356-393 | when exactly it succeeds and with which error it does not; the owner's stake rises by the reported amount; at most one other delegator loses its stake, one of least power and less than the newcomer's; nvp follows |
| StakingTheorems.UnstakeEffect | src/commands/staking.rs:449-474 | when exactly it succeeds and with which error it does not; the owner's stake falls by the reported amount and goes when used up; nvp follows; nothing else changes |
| StakingTheorems.CreateDepositEffect | src/commands/staking.rs:121-155 | when exactly it succeeds, the error otherwise, and that it moves exactly the balance, sets the flag and changes nothing else |
| StakingTheorems.SetDepositSettingsEffect | src/commands/staking.rs:160-182 | when exactly it succeeds, the error otherwise, and that only the one flag changes, to the given value |
| StakingTheorems.CreatePoolEffect | src/commands/staking.rs:34-62 | when exactly it succeeds, the error otherwise; the new pool is empty, has the given rate and enters nvp if there is room |
| StakingTheorems.SetPoolSettingsEffect | src/commands/staking.rs:67-93 | when exactly it succeeds, the error otherwise, and that only the one rate changes, to the given value |
| StakingTheorems.TopUpEffect | src/commands/staking.rs:187-216 | when exactly it succeeds, the error otherwise, and that the deposit rises by what the account loses and keeps its flag |
| StakingTheorems.DeletePoolEffect | src/commands/staking.rs:98-116 | pool and nvp entry go, everything else stays, and nothing becomes withdrawable that was locked |
| StakingTheorems.ReindexPlaces | src/commands/staking.rs:659-672 | the pool's nvp entry has its power unless nvp is full of others at least as large; at most one other entry, of least and of less power, makes room |
| StakingTheorems.CreateThenWithdraw | src/commands/staking.rs:121-304 | round trip: withdrawing a deposit right after creating it restores the world |
| StakingTheorems.StakeThenUnstake | src/commands/staking.rs:345-514 | round trip: unstaking what was just staked restores everybody's power unless somebody was evicted |
| Invariant.RaiseTotal | src/commands/staking.rs:608-660 | what a raise does to the staked total and the power, in each of the cases existing stake, room, eviction, full |
| Invariant.RaiseOk | src/commands/staking.rs:608-660 | a raise within the deposit keeps power at least the stakes and the stakes covered |
| Invariant.RaiseExactIff | src/commands/staking.rs:639-656 | power stays equal to the stakes if and only if the raise is not a lenient one into a full pool of larger stakes |
| Invariant.RaiseExcess | src/commands/staking.rs:608-660 | a raise never adds to the excess of power over stakes, except for a phantom, which adds its amount; exactly so with room in the word |
| Invariant.LowerOk | src/commands/staking.rs:541-581 | a cut lowers exactly one stake, and the power by as much, so the excess stays |
| Invariant.ReindexOk | src/commands/staking.rs:659-673 | nvp keeps agreeing with the pools when a pool's power moves, by change, insertion or eviction |
| Invariant.ReduceOk | src/commands/staking.rs:541-601 | cutting a stake that exceeds its deposit repairs cover and keeps index agreement |
| Invariant.IncreaseOk | src/commands/staking.rs:608-674 | raising a stake within its deposit keeps cover, power and index agreement |
| Heap.InsertExtractSpec | src/commands/staking.rs:640-654 | the newcomer gets in exactly when there is room or a smaller entry; it replaces an entry of least power and every other entry stays |
| EpochProofs.NextEpochInv | src/commands/protocol.rs:143-198 | NextEpoch keeps the invariant, and every pool lookup it unwraps succeeds |
| EpochProofs.ApplyAutosOk | src/commands/protocol.rs:143-169 | any sequence of backed auto-stakes keeps cover, power at least the stakes and index agreement |
| EpochTheorems.EachIsPaidItsDue | src/commands/protocol.rs:61-141 | each (operator, owner) is credited its due, nobody else anything, and exactly the flagged rewards are noted for auto-staking; DueIsNumber gives the due in numbers |
| EpochNumbers.RewardNumbers | src/commands/protocol.rs:66-75 | the reward of a pool is power*15*b/(365000*e) from epoch 3650 on, power*835*table[epoch]*b/(36500000000*e) before, with e the blocks per epoch divided by the validators and b the blocks proposed, at most e; nothing if e is zero |
| EpochNumbers.DueIsNumber | src/commands/protocol.rs:90-141 | in plain arithmetic: a delegator is due reward*stake/total less rate*reward*stake/(100*total), the operator its share and all commissions |
| EpochNumbers.EpochPays | src/commands/protocol.rs:61-141 | NextEpoch adds exactly that to every deposit, creates the operator's if missing, pays nobody else and leaves the flags |
| AutoStakeProofs.EpochStakes | src/commands/protocol.rs:143-169 | NextEpoch raises the live stake of every flagged owner by exactly its reward and nobody else's, unless the owner is displaced; nobody is displaced from a pool whose flagged owners all have a stake in it, and no operator ever; pools and rates stay |
| AutoStakeProofs.DisplacedBy | src/commands/staking.rs:639-656 | who is displaced: a new owner by a full pool of stakes at least as large, or a delegator of least power by a newcomer with more |
| AutoStakeProofs.ApplyAutoPlaces | src/commands/staking.rs:659-673 | each auto-stake moves the pool's nvp entry to its power, or lets the pool in |
| RewardProofs.LockedIs | src/commands/staking.rs:241-267 | what a recorded set locks is the stake its snapshot shows, and nothing without a snapshot |
| EpochTheorems.EpochIssuance | src/commands/protocol.rs:61-141 | NextEpoch raises total deposits by exactly the sum distributed, which is at most the pool rewards and at least these less the rounding slack |
| EpochTheorems.EpochRotates | src/commands/protocol.rs:171-201 | pvp is the old vp with its stakes, vp is exactly the live pools nvp names after auto-stake, the epoch is one higher |
| EpochTheorems.DiffApplies | src/commands/protocol.rs:203-234 | removals and then additions applied to the old operator-to-power map give the new map |
| EpochTheorems.EpochDiff | src/commands/protocol.rs:203-234 | the diff that NextEpoch reports turns its old validator set into its new one |
| EpochTheorems.DiffMinimal | src/commands/protocol.rs:203-234 | no addition or removal of the diff is redundant |
| PowerProofs.EpochExactIff | src/commands/protocol.rs:143-169 | from exact power and issuance that fits, NextEpoch leaves power exact if and only if no auto-stake, at its turn, finds its pool full of larger stakes; and in any case power equals the stakes plus those phantoms, pool by pool |
| PowerProofs.EpochSurplus | src/commands/protocol.rs:143-169 | from any sound network, power exceeds the stakes after NextEpoch by no more than before plus the phantoms, and by exactly that where the auto-stakes have room in the word |
| PowerProofs.RoomForAutos | src/commands/protocol.rs:103-140 | the rewards to auto-stake are at most those distributed, so exact pools have room for all of them |
| PowerProofs.PhantomExample | src/commands/protocol.rs:143-169 | a concrete sound network with exact power after whose NextEpoch a pool's power exceeds its stakes by 15 |
| RewardProofs.TotalStakesExact | src/commands/protocol.rs:77-89 | the saturating loop over the stakes yields their true total whenever it fits |
| RewardProofs.RewardSplit | src/rewards_formulas.rs:333-350 | delegator rewards, commissions and the operator's share never exceed the pool reward and fall short by at most one gray per delegated stake |
| RewardProofs.PayPoolTotal | src/commands/protocol.rs:77-141 | paying one pool adds exactly the distributed amount to the deposits |
| RewardProofs.PayAllTotal | src/commands/protocol.rs:61-141 | paying all pools adds exactly the sum of the distributed amounts |
| Rewards.Issuance | src/rewards_formulas.rs:37-45 | the fraction issued is in range and below 1/4371 of the power, the denominator non-zero |
| Rewards.PoolReward | src/rewards_formulas.rs:298-318 | for all u64 powers, u32 block counts and epochs every u128 step is in range and the reward is at most power/4371 |
| Rewards.PoolRewardFormula | src/rewards_formulas.rs:287-318 | the reward is the documented formula with min(actual, expected), rounded down once; the cast is lossless |
| Rewards.ProductsFit | src/rewards_formulas.rs:343-345 | no product of stake_reward overflows u128 on a reward that pool_reward can return |
| Rewards.StakeRewardSplits | src/rewards_formulas.rs:333-350 | reward and commission add up to the stake's whole share, which is at most the pool reward |
| Rewards.SoleStake | src/rewards_formulas.rs:329-350 | a stake that is the whole total gets, with the commission, all of the pool reward |
| Rewards.SoleStakeExample | src/rewards_formulas.rs:329-350 | a concrete reward at stake equal to total |
| Rewards.ShareAdds | src/rewards_formulas.rs:343-343 | splitting a stake in two loses at most one gray |
| GasProofs.SignedAlgebra | src/gas/cost_change.rs:45-86 | Add and Sub act as plus and minus on signed values, and Add undoes Sub |
| GasProofs.ChargeAllIs | src/gas/cost_change.rs:53-58 | charging any sequence of costs leaves the two counters at their sums, saturated once |
| GasProofs.ChargeOrder | src/gas/gas_meter.rs:309-321 | native charging does not depend on the order of the charges, even when counters saturate |
| GasProofs.HostNeverCheaper | src/gas/wasmer_gas.rs:248-252 | the host meter, which drops refund surpluses, never charges less than the native meter |
| GasProofs.TakeLedger | src/gas/gas_meter.rs:88-146 | completing a command keeps the total within the limit; its gas is exact if and only if it stayed within; an exhausted one uses up the limit |
| ContractProofs.RunIsFlat | src/contract/host_functions.rs:295-330 | for any tree of calls the gas left equals charging the flattened costs one by one with saturation |
| ContractProofs.RunConsumes | src/contract/instance.rs:38-69 | a contract consumes the total of its costs, capped at the gas it was given |
| ContractProofs.RunTame | src/contract/host_functions.rs:374-537 | a body conserves tokens, leaves staking state alone, and defers only commands that have a defer host function |
| ContractProofs.StepEffect | src/contract/host_functions.rs:42-537 | operation by operation: a payment reaches its recipient, a write sets its one cell, a deferred command is appended for the contract itself if its kind is right, a called contract starts after it was paid and runs as itself |
| ContractProofs.StoreThenBranch | src/contract/host_functions.rs:42-83 | what a contract stored is what it reads back; an empty value reads as absent |
| ContractProofs.KindsMatch | src/execution/execute_commands/executor.rs:295-303 | kinds and payloads go together one to one |
| ContractProofs.MoveConserves | src/contract/host_functions.rs:616-641 | a transfer conserves tokens, also to oneself, and moves exactly the amount |
| Executor.TransitionOf | src/execution/execute_commands/executor.rs:51-108 | the executor on mutable state computes the structured transaction for every world, transaction and block |
| Executor.ExecutionState.RunStack | src/execution/execute_commands/executor.rs:66-104 | the loop over the command stack computes "each command, at once followed by what it deferred" and terminates by (commands left, deferred left) |
| Executor.StackCommands | src/execution/execute_commands/executor.rs:252-262 | the stack holds the commands with the first on top |
| Executor.PushLates | src/execution/execute_commands/executor.rs:264-272 | deferred commands come on top, the first pushed uppermost |
| Executor.ExecutionState.DoSent | src/execution/state.rs:144-166 | runs a sent command, pushes its receipt, closes the meter and takes the deferred commands |
| Executor.ExecutionState.DoLate | src/execution/state.rs:167-186 | runs a deferred command as its contract and merges its receipt into the last one |
| Executor.ExecutionState.Execute | src/execution/execute.rs:81-145 | dispatch on the mutable state computes Exec, errors included, whose effects ExecEffect and CallEffect state |
| Executor.ExecutionState.RunAndCharge | src/commands/account.rs:174-213 | the contract gets the gas left, and its consumption is charged to the meter |
| Executor.ExecutionState.CallInto | src/commands/account.rs:210-219 | exhaustion takes precedence over the contract's own error, and every failure reverts |
| Executor.ExecutionState.CheckTarget | src/commands/account.rs:157-204 | interface version, module, gas and instantiation checks in the source's order, without a change to what commands see |
| Executor.ExecutionState.CallContract | src/commands/account.rs:74-122 | the optional transfer, the checks, and the call or its abort agree with the specification |
| Executor.ExecutionState.DeployContract | src/commands/account.rs:226-348 | deploy checks in the source's order; code and interface version are written, and an account with a version is never overwritten |
| Executor.ExecutionState.PreChargeSigner | src/execution/execute_commands/phases.rs:28-84 | computes PreCharge, whose condition AcceptedIff states, and writes the prepayment to the committed world |
| Executor.ExecutionState.ChargeFees | src/execution/execute_commands/phases.rs:90-170 | settling on purged balances amounts to three plain credits, in the numbers FeeNumbers states, and a nonce, or an overflow exactly when the arithmetic does not fit |
| Executor.ExecutionState.PurgeAndAdd | src/execution/execute_commands/phases.rs:107-130 | the case analysis on coinciding parties amounts to three credits in a row |
| Executor.PurgedView | src/execution/cache/world_state_cache.rs:70-76 | committing the remaining writes never overwrites a settled balance |
| Executor.EndEpoch | src/execution/execute_next_epoch.rs:40-85 | an invalid NextEpoch transaction changes nothing; a valid one advances the network account, bumps the nonce and reports the diff |
| Instances.Context.RunOp | src/contract/host_functions.rs:45-537 | one step of a body on the shared context and gas global agrees with the specification |
| Instances.Context.RunInvoke | src/contract/host_functions.rs:248-322 | a call to another contract pays first, then loads, then runs, and fails where the source does |
| Instances.Context.CallInstance | src/contract/instance.rs:38-69 | a fresh gas global per instance; the consumption is the limit less what remains |
| Instances.Context.CallChild | src/contract/host_functions.rs:312-348 | the child runs on the parent's remaining gas and the parent pays what it consumed |
| Instances.Context.Transfer | src/contract/host_functions.rs:616-641 | a contract transfer through the cache, failing without change on a short balance |
| ExecutionParts.GasMeter.TakeResult | src/gas/gas_meter.rs:88-113 | the command's gas, clamped to what the limit leaves, joins the total and the counter restarts |
| ExecutionParts.ReceiptBuffer.PushLate | src/execution/cache/receipt_buffer.rs:43-101 | editing the last receipt in place merges gas, exit code and output; in V2 an amount that was not set counts as zero |
| ExecutionParts.ReceiptBuffer.Finalize | src/execution/cache/receipt_buffer.rs:103-132 | filling up with NotExecuted receipts, and the missing receipt on which the source panics |
| StakingCommands.CreatePool | src/commands/staking.rs:34-62 | the command on the cache ends in the specified world, or reverted with the specified error |
| StakingCommands.SetPoolSettings | src/commands/staking.rs:67-93 | likewise |
| StakingCommands.DeletePool | src/commands/staking.rs:98-116 | likewise |
| StakingCommands.CreateDeposit | src/commands/staking.rs:121-155 | likewise |
| StakingCommands.SetDepositSettings | src/commands/staking.rs:160-182 | likewise |
| StakingCommands.TopUpDeposit | src/commands/staking.rs:187-216 | likewise |
| StakingCommands.WithdrawDeposit | src/commands/staking.rs:221-304 | likewise, with the amount |
| StakingCommands.StakeDeposit | src/commands/staking.rs:345-393 | likewise, with the amount |
| StakingCommands.UnstakeDeposit | src/commands/staking.rs:438-474 | likewise, with the amount |
| NetworkAccounts.NetworkAccount.ReduceStakePower | src/commands/staking.rs:541-601 | the in-place updates of stake, power and nvp compute Reduce, and the result is what was unstaked |
| NetworkAccounts.NetworkAccount.IncreaseStakePower | src/commands/staking.rs:608-674 | the in-place updates compute Increase; a refused insert changes nothing |
| NetworkAccounts.NetworkAccount.SumStakes | src/commands/protocol.rs:77-89 | the loop computes the saturating total of the stakes |
| NetworkAccounts.NetworkAccount.SplitReward | src/commands/protocol.rs:90-100 | each delegator's reward in order, and the sum of the commissions |
| NetworkAccounts.NetworkAccount.PayOwners | src/commands/protocol.rs:103-114 | deposits credited and auto-stakes noted for all delegators |
| NetworkAccounts.NetworkAccount.RewardPool | src/commands/protocol.rs:77-140 | delegators, then the operator, are paid from one pool's reward |
| NetworkAccounts.NetworkAccount.RewardAll | src/commands/protocol.rs:61-141 | all pools of vp are paid, in the numbers EpochPays states, and their stakes remembered by operator |
| NetworkAccounts.NetworkAccount.AutoStakeAll | src/commands/protocol.rs:143-169 | the flagged rewards are staked in order, with the effect EpochStakes states, skipping pools that no longer exist |
| NetworkAccounts.NetworkAccount.ReplacePvp | src/commands/protocol.rs:171-176 | pvp rebuilt from the copied pools and remembered stakes is the old vp; no lookup fails |
| NetworkAccounts.NetworkAccount.ReplaceVp | src/commands/protocol.rs:178-198 | vp rebuilt from the pools that nvp names |
| NetworkAccounts.NetworkAccount.Compare | src/commands/protocol.rs:203-234 | the two filters compute the diff |
| NetworkAccounts.NetworkAccount.AdvanceEpoch | src/commands/protocol.rs:30-238 | the whole command computes NextEpoch and the diff between old and new vp |
| Cache.CacheData.Get | src/execution/cache/world_state_cache.rs:267-285 | returns the pending write or else the world's value, whatever was read before |
| Cache.CacheData.Contains | src/execution/cache/world_state_cache.rs:292-304 | true exactly for a non-empty pending write or a value in the world |
| Cache.CacheData.Replay | src/execution/cache/world_state_cache.rs:262-311 | any sequence of get, set and revert answers as a plain map over the world, and ends in the same writes |
| Cache.ContainsExactIff | src/execution/cache/world_state_cache.rs:292-304 | contains never misses a non-empty value, and is exact if and only if the key is not blanked over a world value (nor an empty value itself stored in the world) |
| Cache.BlankedIsContained | src/execution/cache/world_state_cache.rs:292-304 | a concrete blanked key that reads as empty and is contained |
| WorldCache.WorldStateCache.PurgeBalance | src/execution/cache/world_state_cache.rs:70-76 | the balance as seen through the cache, with its pending write removed |
| WorldCache.WorldStateCache.MoveTokens | src/commands/account.rs:36-66 | debit then credit through the cache is the specified transfer, also to oneself |
| WorldCache.WorldStateCache.Revert | src/execution/cache/world_state_cache.rs:78-84 | the view is the committed world again |
| WorldCache.WorldStateCache.GetStorage | src/execution/cache/world_state_cache.rs:153-165 | reads what the overlaid storage holds and leaves the view as it is |
| WorldCache.WorldStateCache.LoadModule | src/gas/operations.rs:257-290 | a module comes from the engine's cache or from compiling the code seen through the cache |
| WorldCache.WorldStateCache.Commit | src/execution/cache/world_state_cache.rs:172-223 | the committed world is exactly what commands saw through the cache |
| WorldCache.WriteAll | src/execution/cache/world_state_cache.rs:178-203 | writing the pending values in any iteration order gives the overlay |
| WorldCache.Group | src/execution/cache/world_state_cache.rs:207-213 | grouping by address keeps every write of that address and no other |
| WorldCache.BatchSet | src/execution/cache/world_state_cache.rs:205-220 | one batch per address gives the overlay, in any order of addresses |
| WorldCache.AnyOrderIsOverlay | src/execution/cache/world_state_cache.rs:205-220 | writing every value individually in any order gives the same storage as the batches |
| WorldCache.OverlaySet | src/execution/cache/world_state_cache.rs:167-170 | a pending storage write changes exactly its cell of the overlaid storage |
| WorldCache.StorageReads | src/execution/cache/world_state_cache.rs:153-165 | reading through the cache is reading the overlaid storage |

## Left out

- Wasmer glue, compilation and opcode tables (src/contract/wasmer, src/contract/module.rs): a Wasm body is an arbitrary operation tree instead.
- Cryptographic host functions and contract address derivation: external libraries; a Deploy command carries its address and its validation outcome, and a call what the Wasm engine answers, as data.
- Gas price constants and cost formulas (src/gas/constants.rs, src/gas/operations.rs): every command and operation carries an arbitrary cost. A command's storage accesses are charged as one sum at its start, which leaves the counter as charging them one by one does (`GasProofs.ChargeAllIs`); a command that aborts half-way carries the cost of what it did.
- The 3650 issuance rate factors as data: any table with entries of at most 10000.
- View calls, error-code mappings, versioned result structs, logs, and the bytes of contract return values: thin dispatch; receipts keep kind, exit code, gas and the reported amount.
- `TransitionError` details: RuntimeError stands for RuntimeError and InternalRuntimeError, and a contract that uses up its own gas has its own error here where the source reports ExecutionProperGasExhausted for both.
- The trie, serialization, and the V1-to-V2 world state upgrade: they live in other crates. The cache holds the network account decoded as one record; its byte-level storage keys are not modelled.
- TransactionTheorems.PanicsIff: `exists` of pools and deposits is map membership here. In the source it rests on the one-sided `contains` (`Cache.ContainsExactIff`), so the unwraps at src/commands/staking.rs:212, 238 and 361 might meet a deposit that was deleted earlier in the same transaction; whether they do depends on the world-state crate, which is not part of this model.
- IndexHeap internals: a bounded map in which ties for the minimum and the listing order are settled by address. Pushes to vp and pvp succeed, which the size bounds in the invariant justify.
- File-based module cache (src/contract/wasmer/cache.rs): I/O.
