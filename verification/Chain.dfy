/** Unbounded histories: any sequence of transactions and epoch changes. */
module Chain {
  import opened Words
  import opened Sums
  import opened Network
  import opened Staking
  import opened Rewards
  import opened Epoch
  import opened Transaction
  import opened Invariant
  import opened StakingProofs
  import opened EpochProofs
  import opened RewardProofs
  import opened EpochTheorems
  import opened PowerProofs
  import opened PhaseProofs
  import opened TransactionTheorems

  datatype Step =
    | Transact(txn: Txn, block: Block)
    | EndEpoch(signer: Address, nonce: u64, single: bool, perf: Option<Performance>)

  /** NextEpoch runs only as the one command of its transaction, with statistics and the right nonce. */
  predicate ValidEpochEnd(w: World, s: Step)
    requires s.EndEpoch?
  {
    s.single && s.perf.Some? && s.nonce == Get0(w.nonces, s.signer)
  }

  /** What an epoch's end relies on: issuance that keeps the supply within a word. */
  ghost predicate Ready(w: World, s: Step, table: RateTable) {
    match s
    case Transact(_, _) => true
    case EndEpoch(_, _, _, perf) =>
      ValidEpochEnd(w, s) ==>
        w.net.epoch < U64_MAX
        && Supply(w) + RewardSum(table, perf.value, w.net.epoch, |w.net.vp|, w.net.vp) <= U64_MAX
  }

  ghost function Advance(w: World, s: Step, table: RateTable): World
    requires Sound(w) && Ready(w, s, table)
  {
    match s
    case Transact(txn, block) =>
      var t := Transit(w, txn, block);
      if t.Finished? then t.world else w
    case EndEpoch(signer, _, _, perf) =>
      if !ValidEpochEnd(w, s) then w
      else
        IssuanceFits(w, s, table);
        NextEpochInv(w.net, table, perf.value);
        w.(net := NextEpoch(w.net, table, perf.value), nonces := w.nonces[signer := SatAdd(Get0(w.nonces, signer), 1)])
  }

  lemma {:induction false} IssuanceFits(w: World, s: Step, table: RateTable)
    requires Sound(w) && Ready(w, s, table) && s.EndEpoch? && ValidEpochEnd(w, s)
    ensures Sum(w.balances) + DepositTotal(PaidDeposits(w.net, table, s.perf.value)) <= U64_MAX
  {
    hide Inv, RewardSum, PaidDeposits, DepositTotal;
    EpochIssuance(w.net, table, s.perf.value);
  }

  predicate Rotates(w: World, s: Step) { s.EndEpoch? && ValidEpochEnd(w, s) }

  lemma {:induction false} EpochSound(w: World, s: Step, table: RateTable)
    requires Sound(w) && Ready(w, s, table) && Rotates(w, s)
    ensures var w' := Advance(w, s, table);
      && Sound(w') && w'.balances == w.balances && w'.net.pvp == w.net.vp
        && w'.net.deposits == PaidDeposits(w.net, table, s.perf.value)
  {
    IssuanceFits(w, s, table);
    NextEpochInv(w.net, table, s.perf.value);
    RewardedOk(w.net, table, s.perf.value);
    hide Inv, DepositTotal, PaidDeposits, Rewarded, LiveOk, Grows, Record;
  }

  /** A transaction never rotates the sets, and lets no pool's power gain on its stakes. */
  lemma {:induction false} TransactSound(w: World, txn: Txn, block: Block, table: RateTable)
    requires Sound(w)
    ensures var w' := Advance(w, Transact(txn, block), table);
      && Sound(w') && w'.net.vp == w.net.vp && w'.net.pvp == w.net.pvp
      && NoLooser(w.net, w'.net)
  {
    if PreCharge(w, txn, block).Accepted? {
      assert Transit(w, txn, block).Finished? ==> Sound(Transit(w, txn, block).world) by {
        hide Sound, Transit, PreCharge;
        TransactionConserves(w, txn, block);
      }
      TransactKeepsSets(w, txn, block);
      hide Transit, PreCharge, Sound;
    } else {
      RejectionChangesNothing(w, txn, block);
      hide Transit, PreCharge, Sound;
    }
  }

  lemma {:induction false} TransactKeepsSets(w: World, txn: Txn, block: Block)
    requires Sound(w) && PreCharge(w, txn, block).Accepted?
    ensures var t := Transit(w, txn, block);
      t.Finished? ==>
        && t.world.net.vp == w.net.vp && t.world.net.pvp == w.net.pvp
        && NoLooser(w.net, t.world.net)
  {
    hide CommandsPhase, LedgerOk, ShapeOk, Follows, Inv, NoLooser, PreCharge, SettleFits, Credit, Supply, IntoReceipt;
    var w1 := PreCharge(w, txn, block).world;
    PreChargeOk(w, txn, block);
    AcceptedInclusion(w, txn, block);
    CommandsPhaseOk(w1, txn);
    assert w1.net == w.net;
  }

  lemma {:induction false} AdvanceSound(w: World, s: Step, table: RateTable)
    requires Sound(w) && Ready(w, s, table)
    ensures var w' := Advance(w, s, table);
      && Sound(w')
      && (Rotates(w, s) ==> w'.net.pvp == w.net.vp)
      && (!Rotates(w, s) ==> w'.net.vp == w.net.vp && w'.net.pvp == w.net.pvp && NoLooser(w.net, w'.net))
  {
    hide Sound, NoLooser;
    if s.Transact? {
      TransactSound(w, s.txn, s.block, table);
    } else if Rotates(w, s) {
      EpochSound(w, s, table);
    } else {
      SamePools(w.net, w.net);
    }
  }

  /** Without new surplus exact power stays exact. */
  lemma {:induction false} StillExact(w: World, w': World)
    requires Sound(w) && Sound(w') && Exact(w.net) && NoLooser(w.net, w'.net)
    ensures Exact(w'.net)
  {
    hide LiveOk, Exact, Surplus;
    ExactIsNoSurplus(w.net);
    ExactIsNoSurplus(w'.net);
  }

  ghost predicate CanRun(w: World, steps: seq<Step>, table: RateTable)
    requires Sound(w)
    decreases |steps|
  {
    hide Sound, Ready, Advance;
    steps == [] ||
    (Ready(w, steps[0], table)
      && (AdvanceSound(w, steps[0], table); CanRun(Advance(w, steps[0], table), steps[1..], table)))
  }

  ghost function RunChain(w: World, steps: seq<Step>, table: RateTable): World
    requires Sound(w) && CanRun(w, steps, table)
    decreases |steps|
  {
    hide Sound, Ready, Advance;
    if steps == [] then w
    else
      AdvanceSound(w, steps[0], table);
      RunChain(Advance(w, steps[0], table), steps[1..], table)
  }

  ghost function Rotations(w: World, steps: seq<Step>, table: RateTable): nat
    requires Sound(w) && CanRun(w, steps, table)
    decreases |steps|
  {
    hide Sound, Ready, Advance;
    if steps == [] then 0
    else
      AdvanceSound(w, steps[0], table);
      (if Rotates(w, steps[0]) then 1 else 0) + Rotations(Advance(w, steps[0], table), steps[1..], table)
  }

  /** Safety over every history: lock-up for the live pools and both recorded sets, power at least the
      stakes, index agreement, and a supply that fits, in every reachable world. */
  lemma {:induction false} EveryReachableWorldIsSound(w: World, steps: seq<Step>, table: RateTable)
    requires Sound(w) && CanRun(w, steps, table)
    ensures Sound(RunChain(w, steps, table))
    decreases |steps|
  {
    hide Sound, Advance, Ready;
    if steps == [] {
    } else {
      AdvanceSound(w, steps[0], table);
      EveryReachableWorldIsSound(Advance(w, steps[0], table), steps[1..], table);
    }
  }

  lemma {:induction false} SetsLinger(w: World, steps: seq<Step>, table: RateTable)
    requires Sound(w) && CanRun(w, steps, table)
    ensures var w' := RunChain(w, steps, table);
      && (Rotations(w, steps, table) == 0 ==>
            w'.net.vp == w.net.vp && w'.net.pvp == w.net.pvp && NoLooser(w.net, w'.net))
      && (Rotations(w, steps, table) == 1 ==> w'.net.pvp == w.net.vp)
    decreases |steps|
  {
    hide Sound, Advance, Ready, Surplus, Rotates;
    if steps == [] {
    } else {
      AdvanceSound(w, steps[0], table);
      SetsLinger(Advance(w, steps[0], table), steps[1..], table);
    }
  }

  /** Power that entered the validator set cannot be withdrawn during that epoch or the next: after any
      history with at most one epoch change, whatever transactions it holds, every stake that a snapshot of
      the set shows is still covered by its deposit. */
  lemma {:induction false} LockedForTwoEpochs(w: World, steps: seq<Step>, table: RateTable, s: Snapshot)
    requires Sound(w) && CanRun(w, steps, table) && Rotations(w, steps, table) <= 1 && s in w.net.vp
    ensures var d := RunChain(w, steps, table).net.deposits;
      && OrZero(s.pool.operatorStake) <= BalanceOf(d, s.operator, s.operator)
      && forall owner | owner in s.pool.delegated :: s.pool.delegated[owner] <= BalanceOf(d, s.operator, owner)
  {
    hide CanRun, RunChain, Rotations, Sound, BalanceOf;
    var d := RunChain(w, steps, table).net.deposits;
    SnapshotLocks(w, s, s.operator);
    LockedStays(w, steps, table, s.operator, s.operator);
    forall owner | owner in s.pool.delegated ensures s.pool.delegated[owner] <= BalanceOf(d, s.operator, owner) {
      SnapshotLocks(w, s, owner);
      LockedStays(w, steps, table, s.operator, owner);
    }
  }

  lemma SnapshotLocks(w: World, s: Snapshot, owner: Address)
    requires Sound(w) && s in w.net.vp
    ensures s.operator !in s.pool.delegated
    ensures Locked(w.net.vp, s.operator, owner)
         == if owner == s.operator then OrZero(s.pool.operatorStake) else Get0(s.pool.delegated, owner)
  {
    hide Locked, LiveOk, Locks, Supply;
    LockedIs(w.net.vp, s.operator, owner);
    var i :| 0 <= i < |w.net.vp| && w.net.vp[i] == s;
    assert PoolOk(w.net.vp[i].pool, w.net.vp[i].operator, w.net.limits.stakesPerPool);
  }

  lemma {:induction false} LockedStays(w: World, steps: seq<Step>, table: RateTable, operator: Address, owner: Address)
    requires Sound(w) && CanRun(w, steps, table) && Rotations(w, steps, table) <= 1
    ensures Locked(w.net.vp, operator, owner) <= BalanceOf(RunChain(w, steps, table).net.deposits, operator, owner)
  {
    EveryReachableWorldIsSound(w, steps, table);
    SetsLinger(w, steps, table);
    var w' := RunChain(w, steps, table);
    hide CanRun, RunChain, Rotations, Locked, LiveOk, RecordOk, Supply;
    assert Locks(w'.net.deposits, w'.net.vp) && Locks(w'.net.deposits, w'.net.pvp);
  }

  // ---------- exact power over a history ----------

  /** Does this step end an epoch in which some reward is auto-staked into a full pool of larger stakes? */
  ghost predicate HasPhantomStep(w: World, s: Step, table: RateTable) {
    Rotates(w, s) && EpochPhantom(w.net, table, s.perf.value)
  }

  /** Every other step keeps pool power exact, and such a step never does. */
  lemma {:induction false} StepExactIff(w: World, s: Step, table: RateTable)
    requires Sound(w) && Ready(w, s, table) && Exact(w.net)
    ensures Exact(Advance(w, s, table).net) <==> !HasPhantomStep(w, s, table)
  {
    hide Exact, EpochPhantom, RewardSum, NoLooser, PhantomPower, Surplus;
    AdvanceSound(w, s, table);
    if Rotates(w, s) {
      EpochExactIff(w.net, table, s.perf.value);
      hide NextEpoch, Inv;
    } else {
      StillExact(w, Advance(w, s, table));
    }
  }

  /** What a step adds to the power of an operator's pool without a stake. */
  ghost function PhantomStep(w: World, s: Step, table: RateTable, o: Address): nat {
    if Rotates(w, s) then PhantomPower(w.net, table, s.perf.value, o) else 0
  }

  lemma {:induction false} StepSurplus(w: World, s: Step, table: RateTable, o: Address)
    requires Sound(w) && Ready(w, s, table)
    ensures Surplus(Advance(w, s, table).net.pools, o) <= Surplus(w.net.pools, o) + PhantomStep(w, s, table, o)
  {
    hide PhantomPower, Surplus;
    AdvanceSound(w, s, table);
    if Rotates(w, s) {
      IssuanceFits(w, s, table);
      EpochSurplus(w.net, table, s.perf.value, o);
      hide NextEpoch, PaidDeposits, Inv, Ready;
    }
  }

  ghost function PhantomSum(w: World, steps: seq<Step>, table: RateTable, o: Address): nat
    requires Sound(w) && CanRun(w, steps, table)
    decreases |steps|
  {
    hide Sound, Ready, Advance, PhantomStep;
    if steps == [] then 0
    else
      AdvanceSound(w, steps[0], table);
      PhantomStep(w, steps[0], table, o) + PhantomSum(Advance(w, steps[0], table), steps[1..], table, o)
  }

  /** Over every history the power of a pool exceeds its stakes by no more than it did at first plus the
      phantoms entered since. */
  lemma {:induction false} SurplusOverHistory(w: World, steps: seq<Step>, table: RateTable, o: Address)
    requires Sound(w) && CanRun(w, steps, table)
    ensures Surplus(RunChain(w, steps, table).net.pools, o) <= Surplus(w.net.pools, o) + PhantomSum(w, steps, table, o)
    decreases |steps|
  {
    hide Sound, Ready, Advance, PhantomStep, Surplus, Rotates;
    if steps == [] {
    } else {
      AdvanceSound(w, steps[0], table);
      StepSurplus(w, steps[0], table, o);
      SurplusOverHistory(Advance(w, steps[0], table), steps[1..], table, o);
    }
  }

  ghost predicate NoPhantoms(w: World, steps: seq<Step>, table: RateTable)
    requires Sound(w) && CanRun(w, steps, table)
    decreases |steps|
  {
    hide Sound, Ready, Advance, HasPhantomStep;
    steps == [] ||
    (!HasPhantomStep(w, steps[0], table)
     && (AdvanceSound(w, steps[0], table); NoPhantoms(Advance(w, steps[0], table), steps[1..], table)))
  }

  /** Is power exact in every world along the history? */
  ghost predicate AlwaysExact(w: World, steps: seq<Step>, table: RateTable)
    requires Sound(w) && CanRun(w, steps, table)
    decreases |steps|
  {
    hide Sound, Ready, Advance, Exact;
    Exact(w.net) &&
    (steps == [] || (AdvanceSound(w, steps[0], table); AlwaysExact(Advance(w, steps[0], table), steps[1..], table)))
  }

  /** From exact power, pool power equals operator stake plus delegated stakes in every world along a
      history, through any transactions and epoch changes, if and only if no epoch's end has a phantom. */
  lemma {:induction false} PowerStaysExact(w: World, steps: seq<Step>, table: RateTable)
    requires Sound(w) && CanRun(w, steps, table) && Exact(w.net)
    ensures AlwaysExact(w, steps, table) <==> NoPhantoms(w, steps, table)
    ensures NoPhantoms(w, steps, table) ==> Exact(RunChain(w, steps, table).net)
    decreases |steps|
  {
    hide Sound, Ready, Advance, Exact, HasPhantomStep;
    if steps == [] {
    } else {
      AdvanceSound(w, steps[0], table);
      StepExactIff(w, steps[0], table);
      var w' := Advance(w, steps[0], table);
      if Exact(w'.net) {
        PowerStaysExact(w', steps[1..], table);
      } else {
        NotExact(w', steps[1..], table);
      }
    }
  }

  lemma NotExact(w: World, steps: seq<Step>, table: RateTable)
    requires Sound(w) && CanRun(w, steps, table) && !Exact(w.net)
    ensures !AlwaysExact(w, steps, table)
  {
    hide Sound, Ready, Advance, Exact;
  }

  // ---------- nonces over a history ----------

  function SignerOf(s: Step): Address { if s.Transact? then s.txn.signer else s.signer }

  /** Does the step go through, whether its commands succeed or not? */
  predicate GoesThrough(w: World, s: Step) {
    match s
    case Transact(txn, block) => PreCharge(w, txn, block).Accepted? && Transit(w, txn, block).Finished?
    case EndEpoch(_, _, _, _) => ValidEpochEnd(w, s)
  }

  /** A step that goes through uses up the signer's nonce; nothing else touches a nonce. */
  lemma {:induction false} AdvanceNonces(w: World, s: Step, table: RateTable)
    requires Sound(w) && Ready(w, s, table)
    ensures var next := SatAdd(Get0(w.nonces, SignerOf(s)), 1);
      Advance(w, s, table).nonces == if GoesThrough(w, s) then w.nonces[SignerOf(s) := next] else w.nonces
  {
    hide Transit, PreCharge, Sound, CommandsPhase;
    if s.Transact? {
      if PreCharge(w, s.txn, s.block).Rejected? {
        RejectionChangesNothing(w, s.txn, s.block);
      } else if Transit(w, s.txn, s.block).Finished? {
        TransactionCommits(w, s.txn, s.block);
      }
    }
  }

  lemma {:induction false} NoncesNeverFall(w: World, steps: seq<Step>, table: RateTable, a: Address)
    requires Sound(w) && CanRun(w, steps, table)
    ensures Get0(w.nonces, a) <= Get0(RunChain(w, steps, table).nonces, a)
    decreases |steps|
  {
    hide Sound, Ready, Advance, GoesThrough;
    if steps == [] {
    } else {
      AdvanceSound(w, steps[0], table);
      AdvanceNonces(w, steps[0], table);
      NoncesNeverFall(Advance(w, steps[0], table), steps[1..], table, a);
    }
  }

  /** No replay: what went through once is turned down in every later world, whatever the block. */
  lemma {:induction false} NoReplay(w: World, steps: seq<Step>, table: RateTable, block: Block)
    requires Sound(w) && CanRun(w, steps, table) && steps != [] && GoesThrough(w, steps[0])
    requires Get0(w.nonces, SignerOf(steps[0])) < U64_MAX
    ensures var s, w' := steps[0], RunChain(w, steps, table);
      && (s.Transact? ==> PreCharge(w', s.txn, block) == Rejected(WrongNonce))
      && (s.EndEpoch? ==> !ValidEpochEnd(w', s))
  {
    hide Sound, Ready, Advance, PreCharge, Transit;
    var s := steps[0];
    AdvanceSound(w, s, table);
    AdvanceNonces(w, s, table);
    NoncesNeverFall(Advance(w, s, table), steps[1..], table, SignerOf(s));
    if s.Transact? {
      AcceptedIff(w, s.txn, s.block);
      AcceptedIff(RunChain(w, steps, table), s.txn, block);
    }
  }

  // ---------- supply over a history ----------

  /** Tokens burnt as fees and tokens issued to deposits; the pool rewards these come from, and the most
      that rounding withholds of those. */
  datatype Flow = Flow(burnt: int, issued: int, rewards: int, slack: int)

  const NO_FLOW := Flow(0, 0, 0, 0)

  ghost function FlowOf(w: World, s: Step, table: RateTable): Flow
    requires Ready(w, s, table)
  {
    match s
    case Transact(txn, block) =>
      (match PreCharge(w, txn, block)
       case Accepted(w1) =>
         var base := FeeGas(w1, txn) * block.baseFee;
         NO_FLOW.(burnt := if Transit(w, txn, block).Finished? then base - base * 20 / 100 else 0)
       case Rejected(_) => NO_FLOW)
    case EndEpoch(_, _, _, perf) =>
      if !ValidEpochEnd(w, s) then NO_FLOW
      else
        var n, stats := w.net, perf.value;
        Flow(0, DistributedSum(table, stats, n.epoch, |n.vp|, n.vp), RewardSum(table, stats, n.epoch, |n.vp|, n.vp),
             Slack(table, stats, n.epoch, |n.vp|, n.vp))
  }

  /** The supply changes by exactly what is issued less what is burnt; what is issued is the pool rewards
      up to the rounding slack. */
  ghost predicate Balances(before: nat, f: Flow, after: nat) {
    && after == before - f.burnt + f.issued
    && f.rewards - f.slack <= f.issued <= f.rewards
  }

  lemma {:induction false} TransactFlow(w: World, txn: Txn, block: Block, table: RateTable)
    requires Sound(w)
    ensures Balances(Supply(w), FlowOf(w, Transact(txn, block), table), Supply(Advance(w, Transact(txn, block), table)))
  {
    hide Sound, Transit, PreCharge, Supply, FeeGas;
    if PreCharge(w, txn, block).Accepted? {
      TransactionConserves(w, txn, block);
    } else {
      RejectionChangesNothing(w, txn, block);
    }
  }

  lemma {:induction false} EpochFlow(w: World, s: Step, table: RateTable)
    requires Sound(w) && Ready(w, s, table) && Rotates(w, s)
    ensures Balances(Supply(w), FlowOf(w, s, table), Supply(Advance(w, s, table)))
  {
    hide Advance, RewardSum, DistributedSum, Slack, PaidDeposits, Inv, DepositTotal;
    EpochSound(w, s, table);
    EpochIssuance(w.net, table, s.perf.value);
  }

  ghost function FlowSum(w: World, steps: seq<Step>, table: RateTable): Flow
    requires Sound(w) && CanRun(w, steps, table)
    decreases |steps|
  {
    hide Sound, Ready, Advance, FlowOf;
    if steps == [] then NO_FLOW
    else
      AdvanceSound(w, steps[0], table);
      var now, later := FlowOf(w, steps[0], table), FlowSum(Advance(w, steps[0], table), steps[1..], table);
      Flow(now.burnt + later.burnt, now.issued + later.issued, now.rewards + later.rewards, now.slack + later.slack)
  }

  /** Conservation over every history: tokens are created by epoch rewards only and destroyed by base
      fees only; the final supply is exactly the initial one plus all rewards distributed less all burnt
      fees, and the rewards distributed are the pool rewards up to the rounding slack. */
  lemma {:induction false} SupplyOverHistory(w: World, steps: seq<Step>, table: RateTable)
    requires Sound(w) && CanRun(w, steps, table)
    ensures Balances(Supply(w), FlowSum(w, steps, table), Supply(RunChain(w, steps, table)))
    decreases |steps|
  {
    hide Sound, Advance, Ready, FlowOf, Supply, Rotates;
    if steps == [] {
    } else {
      AdvanceSound(w, steps[0], table);
      StepFlow(w, steps[0], table);
      SupplyOverHistory(Advance(w, steps[0], table), steps[1..], table);
    }
  }

  lemma {:induction false} StepFlow(w: World, s: Step, table: RateTable)
    requires Sound(w) && Ready(w, s, table)
    ensures Balances(Supply(w), FlowOf(w, s, table), Supply(Advance(w, s, table)))
  {
    hide Sound, Supply;
    if s.Transact? {
      TransactFlow(w, s.txn, s.block, table);
    } else if Rotates(w, s) {
      EpochFlow(w, s, table);
    }
  }

  // ---------- from the beginning ----------

  /** A chain starts with accounts only: no contracts, no pools, no deposits. */
  function Genesis(balances: map<Address, u64>, limits: Limits): World {
    World(balances, map[], map[], map[], map[], EmptyNetwork(limits))
  }

  lemma {:induction false} GenesisIsSound(balances: map<Address, u64>, limits: Limits)
    requires Sum(balances) <= U64_MAX
    ensures var g := Genesis(balances, limits);
      Sound(g) && Exact(g.net) && Supply(g) == Sum(balances) && forall o :: Surplus(g.net.pools, o) == 0
  {
    var n := EmptyNetwork(limits);
    assert DepositBalances(n.deposits) == map[];
    assert Inv(n);
  }

  /** So in every world a chain reaches from there: the invariant holds; the supply is the initial balances
      plus rewards distributed less fees burnt; every pool's power is at least its stakes and exceeds them
      by no more than the phantoms entered so far, and by nothing if there were none. */
  lemma {:induction false} FromGenesis(balances: map<Address, u64>, limits: Limits, steps: seq<Step>, table: RateTable)
    requires Sum(balances) <= U64_MAX
    ensures Sound(Genesis(balances, limits))
    ensures CanRun(Genesis(balances, limits), steps, table) ==>
      var g := Genesis(balances, limits);
      var w := RunChain(g, steps, table);
      && Sound(w)
      && Balances(Sum(balances), FlowSum(g, steps, table), Supply(w))
      && (forall o :: Surplus(w.net.pools, o) <= PhantomSum(g, steps, table, o))
      && (NoPhantoms(g, steps, table) ==> Exact(w.net))
  {
    hide Sound, CanRun, RunChain, FlowSum, PhantomSum, NoPhantoms, AlwaysExact, Exact, Surplus, Supply, Sum, Balances;
    GenesisIsSound(balances, limits);
    var g := Genesis(balances, limits);
    if CanRun(g, steps, table) {
      EveryReachableWorldIsSound(g, steps, table);
      SupplyOverHistory(g, steps, table);
      PowerStaysExact(g, steps, table);
      forall o ensures Surplus(RunChain(g, steps, table).net.pools, o) <= PhantomSum(g, steps, table, o) {
        SurplusOverHistory(g, steps, table, o);
      }
    }
  }
}
