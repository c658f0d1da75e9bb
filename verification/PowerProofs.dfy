/** By how much auto-staking lets pool power exceed the stakes: by the rewards that find the delegated
    stakes full of larger stakes, and nothing else. */
module PowerProofs {
  import opened Words
  import opened Sums
  import opened Heap
  import opened Network
  import opened Staking
  import opened Products
  import opened Rewards
  import opened Epoch
  import opened Invariant
  import opened StakingProofs
  import opened EpochProofs
  import opened RewardProofs
  import opened EpochTheorems

  ghost function AmountSum(autos: seq<AutoStake>): nat {
    if autos == [] then 0 else autos[0].amount + AmountSum(autos[1..])
  }

  /** Does this auto-stake add to a pool's power without entering its stakes? */
  predicate PhantomAuto(n: Network, a: AutoStake) {
    a.operator in n.pools && Phantom(n.pools[a.operator], n.limits.stakesPerPool, a.operator, a.owner, a.amount)
  }

  /** What the auto-stakes that are phantoms at their turn add to the power of one operator's pool. */
  ghost function PhantomIn(n: Network, autos: seq<AutoStake>, o: Address): nat
    decreases |autos|
  {
    if autos == [] then 0
    else
      var a := autos[0];
      (if a.operator == o && PhantomAuto(n, a) then a.amount else 0) + PhantomIn(ApplyAuto(n, a), autos[1..], o)
  }

  ghost predicate Headroom(n: Network, more: nat) {
    forall o | o in n.pools :: n.pools[o].power + more <= U64_MAX
  }

  lemma {:induction false} ApplyAutoSurplus(n: Network, a: AutoStake, more: nat, o: Address)
    requires LiveOk(n)
    ensures var n', ph := ApplyAuto(n, a), if a.operator == o && PhantomAuto(n, a) then a.amount else 0;
      && Surplus(n'.pools, o) <= Surplus(n.pools, o) + ph
      && (Headroom(n, a.amount + more) ==> Headroom(n', more) && Surplus(n'.pools, o) == Surplus(n.pools, o) + ph)
  {
    hide Raise, Reindex, Phantom, StakeTotal, Covers, IndexOk;
    if a.operator in n.pools {
      var pool := n.pools[a.operator];
      RaiseExcess(pool, n.limits.stakesPerPool, a.operator, a.owner, a.amount, false);
      assert PoolOk(pool, a.operator, n.limits.stakesPerPool);
    }
  }

  /** Auto-staking adds to no pool's surplus more than its phantoms, and exactly that where there is room. */
  lemma {:induction false} ApplyAutosSurplus(n: Network, autos: seq<AutoStake>, o: Address)
    requires LiveOk(n) && Backed(n.pools, Payout(n.deposits, autos))
    requires DepositTotal(n.deposits) <= U64_MAX
    ensures var n' := ApplyAutos(n, autos);
      && Surplus(n'.pools, o) <= Surplus(n.pools, o) + PhantomIn(n, autos, o)
      && (Headroom(n, AmountSum(autos)) ==> Surplus(n'.pools, o) == Surplus(n.pools, o) + PhantomIn(n, autos, o))
    decreases |autos|
  {
    hide Surplus, LiveOk, Backed, Increase, Headroom, Phantom, DepositTotal;
    if autos == [] {
    } else {
      var a, rest := autos[0], autos[1..];
      assert autos == [a] + rest;
      ApplyAutoBacked(n, a, rest);
      ApplyAutoLive(n, a, rest);
      ApplyAutoSurplus(n, a, AmountSum(rest), o);
      ApplyAutosSurplus(ApplyAuto(n, a), rest, o);
    }
  }

  // ---------- room in the word ----------

  lemma {:induction false} AmountSumAppend(autos: seq<AutoStake>, a: AutoStake)
    ensures AmountSum(autos + [a]) == AmountSum(autos) + a.amount
  {
    if autos == [] {
      assert ([] + [a])[1..] == [];
    } else {
      assert (autos + [a])[1..] == autos[1..] + [a];
      AmountSumAppend(autos[1..], a);
    }
  }

  lemma {:induction false} CreditOwnerAutos(p: Payout, operator: Address, owner: Address, amount: u64)
    ensures AmountSum(CreditOwner(p, operator, owner, amount).autos) <= AmountSum(p.autos) + amount
    ensures AmountSum(CreditOperator(p, operator, amount).autos) <= AmountSum(p.autos) + amount
  {
    AmountSumAppend(p.autos, AutoStake(operator, owner, amount));
    AmountSumAppend(p.autos, AutoStake(operator, operator, amount));
  }

  lemma {:induction false} CreditOwnersAutos(p: Payout, operator: Address, pool: Pool, owners: seq<Address>,
      reward: u64, total: u64)
    requires forall i | 0 <= i < |owners| :: owners[i] in pool.delegated
    requires 4371 * reward <= U64_MAX
    ensures AmountSum(CreditOwners(p, operator, pool, owners, reward, total).autos)
         <= AmountSum(p.autos) + OwnersDue(pool, owners, reward, total)
    decreases |owners|
  {
    hide RewardOf, CreditOwner, AmountSum;
    if owners == [] {
    } else {
      var amount := RewardOf(reward, pool.commissionRate, pool.delegated[owners[0]], total).0;
      CreditOwnerAutos(p, operator, owners[0], amount);
      CreditOwnersAutos(CreditOwner(p, operator, owners[0], amount), operator, pool, owners[1..], reward, total);
    }
  }

  lemma {:induction false} PayPoolAutos(p: Payout, s: Snapshot, reward: u64)
    requires 4371 * reward <= U64_MAX && s.pool.commissionRate <= 100 && StakeTotal(s.pool) <= U64_MAX
    ensures AmountSum(PayPool(p, s, reward).autos) <= AmountSum(p.autos) + Distributed(s.pool, reward)
  {
    hide PayPool, RewardOf, CreditOwners, CreditOperator, Commissions, Shares, OwnersDue, FeesDue, Sum, AmountSum;
    if reward == 0 {
      PayNothing(p, s);
    } else {
      var owners := Listing(s.pool.delegated.Keys);
      var own, total := OrZero(s.pool.operatorStake), StakeTotal(s.pool);
      var p1 := CreditOwners(p, s.operator, s.pool, owners, reward, total);
      PayPoolIs(p, s, reward);
      StakesWithin(s.pool, owners);
      CommissionsIs(0, s.pool, owners, reward, total);
      DuesAddUp(s.pool, owners, reward, own, total);
      CreditOwnersAutos(p, s.operator, s.pool, owners, reward, total);
      var amount := SatAdd(RewardOf(reward, 0, own, total).0, Commissions(0, s.pool, owners, reward, total));
      CreditOwnerAutos(p1, s.operator, s.operator, amount);
    }
  }

  /** The rewards to be auto-staked are among those distributed. */
  lemma {:induction false} PayAllAutos(p: Payout, table: RateTable, perf: Performance, epoch: u64, size: nat,
      vs: seq<Snapshot>)
    requires |vs| <= size
    requires forall i | 0 <= i < |vs| :: vs[i].pool.commissionRate <= 100 && StakeTotal(vs[i].pool) <= U64_MAX
    ensures AmountSum(PayAll(p, table, perf, epoch, size, vs).autos)
         <= AmountSum(p.autos) + DistributedSum(table, perf, epoch, size, vs)
    decreases |vs|
  {
    hide PayPool, RewardFor, Distributed, StakeTotal, AmountSum;
    if vs == [] {
    } else {
      var reward := RewardFor(table, perf, epoch, size, vs[0]);
      PayPoolAutos(p, vs[0], reward);
      PayAllAutos(PayPool(p, vs[0], reward), table, perf, epoch, size, vs[1..]);
    }
  }

  /** Exact power is at most the deposits, so issuance that fits leaves room for every auto-stake. */
  lemma {:induction false} RoomForAutos(n: Network, table: RateTable, perf: Performance)
    requires Inv(n) && Exact(n)
    requires DepositTotal(n.deposits) + RewardSum(table, perf, n.epoch, |n.vp|, n.vp) <= U64_MAX
    ensures Headroom(n, AmountSum(Paid(n, table, perf).autos))
  {
    hide PayAll, RewardSum, DistributedSum, StakeTotal, DepositTotal, Covers, Slack;
    RecordPayable(n);
    PayAllAutos(Payout(n.deposits, []), table, perf, n.epoch, |n.vp|, n.vp);
    DistributedBounds(table, perf, n.epoch, |n.vp|, n.vp);
    forall o | o in n.pools ensures n.pools[o].power <= DepositTotal(n.deposits) {
      assert PoolOk(n.pools[o], o, n.limits.stakesPerPool);
      StakesFit(n.deposits, n.pools[o], o);
    }
  }

  // ---------- the whole epoch ----------

  function Paid(n: Network, table: RateTable, perf: Performance): Payout {
    PayAll(Payout(n.deposits, []), table, perf, n.epoch, |n.vp|, n.vp)
  }

  /** What this epoch's end adds to the power of an operator's pool without a stake. */
  ghost function PhantomPower(n: Network, table: RateTable, perf: Performance, o: Address): nat {
    PhantomIn(n.(deposits := Paid(n, table, perf).deposits), Paid(n, table, perf).autos, o)
  }

  /** Will some reward of this epoch be auto-staked into a pool that is full of larger stakes? */
  ghost predicate EpochPhantom(n: Network, table: RateTable, perf: Performance) {
    exists o :: PhantomPower(n, table, perf, o) > 0
  }

  /** By how much power exceeds the stakes after NextEpoch: never by more than before plus the phantoms,
      and by exactly that as long as the auto-stakes have room in the word. */
  lemma {:induction false} EpochSurplus(n: Network, table: RateTable, perf: Performance, o: Address)
    requires Inv(n) && n.epoch < U64_MAX
    requires DepositTotal(PaidDeposits(n, table, perf)) <= U64_MAX
    ensures Indexed(n)
    ensures var after := Surplus(NextEpoch(n, table, perf).pools, o);
      var bound := Surplus(n.pools, o) + PhantomPower(n, table, perf, o);
      && after <= bound
      && (Headroom(n, AmountSum(Paid(n, table, perf).autos)) ==> after == bound)
  {
    hide PayAll, ApplyAutos, Backed, LiveOk, Grows, Headroom, PhantomIn, AmountSum, DepositTotal, Inv, Surplus;
    var p := Paid(n, table, perf);
    var n1 := n.(deposits := p.deposits);
    InvLive(n);
    IndexedByInv(n);
    RewardedOk(n, table, perf);
    IndexedByInv(Rewarded(n, table, perf));
    BackedAtStart(n);
    PayAllBacked(n.pools, Payout(n.deposits, []), table, perf, n.epoch, |n.vp|, n.vp);
    GrowsLive(n, p.deposits);
    HeadroomFrame(n, n1, AmountSum(p.autos));
    ApplyAutosSurplus(n1, p.autos, o);
  }

  /** NextEpoch keeps pool power equal to the stakes if and only if no auto-stake is a phantom; and in any
      case power then equals the stakes plus the phantoms, pool by pool. */
  lemma {:induction false} EpochExactIff(n: Network, table: RateTable, perf: Performance)
    requires Inv(n) && Exact(n) && n.epoch < U64_MAX
    requires DepositTotal(n.deposits) + RewardSum(table, perf, n.epoch, |n.vp|, n.vp) <= U64_MAX
    ensures Indexed(n) && (Exact(NextEpoch(n, table, perf)) <==> !EpochPhantom(n, table, perf))
    ensures forall o :: Surplus(NextEpoch(n, table, perf).pools, o) == PhantomPower(n, table, perf, o)
  {
    hide NextEpoch, PaidDeposits, Headroom, AmountSum, Paid, PhantomPower, DepositTotal, RewardSum, Inv, Exact, Surplus;
    EpochIssuance(n, table, perf);
    RoomForAutos(n, table, perf);
    InvLive(n);
    NextEpochInv(n, table, perf);
    var n' := NextEpoch(n, table, perf);
    InvLive(n');
    ExactIsNoSurplus(n);
    ExactIsNoSurplus(n');
    forall o ensures Surplus(n'.pools, o) == PhantomPower(n, table, perf, o) {
      EpochSurplus(n, table, perf, o);
    }
  }

  lemma InvLive(n: Network)
    requires Inv(n)
    ensures LiveOk(n)
  {
  }

  lemma HeadroomFrame(n: Network, n': Network, more: nat)
    requires n'.pools == n.pools
    ensures Headroom(n', more) <==> Headroom(n, more)
  {
  }

  // ---------- a phantom ----------

  /** One validator, run by account 1, whose live pool is full with a stake of account 2, while account 3,
      who was staked in the epoch that ends, has asked for its rewards to be staked. */
  function PhantomNetwork(): Network {
    Network(Limits(1, 1), map[1 := Pool(0, 400_000, None, map[2 := 400_000])],
            map[(1, 2) := Deposit(400_000, false), (1, 3) := Deposit(365_000, true)],
            map[1 := 400_000], [Snapshot(1, Pool(0, 365_000, None, map[3 := 365_000]))], [], CONSTANT_ISSUANCE_EPOCH)
  }

  function OneBlock(): Performance { Performance(1, map[1 := 1]) }

  lemma SumOne(k: Address, v: u64)
    ensures Sum(map[k := v]) == v
  {
    var none: Entries := map[];
    SumUpdate(none, k, v);
    assert map[k := v] == none[k := v];
  }

  lemma {:induction false} PhantomNetworkSound()
    ensures Inv(PhantomNetwork()) && Exact(PhantomNetwork())
  {
    PhantomLive();
    PhantomLocks();
  }

  lemma {:induction false} PhantomLive()
    ensures LiveOk(PhantomNetwork()) && Exact(PhantomNetwork())
  {
    hide Sum;
    var n := PhantomNetwork();
    SumOne(2, 400_000);
    assert |n.pools[1].delegated| == 1 && |n.nvp| == 1;
    assert Covers(n.deposits, n.pools[1], 1);
  }

  lemma {:induction false} PhantomLocks()
    ensures var n := PhantomNetwork(); RecordOk(n.vp, n.limits) && Locks(n.deposits, n.vp) && Locks(n.deposits, n.pvp)
  {
    hide Sum;
    var n := PhantomNetwork();
    SumOne(3, 365_000);
    assert |n.vp[0].pool.delegated| == 1;
    assert n.vp[1..] == [];
    forall o, k ensures Locked(n.vp, o, k) <= BalanceOf(n.deposits, o, k) {
      assert Find(n.vp, o) == if o == 1 then Some(n.vp[0].pool) else None;
    }
  }

  lemma {:induction false} PhantomReward(table: RateTable)
    ensures RewardFor(table, OneBlock(), CONSTANT_ISSUANCE_EPOCH, 1, PhantomNetwork().vp[0]) == 15
  {
    hide Mul, Div, PoolReward;
    PoolRewardFormula(table, CONSTANT_ISSUANCE_EPOCH, 365_000, 1, 1);
    MulPos(5_475_000, 365_000);
    MulPos(365_000, 1);
    assert Mul(15, 365_000) == 5_475_000 by { MulIs(15, 365_000); }
    DivUnique(5_475_000, 365_000, 15);
  }

  lemma MulIs(a: nat, b: nat)
    ensures Mul(a, b) == a * b
  {
  }

  lemma {:induction false} PhantomPaid(table: RateTable)
    ensures Paid(PhantomNetwork(), table, OneBlock()).autos == [AutoStake(1, 3, 15)]
  {
    hide RewardOf, RewardFor;
    var n := PhantomNetwork();
    var s, stakes := n.vp[0], n.vp[0].pool.delegated;
    PhantomReward(table);
    SumOne(3, 365_000);
    var owners := Listing(stakes.Keys);
    assert |stakes.Keys| == 1;
    assert owners == [3];
    assert owners[1..] == [] && n.vp[1..] == [];
    TotalStakesExact(s.pool);
    RewardOfSplits(15, 0, 365_000, 365_000);
    RewardOfSplits(15, 0, 0, 365_000);
    assert ShareOf(15, 365_000, 365_000) == 15 by { ShareAll(15, 365_000); }
    var p := Payout(n.deposits, []);
    var p1 := CreditOwner(p, 1, 3, 15);
    assert CreditOwners(p1, 1, s.pool, [], 15, 365_000) == p1;
    assert CreditOwners(p, 1, s.pool, owners, 15, 365_000) == p1;
    var amount := SatAdd(RewardOf(15, 0, 0, 365_000).0, Commissions(0, s.pool, owners, 15, 365_000));
    assert PayPool(p, s, 15) == CreditOperator(p1, 1, amount);
    assert PayAll(PayPool(p, s, 15), table, OneBlock(), n.epoch, 1, []) == PayPool(p, s, 15);
    assert (1, 1) !in p1.deposits;
  }

  lemma {:induction false} PhantomIsFull()
    ensures var n := PhantomNetwork(); forall d :: PhantomIn(n.(deposits := d), [AutoStake(1, 3, 15)], 1) == 15
  {
    var n := PhantomNetwork();
    var pool, a := n.pools[1], AutoStake(1, 3, 15);
    InsertExtractSpec(pool.delegated, 1, 3, 15);
    assert |pool.delegated| == 1;
    hide InsertExtract;
    forall d ensures PhantomIn(n.(deposits := d), [a], 1) == 15 {
      assert PhantomAuto(n.(deposits := d), a) && [a][1..] == [];
    }
  }

  /** NextEpoch can break exactness: in this sound network with exact power, account 3's reward of 15
      finds the pool full, and the pool's power exceeds its stakes by 15 afterwards. */
  lemma {:induction false} PhantomExample(table: RateTable)
    ensures var n := PhantomNetwork();
      && Inv(n) && Exact(n) && Indexed(n) && EpochPhantom(n, table, OneBlock())
      && !Exact(NextEpoch(n, table, OneBlock())) && Surplus(NextEpoch(n, table, OneBlock()).pools, 1) == 15
  {
    hide Paid, PhantomIn, NextEpoch, Inv, Exact, RewardFor, Surplus;
    var n := PhantomNetwork();
    PhantomNetworkSound();
    PhantomPaid(table);
    PhantomIsFull();
    PhantomTotals(table);
    assert PhantomPower(n, table, OneBlock(), 1) == 15;
    EpochExactIff(n, table, OneBlock());
  }

  lemma {:induction false} PhantomTotals(table: RateTable)
    ensures var n := PhantomNetwork();
      DepositTotal(n.deposits) + RewardSum(table, OneBlock(), n.epoch, |n.vp|, n.vp) <= U64_MAX
  {
    hide RewardFor;
    var n := PhantomNetwork();
    PhantomReward(table);
    assert n.vp[1..] == [];
    var none: Deposits := map[];
    DepositSet(none, 1, 2, Deposit(400_000, false));
    var one: Deposits := none[(1, 2) := Deposit(400_000, false)];
    DepositSet(one, 1, 3, Deposit(365_000, true));
    assert n.deposits == one[(1, 3) := Deposit(365_000, true)];
    assert DepositBalances(none) == map[];
  }
}
