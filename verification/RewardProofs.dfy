/** Where the rewards of an epoch go: who is paid what, and that the pool reward is split without
    creating a gray and losing at most one per delegated stake. */
module RewardProofs {
  import opened Words
  import opened Sums
  import opened Heap
  import opened Network
  import opened Products
  import opened Rewards
  import opened Epoch
  import opened Invariant
  import opened StakingProofs

  // ---------- totals over a listing ----------

  ghost function StakeSum(owners: seq<Address>, stakes: Entries): nat
    requires forall i | 0 <= i < |owners| :: owners[i] in stakes
  {
    if owners == [] then 0 else stakes[owners[0]] + StakeSum(owners[1..], stakes)
  }

  lemma {:induction false} StakeSumFrame(owners: seq<Address>, a: Entries, b: Entries)
    requires forall i | 0 <= i < |owners| :: owners[i] in a && owners[i] in b && a[owners[i]] == b[owners[i]]
    ensures StakeSum(owners, a) == StakeSum(owners, b)
    decreases |owners|
  {
    if owners == [] {
    } else {
      StakeSumFrame(owners[1..], a, b);
    }
  }

  lemma {:induction false} StakeSumIsSum(owners: seq<Address>, stakes: Entries)
    requires |owners| == |stakes|
    requires forall i | 0 <= i < |owners| :: owners[i] in stakes
    requires forall i, j | 0 <= i < j < |owners| :: owners[i] != owners[j]
    ensures StakeSum(owners, stakes) == Sum(stakes)
    decreases |owners|
  {
    if owners == [] {
      assert stakes == map[];
    } else {
      var k := owners[0];
      var rest: Entries := stakes - {k};
      SumRemove(stakes, k);
      assert rest.Keys == stakes.Keys - {k};
      StakeSumIsSum(owners[1..], rest);
      StakeSumFrame(owners[1..], stakes, rest);
    }
  }

  lemma {:induction false} TotalStakesIs(own: u64, owners: seq<Address>, stakes: Entries)
    requires forall i | 0 <= i < |owners| :: owners[i] in stakes
    ensures TotalStakes(own, owners, stakes) == Min(own + StakeSum(owners, stakes), U64_MAX)
    decreases |owners|
  {
    if owners == [] {
    } else {
      TotalStakesIs(SatAdd(own, stakes[owners[0]]), owners[1..], stakes);
    }
  }

  /** The loop's saturating total is the true total whenever that fits. */
  lemma {:induction false} TotalStakesExact(pool: Pool)
    requires StakeTotal(pool) <= U64_MAX
    ensures TotalStakes(OrZero(pool.operatorStake), Listing(pool.delegated.Keys), pool.delegated) == StakeTotal(pool)
  {
    hide TotalStakes, StakeSum, Sum;
    var owners := Listing(pool.delegated.Keys);
    assert |pool.delegated.Keys| == |pool.delegated|;
    TotalStakesIs(OrZero(pool.operatorStake), owners, pool.delegated);
    StakeSumIsSum(owners, pool.delegated);
  }

  // ---------- the split of one pool reward ----------

  /** A share of the reward; nothing is shared out when nothing is staked. */
  function ShareOf(reward: nat, stake: nat, total: nat): nat {
    if total == 0 then 0 else Share(reward, stake, total)
  }

  /** What the operator (staking `own`) and the listed delegators get together. */
  ghost function Shares(own: nat, owners: seq<Address>, stakes: Entries, reward: nat, total: nat): nat
    requires forall i | 0 <= i < |owners| :: owners[i] in stakes
  {
    if owners == [] then ShareOf(reward, own, total)
    else ShareOf(reward, stakes[owners[0]], total) + Shares(own, owners[1..], stakes, reward, total)
  }

  lemma {:induction false} SharesRound(own: nat, owners: seq<Address>, stakes: Entries, reward: nat, total: nat)
    requires forall i | 0 <= i < |owners| :: owners[i] in stakes
    ensures var all := ShareOf(reward, own + StakeSum(owners, stakes), total);
      Shares(own, owners, stakes, reward, total) <= all <= Shares(own, owners, stakes, reward, total) + |owners|
    decreases |owners|
  {
    hide Share;
    if owners == [] {
    } else {
      var s := stakes[owners[0]];
      SharesRound(own, owners[1..], stakes, reward, total);
      if total > 0 { ShareAdds(reward, s, own + StakeSum(owners[1..], stakes), total); }
    }
  }

  /** What a pool of this make-up hands out of its reward. */
  ghost function Distributed(pool: Pool, reward: nat): nat {
    Shares(OrZero(pool.operatorStake), Listing(pool.delegated.Keys), pool.delegated, reward, StakeTotal(pool))
  }

  /** Delegator rewards, commissions and the operator's share never exceed the pool reward and fall
      short of it by at most the number of delegated stakes. */
  lemma {:induction false} RewardSplit(pool: Pool, reward: nat)
    ensures Distributed(pool, reward) <= reward
    ensures StakeTotal(pool) > 0 ==> reward <= Distributed(pool, reward) + |pool.delegated|
  {
    hide Shares, StakeSum, Sum, Share;
    var owners := Listing(pool.delegated.Keys);
    assert |pool.delegated.Keys| == |pool.delegated|;
    StakeSumIsSum(owners, pool.delegated);
    SharesRound(OrZero(pool.operatorStake), owners, pool.delegated, reward, StakeTotal(pool));
    if StakeTotal(pool) > 0 { ShareAll(reward, StakeTotal(pool)); }
  }

  // ---------- the loops pay exactly that ----------

  lemma {:induction false} CreditOwnerTotal(p: Payout, operator: Address, owner: Address, amount: u64)
    ensures var p' := CreditOwner(p, operator, owner, amount);
      && DepositTotal(p'.deposits) <= DepositTotal(p.deposits) + amount
      && (((operator, owner) in p.deposits || amount == 0) && DepositTotal(p.deposits) + amount <= U64_MAX
          ==> DepositTotal(p'.deposits) == DepositTotal(p.deposits) + amount)
      && (forall k | k in p.deposits :: k in p'.deposits)
  {
    if (operator, owner) in p.deposits {
      var d := p.deposits[(operator, owner)];
      DepositAtLeast(p.deposits, operator, owner);
      DepositSet(p.deposits, operator, owner, d.(balance := SatAdd(d.balance, amount)));
    }
  }

  lemma {:induction false} CreditOperatorTotal(p: Payout, operator: Address, amount: u64)
    ensures var p' := CreditOperator(p, operator, amount);
      && DepositTotal(p'.deposits) <= DepositTotal(p.deposits) + amount
      && (DepositTotal(p.deposits) + amount <= U64_MAX
        ==> DepositTotal(p'.deposits) == DepositTotal(p.deposits) + amount)
      && (forall k | k in p.deposits :: k in p'.deposits)
  {
    if (operator, operator) in p.deposits {
      CreditOwnerTotal(p, operator, operator, amount);
    } else {
      DepositSet(p.deposits, operator, operator, Deposit(amount, false));
    }
  }

  /** A stake with no deposit behind it has no power (lock-up), hence no reward. */
  ghost predicate Endowed(deposits: Deposits, operator: Address, pool: Pool) {
    forall k | k in pool.delegated :: (operator, k) in deposits || pool.delegated[k] == 0
  }

  /** Total of what CreditOwners is to pay. */
  ghost function OwnersDue(pool: Pool, owners: seq<Address>, reward: u64, total: u64): nat
    requires forall i | 0 <= i < |owners| :: owners[i] in pool.delegated
    requires 4371 * reward <= U64_MAX
  {
    if owners == [] then 0
    else
      var first := RewardOf(reward, pool.commissionRate, pool.delegated[owners[0]], total).0;
      first + OwnersDue(pool, owners[1..], reward, total)
  }

  ghost function FeesDue(pool: Pool, owners: seq<Address>, reward: u64, total: u64): nat
    requires forall i | 0 <= i < |owners| :: owners[i] in pool.delegated
    requires 4371 * reward <= U64_MAX
  {
    if owners == [] then 0
    else
      var first := RewardOf(reward, pool.commissionRate, pool.delegated[owners[0]], total).1;
      first + FeesDue(pool, owners[1..], reward, total)
  }

  lemma RewardOfSplits(reward: u64, rate: u8, stake: u64, total: u64)
    requires 4371 * reward <= U64_MAX && rate <= 100 && stake <= total
    ensures var (r, c) := RewardOf(reward, rate, stake, total);
      && r + c == ShareOf(reward, stake, total) <= reward
      && (stake == 0 ==> r == c == 0)
      && (rate == 0 ==> c == 0)
  {
    hide Share;
    if total > 0 {
      hide StakeReward;
      ProductsFit(reward, rate, stake);
      StakeRewardSplits(reward, rate, stake, total);
      ShareAll(reward, total);
      if rate == 0 { NoCommission(reward, stake, total); }
    }
  }

  lemma NoCommission(reward: nat, stake: nat, total: nat)
    requires total > 0
    ensures Commission(reward, 0, stake, total) == 0
  {
    assert Mul(Mul(0, reward), stake) == 0;
    DivUnique(0, 100 * total, 0);
  }

  lemma {:induction false} CreditOwnersTotal(p: Payout, operator: Address, pool: Pool, owners: seq<Address>,
      reward: u64, total: u64)
    requires forall i | 0 <= i < |owners| :: owners[i] in pool.delegated && pool.delegated[owners[i]] <= total
    requires 4371 * reward <= U64_MAX && pool.commissionRate <= 100
    requires Endowed(p.deposits, operator, pool)
    ensures var p' := CreditOwners(p, operator, pool, owners, reward, total);
      var due := OwnersDue(pool, owners, reward, total);
      && DepositTotal(p'.deposits) <= DepositTotal(p.deposits) + due
      && (DepositTotal(p.deposits) + due <= U64_MAX ==> DepositTotal(p'.deposits) == DepositTotal(p.deposits) + due)
      && (forall k | k in p.deposits :: k in p'.deposits)
    decreases |owners|
  {
    if owners == [] {
    } else {
      var k := owners[0];
      var amount := RewardOf(reward, pool.commissionRate, pool.delegated[k], total).0;
      RewardOfSplits(reward, pool.commissionRate, pool.delegated[k], total);
      hide RewardOf, ShareOf, CreditOwner;
      CreditOwnerTotal(p, operator, k, amount);
      CreditOwnersTotal(CreditOwner(p, operator, k, amount), operator, pool, owners[1..], reward, total);
    }
  }

  lemma {:induction false} CommissionsIs(sum: u64, pool: Pool, owners: seq<Address>, reward: u64, total: u64)
    requires forall i | 0 <= i < |owners| :: owners[i] in pool.delegated
    requires 4371 * reward <= U64_MAX
    ensures Commissions(sum, pool, owners, reward, total) == Min(sum + FeesDue(pool, owners, reward, total), U64_MAX)
    decreases |owners|
  {
    hide RewardOf;
    if owners == [] {
    } else {
      var fee := RewardOf(reward, pool.commissionRate, pool.delegated[owners[0]], total).1;
      CommissionsIs(SatAdd(sum, fee), pool, owners[1..], reward, total);
    }
  }

  lemma {:induction false} DuesAddUp(pool: Pool, owners: seq<Address>, reward: u64, own: u64, total: u64)
    requires forall i | 0 <= i < |owners| :: owners[i] in pool.delegated && pool.delegated[owners[i]] <= total
    requires 4371 * reward <= U64_MAX && own <= total && pool.commissionRate <= 100
    ensures RewardOf(reward, 0, own, total).0
         + OwnersDue(pool, owners, reward, total) + FeesDue(pool, owners, reward, total)
         == Shares(own, owners, pool.delegated, reward, total)
    decreases |owners|
  {
    hide RewardOf, ShareOf;
    if owners == [] {
      RewardOfSplits(reward, 0, own, total);
    } else {
      RewardOfSplits(reward, pool.commissionRate, pool.delegated[owners[0]], total);
      DuesAddUp(pool, owners[1..], reward, own, total);
    }
  }

  lemma {:induction false} StakesWithin(pool: Pool, owners: seq<Address>)
    requires forall i | 0 <= i < |owners| :: owners[i] in pool.delegated
    ensures forall i | 0 <= i < |owners| :: pool.delegated[owners[i]] <= StakeTotal(pool)
  {
    forall i | 0 <= i < |owners| ensures pool.delegated[owners[i]] <= StakeTotal(pool) {
      SumAtLeast(pool.delegated, owners[i]);
    }
  }

  lemma PayPoolIs(p: Payout, s: Snapshot, reward: u64)
    requires 0 < 4371 * reward <= U64_MAX && StakeTotal(s.pool) <= U64_MAX
    ensures var owners := Listing(s.pool.delegated.Keys);
      var own, total := OrZero(s.pool.operatorStake), StakeTotal(s.pool);
      PayPool(p, s, reward)
      == CreditOperator(CreditOwners(p, s.operator, s.pool, owners, reward, total), s.operator,
                        SatAdd(RewardOf(reward, 0, own, total).0, Commissions(0, s.pool, owners, reward, total)))
  {
    hide TotalStakes, StakeTotal, CreditOwners, CreditOperator, Commissions, RewardOf;
    TotalStakesExact(s.pool);
  }

  /** Paying one pool adds exactly what RewardSplit bounds to the deposits. */
  lemma {:induction false} PayPoolTotal(p: Payout, s: Snapshot, reward: u64)
    requires 4371 * reward <= U64_MAX
    requires s.pool.commissionRate <= 100 && StakeTotal(s.pool) <= U64_MAX
    requires Endowed(p.deposits, s.operator, s.pool)
    ensures var p' := PayPool(p, s, reward);
      && DepositTotal(p'.deposits) <= DepositTotal(p.deposits) + Distributed(s.pool, reward)
      && (DepositTotal(p.deposits) + reward <= U64_MAX ==>
            DepositTotal(p'.deposits) == DepositTotal(p.deposits) + Distributed(s.pool, reward))
      && (forall k | k in p.deposits :: k in p'.deposits)
  {
    hide PayPool, RewardOf, CreditOwners, CreditOperator, Commissions;
    hide Shares, OwnersDue, FeesDue, Endowed, DepositTotal, Sum;
    RewardSplit(s.pool, reward);
    if reward == 0 {
      assert PayPool(p, s, 0) == p by { PayNothing(p, s); }
    } else {
      var owners := Listing(s.pool.delegated.Keys);
      var own, total := OrZero(s.pool.operatorStake), StakeTotal(s.pool);
      var p1 := CreditOwners(p, s.operator, s.pool, owners, reward, total);
      var amount := SatAdd(RewardOf(reward, 0, own, total).0, Commissions(0, s.pool, owners, reward, total));
      PayPoolIs(p, s, reward);
      StakesWithin(s.pool, owners);
      CommissionsIs(0, s.pool, owners, reward, total);
      CreditOwnersTotal(p, s.operator, s.pool, owners, reward, total);
      DuesAddUp(s.pool, owners, reward, own, total);
      CreditOperatorTotal(p1, s.operator, amount);
      assert amount == RewardOf(reward, 0, own, total).0 + FeesDue(s.pool, owners, reward, total);
    }
  }

  lemma PayNothing(p: Payout, s: Snapshot)
    ensures PayPool(p, s, 0) == p
  {
  }

  // ---------- the whole epoch ----------

  ghost function RewardSum(table: RateTable, perf: Performance, epoch: u64, size: nat, vs: seq<Snapshot>): nat
    requires |vs| <= size
  {
    if vs == [] then 0 else RewardFor(table, perf, epoch, size, vs[0]) + RewardSum(table, perf, epoch, size, vs[1..])
  }

  ghost function DistributedSum(table: RateTable, perf: Performance, epoch: u64, size: nat, vs: seq<Snapshot>): nat
    requires |vs| <= size
  {
    if vs == [] then 0
    else
      var first := Distributed(vs[0].pool, RewardFor(table, perf, epoch, size, vs[0]));
      first + DistributedSum(table, perf, epoch, size, vs[1..])
  }

  /** The most that rounding can withhold: one gray per delegated stake, and the whole reward of a
      pool in which nobody has any power. */
  ghost function Slack(table: RateTable, perf: Performance, epoch: u64, size: nat, vs: seq<Snapshot>): nat
    requires |vs| <= size
  {
    if vs == [] then 0
    else (if StakeTotal(vs[0].pool) > 0 then |vs[0].pool.delegated| else RewardFor(table, perf, epoch, size, vs[0]))
         + Slack(table, perf, epoch, size, vs[1..])
  }

  lemma {:induction false} DistributedBounds(table: RateTable, perf: Performance, epoch: u64, size: nat,
      vs: seq<Snapshot>)
    requires |vs| <= size
    ensures DistributedSum(table, perf, epoch, size, vs) <= RewardSum(table, perf, epoch, size, vs)
         <= DistributedSum(table, perf, epoch, size, vs) + Slack(table, perf, epoch, size, vs)
    decreases |vs|
  {
    hide RewardFor, Distributed;
    if vs == [] {
    } else {
      RewardSplit(vs[0].pool, RewardFor(table, perf, epoch, size, vs[0]));
      DistributedBounds(table, perf, epoch, size, vs[1..]);
    }
  }

  ghost predicate Payable(deposits: Deposits, vs: seq<Snapshot>) {
    forall i | 0 <= i < |vs| ::
      vs[i].pool.commissionRate <= 100 && StakeTotal(vs[i].pool) <= U64_MAX
        && Endowed(deposits, vs[i].operator, vs[i].pool)
  }

  lemma {:induction false} PayAllTotal(p: Payout, table: RateTable, perf: Performance, epoch: u64, size: nat,
      vs: seq<Snapshot>)
    requires |vs| <= size && Payable(p.deposits, vs)
    ensures var p' := PayAll(p, table, perf, epoch, size, vs);
      && DepositTotal(p'.deposits) <= DepositTotal(p.deposits) + DistributedSum(table, perf, epoch, size, vs)
      && (DepositTotal(p.deposits) + RewardSum(table, perf, epoch, size, vs) <= U64_MAX ==>
            DepositTotal(p'.deposits) == DepositTotal(p.deposits) + DistributedSum(table, perf, epoch, size, vs))
    decreases |vs|
  {
    hide PayPool, RewardFor, Distributed, StakeTotal, DepositTotal;
    if vs == [] {
    } else {
      var reward := RewardFor(table, perf, epoch, size, vs[0]);
      var p1 := PayPool(p, vs[0], reward);
      PayPoolTotal(p, vs[0], reward);
      RewardSplit(vs[0].pool, reward);
      assert Payable(p1.deposits, vs[1..]);
      PayAllTotal(p1, table, perf, epoch, size, vs[1..]);
    }
  }

  lemma {:induction false} FindDistinct(vs: seq<Snapshot>, i: nat)
    requires i < |vs|
    requires forall i, j | 0 <= i < j < |vs| :: vs[i].operator != vs[j].operator
    ensures Find(vs, vs[i].operator) == Some(vs[i].pool)
    decreases |vs|
  {
    if i > 0 {
      assert vs[0].operator != vs[i].operator;
      FindDistinct(vs[1..], i - 1);
    }
  }

  /** What a recorded set locks: the stake its snapshot shows, and nothing where it has no snapshot. */
  lemma {:induction false} LockedIs(vs: seq<Snapshot>, operator: Address, owner: Address)
    requires forall i, j | 0 <= i < j < |vs| :: vs[i].operator != vs[j].operator
    ensures forall i | 0 <= i < |vs| && vs[i].operator == operator ::
      Locked(vs, operator, owner)
      == if owner == operator then OrZero(vs[i].pool.operatorStake) else Get0(vs[i].pool.delegated, owner)
    ensures (forall i | 0 <= i < |vs| :: vs[i].operator != operator) ==> Locked(vs, operator, owner) == 0
  {
    forall i | 0 <= i < |vs| && vs[i].operator == operator
      ensures Locked(vs, operator, owner)
        == if owner == operator then OrZero(vs[i].pool.operatorStake) else Get0(vs[i].pool.delegated, owner)
    {
      FindDistinct(vs, i);
    }
    if forall i | 0 <= i < |vs| :: vs[i].operator != operator { FindNone(vs, operator); }
  }

  lemma {:induction false} FindNone(vs: seq<Snapshot>, operator: Address)
    requires forall i | 0 <= i < |vs| :: vs[i].operator != operator
    ensures Find(vs, operator).None?
    decreases |vs|
  {
    if vs == [] {
    } else {
      FindNone(vs[1..], operator);
    }
  }

  /** Lock-up makes every recorded pool payable. */
  lemma {:induction false} RecordPayable(n: Network)
    requires Inv(n) && DepositTotal(n.deposits) <= U64_MAX
    ensures Payable(n.deposits, n.vp)
  {
    forall i | 0 <= i < |n.vp|
      ensures StakeTotal(n.vp[i].pool) <= U64_MAX && Endowed(n.deposits, n.vp[i].operator, n.vp[i].pool)
    {
      var s := n.vp[i];
      FindDistinct(n.vp, i);
      forall k ensures PowerOf(s.pool, s.operator, k) <= BalanceOf(n.deposits, s.operator, k) {
        assert Locked(n.vp, s.operator, k) <= BalanceOf(n.deposits, s.operator, k);
      }
      StakesFit(n.deposits, s.pool, s.operator);
      forall k | k in s.pool.delegated ensures (s.operator, k) in n.deposits || s.pool.delegated[k] == 0 {
        assert PowerOf(s.pool, s.operator, k) == s.pool.delegated[k];
      }
    }
  }
}
