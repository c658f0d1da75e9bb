/** The payments of an epoch in plain arithmetic, and that NextEpoch pays exactly these. */
module EpochNumbers {
  import opened Words
  import opened Heap
  import opened Network
  import opened Products
  import opened Rewards
  import opened Epoch
  import opened Invariant
  import opened StakingProofs
  import opened EpochProofs
  import opened RewardProofs
  import opened EpochTheorems

  // ---------- the reference ----------

  /** The reward of a pool: 1.5% a year of its power from epoch 3650 on, before that 8.35% a year reduced by
      the epoch's factor, times the part of its expected blocks that it proposed, but at most all of them. */
  function RewardNumber(table: RateTable, perf: Performance, epoch: u64, size: nat, operator: Address, power: u64): int
    requires size > 0
  {
    var expected := perf.blocksPerEpoch / size;
    var proposed := Min(if operator in perf.proposed then perf.proposed[operator] else 0, expected);
    if expected == 0 then 0
    else if epoch >= 3650 then power * 15 * proposed / (365_000 * expected)
    else power * 835 * table[epoch] * proposed / (36_500_000_000 * expected)
  }

  /** A stake's part of the reward, and the commission taken from it, each rounded down. */
  function ShareNumber(reward: int, stake: int, total: int): int
    requires total > 0
  {
    reward * stake / total
  }

  function FeeNumber(reward: int, rate: int, stake: int, total: int): int
    requires total > 0
  {
    rate * reward * stake / (100 * total)
  }

  /** The commissions of all listed delegators. */
  function FeeSum(pool: Pool, owners: seq<Address>, reward: int, total: int): int
    requires total > 0
    requires forall i | 0 <= i < |owners| :: owners[i] in pool.delegated
  {
    if owners == [] then 0
    else
      var first := FeeNumber(reward, pool.commissionRate, pool.delegated[owners[0]], total);
      first + FeeSum(pool, owners[1..], reward, total)
  }

  /** What an owner is due from a pool's reward: a delegator its share less commission, the operator its
      share and all commissions, anybody else nothing. */
  ghost function DueNumber(pool: Pool, operator: Address, owner: Address, reward: int): int {
    var total := StakeTotal(pool);
    if reward == 0 || total == 0 then 0
    else if owner == operator then
      ShareNumber(reward, OrZero(pool.operatorStake), total) + FeeSum(pool, Listing(pool.delegated.Keys), reward, total)
    else if owner in pool.delegated then
      var stake := pool.delegated[owner];
      ShareNumber(reward, stake, total) - FeeNumber(reward, pool.commissionRate, stake, total)
    else 0
  }

  /** What an owner is due from an operator's pool when this epoch ends. */
  ghost function EpochDue(n: Network, table: RateTable, perf: Performance, operator: Address, owner: Address): int {
    match Find(n.vp, operator)
    case None => 0
    case Some(pool) =>
      if n.vp == [] then 0
      else DueNumber(pool, operator, owner, RewardNumber(table, perf, n.epoch, |n.vp|, operator, pool.power))
  }

  // ---------- the code computes it ----------

  lemma {:induction false} RewardNumbers(table: RateTable, perf: Performance, epoch: u64, size: nat, s: Snapshot)
    requires size > 0
    ensures RewardFor(table, perf, epoch, size, s) == RewardNumber(table, perf, epoch, size, s.operator, s.pool.power)
  {
    hide PoolReward;
    var expected := perf.blocksPerEpoch / size;
    var proposed := if s.operator in perf.proposed then perf.proposed[s.operator] else 0;
    if expected == 0 {
      NoneExpected(table, epoch, s.pool.power, proposed);
    } else if epoch >= 3650 {
      LateReward(table, epoch, s.pool.power, proposed, expected);
    } else {
      EarlyReward(table, epoch, s.pool.power, proposed, expected);
    }
  }

  lemma NoneExpected(table: RateTable, epoch: u64, power: u64, proposed: u32)
    ensures PoolReward(table, epoch, power, proposed, 0) == 0
  {
  }

  lemma {:induction false} LateReward(table: RateTable, epoch: u64, power: u64, proposed: u32, expected: u32)
    requires epoch >= 3650 && expected > 0
    ensures PoolReward(table, epoch, power, proposed, expected)
         == power * 15 * Min(proposed, expected) / (365_000 * expected)
  {
    hide PoolReward, Mul, Div;
    PoolRewardFormula(table, epoch, power, proposed, expected);
    Fraction(power * 15, Min(proposed, expected), 365_000 * expected);
    assert Mul(365_000, expected) == 365_000 * expected by { MulConstant(365_000, expected); }
  }

  lemma {:induction false} EarlyReward(table: RateTable, epoch: u64, power: u64, proposed: u32, expected: u32)
    requires epoch < 3650 && expected > 0
    ensures PoolReward(table, epoch, power, proposed, expected)
         == power * 835 * table[epoch] * Min(proposed, expected) / (36_500_000_000 * expected)
  {
    hide PoolReward, Mul, Div;
    PoolRewardFormula(table, epoch, power, proposed, expected);
    var num := Mul(power, 835 * table[epoch]);
    Regroup(power, table[epoch]);
    Fraction(num, Min(proposed, expected), 36_500_000_000 * expected);
    assert Mul(36_500_000_000, expected) == 36_500_000_000 * expected by { MulConstant(36_500_000_000, expected); }
  }

  lemma Fraction(a: nat, b: nat, d: nat)
    requires d > 0
    ensures Div(Mul(a, b), d) == a * b / d
  {
  }

  lemma MulConstant(a: nat, b: nat)
    ensures Mul(a, b) == a * b
  {
  }

  lemma Regroup(a: nat, b: nat)
    ensures Mul(a, 835 * b) == a * 835 * b
  {
  }

  lemma {:induction false} RewardOfNumbers(reward: u64, rate: u8, stake: u64, total: u64)
    requires 4371 * reward <= U64_MAX && rate <= 100 && stake <= total && total > 0
    ensures var (r, c) := RewardOf(reward, rate, stake, total);
      c == FeeNumber(reward, rate, stake, total) && r + c == ShareNumber(reward, stake, total) <= reward
  {
    hide StakeReward;
    ProductsFit(reward, rate, stake);
    StakeRewardSplits(reward, rate, stake, total);
    assert Share(reward, stake, total) == ShareNumber(reward, stake, total);
    assert Commission(reward, rate, stake, total) == FeeNumber(reward, rate, stake, total);
  }

  lemma {:induction false} FeesAreNumbers(pool: Pool, owners: seq<Address>, reward: u64, total: u64)
    requires 4371 * reward <= U64_MAX && pool.commissionRate <= 100 && total > 0
    requires forall i | 0 <= i < |owners| :: owners[i] in pool.delegated && pool.delegated[owners[i]] <= total
    ensures FeesDue(pool, owners, reward, total) == FeeSum(pool, owners, reward, total)
    decreases |owners|
  {
    hide RewardOf, FeeNumber, ShareNumber;
    if owners == [] {
    } else {
      RewardOfNumbers(reward, pool.commissionRate, pool.delegated[owners[0]], total);
      FeesAreNumbers(pool, owners[1..], reward, total);
    }
  }

  lemma {:induction false} DueIsNumber(pool: Pool, operator: Address, owner: Address, reward: u64)
    requires 4371 * reward <= U64_MAX && pool.commissionRate <= 100 && StakeTotal(pool) <= U64_MAX
    ensures Due(pool, operator, owner, reward) == DueNumber(pool, operator, owner, reward) <= reward
  {
    hide RewardOf, Commissions, TotalStakes, StakeTotal, FeeNumber, ShareNumber, FeeSum;
    if reward > 0 {
      TotalStakesExact(pool);
      if owner == operator {
        OperatorDue(pool, reward);
      } else if owner in pool.delegated {
        DelegatorDue(pool, owner, reward);
      }
    }
  }

  lemma {:induction false} DelegatorDue(pool: Pool, owner: Address, reward: u64)
    requires 4371 * reward <= U64_MAX && pool.commissionRate <= 100 && StakeTotal(pool) <= U64_MAX
    requires owner in pool.delegated
    ensures var stake, total, rate := pool.delegated[owner], StakeTotal(pool), pool.commissionRate;
      RewardOf(reward, rate, stake, total).0
      == (if total == 0 then 0 else ShareNumber(reward, stake, total) - FeeNumber(reward, rate, stake, total))
      <= reward
  {
    hide RewardOf, FeeNumber, ShareNumber, StakeTotal;
    StakesWithin(pool, [owner]);
    assert [owner][0] == owner;
    RewardOfSplits(reward, pool.commissionRate, pool.delegated[owner], StakeTotal(pool));
    if StakeTotal(pool) > 0 {
      RewardOfNumbers(reward, pool.commissionRate, pool.delegated[owner], StakeTotal(pool));
    }
  }

  lemma {:induction false} OperatorDue(pool: Pool, reward: u64)
    requires 4371 * reward <= U64_MAX && pool.commissionRate <= 100 && StakeTotal(pool) <= U64_MAX
    ensures var own, owners, total := OrZero(pool.operatorStake), Listing(pool.delegated.Keys), StakeTotal(pool);
      SatAdd(RewardOf(reward, 0, own, total).0, Commissions(0, pool, owners, reward, total))
      == (if total == 0 then 0 else ShareNumber(reward, own, total) + FeeSum(pool, owners, reward, total))
      <= reward
  {
    hide RewardOf, Commissions, StakeTotal, FeeNumber, ShareNumber, FeesDue, OwnersDue, Shares, FeeSum, Listing;
    var own, owners, total := OrZero(pool.operatorStake), Listing(pool.delegated.Keys), StakeTotal(pool);
    StakesWithin(pool, owners);
    OwnWithin(pool);
    RewardSplit(pool, reward);
    DuesAddUp(pool, owners, reward, own, total);
    CommissionsIs(0, pool, owners, reward, total);
    RewardOfSplits(reward, 0, own, total);
    if total > 0 {
      FeesAreNumbers(pool, owners, reward, total);
      RewardOfNumbers(reward, 0, own, total);
    } else {
      NothingStaked(pool, owners, reward);
    }
  }

  lemma OwnWithin(pool: Pool)
    ensures OrZero(pool.operatorStake) <= StakeTotal(pool)
  {
  }

  lemma {:induction false} NothingStaked(pool: Pool, owners: seq<Address>, reward: u64)
    requires 4371 * reward <= U64_MAX && pool.commissionRate <= 100
    requires forall i | 0 <= i < |owners| :: owners[i] in pool.delegated && pool.delegated[owners[i]] <= 0
    ensures FeesDue(pool, owners, reward, 0) == 0
    decreases |owners|
  {
    hide RewardOf;
    if owners == [] {
    } else {
      RewardOfSplits(reward, pool.commissionRate, pool.delegated[owners[0]], 0);
      NothingStaked(pool, owners[1..], reward);
    }
  }

  lemma {:induction false} DueInIs(table: RateTable, perf: Performance, epoch: u64, size: nat, vs: seq<Snapshot>,
      operator: Address, owner: Address)
    requires |vs| <= size
    requires forall i | 0 <= i < |vs| :: vs[i].pool.commissionRate <= 100 && StakeTotal(vs[i].pool) <= U64_MAX
    ensures match Find(vs, operator)
      case None => DueIn(table, perf, epoch, size, vs, operator, owner) == 0
      case Some(pool) =>
        && size > 0
        && var reward := RewardNumber(table, perf, epoch, size, operator, pool.power);
        && DueIn(table, perf, epoch, size, vs, operator, owner) == DueNumber(pool, operator, owner, reward)
    ensures DueIn(table, perf, epoch, size, vs, operator, owner) <= RewardSum(table, perf, epoch, size, vs)
    decreases |vs|
  {
    hide RewardFor, RewardNumber, Due, DueNumber, StakeTotal;
    if vs == [] {
    } else {
      RewardNumbers(table, perf, epoch, size, vs[0]);
      DueIsNumber(vs[0].pool, vs[0].operator, owner, RewardFor(table, perf, epoch, size, vs[0]));
      DueInIs(table, perf, epoch, size, vs[1..], operator, owner);
    }
  }

  // ---------- the whole epoch ----------

  /** NextEpoch adds to every deposit exactly what its owner is due, creates the operator's if it is missing,
      pays nobody else, and leaves the flags as they are. */
  lemma {:induction false} EpochPays(n: Network, table: RateTable, perf: Performance, o: Address, k: Address)
    requires Inv(n) && n.epoch < U64_MAX
    requires DepositTotal(n.deposits) + RewardSum(table, perf, n.epoch, |n.vp|, n.vp) <= U64_MAX
    ensures Indexed(n)
    ensures var d, d', due := n.deposits, NextEpoch(n, table, perf).deposits, EpochDue(n, table, perf, o, k);
      && BalanceOf(d', o, k) == BalanceOf(d, o, k) + (if (o, k) in d || k == o then due else 0)
      && (Flagged(d', o, k) <==> Flagged(d, o, k))
      && ((o, k) in d ==> (o, k) in d') && (k != o && (o, k) in d' ==> (o, k) in d)
  {
    hide PayAll, DueIn, EpochDue, RewardSum, DepositTotal, Slack, DistributedSum;
    PaidDue(n, table, perf, o, k);
    EpochIssuance(n, table, perf);
    NextEpochInv(n, table, perf);
    PaidStays(n, table, perf);
    DepositAtLeast(n.deposits, o, k);
    hide Inv, NextEpoch;
  }

  /** The payout, before the sets rotate. */
  lemma {:induction false} PaidDue(n: Network, table: RateTable, perf: Performance, o: Address, k: Address)
    requires Inv(n) && DepositTotal(n.deposits) <= U64_MAX
    ensures var p := Payout(n.deposits, []);
      var due := EpochDue(n, table, perf, o, k);
      && 0 <= due <= RewardSum(table, perf, n.epoch, |n.vp|, n.vp) && due <= U64_MAX
      && PaidTo(p, PayAll(p, table, perf, n.epoch, |n.vp|, n.vp), o, k, due)
  {
    hide PayAll, RewardSum, DepositTotal, RewardNumber, DueNumber, PaidTo, StakeTotal;
    RecordPayable(n);
    DueInIs(table, perf, n.epoch, |n.vp|, n.vp, o, k);
    EachIsPaidItsDue(Payout(n.deposits, []), table, perf, n.epoch, |n.vp|, n.vp, o, k);
  }

  lemma {:induction false} PaidStays(n: Network, table: RateTable, perf: Performance)
    requires Indexed(n) && n.epoch < U64_MAX
    ensures NextEpoch(n, table, perf).deposits
         == PayAll(Payout(n.deposits, []), table, perf, n.epoch, |n.vp|, n.vp).deposits
  {
    hide PayAll, ApplyAutos;
    var p := PayAll(Payout(n.deposits, []), table, perf, n.epoch, |n.vp|, n.vp);
    ApplyAutosFrame(n.(deposits := p.deposits), p.autos);
  }
}
