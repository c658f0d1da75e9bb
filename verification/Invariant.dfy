/** The invariant of the staking machine, and its preservation by the two stake-moving helpers. */
module Invariant {
  import opened Words
  import opened Sums
  import opened Heap
  import opened Network
  import opened Staking

  /** Everything staked in a pool: the operator's own stake and all delegated ones. */
  ghost function StakeTotal(pool: Pool): nat { OrZero(pool.operatorStake) + Sum(pool.delegated) }

  /** By how much a pool's power exceeds what is staked in it. */
  ghost function Excess(pool: Pool): int { pool.power - StakeTotal(pool) }

  ghost function DepositTotal(deposits: Deposits): nat { Sum(DepositBalances(deposits)) }

  ghost predicate PoolOk(pool: Pool, operator: Address, capacity: nat) {
    && pool.commissionRate <= 100
    && operator !in pool.delegated
    && |pool.delegated| <= capacity
    && StakeTotal(pool) <= pool.power
  }

  /** Index agreement: an entry of the next validator set names a live pool and carries its power. */
  ghost predicate IndexOk(nvp: Entries, pools: map<Address, Pool>, capacity: nat) {
    && |nvp| <= capacity
    && forall o | o in nvp :: o in pools && pools[o].power == nvp[o]
  }

  ghost predicate Covers(deposits: Deposits, pool: Pool, operator: Address) {
    forall owner :: PowerOf(pool, operator, owner) <= BalanceOf(deposits, operator, owner)
  }

  ghost predicate LiveOk(n: Network) {
    && IndexOk(n.nvp, n.pools, n.limits.validators)
    && forall o | o in n.pools :: PoolOk(n.pools[o], o, n.limits.stakesPerPool) && Covers(n.deposits, n.pools[o], o)
  }

  /** Lock-up for a recorded set: every stake in it is still backed by a deposit. */
  ghost predicate Locks(deposits: Deposits, vs: seq<Snapshot>) {
    forall operator, owner :: Locked(vs, operator, owner) <= BalanceOf(deposits, operator, owner)
  }

  ghost predicate RecordOk(vs: seq<Snapshot>, limits: Limits) {
    && |vs| <= limits.validators
    && (forall i, j | 0 <= i < j < |vs| :: vs[i].operator != vs[j].operator)
    && (forall i | 0 <= i < |vs| :: PoolOk(vs[i].pool, vs[i].operator, limits.stakesPerPool))
  }

  ghost predicate Inv(n: Network) {
    && LiveOk(n)
    && RecordOk(n.vp, n.limits) && RecordOk(n.pvp, n.limits)
    && Locks(n.deposits, n.vp) && Locks(n.deposits, n.pvp)
  }

  // ---------- pools ----------

  lemma {:induction false} StakesFit(deposits: Deposits, pool: Pool, operator: Address)
    requires operator !in pool.delegated
    requires Covers(deposits, pool, operator)
    ensures StakeTotal(pool) <= DepositTotal(deposits)
  {
    var own := OrZero(pool.operatorStake);
    var all := pool.delegated[operator := own];
    SumUpdate(pool.delegated, operator, own);
    var big := DepositBalances(deposits);
    var f := (owner: Address) => (operator, owner);
    forall k | k in all ensures all[k] <= Get0(big, f(k)) {
      assert PowerOf(pool, operator, k) <= BalanceOf(deposits, operator, k);
    }
    SumEmbeds(all, big, f);
  }

  /** As StakesFit, with room left for the deposit of somebody who has no stake in the pool. */
  lemma {:induction false} StakesFitWith(deposits: Deposits, pool: Pool, operator: Address, owner: Address)
    requires operator !in pool.delegated && StakeOf(pool, operator, owner).None?
    requires Covers(deposits, pool, operator)
    ensures StakeTotal(pool) + BalanceOf(deposits, operator, owner) <= DepositTotal(deposits)
  {
    var b := BalanceOf(deposits, operator, owner);
    var pool' := WithStake(pool, operator, owner, Some(b));
    SumUpdate(pool.delegated, owner, b);
    forall k ensures PowerOf(pool', operator, k) <= BalanceOf(deposits, operator, k) {
      assert PowerOf(pool, operator, k) <= BalanceOf(deposits, operator, k);
    }
    StakesFit(deposits, pool', operator);
  }

  lemma {:induction false} WithStakeTotal(pool: Pool, operator: Address, owner: Address, stake: Option<u64>)
    ensures StakeTotal(WithStake(pool, operator, owner, stake))
         == StakeTotal(pool) - PowerOf(pool, operator, owner) + OrZero(stake)
  {
    if operator != owner {
      if stake.Some? { SumUpdate(pool.delegated, owner, stake.value); } else { SumDrop(pool.delegated, owner); }
    }
  }

  lemma {:induction false} EvictTotal(h: Entries, out: Address, key: Address, power: u64)
    requires out in h && key !in h
    ensures Sum(Replaced(h, out, key, power)) == Sum(h) - h[out] + power
    ensures |Replaced(h, out, key, power)| == |h|
  {
    var rest: Entries := h - {out};
    SumDrop(h, out);
    SumUpdate(rest, key, power);
    assert rest[key := power].Keys == h.Keys - {out} + {key};
  }

  /** What a raise does to the staked total, case by case. */
  lemma {:induction false} RaiseTotal(pool: Pool, capacity: nat, operator: Address, owner: Address, amount: u64,
      strict: bool)
    requires operator !in pool.delegated && |pool.delegated| <= capacity
    ensures var r := Raise(pool, capacity, operator, owner, amount, strict);
      r.Some? ==>
        && operator !in r.value.delegated && |r.value.delegated| <= capacity
        && r.value.commissionRate == pool.commissionRate
        && if operator == owner || owner in pool.delegated then
             && StakeTotal(r.value) == StakeTotal(pool) - PowerOf(pool, operator, owner)
               + SatAdd(PowerOf(pool, operator, owner), amount)
             && r.value.power == SatAdd(pool.power, amount)
           else match InsertExtract(pool.delegated, capacity, owner, amount)
             case Fits(_) =>
               StakeTotal(r.value) == StakeTotal(pool) + amount && r.value.power == SatAdd(pool.power, amount)
             case Evicted(_, _, out) =>
               && StakeTotal(r.value) == StakeTotal(pool) - out + amount
               && r.value.power == SatAdd(pool.power, amount - out)
             case Full =>
               && r.value.delegated == pool.delegated && StakeTotal(r.value) == StakeTotal(pool)
               && r.value.power == SatAdd(pool.power, amount)
  {
    if operator == owner || owner in pool.delegated {
      var s := SatAdd(PowerOf(pool, operator, owner), amount);
      WithStakeTotal(pool, operator, owner, Some(s));
      if operator != owner {
        assert pool.delegated[owner := s].Keys == pool.delegated.Keys;
      }
    } else {
      match InsertExtract(pool.delegated, capacity, owner, amount) {
        case Fits(h) => SumUpdate(pool.delegated, owner, amount);
        case Evicted(h, k, out) => EvictTotal(pool.delegated, k, owner, amount);
        case Full =>
      }
    }
  }

  /** A raise gives its owner at most `amount` more and nobody else more than before. */
  lemma {:induction false} RaisePowers(pool: Pool, capacity: nat, operator: Address, owner: Address, amount: u64,
      strict: bool)
    ensures var r := Raise(pool, capacity, operator, owner, amount, strict);
      r.Some? ==>
        && PowerOf(r.value, operator, owner) <= SatAdd(PowerOf(pool, operator, owner), amount)
        && forall k | k != owner :: PowerOf(r.value, operator, k) <= PowerOf(pool, operator, k)
  {
  }

  lemma {:induction false} RaiseCovers(deposits: Deposits, pool: Pool, capacity: nat, operator: Address,
      owner: Address, amount: u64, strict: bool)
    requires Covers(deposits, pool, operator)
    requires SatAdd(PowerOf(pool, operator, owner), amount) <= BalanceOf(deposits, operator, owner)
    ensures var r := Raise(pool, capacity, operator, owner, amount, strict);
      r.Some? ==> Covers(deposits, r.value, operator)
  {
    RaisePowers(pool, capacity, operator, owner, amount, strict);
  }

  lemma {:induction false} RaiseOk(deposits: Deposits, pool: Pool, capacity: nat, operator: Address, owner: Address,
      amount: u64, strict: bool)
    requires PoolOk(pool, operator, capacity)
    requires Covers(deposits, pool, operator)
    requires SatAdd(PowerOf(pool, operator, owner), amount) <= BalanceOf(deposits, operator, owner)
    requires DepositTotal(deposits) <= U64_MAX
    ensures var r := Raise(pool, capacity, operator, owner, amount, strict);
      r.Some? ==> PoolOk(r.value, operator, capacity) && Covers(deposits, r.value, operator)
  {
    RaiseTotal(pool, capacity, operator, owner, amount, strict);
    RaiseCovers(deposits, pool, capacity, operator, owner, amount, strict);
    var r := Raise(pool, capacity, operator, owner, amount, strict);
    if r.Some? {
      StakesFit(deposits, r.value, operator);
    }
  }

  /** Did this raise put nothing into the pool although it added `amount` to its power? */
  predicate Phantom(pool: Pool, capacity: nat, operator: Address, owner: Address, amount: u64) {
    && StakeOf(pool, operator, owner).None? && operator != owner
    && InsertExtract(pool.delegated, capacity, owner, amount).Full?
    && amount > 0
  }

  /** Power stays equal to the staked total, also across an eviction, except for one case: a lenient
      raise that finds the delegated stakes full and the new stake too small. */
  lemma {:induction false} RaiseExactIff(deposits: Deposits, pool: Pool, capacity: nat, operator: Address,
      owner: Address, amount: u64, strict: bool)
    requires PoolOk(pool, operator, capacity) && StakeTotal(pool) == pool.power
    requires Covers(deposits, pool, operator)
    requires PowerOf(pool, operator, owner) + amount <= BalanceOf(deposits, operator, owner)
    requires DepositTotal(deposits) <= U64_MAX
    ensures var r := Raise(pool, capacity, operator, owner, amount, strict);
      r.Some? ==> (StakeTotal(r.value) == r.value.power <==> !Phantom(pool, capacity, operator, owner, amount))
  {
    RaiseTotal(pool, capacity, operator, owner, amount, strict);
    RaiseCovers(deposits, pool, capacity, operator, owner, amount, strict);
    var r := Raise(pool, capacity, operator, owner, amount, strict);
    if r.Some? {
      StakesFit(deposits, r.value, operator);
      if StakeOf(pool, operator, owner).None? {
        StakesFitWith(deposits, pool, operator, owner);
      }
    }
  }

  /** A raise never adds to the excess of power over stakes, except for a phantom, which adds its amount;
      and with room in the word the excess changes by exactly that. */
  lemma {:induction false} RaiseExcess(pool: Pool, capacity: nat, operator: Address, owner: Address, amount: u64,
      strict: bool)
    requires PoolOk(pool, operator, capacity)
    ensures var r := Raise(pool, capacity, operator, owner, amount, strict);
      var more := if !strict && Phantom(pool, capacity, operator, owner, amount) then amount else 0;
      && (r.None? ==> strict)
      && (r.Some? ==> r.value.power <= pool.power + amount && Excess(r.value) <= Excess(pool) + more)
      && (r.Some? && pool.power + amount <= U64_MAX ==> Excess(r.value) == Excess(pool) + more)
  {
    hide Sum;
    RaiseTotal(pool, capacity, operator, owner, amount, strict);
    SumAtLeast(pool.delegated, owner);
  }

  lemma {:induction false} LowerOk(pool: Pool, capacity: nat, operator: Address, owner: Address, amount: u64)
    requires PoolOk(pool, operator, capacity)
    requires StakeOf(pool, operator, owner).Some?
    ensures var p := Lower(pool, operator, owner, StakeOf(pool, operator, owner).value, amount);
      && PoolOk(p, operator, capacity)
      && Excess(p) == Excess(pool)
      && PowerOf(p, operator, owner) == SatSub(PowerOf(pool, operator, owner), amount)
      && StakeOf(p, operator, owner).Some? == (amount < StakeOf(pool, operator, owner).value)
      && (forall k | k != owner :: StakeOf(p, operator, k) == StakeOf(pool, operator, k))
      && p.commissionRate == pool.commissionRate
  {
    hide Sum;
    var stake := StakeOf(pool, operator, owner).value;
    var s := if stake <= amount then None else Some(stake - amount);
    WithStakeTotal(pool, operator, owner, s);
    WithStakePowers(pool, operator, owner, s);
    hide WithStake;
  }

  lemma {:induction false} WithStakePowers(pool: Pool, operator: Address, owner: Address, stake: Option<u64>)
    requires StakeOf(pool, operator, owner).Some? || stake.None?
    ensures var p := WithStake(pool, operator, owner, stake);
      && StakeOf(p, operator, owner) == stake
      && (forall k | k != owner :: StakeOf(p, operator, k) == StakeOf(pool, operator, k))
      && p.delegated.Keys <= pool.delegated.Keys && |p.delegated| <= |pool.delegated|
      && p.commissionRate == pool.commissionRate && PowerOf(pool, operator, owner) <= StakeTotal(pool)
  {
    hide Sum;
    SumAtLeast(pool.delegated, owner);
    var p := WithStake(pool, operator, owner, stake);
    assert p.delegated.Keys <= pool.delegated.Keys;
    CardinalityLe(p.delegated.Keys, pool.delegated.Keys);
  }

  lemma {:induction false} CardinalityLe<T>(a: set<T>, b: set<T>)
    requires a <= b
    ensures |a| <= |b|
  {
    assert a + (b - a) == b;
  }

  // ---------- the index ----------

  lemma {:induction false} InsertedOk(nvp: Entries, pools: map<Address, Pool>, capacity: nat, operator: Address,
      pool: Pool)
    requires IndexOk(nvp, pools, capacity) && operator !in nvp
    ensures IndexOk(Settled(nvp, InsertExtract(nvp, capacity, operator, pool.power)), pools[operator := pool], capacity)
  {
    match InsertExtract(nvp, capacity, operator, pool.power) {
      case Fits(_) =>
      case Evicted(_, k, _) => EvictTotal(nvp, k, operator, pool.power);
      case Full =>
    }
  }

  lemma {:induction false} ReindexOk(nvp: Entries, pools: map<Address, Pool>, capacity: nat, operator: Address,
      pool: Pool)
    requires IndexOk(nvp, pools, capacity)
    ensures IndexOk(Reindex(nvp, capacity, operator, pool.power), pools[operator := pool], capacity)
  {
    if operator in nvp {
      assert nvp[operator := pool.power].Keys == nvp.Keys;
    } else {
      InsertedOk(nvp, pools, capacity, operator, pool);
    }
  }

  lemma {:induction false} UnindexOk(nvp: Entries, pools: map<Address, Pool>, pools': map<Address, Pool>,
      capacity: nat, operator: Address)
    requires IndexOk(nvp, pools, capacity)
    requires forall o | o in pools && o != operator :: o in pools' && pools'[o] == pools[o]
    ensures IndexOk(nvp - {operator}, pools', capacity)
  {
    assert (nvp - {operator}).Keys == nvp.Keys - {operator};
    CardinalityLe(nvp.Keys - {operator}, nvp.Keys);
  }

  // ---------- the two helpers on the whole network ----------

  lemma {:induction false} IncreaseOk(n: Network, operator: Address, owner: Address, amount: u64, strict: bool)
    requires LiveOk(n) && operator in n.pools
    requires SatAdd(PowerOf(n.pools[operator], operator, owner), amount) <= BalanceOf(n.deposits, operator, owner)
    requires DepositTotal(n.deposits) <= U64_MAX
    ensures var r := Increase(n, operator, owner, amount, strict);
      r.Some? ==> LiveOk(r.value)
  {
    RaiseOk(n.deposits, n.pools[operator], n.limits.stakesPerPool, operator, owner, amount, strict);
    var r := Raise(n.pools[operator], n.limits.stakesPerPool, operator, owner, amount, strict);
    if r.Some? {
      ReindexOk(n.nvp, n.pools, n.limits.validators, operator, r.value);
    }
  }

  /** Reduce works on a network whose one stake may exceed its deposit, as long as the cut repairs it. */
  lemma {:induction false} ReduceOk(n: Network, operator: Address, owner: Address, amount: u64)
    requires operator in n.pools && StakeOf(n.pools[operator], operator, owner).Some?
    requires IndexOk(n.nvp, n.pools, n.limits.validators)
    requires forall o | o in n.pools :: PoolOk(n.pools[o], o, n.limits.stakesPerPool)
    requires forall o | o in n.pools && o != operator :: Covers(n.deposits, n.pools[o], o)
    requires forall k | k != owner :: PowerOf(n.pools[operator], operator, k) <= BalanceOf(n.deposits, operator, k)
    requires SatSub(PowerOf(n.pools[operator], operator, owner), amount) <= BalanceOf(n.deposits, operator, owner)
    ensures LiveOk(Reduce(n, operator, owner, StakeOf(n.pools[operator], operator, owner).value, amount))
  {
    hide Lower, PoolOk, IndexOk, Reindex;
    var stake := StakeOf(n.pools[operator], operator, owner).value;
    var p := Lower(n.pools[operator], operator, owner, stake, amount);
    LowerOk(n.pools[operator], n.limits.stakesPerPool, operator, owner, amount);
    assert Covers(n.deposits, p, operator) by {
      forall k ensures PowerOf(p, operator, k) <= BalanceOf(n.deposits, operator, k) {}
    }
    if p.power == 0 {
      UnindexOk(n.nvp, n.pools, n.pools[operator := p], n.limits.validators, operator);
    } else {
      ReindexOk(n.nvp, n.pools, n.limits.validators, operator, p);
    }
  }
}
