/** What auto-staking achieves: every flagged reward enters the stake of its owner, unless the pool is full
    and the owner new and too small, or a larger newcomer takes the owner's place. */
module AutoStakeProofs {
  import opened Words
  import opened Heap
  import opened Network
  import opened Staking
  import opened Rewards
  import opened Epoch
  import opened Invariant
  import opened StakingProofs
  import opened StakingTheorems
  import opened EpochProofs
  import opened RewardProofs
  import opened EpochTheorems
  import opened PowerProofs
  import opened EpochNumbers

  /** The delegator a newcomer of this size pushes out of the pool, if any. */
  function Ousted(pool: Pool, capacity: nat, operator: Address, owner: Address, amount: u64): Option<Address> {
    if operator == owner || owner in pool.delegated then None
    else
      match InsertExtract(pool.delegated, capacity, owner, amount)
      case Evicted(_, key, _) => Some(key)
      case _ => None
  }

  /** Does this auto-stake fail to get its owner `k` into the pool, or push `k` out of it? */
  predicate Displaces(n: Network, a: AutoStake, k: Address) {
    && a.operator in n.pools
    && var pool, capacity := n.pools[a.operator], n.limits.stakesPerPool;
    || (a.owner == k && a.amount > 0 && Refuses(pool, capacity, a.operator, k, a.amount))
    || Ousted(pool, capacity, a.operator, a.owner, a.amount) == Some(k)
  }

  /** Does some auto-stake, at its turn, displace `k` from the pool of `o`? */
  ghost predicate Displaced(n: Network, autos: seq<AutoStake>, o: Address, k: Address)
    decreases |autos|
  {
    autos != [] &&
    ((autos[0].operator == o && Displaces(n, autos[0], k)) || Displaced(ApplyAuto(n, autos[0]), autos[1..], o, k))
  }

  /** Who is displaced: a new owner by a full pool of stakes at least as large, or a delegator of least power
      by a newcomer with more. */
  lemma {:induction false} DisplacedBy(n: Network, a: AutoStake, k: Address)
    requires Displaces(n, a, k)
    ensures var pool := n.pools[a.operator];
      && a.owner != a.operator && a.owner !in pool.delegated && a.amount > 0
      && |pool.delegated| >= n.limits.stakesPerPool
      && (if k in pool.delegated
          then pool.delegated[k] < a.amount && forall j | j in pool.delegated :: pool.delegated[k] <= pool.delegated[j]
          else k == a.owner && forall j | j in pool.delegated :: a.amount <= pool.delegated[j])
  {
    hide InsertExtract;
    InsertExtractSpec(n.pools[a.operator].delegated, n.limits.stakesPerPool, a.owner, a.amount);
    OustedIsIn(n.pools[a.operator], n.limits.stakesPerPool, a.operator, a.owner, a.amount);
  }

  lemma OustedIsIn(pool: Pool, capacity: nat, operator: Address, owner: Address, amount: u64)
    ensures var k := Ousted(pool, capacity, operator, owner, amount);
      k.Some? ==> k.value in pool.delegated && pool.delegated[k.value] < amount
  {
  }

  /** Stakes and what is still to be auto-staked fit a word together. */
  ghost predicate Fits(pools: map<Address, Pool>, autos: seq<AutoStake>) {
    forall o, k :: LivePower(pools, o, k) + Pending(autos, o, k) <= U64_MAX
  }

  // ---------- one auto-stake ----------

  lemma {:induction false} RaisePower(pool: Pool, capacity: nat, operator: Address, owner: Address, amount: u64,
      k: Address)
    requires operator !in pool.delegated && PowerOf(pool, operator, owner) + amount <= U64_MAX
    ensures var r := Raise(pool, capacity, operator, owner, amount, false);
      var more := if k == owner then amount else 0;
      && r.Some? && r.value.commissionRate == pool.commissionRate
      && PowerOf(r.value, operator, k) <= PowerOf(pool, operator, k) + more
      && ((k == owner ==> amount == 0 || !Refuses(pool, capacity, operator, owner, amount))
          && Ousted(pool, capacity, operator, owner, amount) != Some(k) ==>
            PowerOf(r.value, operator, k) == PowerOf(pool, operator, k) + more)
  {
    hide InsertExtract;
    if operator != owner && owner !in pool.delegated {
      InsertExtractSpec(pool.delegated, capacity, owner, amount);
    }
  }

  lemma {:induction false} ApplyAutoPower(n: Network, a: AutoStake, o: Address, k: Address)
    requires LiveOk(n) && LivePower(n.pools, a.operator, a.owner) + a.amount <= U64_MAX
    ensures var n', more := ApplyAuto(n, a), if (a.operator, a.owner) == (o, k) && o in n.pools then a.amount else 0;
      && PoolsKept(n, n')
      && LivePower(n'.pools, o, k) <= LivePower(n.pools, o, k) + more
      && (!(a.operator == o && Displaces(n, a, k)) ==> LivePower(n'.pools, o, k) == LivePower(n.pools, o, k) + more)
  {
    hide Raise, Reindex, Refuses, Ousted, Covers, IndexOk, StakeTotal;
    if a.operator in n.pools {
      assert PoolOk(n.pools[a.operator], a.operator, n.limits.stakesPerPool);
      RaisePower(n.pools[a.operator], n.limits.stakesPerPool, a.operator, a.owner, a.amount, k);
    }
  }

  /** The pool's entry in the next validator set follows its power. */
  lemma {:induction false} ApplyAutoPlaces(n: Network, a: AutoStake)
    ensures var n' := ApplyAuto(n, a);
      if a.operator in n.pools
      then a.operator in n'.pools && Placed(n.nvp, n'.nvp, n.limits.validators, a.operator, n'.pools[a.operator].power)
      else n' == n
  {
    hide Raise, Reindex, Placed;
    if a.operator in n.pools {
      RaiseLenient(n.pools[a.operator], n.limits.stakesPerPool, a.operator, a.owner, a.amount);
      var r := Raise(n.pools[a.operator], n.limits.stakesPerPool, a.operator, a.owner, a.amount, false);
      ReindexPlaces(n.nvp, n.limits.validators, a.operator, r.value.power);
    }
  }

  lemma RaiseLenient(pool: Pool, capacity: nat, operator: Address, owner: Address, amount: u64)
    ensures Raise(pool, capacity, operator, owner, amount, false).Some?
  {
  }

  // ---------- all of them ----------

  lemma {:induction false} ApplyAutoFits(n: Network, a: AutoStake, rest: seq<AutoStake>)
    requires LiveOk(n) && Fits(n.pools, [a] + rest)
    ensures LivePower(n.pools, a.operator, a.owner) + a.amount <= U64_MAX
    ensures Fits(ApplyAuto(n, a).pools, rest)
  {
    hide ApplyAuto, LiveOk, LivePower, Displaces, PoolsKept;
    assert ([a] + rest)[0] == a && ([a] + rest)[1..] == rest;
    assert LivePower(n.pools, a.operator, a.owner) + Pending([a] + rest, a.operator, a.owner) <= U64_MAX;
    forall o, k ensures LivePower(ApplyAuto(n, a).pools, o, k) + Pending(rest, o, k) <= U64_MAX {
      ApplyAutoPower(n, a, o, k);
      assert LivePower(n.pools, o, k) + Pending([a] + rest, o, k) <= U64_MAX;
    }
  }

  /** Everybody who is not displaced ends with what is auto-staked for it on top of its stake. */
  lemma {:induction false} ApplyAutosPower(n: Network, autos: seq<AutoStake>, o: Address, k: Address)
    requires LiveOk(n) && Backed(n.pools, Payout(n.deposits, autos)) && DepositTotal(n.deposits) <= U64_MAX
    requires Fits(n.pools, autos) && o in n.pools
    ensures var n' := ApplyAutos(n, autos);
      && PoolsKept(n, n')
      && (!Displaced(n, autos, o, k) ==> LivePower(n'.pools, o, k) == LivePower(n.pools, o, k) + Pending(autos, o, k))
    decreases |autos|
  {
    hide LiveOk, Backed, ApplyAuto, Fits, DepositTotal, LivePower, Displaces;
    if autos == [] {
    } else {
      var a, rest := autos[0], autos[1..];
      assert autos == [a] + rest;
      ApplyAutoBacked(n, a, rest);
      ApplyAutoLive(n, a, rest);
      ApplyAutoFits(n, a, rest);
      ApplyAutoPower(n, a, o, k);
      ApplyAutosPower(ApplyAuto(n, a), rest, o, k);
    }
  }

  /** The operator's own stake is never displaced. */
  lemma {:induction false} OperatorStays(n: Network, autos: seq<AutoStake>, o: Address)
    requires LiveOk(n) && Backed(n.pools, Payout(n.deposits, autos)) && DepositTotal(n.deposits) <= U64_MAX
    ensures !Displaced(n, autos, o, o)
    decreases |autos|
  {
    hide LiveOk, Backed, ApplyAuto, DepositTotal, Displaces;
    if autos == [] {
    } else {
      var a, rest := autos[0], autos[1..];
      assert autos == [a] + rest;
      ApplyAutoBacked(n, a, rest);
      ApplyAutoLive(n, a, rest);
      OperatorNotOusted(n, a, o);
      OperatorStays(ApplyAuto(n, a), rest, o);
    }
  }

  lemma OperatorNotOusted(n: Network, a: AutoStake, o: Address)
    requires LiveOk(n)
    ensures !(a.operator == o && Displaces(n, a, o))
  {
    hide InsertExtract, Covers, IndexOk;
    if a.operator == o && Displaces(n, a, o) {
      assert PoolOk(n.pools[o], o, n.limits.stakesPerPool);
      OustedIsIn(n.pools[o], n.limits.stakesPerPool, o, a.owner, a.amount);
    }
  }

  /** Every reward to be staked in the pool of `o` belongs to somebody who is already in it. */
  ghost predicate AllStaked(n: Network, autos: seq<AutoStake>, o: Address) {
    forall i | 0 <= i < |autos| && autos[i].operator == o && autos[i].owner != o && autos[i].amount > 0 ::
      o in n.pools && autos[i].owner in n.pools[o].delegated
  }

  lemma {:induction false} StakersStay(n: Network, autos: seq<AutoStake>, o: Address, k: Address)
    requires AllStaked(n, autos, o)
    ensures !Displaced(n, autos, o, k)
    decreases |autos|
  {
    hide ApplyAuto, Displaces;
    if autos == [] {
    } else {
      var a, rest, n' := autos[0], autos[1..], ApplyAuto(n, autos[0]);
      NoNewcomer(n, a, o, k);
      forall i | 0 <= i < |rest| && rest[i].operator == o && rest[i].owner != o && rest[i].amount > 0
        ensures o in n'.pools && rest[i].owner in n'.pools[o].delegated
      {
        assert rest[i] == autos[i + 1];
      }
      StakersStay(n', rest, o, k);
    }
  }

  lemma {:induction false} NoNewcomer(n: Network, a: AutoStake, o: Address, k: Address)
    requires a.operator == o && a.owner != o && a.amount > 0 ==> o in n.pools && a.owner in n.pools[o].delegated
    ensures !(a.operator == o && Displaces(n, a, k))
    ensures var n' := ApplyAuto(n, a);
      o in n.pools ==> o in n'.pools && n.pools[o].delegated.Keys <= n'.pools[o].delegated.Keys
  {
    hide Reindex, InsertExtract, Raise;
    if a.operator in n.pools && a.operator == o {
      var pool := n.pools[o];
      InsertExtractSpec(pool.delegated, n.limits.stakesPerPool, a.owner, a.amount);
      OustedIsIn(pool, n.limits.stakesPerPool, o, a.owner, a.amount);
      RaiseLenient(pool, n.limits.stakesPerPool, o, a.owner, a.amount);
      KeysStay(pool, n.limits.stakesPerPool, o, a.owner, a.amount);
    }
  }

  lemma {:induction false} KeysStay(pool: Pool, capacity: nat, operator: Address, owner: Address, amount: u64)
    requires owner != operator && amount > 0 ==> owner in pool.delegated
    ensures var r := Raise(pool, capacity, operator, owner, amount, false);
      r.Some? ==> pool.delegated.Keys <= r.value.delegated.Keys
  {
    hide InsertExtract;
    if operator != owner && owner !in pool.delegated {
      InsertExtractSpec(pool.delegated, capacity, owner, amount);
      var r := Raise(pool, capacity, operator, owner, amount, false);
      forall j | j in pool.delegated ensures j in r.value.delegated {
        assert Lookup(r.value.delegated, j) == Lookup(pool.delegated, j);
      }
    }
  }

  // ---------- the whole epoch ----------

  /** Will `k` be displaced from the pool of `o` when this epoch ends? */
  ghost predicate EpochDisplaced(n: Network, table: RateTable, perf: Performance, o: Address, k: Address) {
    Displaced(n.(deposits := Paid(n, table, perf).deposits), Paid(n, table, perf).autos, o, k)
  }

  lemma {:induction false} EpochFits(n: Network, table: RateTable, perf: Performance)
    requires Inv(n)
    requires DepositTotal(n.deposits) + RewardSum(table, perf, n.epoch, |n.vp|, n.vp) <= U64_MAX
    ensures Fits(n.pools, Paid(n, table, perf).autos)
  {
    hide PayAll, RewardSum, DepositTotal, EpochDue, LivePower, RecordOk, PoolOk, IndexOk;
    var autos := Paid(n, table, perf).autos;
    forall o, k ensures LivePower(n.pools, o, k) + Pending(autos, o, k) <= U64_MAX {
      PaidDue(n, table, perf, o, k);
      LiveCovered(n, o, k);
      DepositAtLeast(n.deposits, o, k);
    }
  }

  lemma LiveCovered(n: Network, o: Address, k: Address)
    requires Inv(n)
    ensures LivePower(n.pools, o, k) <= BalanceOf(n.deposits, o, k)
  {
    hide PoolOk, IndexOk, RecordOk, Locks;
    if o in n.pools { assert Covers(n.deposits, n.pools[o], o); }
  }

  /** NextEpoch raises the stake of every owner who asked for it by exactly its reward, and nobody else's,
      unless that owner is displaced.  Nobody is displaced from a pool all of whose flagged owners already
      have a stake in it, and no operator ever. */
  lemma {:induction false} EpochStakes(n: Network, table: RateTable, perf: Performance, o: Address, k: Address)
    requires Inv(n) && n.epoch < U64_MAX && o in n.pools
    requires DepositTotal(n.deposits) + RewardSum(table, perf, n.epoch, |n.vp|, n.vp) <= U64_MAX
    ensures Indexed(n)
    ensures var n' := NextEpoch(n, table, perf);
      && PoolsKept(n, n') && n'.limits == n.limits
      && (!EpochDisplaced(n, table, perf, o, k) ==>
            LivePower(n'.pools, o, k) == LivePower(n.pools, o, k)
              + (if Flagged(n.deposits, o, k) then EpochDue(n, table, perf, o, k) else 0))
    ensures k == o || (forall j | Flagged(n.deposits, o, j) && j != o :: j in n.pools[o].delegated) ==>
      !EpochDisplaced(n, table, perf, o, k)
  {
    hide PayAll, ApplyAutos, Backed, Grows, DepositTotal, RewardSum, Surplus, Displaced, LivePower, EpochDue, Fits;
    hide Slack, DistributedSum, RecordOk, PoolOk, IndexOk, Covers, Locks;
    var p := Paid(n, table, perf);
    var n1 := n.(deposits := p.deposits);
    EpochIssuance(n, table, perf);
    IndexedByInv(n);
    BackedAtStart(n);
    PayAllBacked(n.pools, Payout(n.deposits, []), table, perf, n.epoch, |n.vp|, n.vp);
    GrowsLive(n, p.deposits);
    EpochFits(n, table, perf);
    PaidDue(n, table, perf, o, k);
    ApplyAutosPower(n1, p.autos, o, k);
    ApplyAutosFrame(n1, p.autos);
    if k == o {
      OperatorStays(n1, p.autos, o);
    } else if forall j | Flagged(n.deposits, o, j) && j != o :: j in n.pools[o].delegated {
      FlaggedAreStaked(n, table, perf, o);
      StakersStay(n1, p.autos, o, k);
    }
  }

  lemma {:induction false} FlaggedAreStaked(n: Network, table: RateTable, perf: Performance, o: Address)
    requires Inv(n) && DepositTotal(n.deposits) <= U64_MAX && o in n.pools
    requires forall j | Flagged(n.deposits, o, j) && j != o :: j in n.pools[o].delegated
    ensures AllStaked(n.(deposits := Paid(n, table, perf).deposits), Paid(n, table, perf).autos, o)
  {
    hide PayAll, DepositTotal, EpochDue, RewardSum, Inv;
    var autos := Paid(n, table, perf).autos;
    forall i | 0 <= i < |autos| && autos[i].operator == o && autos[i].owner != o && autos[i].amount > 0
      ensures autos[i].owner in n.pools[o].delegated
    {
      PaidDue(n, table, perf, o, autos[i].owner);
      PendingAtLeast(autos, i);
    }
  }

  lemma {:induction false} PendingAtLeast(autos: seq<AutoStake>, i: nat)
    requires i < |autos|
    ensures autos[i].amount <= Pending(autos, autos[i].operator, autos[i].owner)
    decreases |autos|
  {
    if i == 0 {
    } else {
      PendingAtLeast(autos[1..], i - 1);
    }
  }
}
