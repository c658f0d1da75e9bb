/** NextEpoch keeps the invariant: rewards are deposited before they are staked, so the deposits
    stay ahead of the stakes however the auto-stakes turn out. */
module EpochProofs {
  import opened Words
  import opened Heap
  import opened Network
  import opened Staking
  import opened Rewards
  import opened Epoch
  import opened Invariant

  /** What is still to be auto-staked for one owner in one pool. */
  function Pending(autos: seq<AutoStake>, operator: Address, owner: Address): nat {
    if autos == [] then 0
    else (if autos[0].operator == operator && autos[0].owner == owner then autos[0].amount else 0)
         + Pending(autos[1..], operator, owner)
  }

  lemma {:induction false} PendingAppend(autos: seq<AutoStake>, a: AutoStake, operator: Address, owner: Address)
    ensures Pending(autos + [a], operator, owner) == Pending(autos, operator, owner) + Pending([a], operator, owner)
    decreases |autos|
  {
    if autos != [] {
      assert (autos + [a])[1..] == autos[1..] + [a];
      PendingAppend(autos[1..], a, operator, owner);
    } else {
      assert autos + [a] == [a];
    }
  }

  /** Every live stake, together with what is pending for it, is backed by its deposit. */
  ghost predicate Backed(pools: map<Address, Pool>, p: Payout) {
    forall o, k :: Min(U64_MAX, LivePower(pools, o, k) + Pending(p.autos, o, k)) <= BalanceOf(p.deposits, o, k)
  }

  ghost predicate Grows(d: Deposits, d': Deposits) {
    forall o, k :: BalanceOf(d, o, k) <= BalanceOf(d', o, k)
  }

  lemma {:induction false} CreditOwnerBacked(pools: map<Address, Pool>, p: Payout, operator: Address, owner: Address,
      amount: u64)
    requires Backed(pools, p)
    ensures var p' := CreditOwner(p, operator, owner, amount); Backed(pools, p') && Grows(p.deposits, p'.deposits)
  {
    var p' := CreditOwner(p, operator, owner, amount);
    if (operator, owner) in p.deposits {
      var a := AutoStake(operator, owner, amount);
      forall o, k
        ensures Min(U64_MAX, LivePower(pools, o, k) + Pending(p'.autos, o, k)) <= BalanceOf(p'.deposits, o, k)
      {
        PendingAppend(p.autos, a, o, k);
        assert Min(U64_MAX, LivePower(pools, o, k) + Pending(p.autos, o, k)) <= BalanceOf(p.deposits, o, k);
        assert Pending([a], o, k) == if o == operator && k == owner then amount else 0;
      }
    }
  }

  lemma {:induction false} CreditOperatorBacked(pools: map<Address, Pool>, p: Payout, operator: Address, amount: u64)
    requires Backed(pools, p)
    ensures var p' := CreditOperator(p, operator, amount); Backed(pools, p') && Grows(p.deposits, p'.deposits)
  {
    if (operator, operator) !in p.deposits {
      var p' := CreditOperator(p, operator, amount);
      forall o, k
        ensures Min(U64_MAX, LivePower(pools, o, k) + Pending(p'.autos, o, k)) <= BalanceOf(p'.deposits, o, k)
      {
        assert Min(U64_MAX, LivePower(pools, o, k) + Pending(p.autos, o, k)) <= BalanceOf(p.deposits, o, k);
      }
    } else {
      CreditOwnerBacked(pools, p, operator, operator, amount);
    }
  }

  lemma {:induction false} CreditOwnersBacked(pools: map<Address, Pool>, p: Payout, operator: Address, pool: Pool,
      owners: seq<Address>, reward: u64, total: u64)
    requires Backed(pools, p)
    requires forall i | 0 <= i < |owners| :: owners[i] in pool.delegated
    requires 4371 * reward <= U64_MAX
    ensures var p' := CreditOwners(p, operator, pool, owners, reward, total);
      Backed(pools, p') && Grows(p.deposits, p'.deposits)
    decreases |owners|
  {
    hide Backed, CreditOwner, RewardOf;
    if owners == [] {
    } else {
      var amount := RewardOf(reward, pool.commissionRate, pool.delegated[owners[0]], total).0;
      var p1 := CreditOwner(p, operator, owners[0], amount);
      CreditOwnerBacked(pools, p, operator, owners[0], amount);
      CreditOwnersBacked(pools, p1, operator, pool, owners[1..], reward, total);
    }
  }

  lemma {:induction false} PayPoolBacked(pools: map<Address, Pool>, p: Payout, s: Snapshot, reward: u64)
    requires Backed(pools, p) && 4371 * reward <= U64_MAX
    ensures var p' := PayPool(p, s, reward); Backed(pools, p') && Grows(p.deposits, p'.deposits)
  {
    hide Backed, CreditOperator, CreditOwners, RewardOf, Commissions;
    if reward > 0 {
      var owners := Listing(s.pool.delegated.Keys);
      var own := OrZero(s.pool.operatorStake);
      var total := TotalStakes(own, owners, s.pool.delegated);
      var amount := SatAdd(RewardOf(reward, 0, own, total).0, Commissions(0, s.pool, owners, reward, total));
      var p1 := CreditOwners(p, s.operator, s.pool, owners, reward, total);
      CreditOwnersBacked(pools, p, s.operator, s.pool, owners, reward, total);
      CreditOperatorBacked(pools, p1, s.operator, amount);
    }
  }

  lemma {:induction false} PayAllBacked(pools: map<Address, Pool>, p: Payout, table: RateTable, perf: Performance,
      epoch: u64, size: nat, vs: seq<Snapshot>)
    requires Backed(pools, p) && |vs| <= size
    ensures var p' := PayAll(p, table, perf, epoch, size, vs); Backed(pools, p') && Grows(p.deposits, p'.deposits)
    decreases |vs|
  {
    hide Backed, PayPool, RewardFor;
    if vs == [] {
    } else {
      var reward := RewardFor(table, perf, epoch, size, vs[0]);
      PayPoolBacked(pools, p, vs[0], reward);
      PayAllBacked(pools, PayPool(p, vs[0], reward), table, perf, epoch, size, vs[1..]);
    }
  }

  // ---------- auto-stakes ----------

  lemma {:induction false} ApplyAutoBacked(n: Network, a: AutoStake, rest: seq<AutoStake>)
    requires Backed(n.pools, Payout(n.deposits, [a] + rest))
    ensures var n' := ApplyAuto(n, a); Backed(n'.pools, Payout(n.deposits, rest))
  {
    hide Raise, Reindex;
    var n' := ApplyAuto(n, a);
    var all := [a] + rest;
    assert all[0] == a && all[1..] == rest;
    if a.operator in n.pools {
      RaisePowers(n.pools[a.operator], n.limits.stakesPerPool, a.operator, a.owner, a.amount, false);
    }
    forall o, k ensures Min(U64_MAX, LivePower(n'.pools, o, k) + Pending(rest, o, k)) <= BalanceOf(n.deposits, o, k) {
      assert Min(U64_MAX, LivePower(n.pools, o, k) + Pending(all, o, k)) <= BalanceOf(n.deposits, o, k);
    }
  }

  lemma {:induction false} ApplyAutoLive(n: Network, a: AutoStake, rest: seq<AutoStake>)
    requires LiveOk(n) && Backed(n.pools, Payout(n.deposits, [a] + rest))
    requires DepositTotal(n.deposits) <= U64_MAX
    ensures var n' := ApplyAuto(n, a); LiveOk(n') && n' == n.(pools := n'.pools, nvp := n'.nvp)
  {
    hide LiveOk, Raise, Reindex;
    if a.operator in n.pools {
      assert ([a] + rest)[0] == a;
      assert Min(U64_MAX, LivePower(n.pools, a.operator, a.owner) + Pending([a] + rest, a.operator, a.owner))
          <= BalanceOf(n.deposits, a.operator, a.owner);
      IncreaseOk(n, a.operator, a.owner, a.amount, false);
    }
  }

  lemma {:induction false} ApplyAutosOk(n: Network, autos: seq<AutoStake>)
    requires LiveOk(n) && Backed(n.pools, Payout(n.deposits, autos))
    requires DepositTotal(n.deposits) <= U64_MAX
    ensures LiveOk(ApplyAutos(n, autos))
    decreases |autos|
  {
    hide LiveOk, Backed, Increase, DepositTotal;
    if autos == [] {
    } else {
      var a, rest := autos[0], autos[1..];
      assert autos == [a] + rest;
      ApplyAutoLive(n, a, rest);
      ApplyAutoBacked(n, a, rest);
      ApplyAutosOk(ApplyAuto(n, a), rest);
    }
  }

  // ---------- rotation ----------

  lemma {:induction false} FindRecord(pools: map<Address, Pool>, order: seq<Address>, operator: Address)
    requires forall i | 0 <= i < |order| :: order[i] in pools
    ensures Find(Record(pools, order), operator)
         == if operator in order then Some(pools[operator]) else None
    decreases |order|
  {
    if order == [] {
    } else {
      assert Record(pools, order)[1..] == Record(pools, order[1..]);
      FindRecord(pools, order[1..], operator);
    }
  }

  lemma {:induction false} GrowsLocks(d: Deposits, d': Deposits, vs: seq<Snapshot>)
    requires Locks(d, vs) && Grows(d, d')
    ensures Locks(d', vs)
  {
    forall o, k ensures Locked(vs, o, k) <= BalanceOf(d', o, k) {
      assert Locked(vs, o, k) <= BalanceOf(d, o, k);
    }
  }

  lemma {:induction false} GrowsLive(n: Network, d: Deposits)
    requires LiveOk(n) && Grows(n.deposits, d)
    ensures LiveOk(n.(deposits := d))
  {
    forall o | o in n.pools ensures Covers(d, n.pools[o], o) {
      forall k ensures PowerOf(n.pools[o], o, k) <= BalanceOf(d, o, k) {
        assert Covers(n.deposits, n.pools[o], o);
      }
    }
  }

  lemma {:induction false} RecordLocks(n: Network)
    requires LiveOk(n)
    ensures var vs := Record(n.pools, Listing(n.nvp.Keys));
      RecordOk(vs, n.limits) && Locks(n.deposits, vs)
  {
    var order := Listing(n.nvp.Keys);
    var vs := Record(n.pools, order);
    assert |n.nvp.Keys| == |n.nvp|;
    forall o, k ensures Locked(vs, o, k) <= BalanceOf(n.deposits, o, k) {
      FindRecord(n.pools, order, o);
      if o in n.pools { assert Covers(n.deposits, n.pools[o], o); }
    }
  }

  lemma {:induction false} BackedAtStart(n: Network)
    requires LiveOk(n)
    ensures Backed(n.pools, Payout(n.deposits, []))
  {
    forall o, k ensures Min(U64_MAX, LivePower(n.pools, o, k) + Pending([], o, k)) <= BalanceOf(n.deposits, o, k) {
      if o in n.pools { assert Covers(n.deposits, n.pools[o], o); }
    }
  }

  /** The deposits right after the rewards of an epoch were paid. */
  function PaidDeposits(n: Network, table: RateTable, perf: Performance): Deposits {
    PayAll(Payout(n.deposits, []), table, perf, n.epoch, |n.vp|, n.vp).deposits
  }

  lemma {:induction false} RewardedOk(n: Network, table: RateTable, perf: Performance)
    requires LiveOk(n)
    requires DepositTotal(PaidDeposits(n, table, perf)) <= U64_MAX
    ensures var r := Rewarded(n, table, perf);
      && LiveOk(r) && Grows(n.deposits, r.deposits) && r.deposits == PaidDeposits(n, table, perf)
      && r == n.(pools := r.pools, nvp := r.nvp, deposits := r.deposits)
  {
    var p := PayAll(Payout(n.deposits, []), table, perf, n.epoch, |n.vp|, n.vp);
    hide PayAll, ApplyAutos, Backed, LiveOk, Grows;
    BackedAtStart(n);
    PayAllBacked(n.pools, Payout(n.deposits, []), table, perf, n.epoch, |n.vp|, n.vp);
    GrowsLive(n, p.deposits);
    ApplyAutosFrame(n.(deposits := p.deposits), p.autos);
    ApplyAutosOk(n.(deposits := p.deposits), p.autos);
  }

  lemma {:induction false} IndexedByInv(n: Network)
    requires LiveOk(n)
    ensures Indexed(n)
  {
  }

  /** NextEpoch keeps the invariant, and so never meets a missing pool. */
  lemma {:induction false} NextEpochInv(n: Network, table: RateTable, perf: Performance)
    requires Inv(n) && n.epoch < U64_MAX
    requires DepositTotal(PaidDeposits(n, table, perf)) <= U64_MAX
    ensures Indexed(n) && Inv(NextEpoch(n, table, perf))
  {
    IndexedByInv(n);
    var r := Rewarded(n, table, perf);
    hide LiveOk, Locks, RecordOk, Grows, Rewarded, PaidDeposits;
    RewardedOk(n, table, perf);
    IndexedByInv(r);
    RecordLocks(r);
    GrowsLocks(n.deposits, r.deposits, n.vp);
    RotateLive(r, n);
  }

  lemma {:induction false} RotateLive(r: Network, n: Network)
    requires LiveOk(r) && Indexed(r) && n.epoch < U64_MAX
    ensures LiveOk(Rotate(r, n))
  {
  }
}
