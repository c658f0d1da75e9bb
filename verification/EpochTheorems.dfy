/** The main results about NextEpoch: who is paid what, how much is issued, how the validator sets
    rotate, and that the reported diff turns the old set into the new one. */
module EpochTheorems {
  import opened Words
  import opened Heap
  import opened Network
  import opened Rewards
  import opened Epoch
  import opened Invariant
  import opened EpochProofs
  import opened RewardProofs

  // ---------- who is paid what ----------

  /** What one owner is due from one pool's reward. */
  function Due(pool: Pool, operator: Address, owner: Address, reward: u64): u64
    requires 4371 * reward <= U64_MAX
  {
    hide RewardOf;
    if reward == 0 then 0
    else
      var own := OrZero(pool.operatorStake);
      var owners := Listing(pool.delegated.Keys);
      var total := TotalStakes(own, owners, pool.delegated);
      if owner == operator then SatAdd(RewardOf(reward, 0, own, total).0, Commissions(0, pool, owners, reward, total))
      else if owner in pool.delegated then RewardOf(reward, pool.commissionRate, pool.delegated[owner], total).0
      else 0
  }

  /** What one owner is due from the pool of one operator in the ending epoch. */
  function DueIn(table: RateTable, perf: Performance, epoch: u64, size: nat, vs: seq<Snapshot>, operator: Address,
      owner: Address): u64
    requires |vs| <= size
  {
    hide Due;
    if vs == [] then 0
    else if vs[0].operator == operator then Due(vs[0].pool, operator, owner, RewardFor(table, perf, epoch, size, vs[0]))
    else DueIn(table, perf, epoch, size, vs[1..], operator, owner)
  }

  predicate Flagged(d: Deposits, o: Address, k: Address) { (o, k) in d && d[(o, k)].autoStake }

  /** `p'` is `p` with `due` added to the deposit (o, k), and remembered for auto-staking if flagged. */
  ghost predicate PaidTo(p: Payout, p': Payout, o: Address, k: Address, due: u64) {
    && BalanceOf(p'.deposits, o, k)
      == (if (o, k) in p.deposits || k == o then SatAdd(BalanceOf(p.deposits, o, k), due) else 0)
    && (Flagged(p'.deposits, o, k) <==> Flagged(p.deposits, o, k))
    && ((o, k) in p.deposits ==> (o, k) in p'.deposits)
    && (k != o && (o, k) in p'.deposits ==> (o, k) in p.deposits)
    && Pending(p'.autos, o, k) == Pending(p.autos, o, k) + (if Flagged(p.deposits, o, k) then due else 0)
  }

  lemma {:induction false} CreditOwnerPays(p: Payout, operator: Address, owner: Address, amount: u64, o: Address,
      k: Address)
    ensures PaidTo(p, CreditOwner(p, operator, owner, amount), o, k,
                   if (o, k) == (operator, owner) && (o, k) in p.deposits then amount else 0)
  {
    var a := AutoStake(operator, owner, amount);
    PendingAppend(p.autos, a, o, k);
    assert Pending([a], o, k) == if o == operator && k == owner then amount else 0;
  }

  lemma {:induction false} CreditOperatorPays(p: Payout, operator: Address, amount: u64, o: Address, k: Address)
    ensures PaidTo(p, CreditOperator(p, operator, amount), o, k, if (o, k) == (operator, operator) then amount else 0)
  {
    CreditOwnerPays(p, operator, operator, amount, o, k);
  }

  lemma {:induction false} CreditOwnersPays(p: Payout, operator: Address, pool: Pool, owners: seq<Address>,
      reward: u64, total: u64, o: Address, k: Address)
    requires forall i | 0 <= i < |owners| :: owners[i] in pool.delegated && owners[i] != operator
    requires forall i, j | 0 <= i < j < |owners| :: owners[i] != owners[j]
    requires 4371 * reward <= U64_MAX
    ensures PaidTo(p, CreditOwners(p, operator, pool, owners, reward, total), o, k,
                   if o == operator && (exists i :: 0 <= i < |owners| && owners[i] == k)
                   then RewardOf(reward, pool.commissionRate, pool.delegated[k], total).0 else 0)
    decreases |owners|
  {
    hide RewardOf, CreditOwner;
    if owners == [] {
    } else {
      var amount := RewardOf(reward, pool.commissionRate, pool.delegated[owners[0]], total).0;
      CreditOwnerPays(p, operator, owners[0], amount, o, k);
      CreditOwnersPays(CreditOwner(p, operator, owners[0], amount), operator, pool, owners[1..], reward, total, o, k);
      assert (exists i :: 0 <= i < |owners| && owners[i] == k)
          == (owners[0] == k || exists i :: 0 <= i < |owners[1..]| && owners[1..][i] == k) by {
        if exists i :: 0 < i < |owners| && owners[i] == k {
          var i :| 0 < i < |owners| && owners[i] == k;
          assert owners[1..][i - 1] == k;
        }
      }
    }
  }

  lemma {:induction false} ListingHas(s: set<Address>, k: Address)
    ensures (exists i :: 0 <= i < |Listing(s)| && Listing(s)[i] == k) <==> k in s
  {
    var l := Listing(s);
    if k in s {
      assert k in l;
      var i :| 0 <= i < |l| && l[i] == k;
      assert 0 <= i < |Listing(s)| && Listing(s)[i] == k;
    } else {
      forall i | 0 <= i < |l| ensures l[i] != k { assert l[i] in s; }
    }
  }

  /** Two payments of which at most one goes to (o, k). */
  lemma {:induction false} PaidOnce(p: Payout, p1: Payout, p2: Payout, o: Address, k: Address, a: u64, b: u64)
    requires PaidTo(p, p1, o, k, a) && PaidTo(p1, p2, o, k, b)
    requires a == 0 || b == 0
    ensures PaidTo(p, p2, o, k, a + b)
  {
  }

  lemma {:induction false} PayPoolPays(p: Payout, s: Snapshot, reward: u64, o: Address, k: Address)
    requires s.operator !in s.pool.delegated && 4371 * reward <= U64_MAX
    ensures PaidTo(p, PayPool(p, s, reward), o, k, if o == s.operator then Due(s.pool, o, k, reward) else 0)
  {
    hide RewardOf, CreditOwners, CreditOperator, Commissions, TotalStakes, PaidTo;
    if reward == 0 {
      PaidNothing(p, o, k);
    } else {
      var owners := Listing(s.pool.delegated.Keys);
      var own := OrZero(s.pool.operatorStake);
      var total := TotalStakes(own, owners, s.pool.delegated);
      var amount := SatAdd(RewardOf(reward, 0, own, total).0, Commissions(0, s.pool, owners, reward, total));
      var p1 := CreditOwners(p, s.operator, s.pool, owners, reward, total);
      CreditOwnersPays(p, s.operator, s.pool, owners, reward, total, o, k);
      ListingHas(s.pool.delegated.Keys, k);
      CreditOperatorPays(p1, s.operator, amount, o, k);
      var a := if o == s.operator && k in s.pool.delegated
        then RewardOf(reward, s.pool.commissionRate, s.pool.delegated[k], total).0 else 0;
      PaidOnce(p, p1, CreditOperator(p1, s.operator, amount), o, k, a,
               if (o, k) == (s.operator, s.operator) then amount else 0);
    }
  }

  lemma PaidNothing(p: Payout, o: Address, k: Address)
    ensures PaidTo(p, p, o, k, 0)
  {
  }

  /** Every staker of the ending epoch's set is paid exactly its share, every operator its own share
      plus the commissions, nobody else anything; and exactly the flagged rewards are auto-staked. */
  lemma {:induction false} EachIsPaidItsDue(p: Payout, table: RateTable, perf: Performance, epoch: u64, size: nat,
      vs: seq<Snapshot>, o: Address, k: Address)
    requires |vs| <= size
    requires forall i, j | 0 <= i < j < |vs| :: vs[i].operator != vs[j].operator
    requires forall i | 0 <= i < |vs| :: vs[i].operator !in vs[i].pool.delegated
    ensures PaidTo(p, PayAll(p, table, perf, epoch, size, vs), o, k, DueIn(table, perf, epoch, size, vs, o, k))
    decreases |vs|
  {
    hide RewardFor, PayPool, Due, PaidTo;
    if vs == [] {
      PaidNothing(p, o, k);
    } else {
      var reward := RewardFor(table, perf, epoch, size, vs[0]);
      PayPoolPays(p, vs[0], reward, o, k);
      var p1 := PayPool(p, vs[0], reward);
      EachIsPaidItsDue(p1, table, perf, epoch, size, vs[1..], o, k);
      if vs[0].operator == o {
        NotDue(table, perf, epoch, size, vs[1..], o, k);
      }
      PaidOnce(p, p1, PayAll(p1, table, perf, epoch, size, vs[1..]), o, k,
               if o == vs[0].operator then Due(vs[0].pool, o, k, reward) else 0,
               DueIn(table, perf, epoch, size, vs[1..], o, k));
    }
  }

  lemma {:induction false} NotDue(table: RateTable, perf: Performance, epoch: u64, size: nat, vs: seq<Snapshot>,
      o: Address, k: Address)
    requires |vs| <= size
    requires forall i | 0 <= i < |vs| :: vs[i].operator != o
    ensures DueIn(table, perf, epoch, size, vs, o, k) == 0
    decreases |vs|
  {
    if vs == [] {
    } else {
      NotDue(table, perf, epoch, size, vs[1..], o, k);
    }
  }

  // ---------- how much is issued ----------

  /** NextEpoch raises the deposits by exactly what the pools distribute, as long as the deposits do not
      outgrow a word; that is at most the pool rewards, and withholds no more than the rounding slack. */
  lemma {:induction false} EpochIssuance(n: Network, table: RateTable, perf: Performance)
    requires Inv(n) && DepositTotal(n.deposits) <= U64_MAX
    ensures var rewards := RewardSum(table, perf, n.epoch, |n.vp|, n.vp);
      var issued := DistributedSum(table, perf, n.epoch, |n.vp|, n.vp);
      var before, after := DepositTotal(n.deposits), DepositTotal(PaidDeposits(n, table, perf));
      && rewards - Slack(table, perf, n.epoch, |n.vp|, n.vp) <= issued <= rewards
      && after <= before + issued
      && (before + rewards <= U64_MAX ==> after == before + issued)
  {
    hide PayAll, RewardSum, DistributedSum, Slack, Payable, Inv, DepositTotal;
    RecordPayable(n);
    PayAllTotal(Payout(n.deposits, []), table, perf, n.epoch, |n.vp|, n.vp);
    DistributedBounds(table, perf, n.epoch, |n.vp|, n.vp);
  }

  // ---------- rotation ----------

  /** The sets rotate: the previous set is the old current one, stakes and all; the current set holds
      exactly the live pools that the next set names after auto-stakes; the epoch advances by one. */
  lemma {:induction false} EpochRotates(n: Network, table: RateTable, perf: Performance)
    requires Inv(n) && n.epoch < U64_MAX
    requires DepositTotal(PaidDeposits(n, table, perf)) <= U64_MAX
    ensures Indexed(n)
    ensures var n' := NextEpoch(n, table, perf);
      && n'.pvp == n.vp
      && (forall o :: Find(n'.vp, o) == if o in n'.nvp then Lookup(n'.pools, o) else None)
      && |n'.vp| == |n'.nvp|
      && (forall o | o in n'.nvp :: o in n'.pools && n'.pools[o].power == n'.nvp[o])
      && n'.epoch == n.epoch + 1
  {
    NextEpochInv(n, table, perf);
    var n' := NextEpoch(n, table, perf);
    var order := Listing(n'.nvp.Keys);
    hide Rewarded, PaidDeposits, PoolOk, Covers, Locks;
    assert n'.vp == Record(n'.pools, order);
    assert |n'.nvp.Keys| == |n'.nvp|;
    forall o ensures Find(n'.vp, o) == if o in n'.nvp then Lookup(n'.pools, o) else None {
      FindRecord(n'.pools, order, o);
      ListingHas(n'.nvp.Keys, o);
    }
  }

  // ---------- the diff ----------

  /** A validator set as the consensus layer sees it: operators with their power. */
  ghost function PowerMap(vs: seq<Snapshot>): map<Address, u64> {
    if vs == [] then map[] else PowerMap(vs[1..])[vs[0].operator := vs[0].pool.power]
  }

  ghost function Patch(m: map<Address, u64>, added: seq<(Address, u64)>): map<Address, u64> {
    if added == [] then m else Patch(m, added[1..])[added[0].0 := added[0].1]
  }

  ghost function ApplyChanges(m: map<Address, u64>, c: Changes): map<Address, u64> {
    Patch(m - (set o | o in c.removed), c.added)
  }

  ghost predicate Distinct(vs: seq<Snapshot>) {
    forall i, j | 0 <= i < j < |vs| :: vs[i].operator != vs[j].operator
  }

  lemma {:induction false} PowerMapLookup(vs: seq<Snapshot>, o: Address)
    requires Distinct(vs)
    ensures Lookup(PowerMap(vs), o) == (match Find(vs, o) case None => None case Some(pool) => Some(pool.power))
    ensures o in PowerMap(vs) <==> Named(vs, o)
    decreases |vs|
  {
    if vs == [] {
    } else {
      PowerMapLookup(vs[1..], o);
      assert Named(vs, o) == (vs[0].operator == o || Named(vs[1..], o)) by {
        if Named(vs, o) && vs[0].operator != o {
          var i :| 0 <= i < |vs| && vs[i].operator == o;
          assert vs[1..][i - 1].operator == o;
        }
        if Named(vs[1..], o) {
          var i :| 0 <= i < |vs[1..]| && vs[1..][i].operator == o;
          assert vs[i + 1].operator == o;
        }
      }
    }
  }

  lemma {:induction false} KeptMeans(was: seq<Snapshot>, s: Snapshot)
    requires Distinct(was)
    ensures Kept(was, s) <==> Lookup(PowerMap(was), s.operator) == Some(s.pool.power)
  {
    PowerMapLookup(was, s.operator);
    if Kept(was, s) {
      var i :| 0 <= i < |was| && was[i].operator == s.operator && was[i].pool.power == s.pool.power;
      FindDistinct(was, i);
    } else if Named(was, s.operator) {
      var i :| 0 <= i < |was| && was[i].operator == s.operator;
      FindDistinct(was, i);
    }
  }

  /** The additions are exactly the entries whose power is new. */
  lemma {:induction false} AddedMeans(was: seq<Snapshot>, now: seq<Snapshot>, m: map<Address, u64>, o: Address)
    requires Distinct(was) && Distinct(now)
    ensures Lookup(Patch(m, Added(was, now)), o)
         == if Named(now, o) && Lookup(PowerMap(now), o) != Lookup(PowerMap(was), o)
            then Lookup(PowerMap(now), o) else Lookup(m, o)
    decreases |now|
  {
    hide Kept;
    PowerMapLookup(now, o);
    if now == [] {
    } else {
      var s := now[0];
      KeptMeans(was, s);
      AddedMeans(was, now[1..], m, o);
      PowerMapLookup(now[1..], o);
      PowerMapLookup(now[1..], s.operator);
      assert !Named(now[1..], s.operator) by {
        forall i | 0 <= i < |now[1..]| ensures now[1..][i].operator != s.operator {
          assert now[1..][i] == now[i + 1];
        }
      }
      if !Kept(was, s) {
        var head := (s.operator, s.pool.power);
        assert Added(was, now) == [head] + Added(was, now[1..]);
        assert ([head] + Added(was, now[1..]))[1..] == Added(was, now[1..]);
      } else {
        assert Added(was, now) == Added(was, now[1..]);
      }
    }
  }

  lemma {:induction false} RemovedMeans(was: seq<Snapshot>, now: seq<Snapshot>, o: Address)
    ensures o in Removed(was, now) <==> Named(was, o) && !Named(now, o)
    decreases |was|
  {
    if was == [] {
    } else {
      RemovedMeans(was[1..], now, o);
      assert Named(was, o) == (was[0].operator == o || Named(was[1..], o)) by {
        if Named(was, o) && was[0].operator != o {
          var i :| 0 <= i < |was| && was[i].operator == o;
          assert was[1..][i - 1].operator == o;
        }
        if Named(was[1..], o) {
          var i :| 0 <= i < |was[1..]| && was[1..][i].operator == o;
          assert was[i + 1].operator == o;
        }
      }
    }
  }

  /** Removing, then adding, what the diff lists turns the old validator set into the new one. */
  lemma {:induction false} DiffApplies(was: seq<Snapshot>, now: seq<Snapshot>)
    requires Distinct(was) && Distinct(now)
    ensures ApplyChanges(PowerMap(was), Diff(was, now)) == PowerMap(now)
  {
    hide PowerMap, Patch, Added, Removed, Named;
    var c := Diff(was, now);
    var base := PowerMap(was) - (set o | o in c.removed);
    forall o ensures Lookup(ApplyChanges(PowerMap(was), c), o) == Lookup(PowerMap(now), o) {
      AddedMeans(was, now, base, o);
      RemovedMeans(was, now, o);
      PowerMapLookup(was, o);
      PowerMapLookup(now, o);
    }
    SameMap(ApplyChanges(PowerMap(was), c), PowerMap(now));
  }

  /** What NextEpoch reports turns the old validator set into the new one. */
  lemma {:induction false} EpochDiff(n: Network, table: RateTable, perf: Performance)
    requires Inv(n) && n.epoch < U64_MAX
    requires DepositTotal(PaidDeposits(n, table, perf)) <= U64_MAX
    ensures Indexed(n)
    ensures var n' := NextEpoch(n, table, perf);
      ApplyChanges(PowerMap(n.vp), Diff(n.vp, n'.vp)) == PowerMap(n'.vp)
  {
    NextEpochInv(n, table, perf);
    hide NextEpoch, Diff, ApplyChanges, PowerMap, LiveOk, Locks, PoolOk;
    DiffApplies(n.vp, NextEpoch(n, table, perf).vp);
  }

  /** No entry of the diff is redundant. */
  lemma {:induction false} DiffMinimal(was: seq<Snapshot>, now: seq<Snapshot>, i: nat)
    requires Distinct(was) && Distinct(now)
    ensures i < |Added(was, now)| ==>
      var (o, power) := Added(was, now)[i];
      Lookup(PowerMap(now), o) == Some(power) && Lookup(PowerMap(was), o) != Some(power)
    ensures i < |Removed(was, now)| ==>
      var o := Removed(was, now)[i]; o in PowerMap(was) && o !in PowerMap(now)
  {
    if i < |Added(was, now)| {
      AddedAt(was, now, i);
      var j :| 0 <= j < |now| && !Kept(was, now[j]) && Added(was, now)[i] == (now[j].operator, now[j].pool.power);
      FindDistinct(now, j);
      PowerMapLookup(now, now[j].operator);
      KeptMeans(was, now[j]);
    }
    if i < |Removed(was, now)| {
      var o := Removed(was, now)[i];
      RemovedMeans(was, now, o);
      PowerMapLookup(was, o);
      PowerMapLookup(now, o);
    }
  }

  lemma {:induction false} AddedAt(was: seq<Snapshot>, now: seq<Snapshot>, i: nat)
    requires i < |Added(was, now)|
    ensures exists j ::
      0 <= j < |now| && !Kept(was, now[j]) && Added(was, now)[i] == (now[j].operator, now[j].pool.power)
    decreases |now|
  {
    hide Kept;
    var skip := if Kept(was, now[0]) then 0 else 1;
    if i < skip {
      assert Added(was, now)[0] == (now[0].operator, now[0].pool.power);
    } else {
      AddedAt(was, now[1..], i - skip);
      var j :| 0 <= j < |now[1..]| && !Kept(was, now[1..][j])
            && Added(was, now[1..])[i - skip] == (now[1..][j].operator, now[1..][j].pool.power);
      assert now[j + 1] == now[1..][j];
      assert Added(was, now)[i] == Added(was, now[1..])[i - skip];
    }
  }
}
