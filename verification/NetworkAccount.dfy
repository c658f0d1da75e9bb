/** The network account as the mutable object the commands work on: the stake-moving helpers and the
    loops of NextEpoch, each proved to compute its specification function. */
module NetworkAccounts {
  import opened Words
  import opened Heap
  import opened Network
  import opened Staking
  import opened Rewards
  import opened Epoch

  /** A pool of the current set as NextEpoch first copies it, without its delegated stakes. */
  datatype PoolInfo = PoolInfo(operator: Address, commissionRate: u8, power: u64, operatorStake: Option<u64>)

  ghost predicate InfoOf(info: PoolInfo, s: Snapshot) {
    info == PoolInfo(s.operator, s.pool.commissionRate, s.pool.power, s.pool.operatorStake)
  }

  class NetworkAccount {
    var limits: Limits
    var pools: map<Address, Pool>
    var deposits: Deposits
    var nvp: Entries
    var vp: seq<Snapshot>
    var pvp: seq<Snapshot>
    var epoch: u64

    function Value(): Network
      reads this
    {
      Network(limits, pools, deposits, nvp, vp, pvp, epoch)
    }

    constructor (n: Network)
      ensures Value() == n
    {
      limits, pools, deposits, nvp, vp, pvp, epoch := n.limits, n.pools, n.deposits, n.nvp, n.vp, n.pvp, n.epoch;
    }

    /** Drop every pending change. */
    method Load(n: Network)
      modifies this
      ensures Value() == n
    {
      limits, pools, deposits, nvp, vp, pvp, epoch := n.limits, n.pools, n.deposits, n.nvp, n.vp, n.pvp, n.epoch;
    }

    // ---------- helpers of the staking commands ----------

    method SetStake(operator: Address, owner: Address, stake: Option<u64>)
      requires operator in pools
      modifies this`pools
      ensures pools == old(pools)[operator := WithStake(old(pools)[operator], operator, owner, stake)]
    {
      var pool := pools[operator];
      if operator == owner {
        pool := pool.(operatorStake := stake);
      } else if stake.None? {
        pool := pool.(delegated := pool.delegated - {owner});
      } else {
        pool := pool.(delegated := pool.delegated[owner := stake.value]);
      }
      pools := pools[operator := pool];
    }

    /** Insert into the next validator set, ignoring whether that worked. */
    method InsertNvp(operator: Address, power: u64)
      modifies this`nvp
      ensures nvp == Settled(old(nvp), InsertExtract(old(nvp), limits.validators, operator, power))
    {
      match InsertExtract(nvp, limits.validators, operator, power) {
        case Fits(h) => nvp := h;
        case Evicted(h, _, _) => nvp := h;
        case Full =>
      }
    }

    method ReduceStakePower(operator: Address, poolPower: u64, owner: Address, stakePower: u64, reduceAmount: u64)
        returns (unstaked: u64)
      requires operator in pools && poolPower == pools[operator].power
      modifies this
      ensures Value() == Reduce(old(Value()), operator, owner, stakePower, reduceAmount)
      ensures unstaked == Min(stakePower, reduceAmount)
    {
      hide InsertExtract, WithStake;
      if stakePower <= reduceAmount {
        SetStake(operator, owner, None);
        unstaked := stakePower;
      } else {
        SetStake(operator, owner, Some(stakePower - reduceAmount));
        unstaked := reduceAmount;
      }
      var newPoolPower := SatSub(poolPower, unstaked);
      pools := pools[operator := pools[operator].(power := newPoolPower)];
      if operator in nvp {
        if newPoolPower == 0 {
          nvp := nvp - {operator};
        } else {
          nvp := nvp[operator := newPoolPower];
        }
      } else {
        if newPoolPower > 0 {
          InsertNvp(operator, newPoolPower);
        }
        assert newPoolPower == 0 ==> nvp - {operator} == nvp;
      }
    }

    /** The operator's entry moves, or a new one tries to get in. */
    method MoveInNvp(operator: Address, power: u64)
      modifies this`nvp
      ensures nvp == Reindex(old(nvp), limits.validators, operator, power)
    {
      if operator in nvp {
        nvp := nvp[operator := power];
      } else {
        InsertNvp(operator, power);
      }
    }

    /** Enter or enlarge the stake; the result is what this adds to the pool's power. */
    method EnterStake(operator: Address, owner: Address, stakePower: Option<u64>, amount: u64, exitOnInsertFail: bool)
        returns (added: Option<u64>)
      requires operator in pools && stakePower == StakeOf(pools[operator], operator, owner)
      modifies this`pools
      ensures var pool := old(pools)[operator];
        match Raise(pool, limits.stakesPerPool, operator, owner, amount, exitOnInsertFail)
        case None => added.None? && pools == old(pools)
        case Some(p) =>
          && added.Some? && p.power == SatAdd(pool.power, added.value)
          && pools == old(pools)[operator := p.(power := pool.power)]
    {
      added := Some(amount);
      if operator == owner {
        SetStake(operator, owner, Some(SatAdd(OrZero(stakePower), amount)));
      } else if stakePower.Some? {
        SetStake(operator, owner, Some(SatAdd(stakePower.value, amount)));
      } else {
        match InsertExtract(pools[operator].delegated, limits.stakesPerPool, owner, amount) {
          case Fits(h) =>
            pools := pools[operator := pools[operator].(delegated := h)];
          case Evicted(h, _, replaced) =>
            pools := pools[operator := pools[operator].(delegated := h)];
            added := Some(SatSub(amount, replaced));
          case Full =>
            if exitOnInsertFail {
              added := None;
            }
            assert pools == pools[operator := pools[operator]];
        }
      }
    }

    method IncreaseStakePower(operator: Address, poolPower: u64, owner: Address, stakePower: Option<u64>, amount: u64,
        exitOnInsertFail: bool)
        returns (ok: bool)
      requires operator in pools && poolPower == pools[operator].power
      requires stakePower == StakeOf(pools[operator], operator, owner)
      modifies this
      ensures match Increase(old(Value()), operator, owner, amount, exitOnInsertFail)
        case None => !ok && Value() == old(Value())
        case Some(n) => ok && Value() == n
    {
      hide Raise, Reindex;
      var added := EnterStake(operator, owner, stakePower, amount, exitOnInsertFail);
      if added.None? {
        return false;
      }
      var newPoolPower := SatAdd(poolPower, added.value);
      pools := pools[operator := pools[operator].(power := newPoolPower)];
      MoveInNvp(operator, newPoolPower);
      ok := true;
    }

    // ---------- NextEpoch ----------

    static method SumStakes(own: u64, owners: seq<Address>, stakes: Entries) returns (total: u64)
      requires forall i | 0 <= i < |owners| :: owners[i] in stakes
      ensures total == TotalStakes(own, owners, stakes)
    {
      total := own;
      var j := 0;
      assert owners[0..] == owners;
      while j < |owners|
        invariant 0 <= j <= |owners|
        invariant TotalStakes(total, owners[j..], stakes) == TotalStakes(own, owners, stakes)
      {
        total := SatAdd(total, stakes[owners[j]]);
        j := j + 1;
      }
    }

    /** The rewards of the delegators in order, and their commissions. */
    static method SplitReward(pool: Pool, owners: seq<Address>, reward: u64, total: u64)
        returns (due: seq<(Address, u64)>, fees: u64)
      requires forall i | 0 <= i < |owners| :: owners[i] in pool.delegated
      requires 4371 * reward <= U64_MAX
      ensures |due| == |owners|
      ensures forall i | 0 <= i < |owners| ::
        due[i] == (owners[i], RewardOf(reward, pool.commissionRate, pool.delegated[owners[i]], total).0)
      ensures fees == Commissions(0, pool, owners, reward, total)
    {
      hide RewardOf;
      due, fees := [], 0;
      var i := 0;
      assert owners[0..] == owners;
      while i < |owners|
        invariant 0 <= i <= |owners| && |due| == i
        invariant forall j | 0 <= j < i ::
          due[j] == (owners[j], RewardOf(reward, pool.commissionRate, pool.delegated[owners[j]], total).0)
        invariant Commissions(fees, pool, owners[i..], reward, total) == Commissions(0, pool, owners, reward, total)
      {
        var (amount, fee) := RewardOf(reward, pool.commissionRate, pool.delegated[owners[i]], total);
        due := due + [(owners[i], amount)];
        fees := SatAdd(fees, fee);
        i := i + 1;
      }
    }

    /** Pay one delegator, if it has a deposit, and note the reward for auto-staking if it asked for that. */
    method PayOwner(operator: Address, owner: Address, amount: u64, autos: seq<AutoStake>)
        returns (autos': seq<AutoStake>)
      modifies this`deposits
      ensures Payout(deposits, autos') == CreditOwner(Payout(old(deposits), autos), operator, owner, amount)
    {
      autos' := autos;
      var key := (operator, owner);
      if key in deposits {
        var d := deposits[key];
        deposits := deposits[key := d.(balance := SatAdd(d.balance, amount))];
        if deposits[key].autoStake {
          autos' := autos' + [AutoStake(operator, owner, amount)];
        }
      }
    }

    method PayOwners(operator: Address, pool: Pool, owners: seq<Address>, reward: u64, total: u64,
        due: seq<(Address, u64)>, autos: seq<AutoStake>)
        returns (autos': seq<AutoStake>)
      requires forall i | 0 <= i < |owners| :: owners[i] in pool.delegated
      requires 4371 * reward <= U64_MAX && |due| == |owners|
      requires forall i | 0 <= i < |owners| ::
        due[i] == (owners[i], RewardOf(reward, pool.commissionRate, pool.delegated[owners[i]], total).0)
      modifies this`deposits
      ensures Payout(deposits, autos')
        == CreditOwners(Payout(old(deposits), autos), operator, pool, owners, reward, total)
    {
      hide RewardOf, CreditOwner;
      autos' := autos;
      var i := 0;
      assert owners[0..] == owners;
      while i < |due|
        invariant 0 <= i <= |owners|
        invariant CreditOwners(Payout(deposits, autos'), operator, pool, owners[i..], reward, total)
               == CreditOwners(Payout(old(deposits), autos), operator, pool, owners, reward, total)
      {
        assert owners[i..][0] == owners[i] && owners[i..][1..] == owners[i + 1..];
        autos' := PayOwner(operator, due[i].0, due[i].1, autos');
        i := i + 1;
      }
    }

    /** Reward one pool of the ending epoch's set. */
    method RewardPool(info: PoolInfo, stakes: Entries, reward: u64, autos: seq<AutoStake>)
        returns (autos': seq<AutoStake>)
      requires 4371 * reward <= U64_MAX
      modifies this`deposits
      ensures Payout(deposits, autos')
        == PayPool(Payout(old(deposits), autos),
          Snapshot(info.operator, Pool(info.commissionRate, info.power, info.operatorStake, stakes)), reward)
    {
      hide CreditOwners, RewardOf, Commissions, TotalStakes;
      var pool := Pool(info.commissionRate, info.power, info.operatorStake, stakes);
      var own := OrZero(info.operatorStake);
      var owners := Listing(stakes.Keys);
      autos' := autos;
      var total := SumStakes(own, owners, stakes);
      if reward > 0 {
        var due, fees := SplitReward(pool, owners, reward, total);
        autos' := PayOwners(info.operator, pool, owners, reward, total, due, autos');
        var amount := SatAdd(RewardOf(reward, 0, own, total).0, fees);
        if (info.operator, info.operator) in deposits {
          autos' := PayOwner(info.operator, info.operator, amount, autos');
        } else {
          deposits := deposits[(info.operator, info.operator) := Deposit(amount, false)];
        }
      }
    }

    /** Copy the current set: the pools without their stakes, as the source does. */
    method CopyPools() returns (infos: seq<PoolInfo>)
      ensures |infos| == |vp|
      ensures forall i | 0 <= i < |vp| :: InfoOf(infos[i], vp[i])
    {
      infos := [];
      var i := 0;
      while i < |vp|
        invariant 0 <= i <= |vp| && |infos| == i
        invariant forall j | 0 <= j < i :: InfoOf(infos[j], vp[j])
      {
        var s := vp[i];
        infos := infos + [PoolInfo(s.operator, s.pool.commissionRate, s.pool.power, s.pool.operatorStake)];
        i := i + 1;
      }
    }

    /** Pay every pool; remember its stakes by operator for the rotation. */
    method RewardAll(infos: seq<PoolInfo>, table: RateTable, perf: Performance)
        returns (autos: seq<AutoStake>, stakesOf: map<Address, Entries>)
      requires |infos| == |vp|
      requires forall i | 0 <= i < |vp| :: InfoOf(infos[i], vp[i])
      requires forall i, j | 0 <= i < j < |vp| :: vp[i].operator != vp[j].operator
      modifies this`deposits
      ensures Payout(deposits, autos) == PayAll(Payout(old(deposits), []), table, perf, epoch, |vp|, vp)
      ensures forall i | 0 <= i < |vp| :: vp[i].operator in stakesOf && stakesOf[vp[i].operator] == vp[i].pool.delegated
    {
      hide PayPool, RewardFor;
      autos, stakesOf := [], map[];
      var i := 0;
      assert vp[0..] == vp;
      while i < |infos|
        invariant 0 <= i <= |vp|
        invariant PayAll(Payout(deposits, autos), table, perf, epoch, |vp|, vp[i..])
               == PayAll(Payout(old(deposits), []), table, perf, epoch, |vp|, vp)
        invariant forall j | 0 <= j < i ::
          vp[j].operator in stakesOf && stakesOf[vp[j].operator] == vp[j].pool.delegated
      {
        var s := vp[i];
        assert vp[i..][0] == s && vp[i..][1..] == vp[i + 1..];
        assert Snapshot(infos[i].operator,
          Pool(infos[i].commissionRate, infos[i].power, infos[i].operatorStake, s.pool.delegated)) == s;
        var reward := RewardFor(table, perf, epoch, |vp|, s);
        autos := RewardPool(infos[i], s.pool.delegated, reward, autos);
        stakesOf := stakesOf[s.operator := s.pool.delegated];
        i := i + 1;
      }
    }

    method AutoStakeAll(autos: seq<AutoStake>)
      modifies this
      ensures Value() == ApplyAutos(old(Value()), autos)
    {
      hide Increase;
      var i := 0;
      assert autos[0..] == autos;
      while i < |autos|
        invariant 0 <= i <= |autos|
        invariant ApplyAutos(Value(), autos[i..]) == ApplyAutos(old(Value()), autos)
      {
        var a := autos[i];
        assert autos[i..][0] == a && autos[i..][1..] == autos[i + 1..];
        if a.operator in pools {
          var pool := pools[a.operator];
          var stake := StakeOf(pool, a.operator, a.owner);
          var _ := IncreaseStakePower(a.operator, pool.power, a.owner, stake, a.amount, false);
        }
        i := i + 1;
      }
    }

    /** Rebuild the previous set from the copied pools and their stakes; every lookup succeeds. */
    method ReplacePvp(infos: seq<PoolInfo>, stakesOf: map<Address, Entries>, ghost was: seq<Snapshot>)
      requires |infos| == |was|
      requires forall i | 0 <= i < |was| :: InfoOf(infos[i], was[i])
      requires forall i, j | 0 <= i < j < |was| :: was[i].operator != was[j].operator
      requires forall i | 0 <= i < |was| ::
        was[i].operator in stakesOf && stakesOf[was[i].operator] == was[i].pool.delegated
      modifies this`pvp
      ensures pvp == was
    {
      pvp := [];
      var left := stakesOf;
      var i := 0;
      while i < |infos|
        invariant 0 <= i <= |was|
        invariant pvp == was[..i]
        invariant forall j | i <= j < |was| :: was[j].operator in left && left[was[j].operator] == was[j].pool.delegated
      {
        var p := infos[i];
        var stakes := left[p.operator];
        left := left - {p.operator};
        pvp := pvp + [Snapshot(p.operator, Pool(p.commissionRate, p.power, p.operatorStake, stakes))];
        i := i + 1;
      }
    }

    /** Rebuild the current set from the live pools the next set names. */
    method ReplaceVp()
      requires forall o | o in nvp :: o in pools
      modifies this`vp
      ensures vp == Record(pools, Listing(nvp.Keys))
    {
      hide Listing;
      var order := Listing(nvp.Keys);
      assert forall i | 0 <= i < |order| :: order[i] in pools;
      vp := RecordPools(pools, order);
    }

    static method RecordPools(pools: map<Address, Pool>, order: seq<Address>) returns (vs: seq<Snapshot>)
      requires forall i | 0 <= i < |order| :: order[i] in pools
      ensures vs == Record(pools, order)
    {
      vs := [];
      var i := 0;
      while i < |order|
        invariant 0 <= i <= |order|
        invariant vs == Record(pools, order)[..i]
      {
        vs := vs + [Snapshot(order[i], pools[order[i]])];
        i := i + 1;
      }
    }

    static method ListAdded(was: seq<Snapshot>, now: seq<Snapshot>) returns (added: seq<(Address, u64)>)
      ensures added == Added(was, now)
    {
      hide Kept;
      added := [];
      var i := |now|;
      assert now[i..] == [];
      while i > 0
        invariant 0 <= i <= |now|
        invariant added == Added(was, now[i..])
      {
        i := i - 1;
        assert now[i..][0] == now[i] && now[i..][1..] == now[i + 1..];
        if !Kept(was, now[i]) {
          added := [(now[i].operator, now[i].pool.power)] + added;
        }
      }
      assert now[0..] == now;
    }

    static method ListRemoved(was: seq<Snapshot>, now: seq<Snapshot>) returns (removed: seq<Address>)
      ensures removed == Removed(was, now)
    {
      hide Named;
      removed := [];
      var i := |was|;
      assert was[i..] == [];
      while i > 0
        invariant 0 <= i <= |was|
        invariant removed == Removed(was[i..], now)
      {
        i := i - 1;
        assert was[i..][0] == was[i] && was[i..][1..] == was[i + 1..];
        if !Named(now, was[i].operator) {
          removed := [was[i].operator] + removed;
        }
      }
      assert was[0..] == was;
    }

    static method Compare(was: seq<Snapshot>, now: seq<Snapshot>) returns (changes: Changes)
      ensures changes == Diff(was, now)
    {
      var added := ListAdded(was, now);
      var removed := ListRemoved(was, now);
      changes := Changes(added, removed);
    }

    /** Step 1: pay the rewards, then stake the flagged ones. */
    method PayAndAutoStake(infos: seq<PoolInfo>, table: RateTable, perf: Performance)
        returns (stakesOf: map<Address, Entries>)
      requires |infos| == |vp|
      requires forall i | 0 <= i < |vp| :: InfoOf(infos[i], vp[i])
      requires forall i, j | 0 <= i < j < |vp| :: vp[i].operator != vp[j].operator
      modifies this
      ensures Value() == Rewarded(old(Value()), table, perf)
      ensures vp == old(vp) && epoch == old(epoch)
      ensures Indexed(old(Value())) ==> Indexed(Value())
      ensures forall i | 0 <= i < |vp| :: vp[i].operator in stakesOf && stakesOf[vp[i].operator] == vp[i].pool.delegated
    {
      hide PayAll, ApplyAutos;
      var autos: seq<AutoStake>;
      autos, stakesOf := RewardAll(infos, table, perf);
      ApplyAutosFrame(Value(), autos);
      AutoStakeAll(autos);
    }

    /** NextEpoch: rewards, auto-stakes, rotation, diff. */
    method AdvanceEpoch(table: RateTable, perf: Performance) returns (changes: Changes)
      requires Indexed(Value()) && epoch < U64_MAX
      requires forall i, j | 0 <= i < j < |vp| :: vp[i].operator != vp[j].operator
      modifies this
      ensures Value() == NextEpoch(old(Value()), table, perf)
      ensures changes == Diff(old(vp), vp)
    {
      hide Rewarded, Diff, Record;
      var was := vp;
      var infos := CopyPools();
      var stakesOf := PayAndAutoStake(infos, table, perf);
      ReplacePvp(infos, stakesOf, was);
      ReplaceVp();
      epoch := epoch + 1;
      changes := Compare(was, vp);
    }
  }
}
