/** Every staking command keeps the invariant, conserves tokens, and keeps pool power exact. */
module StakingProofs {
  import opened Words
  import opened Sums
  import opened Network
  import opened Staking
  import opened Invariant

  /** All tokens: account balances and deposits. */
  ghost function Supply(w: World): nat { Sum(w.balances) + DepositTotal(w.net.deposits) }

  /** Pool power equals the staked total in every live pool. */
  ghost predicate Exact(n: Network) {
    forall o | o in n.pools :: StakeTotal(n.pools[o]) == n.pools[o].power
  }

  /** By how much the power of an operator's live pool exceeds its stakes. */
  ghost function Surplus(pools: map<Address, Pool>, o: Address): nat {
    if o in pools && Excess(pools[o]) > 0 then Excess(pools[o]) else 0
  }

  /** No pool's power gains on its stakes. */
  ghost predicate NoLooser(n: Network, n': Network) {
    forall o :: Surplus(n'.pools, o) <= Surplus(n.pools, o)
  }

  /** Power is exact where it is at least the stakes and there is no surplus. */
  lemma {:induction false} ExactIsNoSurplus(n: Network)
    requires LiveOk(n)
    ensures Exact(n) <==> forall o :: Surplus(n.pools, o) == 0
  {
    hide IndexOk, Covers;
    if forall o :: Surplus(n.pools, o) == 0 {
      forall o | o in n.pools ensures StakeTotal(n.pools[o]) == n.pools[o].power {
        assert Surplus(n.pools, o) == 0 && PoolOk(n.pools[o], o, n.limits.stakesPerPool);
      }
    }
  }

  /** What a finished command leaves as it was. */
  ghost predicate Keeps(w: World, w': World) {
    && Inv(w'.net)
    && Supply(w') == Supply(w)
    && NoLooser(w.net, w'.net)
    && w'.net.vp == w.net.vp && w'.net.pvp == w.net.pvp && w'.net.epoch == w.net.epoch && w'.net.limits == w.net.limits
    && w'.nonces == w.nonces
  }

  ghost predicate Sound(w: World) { Inv(w.net) && Supply(w) <= U64_MAX }

  lemma {:induction false} DepositSet(d: Deposits, operator: Address, owner: Address, v: Deposit)
    ensures DepositTotal(d[(operator, owner) := v]) == DepositTotal(d) - BalanceOf(d, operator, owner) + v.balance
  {
    var k := (operator, owner);
    SumUpdate(DepositBalances(d), k, v.balance);
    assert DepositBalances(d[k := v]) == DepositBalances(d)[k := v.balance];
  }

  lemma {:induction false} DepositDrop(d: Deposits, operator: Address, owner: Address)
    ensures DepositTotal(d - {(operator, owner)}) == DepositTotal(d) - BalanceOf(d, operator, owner)
  {
    var k := (operator, owner);
    SumDrop(DepositBalances(d), k);
    assert DepositBalances(d - {k}) == DepositBalances(d) - {k};
  }

  lemma {:induction false} DepositAtLeast(d: Deposits, operator: Address, owner: Address)
    ensures BalanceOf(d, operator, owner) <= DepositTotal(d)
  {
    SumAtLeast(DepositBalances(d), (operator, owner));
  }

  /** Growing one deposit breaks nothing. */
  lemma {:induction false} GrowDeposit(n: Network, operator: Address, owner: Address, v: Deposit)
    requires Inv(n) && BalanceOf(n.deposits, operator, owner) <= v.balance
    ensures Inv(n.(deposits := n.deposits[(operator, owner) := v]))
  {
    var d := n.deposits[(operator, owner) := v];
    assert forall o, k :: BalanceOf(n.deposits, o, k) <= BalanceOf(d, o, k);
    forall o | o in n.pools ensures Covers(d, n.pools[o], o) {
      forall k ensures PowerOf(n.pools[o], o, k) <= BalanceOf(d, o, k) {
        assert PowerOf(n.pools[o], o, k) <= BalanceOf(n.deposits, o, k);
      }
    }
  }

  lemma SamePools(n: Network, n': Network)
    requires n'.pools == n.pools
    ensures NoLooser(n, n')
  {
  }

  /** A command that puts one pool in place of another adds no surplus if the new one has no more. */
  lemma NewPool(n: Network, n': Network, o: Address, pool: Pool)
    requires n'.pools == n.pools[o := pool]
    requires Excess(pool) <= if o in n.pools then Excess(n.pools[o]) else 0
    ensures NoLooser(n, n')
  {
    hide Excess;
  }

  lemma {:induction false} CreatePoolKeeps(w: World, operator: Address, rate: u8)
    requires Sound(w)
    ensures var r := CreatePool(w, operator, rate); r.Done? ==> Keeps(w, r.world)
  {
    hide NoLooser;
    var n := w.net;
    if CreatePool(w, operator, rate).Done? {
      var pool := Pool(rate, 0, None, map[]);
      InsertedOk(n.nvp, n.pools, n.limits.validators, operator, pool);
      assert StakeTotal(pool) == 0;
      assert Covers(n.deposits, pool, operator);
      NewPool(n, CreatePool(w, operator, rate).world.net, operator, pool);
    }
  }

  lemma {:induction false} SetPoolSettingsKeeps(w: World, operator: Address, rate: u8)
    requires Sound(w)
    ensures var r := SetPoolSettings(w, operator, rate); r.Done? ==> Keeps(w, r.world)
  {
    hide NoLooser;
    var n := w.net;
    if SetPoolSettings(w, operator, rate).Done? {
      var pool := n.pools[operator].(commissionRate := rate);
      assert Covers(n.deposits, pool, operator) by {
        forall k ensures PowerOf(pool, operator, k) <= BalanceOf(n.deposits, operator, k) {
          assert PowerOf(n.pools[operator], operator, k) <= BalanceOf(n.deposits, operator, k);
        }
      }
      NewPool(n, SetPoolSettings(w, operator, rate).world.net, operator, pool);
    }
  }

  lemma {:induction false} DropPoolOk(n: Network, operator: Address)
    requires LiveOk(n)
    ensures LiveOk(n.(pools := n.pools - {operator}, nvp := n.nvp - {operator}))
  {
    UnindexOk(n.nvp, n.pools, n.pools - {operator}, n.limits.validators, operator);
  }

  lemma {:induction false} DeletePoolKeeps(w: World, operator: Address)
    requires Sound(w)
    ensures var r := DeletePool(w, operator); r.Done? ==> Keeps(w, r.world)
  {
    hide LiveOk, RecordOk, Locks, Excess;
    DropPoolOk(w.net, operator);
  }

  lemma {:induction false} CreateDepositKeeps(w: World, owner: Address, operator: Address, balance: u64,
      autoStake: bool)
    requires Sound(w)
    ensures var r := CreateDeposit(w, owner, operator, balance, autoStake); r.Done? ==> Keeps(w, r.world)
  {
    hide Inv, NoLooser;
    if CreateDeposit(w, owner, operator, balance, autoStake).Done? {
      var v := Deposit(balance, autoStake);
      SumUpdate(w.balances, owner, Get0(w.balances, owner) - balance);
      DepositSet(w.net.deposits, operator, owner, v);
      GrowDeposit(w.net, operator, owner, v);
      SamePools(w.net, CreateDeposit(w, owner, operator, balance, autoStake).world.net);
    }
  }

  lemma {:induction false} SetDepositSettingsKeeps(w: World, owner: Address, operator: Address, autoStake: bool)
    requires Sound(w)
    ensures var r := SetDepositSettings(w, owner, operator, autoStake); r.Done? ==> Keeps(w, r.world)
  {
    hide Inv, NoLooser;
    if SetDepositSettings(w, owner, operator, autoStake).Done? {
      var v := w.net.deposits[(operator, owner)].(autoStake := autoStake);
      DepositSet(w.net.deposits, operator, owner, v);
      GrowDeposit(w.net, operator, owner, v);
      SamePools(w.net, SetDepositSettings(w, owner, operator, autoStake).world.net);
    }
  }

  lemma {:induction false} TopUpDepositKeeps(w: World, owner: Address, operator: Address, amount: u64)
    requires Sound(w)
    ensures var r := TopUpDeposit(w, owner, operator, amount); r.Done? ==> Keeps(w, r.world)
  {
    hide Inv, NoLooser;
    if TopUpDeposit(w, owner, operator, amount).Done? {
      var d := w.net.deposits[(operator, owner)];
      var v := d.(balance := SatAdd(d.balance, amount));
      SumAtLeast(w.balances, owner);
      DepositAtLeast(w.net.deposits, operator, owner);
      SumUpdate(w.balances, owner, Get0(w.balances, owner) - amount);
      DepositSet(w.net.deposits, operator, owner, v);
      GrowDeposit(w.net, operator, owner, v);
      SamePools(w.net, TopUpDeposit(w, owner, operator, amount).world.net);
    }
  }

  lemma {:induction false} StakeDepositKeeps(w: World, owner: Address, operator: Address, maxAmount: u64)
    requires Sound(w)
    ensures var r := StakeDeposit(w, owner, operator, maxAmount); r.Done? ==> Keeps(w, r.world)
  {
    var n := w.net;
    if StakeDeposit(w, owner, operator, maxAmount).Done? {
      var pool := n.pools[operator];
      var amount := Min(maxAmount, SatSub(n.deposits[(operator, owner)].balance, PowerOf(pool, operator, owner)));
      IncreaseOk(n, operator, owner, amount, true);
      RaiseExcess(pool, n.limits.stakesPerPool, operator, owner, amount, true);
      hide NoLooser, Raise, Reindex;
      var n' := StakeDeposit(w, owner, operator, maxAmount).world.net;
      NewPool(n, n', operator, n'.pools[operator]);
    }
  }

  lemma {:induction false} UnstakeDepositKeeps(w: World, owner: Address, operator: Address, maxAmount: u64)
    requires Sound(w)
    ensures var r := UnstakeDeposit(w, owner, operator, maxAmount); r.Done? ==> Keeps(w, r.world)
  {
    var n := w.net;
    if UnstakeDeposit(w, owner, operator, maxAmount).Done? {
      assert Covers(n.deposits, n.pools[operator], operator);
      ReduceOk(n, operator, owner, maxAmount);
      LowerOk(n.pools[operator], n.limits.stakesPerPool, operator, owner, maxAmount);
      hide NoLooser, Lower, Reindex;
      var n' := UnstakeDeposit(w, owner, operator, maxAmount).world.net;
      NewPool(n, n', operator, n'.pools[operator]);
    }
  }

  /** A withdrawal never takes what a recorded validator set still locks. */
  lemma {:induction false} WithdrawLocks(n: Network, operator: Address, owner: Address, balance: u64)
    requires Inv(n) && (operator, owner) in n.deposits
    requires Locked(n.vp, operator, owner) <= balance && Locked(n.pvp, operator, owner) <= balance
    ensures var n' := WithDeposit(n, operator, owner, balance);
      && Locks(n'.deposits, n.vp) && Locks(n'.deposits, n.pvp)
      && BalanceOf(n'.deposits, operator, owner) == balance
      && DepositTotal(n'.deposits) == DepositTotal(n.deposits) - BalanceOf(n.deposits, operator, owner) + balance
      && forall o, k | (o, k) != (operator, owner) :: BalanceOf(n'.deposits, o, k) == BalanceOf(n.deposits, o, k)
  {
    DepositSet(n.deposits, operator, owner, n.deposits[(operator, owner)].(balance := balance));
    DepositDrop(n.deposits, operator, owner);
  }

  lemma {:induction false} CapStakeOk(n: Network, n': Network, operator: Address, owner: Address, balance: u64)
    requires LiveOk(n)
    requires n' == n.(deposits := n'.deposits)
    requires BalanceOf(n'.deposits, operator, owner) == balance
    requires forall o, k | (o, k) != (operator, owner) :: BalanceOf(n'.deposits, o, k) == BalanceOf(n.deposits, o, k)
    ensures LiveOk(CapStake(n', operator, owner, balance))
  {
    hide IndexOk, PoolOk, Reduce;
    forall o | o in n.pools && o != operator ensures Covers(n'.deposits, n.pools[o], o) {
      assert Covers(n.deposits, n.pools[o], o);
    }
    if operator in n.pools {
      var pool := n.pools[operator];
      assert Covers(n.deposits, pool, operator);
      if StakeOf(pool, operator, owner).Some? && balance < PowerOf(pool, operator, owner) {
        ReduceOk(n', operator, owner, PowerOf(pool, operator, owner) - balance);
      } else {
        assert Covers(n'.deposits, pool, operator);
      }
    }
  }

  lemma {:induction false} CapStakeSurplus(n: Network, operator: Address, owner: Address, balance: u64)
    requires forall o | o in n.pools :: PoolOk(n.pools[o], o, n.limits.stakesPerPool)
    ensures NoLooser(n, CapStake(n, operator, owner, balance))
  {
    hide Lower, PoolOk, Excess, Reindex, NoLooser;
    var n' := CapStake(n, operator, owner, balance);
    if n' == n {
      SamePools(n, n');
    } else {
      var pool := n.pools[operator];
      LowerOk(pool, n.limits.stakesPerPool, operator, owner, PowerOf(pool, operator, owner) - balance);
      NewPool(n, n', operator, n'.pools[operator]);
    }
  }

  lemma {:induction false} WithdrawOk(n: Network, operator: Address, owner: Address, left: u64)
    requires Inv(n) && (operator, owner) in n.deposits
    requires Locked(n.vp, operator, owner) <= left && Locked(n.pvp, operator, owner) <= left
    ensures var n' := CapStake(WithDeposit(n, operator, owner, left), operator, owner, left);
      && Inv(n') && NoLooser(n, n') && n' == n.(pools := n'.pools, nvp := n'.nvp, deposits := n'.deposits)
      && DepositTotal(n'.deposits) == DepositTotal(n.deposits) - BalanceOf(n.deposits, operator, owner) + left
  {
    var n1 := WithDeposit(n, operator, owner, left);
    WithdrawLocks(n, operator, owner, left);
    assert LiveOk(CapStake(n1, operator, owner, left)) by { CapStakeOk(n, n1, operator, owner, left); }
    CapStakeSurplus(n1, operator, owner, left);
  }

  lemma {:induction false} WithdrawAmountOk(n: Network, operator: Address, owner: Address, maxAmount: u64)
    requires Inv(n)
    ensures var deposit := BalanceOf(n.deposits, operator, owner);
      var left := deposit - Withdrawable(n, operator, owner, deposit, maxAmount);
      Locked(n.vp, operator, owner) <= left && Locked(n.pvp, operator, owner) <= left
  {
    var deposit := BalanceOf(n.deposits, operator, owner);
    assert Locked(n.vp, operator, owner) <= deposit && Locked(n.pvp, operator, owner) <= deposit;
  }

  lemma {:induction false} CreditOk(w: World, owner: Address, amount: u64)
    requires Supply(w) <= U64_MAX && amount <= DepositTotal(w.net.deposits)
    ensures SatAdd(Get0(w.balances, owner), amount) == Get0(w.balances, owner) + amount
    ensures Sum(w.balances[owner := SatAdd(Get0(w.balances, owner), amount)]) == Sum(w.balances) + amount
  {
    SumAtLeast(w.balances, owner);
    SumUpdate(w.balances, owner, Get0(w.balances, owner) + amount);
  }

  lemma {:induction false} WithdrawDepositKeeps(w: World, owner: Address, operator: Address, maxAmount: u64)
    requires Sound(w)
    ensures var r := WithdrawDeposit(w, owner, operator, maxAmount); r.Done? ==> Keeps(w, r.world)
  {
    hide Inv, NoLooser, CapStake;
    var n := w.net;
    if (operator, owner) in n.deposits {
      var deposit := BalanceOf(n.deposits, operator, owner);
      var amount := Withdrawable(n, operator, owner, deposit, maxAmount);
      WithdrawAmountOk(n, operator, owner, maxAmount);
      WithdrawOk(n, operator, owner, deposit - amount);
      DepositAtLeast(n.deposits, operator, owner);
      CreditOk(w, owner, amount);
    }
  }
}
