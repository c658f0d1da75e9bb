/** The staking commands as the source runs them: check, then update account balances, pools, deposits
    and the next validator set in place, reverting the cache on abort. */
module StakingCommands {
  import opened Words
  import opened Heap
  import opened Network
  import opened Staking
  import opened WorldCache

  datatype Status = Ok(amount: Option<u64>) | Err(error: Error)

  /** The cache ends where the specification says, or reverted. */
  ghost predicate Performs(o: Outcome, r: Status, view: World, ws: World) {
    match o
    case Done(w, amount) => r == Ok(amount) && view == w
    case Abort(e) => r == Err(e) && view == ws
  }

  method CreatePool(c: WorldStateCache, operator: Address, rate: u8) returns (r: Status)
    requires c.Valid()
    modifies c.Pending()
    ensures c.Valid() && Performs(Staking.CreatePool(old(c.View()), operator, rate), r, c.View(), c.ws)
  {
    hide OverlayStorage, InsertExtract, Settled;
    if rate > 100 {
      c.Revert();
      return Err(InvalidPoolPolicy);
    }
    if operator in c.network.pools {
      c.Revert();
      return Err(PoolAlreadyExists);
    }
    c.network.pools := c.network.pools[operator := Pool(rate, 0, None, map[])];
    c.network.InsertNvp(operator, 0);
    r := Ok(None);
  }

  method SetPoolSettings(c: WorldStateCache, operator: Address, rate: u8) returns (r: Status)
    requires c.Valid()
    modifies c.Pending()
    ensures c.Valid() && Performs(Staking.SetPoolSettings(old(c.View()), operator, rate), r, c.View(), c.ws)
  {
    hide OverlayStorage;
    if rate > 100 {
      c.Revert();
      return Err(InvalidPoolPolicy);
    }
    if operator !in c.network.pools {
      c.Revert();
      return Err(PoolNotExists);
    }
    if c.network.pools[operator].commissionRate == rate {
      c.Revert();
      return Err(InvalidPoolPolicy);
    }
    c.network.pools := c.network.pools[operator := c.network.pools[operator].(commissionRate := rate)];
    r := Ok(None);
  }

  method DeletePool(c: WorldStateCache, operator: Address) returns (r: Status)
    requires c.Valid()
    modifies c.Pending()
    ensures c.Valid() && Performs(Staking.DeletePool(old(c.View()), operator), r, c.View(), c.ws)
  {
    hide OverlayStorage;
    if operator !in c.network.pools {
      c.Revert();
      return Err(PoolNotExists);
    }
    c.network.nvp := c.network.nvp - {operator};
    c.network.pools := c.network.pools - {operator};
    r := Ok(None);
  }

  /** Take tokens from an account, if it has them. */
  method Debit(c: WorldStateCache, owner: Address, amount: u64) returns (ok: bool)
    requires c.Valid()
    modifies c.balances
    ensures c.Valid() && (ok <==> amount <= Get0(old(c.View()).balances, owner))
    ensures var w := old(c.View());
      c.View() == if ok then w.(balances := w.balances[owner := Get0(w.balances, owner) - amount]) else w
  {
    hide WorldStateCache.View, WorldStateCache.Valid;
    var ownerBalance := c.Balance(owner);
    ok := amount <= ownerBalance;
    if ok {
      c.SetBalance(owner, ownerBalance - amount);
    }
  }

  method GiveBack(c: WorldStateCache, owner: Address, amount: u64)
    requires c.Valid()
    modifies c.balances
    ensures c.Valid()
    ensures var w := old(c.View());
      c.View() == w.(balances := w.balances[owner := SatAdd(Get0(w.balances, owner), amount)])
  {
    hide WorldStateCache.View, WorldStateCache.Valid;
    var ownerBalance := c.Balance(owner);
    c.SetBalance(owner, SatAdd(ownerBalance, amount));
  }

  method CreateDeposit(c: WorldStateCache, owner: Address, operator: Address, balance: u64, autoStake: bool)
      returns (r: Status)
    requires c.Valid()
    modifies c.Pending()
    ensures c.Valid()
    ensures Performs(Staking.CreateDeposit(old(c.View()), owner, operator, balance, autoStake), r, c.View(), c.ws)
  {
    hide WorldStateCache.View, WorldStateCache.Valid;
    c.NetView();
    if operator !in c.network.pools {
      c.Revert();
      return Err(PoolNotExists);
    }
    if (operator, owner) in c.network.deposits {
      c.Revert();
      return Err(DepositsAlreadyExists);
    }
    var ok := Debit(c, owner, balance);
    if !ok {
      c.Revert();
      return Err(NotEnoughBalanceForTransfer);
    }
    c.NetView();
    c.SetDeposits(c.network.deposits[(operator, owner) := Deposit(balance, autoStake)]);
    r := Ok(None);
  }

  method SetDepositSettings(c: WorldStateCache, owner: Address, operator: Address, autoStake: bool) returns (r: Status)
    requires c.Valid()
    modifies c.Pending()
    ensures c.Valid()
    ensures Performs(Staking.SetDepositSettings(old(c.View()), owner, operator, autoStake), r, c.View(), c.ws)
  {
    hide OverlayStorage;
    var key := (operator, owner);
    if key !in c.network.deposits {
      c.Revert();
      return Err(DepositsNotExists);
    }
    if c.network.deposits[key].autoStake == autoStake {
      c.Revert();
      return Err(InvalidDepositPolicy);
    }
    c.network.deposits := c.network.deposits[key := c.network.deposits[key].(autoStake := autoStake)];
    r := Ok(None);
  }

  method TopUpDeposit(c: WorldStateCache, owner: Address, operator: Address, amount: u64) returns (r: Status)
    requires c.Valid()
    modifies c.Pending()
    ensures c.Valid() && Performs(Staking.TopUpDeposit(old(c.View()), owner, operator, amount), r, c.View(), c.ws)
  {
    hide WorldStateCache.View, WorldStateCache.Valid;
    var key := (operator, owner);
    c.NetView();
    if key !in c.network.deposits {
      c.Revert();
      return Err(DepositsNotExists);
    }
    var ok := Debit(c, owner, amount);
    if !ok {
      c.Revert();
      return Err(NotEnoughBalanceForTransfer);
    }
    c.NetView();
    var d := c.network.deposits[key];
    c.SetDeposits(c.network.deposits[key := d.(balance := SatAdd(d.balance, amount))]);
    r := Ok(None);
  }

  /** Step 5 of a withdrawal: cap the stake at what is left of the deposit. */
  method CapStakePower(c: WorldStateCache, operator: Address, owner: Address, balance: u64)
    requires c.Valid()
    modifies c.network
    ensures c.Valid()
    ensures c.View() == old(c.View()).(net := CapStake(old(c.View()).net, operator, owner, balance))
  {
    hide Reduce, OverlayStorage;
    var n := c.network;
    if operator in n.pools {
      var stake := StakeOf(n.pools[operator], operator, owner);
      if stake.Some? && balance < stake.value {
        var _ := n.ReduceStakePower(operator, n.pools[operator].power, owner, stake.value, stake.value - balance);
      }
    }
  }

  /** Step 4 of a withdrawal: a deposit that is used up goes. */
  method LeaveDeposit(c: WorldStateCache, operator: Address, owner: Address, left: u64)
    requires c.Valid() && (operator, owner) in c.View().net.deposits
    modifies c.network
    ensures c.Valid()
    ensures c.View() == old(c.View()).(net := WithDeposit(old(c.View()).net, operator, owner, left))
  {
    hide WorldStateCache.View, WorldStateCache.Valid;
    c.NetView();
    var key := (operator, owner);
    if left == 0 {
      c.SetDeposits(c.network.deposits - {key});
    } else {
      c.SetDeposits(c.network.deposits[key := c.network.deposits[key].(balance := left)]);
    }
  }

  method WithdrawDeposit(c: WorldStateCache, owner: Address, operator: Address, maxAmount: u64) returns (r: Status)
    requires c.Valid()
    modifies c.Pending()
    ensures c.Valid() && Performs(Staking.WithdrawDeposit(old(c.View()), owner, operator, maxAmount), r, c.View(), c.ws)
  {
    hide WorldStateCache.View, WorldStateCache.Valid, Locked, CapStake, WithDeposit;
    c.NetView();
    var key := (operator, owner);
    if key !in c.network.deposits {
      c.Revert();
      return Err(DepositsNotExists);
    }
    var deposit := c.network.deposits[key].balance;
    var locked := Max(Locked(c.network.pvp, operator, owner), Locked(c.network.vp, operator, owner));
    var amount := Min(maxAmount, SatSub(deposit, locked));
    var left := SatSub(deposit, amount);
    if left == deposit {
      c.Revert();
      return Err(InvalidStakeAmount);
    }
    LeaveDeposit(c, operator, owner, left);
    GiveBack(c, owner, deposit - left);
    CapStakePower(c, operator, owner, left);
    r := Ok(Some(amount));
  }

  method StakeDeposit(c: WorldStateCache, owner: Address, operator: Address, maxAmount: u64) returns (r: Status)
    requires c.Valid()
    modifies c.Pending()
    ensures c.Valid() && Performs(Staking.StakeDeposit(old(c.View()), owner, operator, maxAmount), r, c.View(), c.ws)
  {
    hide OverlayStorage, Increase;
    if (operator, owner) !in c.network.deposits {
      c.Revert();
      return Err(DepositsNotExists);
    }
    var deposit := c.network.deposits[(operator, owner)].balance;
    if operator !in c.network.pools {
      c.Revert();
      return Err(PoolNotExists);
    }
    var poolPower := c.network.pools[operator].power;
    var stake := StakeOf(c.network.pools[operator], operator, owner);
    var amount := Min(maxAmount, SatSub(deposit, OrZero(stake)));
    if amount == 0 {
      c.Revert();
      return Err(InvalidStakeAmount);
    }
    var ok := c.network.IncreaseStakePower(operator, poolPower, owner, stake, amount, true);
    if !ok {
      c.Revert();
      return Err(InvalidStakeAmount);
    }
    r := Ok(Some(amount));
  }

  method UnstakeDeposit(c: WorldStateCache, owner: Address, operator: Address, maxAmount: u64) returns (r: Status)
    requires c.Valid()
    modifies c.Pending()
    ensures c.Valid() && Performs(Staking.UnstakeDeposit(old(c.View()), owner, operator, maxAmount), r, c.View(), c.ws)
  {
    hide OverlayStorage, Reduce;
    if (operator, owner) !in c.network.deposits {
      c.Revert();
      return Err(DepositsNotExists);
    }
    if operator !in c.network.pools {
      c.Revert();
      return Err(PoolNotExists);
    }
    var stake := StakeOf(c.network.pools[operator], operator, owner);
    if stake.None? {
      c.Revert();
      return Err(PoolHasNoStakes);
    }
    var poolPower := c.network.pools[operator].power;
    var unstaked := c.network.ReduceStakePower(operator, poolPower, owner, stake.value, maxAmount);
    r := Ok(Some(unstaked));
  }
}
