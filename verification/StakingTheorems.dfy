/** What each staking command achieves and when, said in terms of what can be read off the world before
    and after, not of how the command works. */
module StakingTheorems {
  import opened Words
  import opened Sums
  import opened Heap
  import opened Network
  import opened Staking
  import opened Invariant
  import opened StakingProofs

  // ---------- reading a world ----------

  function LiveStake(pools: map<Address, Pool>, operator: Address, owner: Address): Option<u64> {
    if operator in pools then StakeOf(pools[operator], operator, owner) else None
  }

  /** Between two worlds only balances, pools, deposits and the next validator set differ. */
  ghost predicate Framed(w: World, w': World) {
    w' == w.(balances := w'.balances,
             net := w.net.(pools := w'.net.pools, deposits := w'.net.deposits, nvp := w'.net.nvp))
  }

  /** The pools are the same ones, at the same rates. */
  ghost predicate PoolsKept(n: Network, n': Network) {
    && n'.pools.Keys == n.pools.Keys
    && forall o | o in n.pools :: n'.pools[o].commissionRate == n.pools[o].commissionRate
  }

  ghost predicate OtherStakesKept(n: Network, n': Network, operator: Address, owner: Address) {
    forall o, k | (o, k) != (operator, owner) :: LiveStake(n'.pools, o, k) == LiveStake(n.pools, o, k)
  }

  ghost predicate OtherBalancesKept(w: World, w': World, owner: Address) {
    forall a | a != owner :: Get0(w'.balances, a) == Get0(w.balances, a)
  }

  /** The deposit is now this one (or none), and every other deposit is as it was, flag and all. */
  ghost predicate DepositIs(n: Network, n': Network, operator: Address, owner: Address, d: Option<Deposit>) {
    && Lookup(n'.deposits, (operator, owner)) == d
    && forall k | k != (operator, owner) :: Lookup(n'.deposits, k) == Lookup(n.deposits, k)
  }

  /** The operator's entry in the next validator set has this power, unless the set is full of others at
      least as large; at most one other entry makes room for it, one of least power and of less than this. */
  ghost predicate Placed(nvp: Entries, nvp': Entries, capacity: nat, operator: Address, power: u64) {
    && (operator in nvp' ==> nvp'[operator] == power)
    && (operator !in nvp' <==> operator !in nvp && |nvp| >= capacity && forall j | j in nvp :: power <= nvp[j])
    && (forall o | o != operator && Lookup(nvp', o) != Lookup(nvp, o) ::
          && o in nvp && o !in nvp' && operator !in nvp && |nvp| >= capacity
          && nvp[o] < power && (forall j | j in nvp :: nvp[o] <= nvp[j])
          && forall j | j != operator && j != o :: Lookup(nvp', j) == Lookup(nvp, j))
  }

  ghost predicate Dropped(nvp: Entries, nvp': Entries, operator: Address) {
    forall o :: Lookup(nvp', o) == if o == operator then None else Lookup(nvp, o)
  }

  lemma {:induction false} InsertPlaces(nvp: Entries, capacity: nat, operator: Address, power: u64)
    requires operator !in nvp
    ensures Placed(nvp, Settled(nvp, InsertExtract(nvp, capacity, operator, power)), capacity, operator, power)
  {
    hide InsertExtract;
    InsertExtractSpec(nvp, capacity, operator, power);
  }

  lemma {:induction false} ReindexPlaces(nvp: Entries, capacity: nat, operator: Address, power: u64)
    ensures Placed(nvp, Reindex(nvp, capacity, operator, power), capacity, operator, power)
  {
    hide InsertExtract;
    if operator !in nvp { InsertPlaces(nvp, capacity, operator, power); }
  }

  // ---------- cutting a stake ----------

  ghost predicate LiveShape(n: Network) { forall o | o in n.pools :: PoolOk(n.pools[o], o, n.limits.stakesPerPool) }

  /** What is left of a stake after a cut: a stake that is used up goes. */
  function Rest(stake: u64, amount: u64): Option<u64> { if stake <= amount then None else Some(stake - amount) }

  /** Where the pool stands in the next validator set after its power was lowered. */
  ghost predicate Repositioned(n: Network, n': Network, operator: Address) {
    operator in n'.pools &&
    if n'.pools[operator].power == 0 then Dropped(n.nvp, n'.nvp, operator)
    else Placed(n.nvp, n'.nvp, n.limits.validators, operator, n'.pools[operator].power)
  }

  /** A cut leaves the owner the rest of its stake and everybody else theirs. */
  lemma {:induction false} ReducePowers(n: Network, operator: Address, owner: Address, amount: u64)
    requires LiveShape(n) && operator in n.pools && StakeOf(n.pools[operator], operator, owner).Some?
    ensures var stake := StakeOf(n.pools[operator], operator, owner).value;
      var n' := Reduce(n, operator, owner, stake, amount);
      && LiveStake(n'.pools, operator, owner) == Rest(stake, amount)
      && OtherStakesKept(n, n', operator, owner) && PoolsKept(n, n') && Repositioned(n, n', operator)
      && n' == n.(pools := n'.pools, nvp := n'.nvp)
  {
    hide Lower, PoolOk, Reindex, Placed;
    var stake := StakeOf(n.pools[operator], operator, owner).value;
    LowerOk(n.pools[operator], n.limits.stakesPerPool, operator, owner, amount);
    ReindexPlaces(n.nvp, n.limits.validators, operator, Lower(n.pools[operator], operator, owner, stake, amount).power);
  }

  /** A stake capped at what is left of its deposit. */
  function Capped(stake: Option<u64>, left: u64): Option<u64> {
    if stake.Some? && left < stake.value then (if left == 0 then None else Some(left)) else stake
  }

  lemma {:induction false} CapStakePowers(n: Network, operator: Address, owner: Address, left: u64)
    requires LiveShape(n)
    ensures var n' := CapStake(n, operator, owner, left);
      && LiveStake(n'.pools, operator, owner) == Capped(LiveStake(n.pools, operator, owner), left)
      && OtherStakesKept(n, n', operator, owner) && PoolsKept(n, n')
      && n' == n.(pools := n'.pools, nvp := n'.nvp)
      && (if LiveStake(n'.pools, operator, owner) == LiveStake(n.pools, operator, owner) then n' == n
          else Repositioned(n, n', operator))
  {
    hide Reduce, LiveShape, Repositioned;
    var stake := LiveStake(n.pools, operator, owner);
    if stake.Some? && left < stake.value {
      ReducePowers(n, operator, owner, stake.value - left);
    }
  }

  lemma SoundShape(w: World)
    requires Sound(w)
    ensures LiveShape(w.net) && Supply(w) <= U64_MAX
  {
  }

  // ---------- WithdrawDeposit ----------

  /** What vp and pvp still lock of a deposit. */
  function LockedNow(n: Network, operator: Address, owner: Address): u64 {
    Max(Locked(n.pvp, operator, owner), Locked(n.vp, operator, owner))
  }

  /** A withdrawal succeeds exactly when there is a deposit and something may move, and then moves the
      most it may, up to the given amount. */
  lemma {:induction false} WithdrawAmount(w: World, owner: Address, operator: Address, maxAmount: u64)
    ensures var r := WithdrawDeposit(w, owner, operator, maxAmount);
      var before, locked := BalanceOf(w.net.deposits, operator, owner), LockedNow(w.net, operator, owner);
      && (r.Done? <==> (operator, owner) in w.net.deposits && maxAmount > 0 && before > locked)
      && (r.Done? ==> r.amount == Some(Min(maxAmount, before - locked)))
      && (r.Abort? ==> r.error == if (operator, owner) in w.net.deposits then InvalidStakeAmount else DepositsNotExists)
  {
    hide Locked, CapStake, WithDeposit;
  }

  /** The deposit falls and the balance rises by the amount, an emptied deposit goes, and the live stake is
      capped at what is left; nobody else is affected. */
  ghost predicate Withdrawn(w: World, w': World, owner: Address, operator: Address, amount: u64) {
    && (operator, owner) in w.net.deposits && amount <= w.net.deposits[(operator, owner)].balance
    && var d := w.net.deposits[(operator, owner)];
    && var left := d.balance - amount;
    && DepositIs(w.net, w'.net, operator, owner, if left == 0 then None else Some(Deposit(left, d.autoStake)))
    && Get0(w'.balances, owner) == Get0(w.balances, owner) + amount && OtherBalancesKept(w, w', owner)
    && LiveStake(w'.net.pools, operator, owner) == Capped(LiveStake(w.net.pools, operator, owner), left)
    && OtherStakesKept(w.net, w'.net, operator, owner) && PoolsKept(w.net, w'.net) && Framed(w, w')
    && (if LiveStake(w'.net.pools, operator, owner) == LiveStake(w.net.pools, operator, owner)
        then w'.net.pools == w.net.pools && w'.net.nvp == w.net.nvp
        else Repositioned(w.net, w'.net, operator))
  }

  lemma {:induction false} WithdrawnNetwork(n: Network, operator: Address, owner: Address, left: u64)
    requires LiveShape(n) && (operator, owner) in n.deposits
    ensures var n' := CapStake(WithDeposit(n, operator, owner, left), operator, owner, left);
      && DepositIs(n, n', operator, owner,
                   if left == 0 then None else Some(n.deposits[(operator, owner)].(balance := left)))
      && LiveStake(n'.pools, operator, owner) == Capped(LiveStake(n.pools, operator, owner), left)
      && OtherStakesKept(n, n', operator, owner) && PoolsKept(n, n')
      && n' == n.(pools := n'.pools, nvp := n'.nvp, deposits := n'.deposits)
      && (if LiveStake(n'.pools, operator, owner) == LiveStake(n.pools, operator, owner)
          then n'.pools == n.pools && n'.nvp == n.nvp
          else Repositioned(n, n', operator))
  {
    hide CapStake, PoolOk, LiveStake, Placed, Dropped;
    CapStakePowers(WithDeposit(n, operator, owner, left), operator, owner, left);
  }

  lemma {:induction false} WithdrawEffect(w: World, owner: Address, operator: Address, maxAmount: u64)
    requires Sound(w)
    ensures var r := WithdrawDeposit(w, owner, operator, maxAmount);
      r.Done? ==> r.amount.Some? && Withdrawn(w, r.world, owner, operator, r.amount.value)
  {
    hide Sound, CapStake, WithDeposit, Locked, LiveShape, Supply, DepositTotal, Sum, LiveStake;
    hide OtherStakesKept, PoolsKept, Repositioned, DepositIs;
    SoundShape(w);
    if WithdrawDeposit(w, owner, operator, maxAmount).Done? {
      var deposit := w.net.deposits[(operator, owner)].balance;
      var amount := Withdrawable(w.net, operator, owner, deposit, maxAmount);
      DepositAtLeast(w.net.deposits, operator, owner);
      CreditOk(w, owner, amount);
      WithdrawnNetwork(w.net, operator, owner, deposit - amount);
    }
  }

  // ---------- UnstakeDeposit ----------

  /** The amount, or all of it, goes from the owner's stake; deposits and balances stay. */
  ghost predicate Unstaked(w: World, w': World, owner: Address, operator: Address, maxAmount: u64) {
    && operator in w.net.pools && LiveStake(w.net.pools, operator, owner).Some?
    && LiveStake(w'.net.pools, operator, owner) == Rest(LiveStake(w.net.pools, operator, owner).value, maxAmount)
    && OtherStakesKept(w.net, w'.net, operator, owner) && PoolsKept(w.net, w'.net)
    && Repositioned(w.net, w'.net, operator)
    && w' == w.(net := w.net.(pools := w'.net.pools, nvp := w'.net.nvp))
  }

  lemma {:induction false} UnstakeEffect(w: World, owner: Address, operator: Address, maxAmount: u64)
    requires Sound(w)
    ensures var r := UnstakeDeposit(w, owner, operator, maxAmount);
      && (r.Done? <==> (operator, owner) in w.net.deposits && operator in w.net.pools
                       && LiveStake(w.net.pools, operator, owner).Some?)
      && (r.Abort? ==> r.error == if (operator, owner) !in w.net.deposits then DepositsNotExists
                                  else if operator !in w.net.pools then PoolNotExists else PoolHasNoStakes)
      && (r.Done? ==>
            && r.amount == Some(Min(LivePower(w.net.pools, operator, owner), maxAmount))
            && Unstaked(w, r.world, owner, operator, maxAmount))
  {
    hide Sound, Reduce, Repositioned, OtherStakesKept, PoolsKept;
    SoundShape(w);
    if UnstakeDeposit(w, owner, operator, maxAmount).Done? {
      ReducePowers(w.net, operator, owner, maxAmount);
    }
  }

  // ---------- StakeDeposit ----------

  /** Is the pool full of stakes at least as large as this newcomer's? */
  predicate Refuses(pool: Pool, capacity: nat, operator: Address, owner: Address, amount: u64) {
    && owner != operator && owner !in pool.delegated && |pool.delegated| >= capacity
    && forall j | j in pool.delegated :: amount <= pool.delegated[j]
  }

  /** The owner's stake rises by the amount.  At most one other delegator loses its stake: when the owner is
      new and the pool full, one of least power and of less power than the newcomer's. */
  ghost predicate Raised(pool: Pool, pool': Pool, capacity: nat, operator: Address, owner: Address, amount: u64) {
    && PowerOf(pool, operator, owner) + amount <= U64_MAX
    && StakeOf(pool', operator, owner) == Some(PowerOf(pool, operator, owner) + amount)
    && pool'.commissionRate == pool.commissionRate
    && (forall k | k != owner && StakeOf(pool', operator, k) != StakeOf(pool, operator, k) ::
          && k in pool.delegated && StakeOf(pool', operator, k).None?
          && owner != operator && owner !in pool.delegated && |pool.delegated| >= capacity
          && pool.delegated[k] < amount && (forall j | j in pool.delegated :: pool.delegated[k] <= pool.delegated[j])
          && forall j | j != owner && j != k :: StakeOf(pool', operator, j) == StakeOf(pool, operator, j))
  }

  lemma {:induction false} RaiseEffect(pool: Pool, capacity: nat, operator: Address, owner: Address, amount: u64,
      strict: bool)
    requires operator !in pool.delegated && PowerOf(pool, operator, owner) + amount <= U64_MAX
    ensures var r := Raise(pool, capacity, operator, owner, amount, strict);
      && (r.None? <==> strict && Refuses(pool, capacity, operator, owner, amount))
      && (r.Some? ==>
            if Refuses(pool, capacity, operator, owner, amount)
            then r.value == pool.(power := r.value.power) else Raised(pool, r.value, capacity, operator, owner, amount))
  {
    hide InsertExtract;
    if operator != owner && owner !in pool.delegated {
      InsertExtractSpec(pool.delegated, capacity, owner, amount);
    }
  }

  ghost predicate Staked(w: World, w': World, owner: Address, operator: Address, amount: u64) {
    && operator in w.net.pools && operator in w'.net.pools
    && Raised(w.net.pools[operator], w'.net.pools[operator], w.net.limits.stakesPerPool, operator, owner, amount)
    && (forall o | o != operator :: Lookup(w'.net.pools, o) == Lookup(w.net.pools, o))
    && Placed(w.net.nvp, w'.net.nvp, w.net.limits.validators, operator, w'.net.pools[operator].power)
    && w' == w.(net := w.net.(pools := w'.net.pools, nvp := w'.net.nvp))
  }

  /** What a deposit still allows to be staked, up to the given amount. */
  function Stakeable(n: Network, operator: Address, owner: Address, maxAmount: u64): u64 {
    Min(maxAmount, SatSub(BalanceOf(n.deposits, operator, owner), LivePower(n.pools, operator, owner)))
  }

  lemma {:induction false} StakeEffect(w: World, owner: Address, operator: Address, maxAmount: u64)
    requires Sound(w)
    ensures var r, amount := StakeDeposit(w, owner, operator, maxAmount), Stakeable(w.net, operator, owner, maxAmount);
      && (r.Done? <==> (operator, owner) in w.net.deposits && operator in w.net.pools && amount > 0
                       && !Refuses(w.net.pools[operator], w.net.limits.stakesPerPool, operator, owner, amount))
      && (r.Abort? ==> r.error == if (operator, owner) !in w.net.deposits then DepositsNotExists
                                  else if operator !in w.net.pools then PoolNotExists else InvalidStakeAmount)
      && (r.Done? ==> r.amount == Some(amount) && Staked(w, r.world, owner, operator, amount))
  {
    hide Sound, Raise, Reindex, Raised, Placed, Refuses;
    if (operator, owner) in w.net.deposits && operator in w.net.pools {
      var pool := w.net.pools[operator];
      var amount := Stakeable(w.net, operator, owner, maxAmount);
      PoolIsCovered(w, operator, owner);
      RaiseEffect(pool, w.net.limits.stakesPerPool, operator, owner, amount, true);
      var r := Raise(pool, w.net.limits.stakesPerPool, operator, owner, amount, true);
      if r.Some? {
        ReindexPlaces(w.net.nvp, w.net.limits.validators, operator, r.value.power);
      }
    }
  }

  lemma PoolIsCovered(w: World, operator: Address, owner: Address)
    requires Sound(w) && operator in w.net.pools
    ensures operator !in w.net.pools[operator].delegated
    ensures PowerOf(w.net.pools[operator], operator, owner) <= BalanceOf(w.net.deposits, operator, owner)
  {
    hide IndexOk, RecordOk, Locks, Supply, StakeTotal;
    assert PoolOk(w.net.pools[operator], operator, w.net.limits.stakesPerPool);
    assert Covers(w.net.deposits, w.net.pools[operator], operator);
  }

  /** In terms of power alone. */
  lemma {:induction false} StakedPowers(w: World, w': World, owner: Address, operator: Address, amount: u64)
    requires Staked(w, w', owner, operator, amount)
    ensures LivePower(w'.net.pools, operator, owner) == LivePower(w.net.pools, operator, owner) + amount
    ensures forall o, k | o != operator :: LivePower(w'.net.pools, o, k) == LivePower(w.net.pools, o, k)
  {
    forall o, k | o != operator ensures LivePower(w'.net.pools, o, k) == LivePower(w.net.pools, o, k) {
      assert Lookup(w'.net.pools, o) == Lookup(w.net.pools, o);
    }
  }

  // ---------- the other commands ----------

  /** A new pool is empty, has the given rate, and tries to enter the next validator set with no power. */
  ghost predicate PoolCreated(w: World, w': World, operator: Address, rate: u8) {
    && operator in w'.net.pools && w'.net.pools[operator].commissionRate == rate
    && w'.net.pools[operator].power == 0 && (forall k :: LiveStake(w'.net.pools, operator, k).None?)
    && (forall o | o != operator :: Lookup(w'.net.pools, o) == Lookup(w.net.pools, o))
    && Placed(w.net.nvp, w'.net.nvp, w.net.limits.validators, operator, 0)
    && w' == w.(net := w.net.(pools := w'.net.pools, nvp := w'.net.nvp))
  }

  lemma {:induction false} CreatePoolEffect(w: World, operator: Address, rate: u8)
    requires Sound(w)
    ensures var r := CreatePool(w, operator, rate);
      && (r.Done? <==> rate <= 100 && operator !in w.net.pools)
      && (r.Abort? ==> r.error == if rate > 100 then InvalidPoolPolicy else PoolAlreadyExists)
      && (r.Done? ==> r.amount.None? && PoolCreated(w, r.world, operator, rate))
  {
    hide InsertExtract, Placed, Settled;
    if operator !in w.net.pools {
      assert IndexOk(w.net.nvp, w.net.pools, w.net.limits.validators);
      InsertPlaces(w.net.nvp, w.net.limits.validators, operator, 0);
    }
  }

  /** Only the rate of the one pool changes. */
  ghost predicate RateSet(w: World, w': World, operator: Address, rate: u8) {
    && operator in w.net.pools && operator in w'.net.pools
    && w'.net.pools[operator].commissionRate == rate
    && w'.net.pools[operator].power == w.net.pools[operator].power
    && (forall k :: LiveStake(w'.net.pools, operator, k) == LiveStake(w.net.pools, operator, k))
    && (forall o | o != operator :: Lookup(w'.net.pools, o) == Lookup(w.net.pools, o))
    && w' == w.(net := w.net.(pools := w'.net.pools))
  }

  lemma {:induction false} SetPoolSettingsEffect(w: World, operator: Address, rate: u8)
    ensures var r := SetPoolSettings(w, operator, rate);
      && (r.Done? <==> rate <= 100 && operator in w.net.pools && w.net.pools[operator].commissionRate != rate)
      && (r.Abort? ==> r.error == if rate <= 100 && operator !in w.net.pools then PoolNotExists else InvalidPoolPolicy)
      && (r.Done? ==> r.amount.None? && RateSet(w, r.world, operator, rate))
  {
  }

  /** All stakes in the pool are freed, and nothing else: what the recorded sets lock stays locked. */
  ghost predicate PoolDeleted(w: World, w': World, operator: Address) {
    && operator !in w'.net.pools && Dropped(w.net.nvp, w'.net.nvp, operator)
    && (forall o | o != operator :: Lookup(w'.net.pools, o) == Lookup(w.net.pools, o))
    && w' == w.(net := w.net.(pools := w'.net.pools, nvp := w'.net.nvp))
  }

  lemma {:induction false} DeletePoolEffect(w: World, operator: Address)
    ensures var r := DeletePool(w, operator);
      && (r.Done? <==> operator in w.net.pools)
      && (r.Abort? ==> r.error == PoolNotExists)
      && (r.Done? ==>
            && r.amount.None? && PoolDeleted(w, r.world, operator)
            && (forall owner, deposit: u64, max: u64 ::
                  Withdrawable(r.world.net, operator, owner, deposit, max)
                  == Withdrawable(w.net, operator, owner, deposit, max)))
  {
    hide PowerOf, Locked;
  }

  /** The balance moves from the account to the new deposit; nothing is staked. */
  ghost predicate DepositCreated(w: World, w': World, owner: Address, operator: Address, balance: u64,
      autoStake: bool) {
    && DepositIs(w.net, w'.net, operator, owner, Some(Deposit(balance, autoStake)))
    && Get0(w'.balances, owner) + balance == Get0(w.balances, owner) && OtherBalancesKept(w, w', owner)
    && w' == w.(balances := w'.balances, net := w.net.(deposits := w'.net.deposits))
  }

  lemma {:induction false} CreateDepositEffect(w: World, owner: Address, operator: Address, balance: u64,
      autoStake: bool)
    ensures var r, have := CreateDeposit(w, owner, operator, balance, autoStake), Get0(w.balances, owner);
      && (r.Done? <==> operator in w.net.pools && (operator, owner) !in w.net.deposits && balance <= have)
      && (r.Abort? ==> r.error == if operator !in w.net.pools then PoolNotExists
                                  else if (operator, owner) in w.net.deposits then DepositsAlreadyExists
                                  else NotEnoughBalanceForTransfer)
      && (r.Done? ==> r.amount.None? && DepositCreated(w, r.world, owner, operator, balance, autoStake))
  {
  }

  /** Only the flag of the one deposit changes. */
  ghost predicate FlagSet(w: World, w': World, owner: Address, operator: Address, autoStake: bool) {
    && DepositIs(w.net, w'.net, operator, owner, Some(Deposit(BalanceOf(w.net.deposits, operator, owner), autoStake)))
    && w' == w.(net := w.net.(deposits := w'.net.deposits))
  }

  lemma {:induction false} SetDepositSettingsEffect(w: World, owner: Address, operator: Address, autoStake: bool)
    ensures var r, key := SetDepositSettings(w, owner, operator, autoStake), (operator, owner);
      && (r.Done? <==> key in w.net.deposits && w.net.deposits[key].autoStake != autoStake)
      && (r.Abort? ==> r.error == if key in w.net.deposits then InvalidDepositPolicy else DepositsNotExists)
      && (r.Done? ==> r.amount.None? && FlagSet(w, r.world, owner, operator, autoStake))
  {
  }

  /** The deposit rises by what the account loses, and keeps its flag. */
  ghost predicate ToppedUp(w: World, w': World, owner: Address, operator: Address, amount: u64) {
    && (operator, owner) in w.net.deposits
    && var d := w.net.deposits[(operator, owner)];
    && d.balance + amount <= U64_MAX
    && DepositIs(w.net, w'.net, operator, owner, Some(Deposit(d.balance + amount, d.autoStake)))
    && Get0(w'.balances, owner) + amount == Get0(w.balances, owner) && OtherBalancesKept(w, w', owner)
    && w' == w.(balances := w'.balances, net := w.net.(deposits := w'.net.deposits))
  }

  lemma {:induction false} TopUpEffect(w: World, owner: Address, operator: Address, amount: u64)
    requires Sound(w)
    ensures var r, key := TopUpDeposit(w, owner, operator, amount), (operator, owner);
      && (r.Done? <==> key in w.net.deposits && amount <= Get0(w.balances, owner))
      && (r.Abort? ==> r.error == if key in w.net.deposits then NotEnoughBalanceForTransfer else DepositsNotExists)
      && (r.Done? ==> r.amount.None? && ToppedUp(w, r.world, owner, operator, amount))
  {
    hide DepositTotal, Sum, Inv;
    SumAtLeast(w.balances, owner);
    DepositAtLeast(w.net.deposits, operator, owner);
  }

  // ---------- what undoes what ----------

  /** Round trip: withdrawing a deposit right after creating it restores the world. */
  lemma {:induction false} CreateThenWithdraw(w: World, owner: Address, operator: Address, balance: u64,
      autoStake: bool, maxAmount: u64)
    requires Sound(w) && 0 < balance <= maxAmount
    requires CreateDeposit(w, owner, operator, balance, autoStake).Done?
    ensures WithdrawDeposit(CreateDeposit(w, owner, operator, balance, autoStake).world, owner, operator, maxAmount)
         == Done(w.(balances := w.balances[owner := Get0(w.balances, owner)]), Some(balance))
  {
    hide Sound, Locked, CapStake, LivePower;
    NothingUnbacked(w, operator, owner);
    NothingToCap(w.net, operator, owner);
    var n := w.net;
    var d := n.deposits[(operator, owner) := Deposit(balance, autoStake)];
    assert d - {(operator, owner)} == n.deposits;
    assert WithDeposit(n.(deposits := d), operator, owner, 0) == n;
    assert Withdrawable(n.(deposits := d), operator, owner, balance, maxAmount) == balance;
  }

  lemma NothingToCap(n: Network, operator: Address, owner: Address)
    requires LivePower(n.pools, operator, owner) == 0
    ensures CapStake(n, operator, owner, 0) == n
  {
    hide Reduce;
  }

  /** Without a deposit there is no stake, live or recorded. */
  lemma {:induction false} NothingUnbacked(w: World, operator: Address, owner: Address)
    requires Sound(w) && (operator, owner) !in w.net.deposits
    ensures LivePower(w.net.pools, operator, owner) == 0
    ensures Locked(w.net.vp, operator, owner) == 0 && Locked(w.net.pvp, operator, owner) == 0
  {
    hide PoolOk, RecordOk, IndexOk, Supply, Locked;
    assert BalanceOf(w.net.deposits, operator, owner) == 0;
    assert Locks(w.net.deposits, w.net.vp) && Locks(w.net.deposits, w.net.pvp);
    if operator in w.net.pools {
      assert Covers(w.net.deposits, w.net.pools[operator], operator);
    }
  }

  /** Round trip: unstaking what was just staked gives everybody the power they had, unless staking
      evicted somebody. */
  lemma {:induction false} StakeThenUnstake(w: World, owner: Address, operator: Address, maxAmount: u64)
    requires Sound(w) && StakeDeposit(w, owner, operator, maxAmount).Done?
    requires forall k | k != owner ::
      LivePower(StakeDeposit(w, owner, operator, maxAmount).world.net.pools, operator, k)
        == LivePower(w.net.pools, operator, k)
    ensures var s := StakeDeposit(w, owner, operator, maxAmount);
      s.amount.Some? &&
      var u := UnstakeDeposit(s.world, owner, operator, s.amount.value);
      && u.Done? && u.amount == s.amount
      && (forall o, k :: LivePower(u.world.net.pools, o, k) == LivePower(w.net.pools, o, k))
      && u.world.net.deposits == w.net.deposits && u.world.balances == w.balances
  {
    hide Sound, Keeps, StakeDeposit, UnstakeDeposit, LivePower, Staked, Unstaked, Refuses;
    var s := StakeDeposit(w, owner, operator, maxAmount);
    StakeEffect(w, owner, operator, maxAmount);
    StakedPowers(w, s.world, owner, operator, s.amount.value);
    StakedFrame(w, s.world, owner, operator, s.amount.value);
    StakeDepositKeeps(w, owner, operator, maxAmount);
    KeepsSound(w, s.world);
    UnstakeEffect(s.world, owner, operator, s.amount.value);
    var u := UnstakeDeposit(s.world, owner, operator, s.amount.value);
    UnstakedPowers(s.world, u.world, owner, operator, s.amount.value);
  }

  lemma StakedFrame(w: World, w': World, owner: Address, operator: Address, amount: u64)
    requires Staked(w, w', owner, operator, amount)
    ensures w'.net.deposits == w.net.deposits && w'.balances == w.balances
    ensures operator in w'.net.pools && LiveStake(w'.net.pools, operator, owner).Some?
  {
  }

  lemma {:induction false} UnstakedPowers(w: World, w': World, owner: Address, operator: Address, amount: u64)
    requires Unstaked(w, w', owner, operator, amount)
    ensures LivePower(w'.net.pools, operator, owner) == SatSub(LivePower(w.net.pools, operator, owner), amount)
    ensures forall o, k | (o, k) != (operator, owner) :: LivePower(w'.net.pools, o, k) == LivePower(w.net.pools, o, k)
    ensures w'.net.deposits == w.net.deposits && w'.balances == w.balances
  {
    hide StakeOf;
    forall o, k | (o, k) != (operator, owner) ensures LivePower(w'.net.pools, o, k) == LivePower(w.net.pools, o, k) {
      assert LiveStake(w'.net.pools, o, k) == LiveStake(w.net.pools, o, k);
    }
  }

  lemma KeepsSound(w: World, w': World)
    requires Sound(w) && Keeps(w, w')
    ensures Sound(w')
  {
  }
}
