/** What each staking command does to the world, as a function of the world it starts from.
    A command either finishes, possibly reporting an amount, or aborts. */
module Staking {
  import opened Words
  import opened Heap
  import opened Network

  /** Why a command or transaction fails.  ContractExhausted is a contract running out of the gas it
      was given; the source reports it as ExecutionProperGasExhausted, like a meter past the limit.
      RuntimeError covers the source's RuntimeError and InternalRuntimeError. */
  datatype Error =
    | InvalidPoolPolicy | PoolAlreadyExists | PoolNotExists | PoolHasNoStakes
    | DepositsAlreadyExists | DepositsNotExists | InvalidDepositPolicy | InvalidStakeAmount
    | NotEnoughBalanceForTransfer | NotEnoughBalanceForGasLimit | WrongNonce
    | PreExecutionGasExhausted | ExecutionProperGasExhausted
    | InvalidCBI | NoContractcode | CannotCompile | ContractAlreadyExists | OtherDeployError
    | BadContract(fault: Fault) | ContractExhausted | RuntimeError

  /** Why a deployed module is turned down. */
  datatype Fault = DoesNotCompile | DisallowedOpcode | NoExportedContractMethod

  datatype Outcome = Done(world: World, amount: Option<u64>) | Abort(error: Error)

  // ---------- helpers shared with NextEpoch ----------

  function Settled(h: Entries, r: Inserted): Entries {
    match r
    case Fits(h') => h'
    case Evicted(h', _, _) => h'
    case Full => h
  }

  /** Move the operator's entry in the next validator set to a new power, or try to give it one. */
  function Reindex(nvp: Entries, capacity: nat, operator: Address, power: u64): Entries {
    if operator in nvp then nvp[operator := power]
    else Settled(nvp, InsertExtract(nvp, capacity, operator, power))
  }

  function WithStake(pool: Pool, operator: Address, owner: Address, stake: Option<u64>): Pool {
    if operator == owner then pool.(operatorStake := stake)
    else if stake.None? then pool.(delegated := pool.delegated - {owner})
    else pool.(delegated := pool.delegated[owner := stake.value])
  }

  /** `reduce_stake_power` on the pool itself. */
  function Lower(pool: Pool, operator: Address, owner: Address, stake: u64, amount: u64): Pool {
    WithStake(pool, operator, owner, if stake <= amount then None else Some(stake - amount))
      .(power := SatSub(pool.power, Min(stake, amount)))
  }

  function Reduce(n: Network, operator: Address, owner: Address, stake: u64, amount: u64): Network
    requires operator in n.pools
  {
    var pool := Lower(n.pools[operator], operator, owner, stake, amount);
    n.(pools := n.pools[operator := pool],
       nvp := if pool.power == 0 then n.nvp - {operator}
              else Reindex(n.nvp, n.limits.validators, operator, pool.power))
  }

  /** `increase_stake_power` on the pool itself.  When the delegated stakes are full and the new
      stake is too small, a strict increase is refused, but a lenient one still adds to the power. */
  function Raise(pool: Pool, capacity: nat, operator: Address, owner: Address, amount: u64,
      strict: bool): Option<Pool> {
    if operator == owner || owner in pool.delegated then
      Some(WithStake(pool, operator, owner, Some(SatAdd(PowerOf(pool, operator, owner), amount)))
           .(power := SatAdd(pool.power, amount)))
    else
      match InsertExtract(pool.delegated, capacity, owner, amount)
      case Fits(h) => Some(pool.(delegated := h, power := SatAdd(pool.power, amount)))
      case Evicted(h, _, evicted) =>
        Some(pool.(delegated := h, power := SatAdd(pool.power, SatSub(amount, evicted))))
      case Full => if strict then None else Some(pool.(power := SatAdd(pool.power, amount)))
  }

  function Increase(n: Network, operator: Address, owner: Address, amount: u64, strict: bool): Option<Network>
    requires operator in n.pools
  {
    match Raise(n.pools[operator], n.limits.stakesPerPool, operator, owner, amount, strict)
    case None => None
    case Some(pool) =>
      Some(n.(pools := n.pools[operator := pool],
              nvp := Reindex(n.nvp, n.limits.validators, operator, pool.power)))
  }

  // ---------- commands ----------

  function CreatePool(w: World, operator: Address, rate: u8): Outcome {
    var n := w.net;
    if rate > 100 then Abort(InvalidPoolPolicy)
    else if operator in n.pools then Abort(PoolAlreadyExists)
    else
      Done(w.(net := n.(pools := n.pools[operator := Pool(rate, 0, None, map[])],
                        nvp := Settled(n.nvp, InsertExtract(n.nvp, n.limits.validators, operator, 0)))), None)
  }

  function SetPoolSettings(w: World, operator: Address, rate: u8): Outcome {
    var n := w.net;
    if rate > 100 then Abort(InvalidPoolPolicy)
    else if operator !in n.pools then Abort(PoolNotExists)
    else if n.pools[operator].commissionRate == rate then Abort(InvalidPoolPolicy)
    else Done(w.(net := n.(pools := n.pools[operator := n.pools[operator].(commissionRate := rate)])), None)
  }

  function DeletePool(w: World, operator: Address): Outcome {
    var n := w.net;
    if operator !in n.pools then Abort(PoolNotExists)
    else Done(w.(net := n.(pools := n.pools - {operator}, nvp := n.nvp - {operator})), None)
  }

  function CreateDeposit(w: World, owner: Address, operator: Address, balance: u64, autoStake: bool): Outcome {
    var n := w.net;
    var have := Get0(w.balances, owner);
    if operator !in n.pools then Abort(PoolNotExists)
    else if (operator, owner) in n.deposits then Abort(DepositsAlreadyExists)
    else if have < balance then Abort(NotEnoughBalanceForTransfer)
    else
      Done(w.(balances := w.balances[owner := have - balance],
              net := n.(deposits := n.deposits[(operator, owner) := Deposit(balance, autoStake)])), None)
  }

  function SetDepositSettings(w: World, owner: Address, operator: Address, autoStake: bool): Outcome {
    var n := w.net;
    var key := (operator, owner);
    if key !in n.deposits then Abort(DepositsNotExists)
    else if n.deposits[key].autoStake == autoStake then Abort(InvalidDepositPolicy)
    else Done(w.(net := n.(deposits := n.deposits[key := n.deposits[key].(autoStake := autoStake)])), None)
  }

  function TopUpDeposit(w: World, owner: Address, operator: Address, amount: u64): Outcome {
    var n := w.net;
    var key := (operator, owner);
    var have := Get0(w.balances, owner);
    if key !in n.deposits then Abort(DepositsNotExists)
    else if have < amount then Abort(NotEnoughBalanceForTransfer)
    else
      var d := n.deposits[key];
      Done(w.(balances := w.balances[owner := have - amount],
              net := n.(deposits := n.deposits[key := d.(balance := SatAdd(d.balance, amount))])), None)
  }

  /** The part of a deposit that a withdrawal may take now. */
  function Withdrawable(n: Network, operator: Address, owner: Address, deposit: u64, maxAmount: u64): u64 {
    var locked := Max(Locked(n.pvp, operator, owner), Locked(n.vp, operator, owner));
    Min(maxAmount, SatSub(deposit, locked))
  }

  function WithDeposit(n: Network, operator: Address, owner: Address, balance: u64): Network
    requires (operator, owner) in n.deposits
  {
    var key := (operator, owner);
    n.(deposits := if balance == 0 then n.deposits - {key}
                   else n.deposits[key := n.deposits[key].(balance := balance)])
  }

  /** A stake larger than its deposit is cut down to it. */
  function CapStake(n: Network, operator: Address, owner: Address, balance: u64): Network {
    if operator !in n.pools then n
    else
      match StakeOf(n.pools[operator], operator, owner)
      case Some(stake) => if balance < stake then Reduce(n, operator, owner, stake, stake - balance) else n
      case None => n
  }

  function WithdrawDeposit(w: World, owner: Address, operator: Address, maxAmount: u64): Outcome {
    var n := w.net;
    var key := (operator, owner);
    if key !in n.deposits then Abort(DepositsNotExists)
    else
      var deposit := n.deposits[key].balance;
      var amount := Withdrawable(n, operator, owner, deposit, maxAmount);
      if amount == 0 then Abort(InvalidStakeAmount)
      else
        Done(w.(balances := w.balances[owner := SatAdd(Get0(w.balances, owner), amount)],
                net := CapStake(WithDeposit(n, operator, owner, deposit - amount), operator, owner, deposit - amount)),
             Some(amount))
  }

  function StakeDeposit(w: World, owner: Address, operator: Address, maxAmount: u64): Outcome {
    var n := w.net;
    var key := (operator, owner);
    if key !in n.deposits then Abort(DepositsNotExists)
    else if operator !in n.pools then Abort(PoolNotExists)
    else
      var amount := Min(maxAmount, SatSub(n.deposits[key].balance, PowerOf(n.pools[operator], operator, owner)));
      if amount == 0 then Abort(InvalidStakeAmount)
      else
        match Increase(n, operator, owner, amount, true)
        case None => Abort(InvalidStakeAmount)
        case Some(n') => Done(w.(net := n'), Some(amount))
  }

  function UnstakeDeposit(w: World, owner: Address, operator: Address, maxAmount: u64): Outcome {
    var n := w.net;
    if (operator, owner) !in n.deposits then Abort(DepositsNotExists)
    else if operator !in n.pools then Abort(PoolNotExists)
    else
      match StakeOf(n.pools[operator], operator, owner)
      case None => Abort(PoolHasNoStakes)
      case Some(stake) =>
        Done(w.(net := Reduce(n, operator, owner, stake, maxAmount)), Some(Min(stake, maxAmount)))
  }
}
