/** Commands, and the contract bodies that Call commands run.  A Wasm body is an arbitrary tree of
    metered steps; every metered step and every command carries an arbitrary cost. */
module Contract {
  import opened Words
  import opened Network
  import opened Staking
  import opened Gas

  datatype Kind =
    | KTransfer | KDeploy | KCall | KCreatePool | KSetPoolSettings | KDeletePool | KCreateDeposit
    | KSetDepositSettings | KTopUpDeposit | KWithdrawDeposit | KStakeDeposit | KUnstakeDeposit

  /** What the Wasm engine answers for a called contract: whether its module cache holds it, whether its
      code compiles, and whether the module starts. */
  datatype Engine = Engine(cached: bool, compiles: bool, instantiates: bool)

  /** The newest contract interface this runtime knows. */
  const CBI_VERSION: u32 := 0

  datatype Payload =
    | Transfer(recipient: Address, amount: u64)
    | Deploy(address: Address, code: Bytes, version: u32, fault: Option<Fault>)
    | Call(target: Address, value: Option<u64>, engine: Engine, body: seq<Op>)
    | CreatePool(rate: u8)
    | SetPoolSettings(rate: u8)
    | DeletePool
    | CreateDeposit(operator: Address, balance: u64, autoStake: bool)
    | SetDepositSettings(operator: Address, autoStake: bool)
    | TopUpDeposit(operator: Address, amount: u64)
    | WithdrawDeposit(operator: Address, maxAmount: u64)
    | StakeDeposit(operator: Address, maxAmount: u64)
    | UnstakeDeposit(operator: Address, maxAmount: u64)

  /** A command with what the meter is charged for running it: `cost` for its storage accesses,
      and for the commands that report an amount, `outputCost` for writing that amount. */
  datatype Command = Command(payload: Payload, cost: Cost, outputCost: u64)

  /** A command a contract asked for; the contract is its actor. */
  datatype Deferred = Deferred(contract: Address, command: Command)

  datatype Op =
    | Wasm(gas: u64)                                     // opcodes: metered by Wasmer, trap when unaffordable
    | Host(cost: Cost, ok: bool)                         // any host function without an effect modelled here
    | Store(key: Bytes, data: Bytes, cost: Cost)
    | Pay(recipient: Address, amount: u64, cost: Cost, writeCost: Cost)
    | Defer(via: Kind, command: Command, cost: Cost)
    | Invoke(target: Address, value: Option<u64>, cost: Cost, writeCost: Cost, loadCost: Cost,
             engine: Engine, body: seq<Op>, returnCost: Cost)
    | Branch(key: Bytes, expected: Option<Bytes>, cost: Cost, same: seq<Op>, other: seq<Op>) // go on by what is stored

  function KindOf(p: Payload): Kind {
    match p
    case Transfer(_, _) => KTransfer
    case Deploy(_, _, _, _) => KDeploy
    case Call(_, _, _, _) => KCall
    case CreatePool(_) => KCreatePool
    case SetPoolSettings(_) => KSetPoolSettings
    case DeletePool => KDeletePool
    case CreateDeposit(_, _, _) => KCreateDeposit
    case SetDepositSettings(_, _) => KSetDepositSettings
    case TopUpDeposit(_, _) => KTopUpDeposit
    case WithdrawDeposit(_, _) => KWithdrawDeposit
    case StakeDeposit(_, _) => KStakeDeposit
    case UnstakeDeposit(_, _) => KUnstakeDeposit
  }

  /** The kinds for which a `defer_*` host function exists. */
  predicate Deferrable(k: Kind) {
    k.KCreateDeposit? || k.KSetDepositSettings? || k.KTopUpDeposit?
    || k.KWithdrawDeposit? || k.KStakeDeposit? || k.KUnstakeDeposit?
  }

  /** Debit, then credit what the recipient has after the debit (it may be the payer). */
  function Move(b: map<Address, u64>, payer: Address, recipient: Address, amount: u64): map<Address, u64>
    requires amount <= Get0(b, payer)
  {
    var b1 := b[payer := Get0(b, payer) - amount];
    b1[recipient := SatAdd(Get0(b1, recipient), amount)]
  }

  /** One account's storage; an unknown account has none. */
  function Trie(s: Storage, a: Address): map<Bytes, Bytes> { if a in s then s[a] else map[] }

  function SetStorage(s: Storage, a: Address, key: Bytes, data: Bytes): Storage {
    s[a := Trie(s, a)[key := data]]
  }

  /** What a contract reads from its storage: an empty value counts as absent. */
  function NonEmpty(data: Option<Bytes>): Option<Bytes> { if data == Some([]) then None else data }

  function Stored(s: Storage, a: Address, key: Bytes): Option<Bytes> { NonEmpty(Lookup(Trie(s, a), key)) }

  /** A contract is found in the module cache, or by compiling its code. */
  predicate Loads(w: World, target: Address, e: Engine) { e.cached || (target in w.contracts && e.compiles) }

  /** The state of a contract instance: its view of the world, its remaining gas, the commands
      deferred so far, and whether it is still running normally. */
  datatype Machine = Machine(world: World, gas: u64, deferred: seq<Deferred>, ok: bool)

  /** Every host function charge: the net cost is subtracted, stopping at zero. */
  function Deduct(m: Machine, c: Cost): Machine { m.(gas := SatSub(m.gas, Net(c))) }

  function PayFrom(m: Machine, payer: Address, recipient: Address, amount: u64, cost: Cost, writeCost: Cost): Machine {
    var m1 := Deduct(m, cost);
    if Get0(m.world.balances, payer) < amount then m1.(ok := false)
    else Deduct(m1.(world := m.world.(balances := Move(m.world.balances, payer, recipient, amount))), writeCost)
  }

  function Step(m: Machine, self: Address, op: Op): Machine
    requires m.ok
    decreases op
  {
    match op
    case Wasm(gas) => if m.gas < gas then m.(gas := 0, ok := false) else m.(gas := m.gas - gas)
    case Host(cost, ok) => Deduct(m, cost).(ok := ok)
    case Store(key, data, cost) =>
      Deduct(m, cost).(world := m.world.(storage := SetStorage(m.world.storage, self, key, data)))
    case Pay(recipient, amount, cost, writeCost) => PayFrom(m, self, recipient, amount, cost, writeCost)
    case Defer(via, command, cost) =>
      var m1 := Deduct(m, cost);
      if Deferrable(via) && KindOf(command.payload) == via then m1.(deferred := m.deferred + [Deferred(self, command)])
      else m1.(ok := false)
    case Invoke(target, value, cost, writeCost, loadCost, engine, body, returnCost) =>
      var m1 := if value.Some? then PayFrom(m, self, target, value.value, cost, writeCost) else Deduct(m, cost);
      if !m1.ok then m1
      else
        var m2 := Deduct(m1, loadCost);
        if !(Loads(m2.world, target, engine) && engine.instantiates) then m2.(ok := false)
        else
          var child := Run(m2, target, body);
          var consumed := SatSub(m2.gas, child.gas);
          var m3 := child.(gas := SatSub(m2.gas, consumed));
          if child.ok then Deduct(m3, returnCost) else m3
    case Branch(key, expected, cost, same, other) =>
      Run(Deduct(m, cost), self, if Stored(m.world.storage, self, key) == expected then same else other)
  }

  function Run(m: Machine, self: Address, ops: seq<Op>): Machine
    decreases ops
  {
    if ops == [] || !m.ok then m else Run(Step(m, self, ops[0]), self, ops[1..])
  }
}
