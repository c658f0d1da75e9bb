/** A whole transaction as a function: pre-charge, the commands with their deferred commands, charge,
    and the receipt.  This is the simple, structured form; the executor's stack loop refines it. */
module Transaction {
  import opened Words
  import opened Network
  import opened Staking
  import opened Products
  import opened Gas
  import opened Contract

  datatype Version = V1 | V2

  datatype Txn = Txn(version: Version, signer: Address, nonce: u64, gasLimit: u64, priorityFee: u64,
                     inclusionCost: u64, commands: seq<Command>)

  datatype Block = Block(baseFee: u64, proposer: Address, treasury: Address)

  // ---------- one command ----------

  /** The committed world, the view through the cache, the gas meter, and the deferred commands. */
  datatype Ctx = Ctx(ws: World, view: World, meter: Meter, deferred: seq<Deferred>)

  datatype Ran = Ran(ctx: Ctx, error: Option<Error>, amount: Option<u64>)

  /** `abort!`: forget every cached change. */
  function Aborted(c: Ctx, e: Error): Ran { Ran(c.(view := c.ws), Some(e), None) }

  function AbortIfExhausted(c: Ctx, amount: Option<u64>): Ran {
    if c.meter.limit < Used(c.meter) then Aborted(c, ExecutionProperGasExhausted) else Ran(c, None, amount)
  }

  function Charged(c: Ctx, cost: Cost): Ctx { c.(meter := Charge(c.meter, cost)) }

  /** The end of a command that reports an amount: the output must be affordable before it is written. */
  function Report(c: Ctx, cmd: Command, amount: u64): Ran {
    var c' := Charged(c, Cost(cmd.outputCost, 0));
    if SatAdd(Used(c.meter), cmd.outputCost) > c.meter.limit then AbortIfExhausted(c', None)
    else AbortIfExhausted(c', Some(amount))
  }

  function Stakes(w: World, actor: Address, p: Payload): Outcome
    requires !p.Transfer? && !p.Deploy? && !p.Call?
  {
    match p
    case CreatePool(rate) => Staking.CreatePool(w, actor, rate)
    case SetPoolSettings(rate) => Staking.SetPoolSettings(w, actor, rate)
    case DeletePool => Staking.DeletePool(w, actor)
    case CreateDeposit(operator, balance, autoStake) => Staking.CreateDeposit(w, actor, operator, balance, autoStake)
    case SetDepositSettings(operator, autoStake) => Staking.SetDepositSettings(w, actor, operator, autoStake)
    case TopUpDeposit(operator, amount) => Staking.TopUpDeposit(w, actor, operator, amount)
    case WithdrawDeposit(operator, maxAmount) => Staking.WithdrawDeposit(w, actor, operator, maxAmount)
    case StakeDeposit(operator, maxAmount) => Staking.StakeDeposit(w, actor, operator, maxAmount)
    case UnstakeDeposit(operator, maxAmount) => Staking.UnstakeDeposit(w, actor, operator, maxAmount)
  }

  function RunTransfer(c: Ctx, signer: Address, recipient: Address, amount: u64): Ran {
    var b := c.view.balances;
    if Get0(b, signer) < amount then Aborted(c, NotEnoughBalanceForTransfer)
    else AbortIfExhausted(c.(view := c.view.(balances := Move(b, signer, recipient, amount))), None)
  }

  /** Write the code and its interface version. */
  function Deployed(w: World, address: Address, code: Bytes, version: u32): World {
    w.(contracts := w.contracts[address := code], versions := w.versions[address := version])
  }

  /** An account is a contract once it has an interface version. */
  function RunDeploy(c: Ctx, address: Address, code: Bytes, version: u32, fault: Option<Fault>): Ran {
    if version > CBI_VERSION then Aborted(c, OtherDeployError)
    else if address in c.view.versions then Aborted(c, ContractAlreadyExists)
    else if fault.Some? then Aborted(c, BadContract(fault.value))
    else AbortIfExhausted(c.(view := Deployed(c.view, address, code, version)), None)
  }

  /** Run a contract on the gas that is left and charge what it consumed. */
  function RunContract(c: Ctx, target: Address, body: seq<Op>): Ran
    requires Used(c.meter) <= c.meter.limit
  {
    var gas := c.meter.limit - Used(c.meter);
    var m := Run(Machine(c.view, gas, c.deferred, true), target, body);
    var c' := Charged(c.(view := m.world, deferred := m.deferred), Cost(SatSub(gas, m.gas), 0));
    if c'.meter.limit < Used(c'.meter) then Aborted(c', ExecutionProperGasExhausted)
    else if !m.ok then Aborted(c', if m.gas == 0 then ContractExhausted else RuntimeError)
    else AbortIfExhausted(c', None)
  }

  /** Why a contract cannot be called, if so. */
  function Refusal(c: Ctx, target: Address, engine: Engine): Option<Error> {
    if target !in c.view.versions || c.view.versions[target] > CBI_VERSION then Some(InvalidCBI)
    else if !Loads(c.view, target, engine) then Some(NoContractcode)
    else if c.meter.limit < Used(c.meter) then Some(ExecutionProperGasExhausted)
    else if !engine.instantiates then Some(CannotCompile)
    else None
  }

  function RunCall(c: Ctx, signer: Address, target: Address, value: Option<u64>, engine: Engine, body: seq<Op>): Ran {
    var b := c.view.balances;
    if value.Some? && Get0(b, signer) < value.value then Aborted(c, NotEnoughBalanceForTransfer)
    else
      var c1 := if value.Some? then c.(view := c.view.(balances := Move(b, signer, target, value.value))) else c;
      match Refusal(c1, target, engine)
      case Some(e) => Aborted(c1, e)
      case None => RunContract(c1, target, body)
  }

  function Exec(c0: Ctx, signer: Address, actor: Address, cmd: Command): Ran {
    var c := Charged(c0, cmd.cost);
    match cmd.payload
    case Transfer(recipient, amount) => RunTransfer(c, signer, recipient, amount)
    case Deploy(address, code, version, fault) => RunDeploy(c, address, code, version, fault)
    case Call(target, value, engine, body) => RunCall(c, signer, target, value, engine, body)
    case _ =>
      match Stakes(c.view, actor, cmd.payload)
      case Abort(e) => Aborted(c, e)
      case Done(w, amount) =>
        var c1 := c.(view := w);
        if amount.Some? then Report(c1, cmd, amount.value) else AbortIfExhausted(c1, None)
  }

  // ---------- receipts ----------

  datatype Exit = Success | Failed(error: Error) | NotExecuted

  datatype Receipt = Receipt(kind: Kind, exit: Exit, gas: u64, amount: Option<u64>)

  datatype Summary = SummaryV1(receipts: seq<Receipt>) | SummaryV2(gas: u64, exit: Exit, receipts: seq<Receipt>)

  function ExitOf(e: Option<Error>): Exit { if e.None? then Success else Failed(e.value) }

  /** The kinds that report an amount. */
  predicate Reports(k: Kind) { k.KWithdrawDeposit? || k.KStakeDeposit? || k.KUnstakeDeposit? }

  /** The amount on a receipt: V2 receipts of these kinds have a number there, zero unless it was set;
      V1 receipts have a return value that may be empty. */
  function Output(v: Version, kind: Kind, amount: Option<u64>): Option<u64> {
    if v.V2? && Reports(kind) then Some(OrZero(amount)) else amount
  }

  /** A deferred command's receipt is merged into the one of the command that deferred it. */
  function Merge(v: Version, last: Receipt, r: Receipt): Receipt {
    Receipt(last.kind, r.exit, SatAdd(last.gas, r.gas),
            if v.V1? || (last.kind.KCall? && (r.kind.KCall? || Reports(r.kind))) then r.amount else last.amount)
  }

  function PushDeferred(v: Version, rs: seq<Receipt>, r: Receipt): seq<Receipt> {
    if rs == [] then rs else rs[..|rs| - 1] + [Merge(v, rs[|rs| - 1], r)]
  }

  /** The V2 receipt of a command that never started. */
  function NotRun(kind: Kind): Receipt { Receipt(kind, NotExecuted, 0, Output(V2, kind, None)) }

  function Fillers(cmds: seq<Command>): seq<Receipt> {
    seq(|cmds|, i requires 0 <= i < |cmds| => NotRun(KindOf(cmds[i].payload)))
  }

  /** `into_receipt`; None where the source unwraps the last receipt of an empty list. */
  function IntoReceipt(v: Version, rs: seq<Receipt>, gas: u64, cmds: seq<Command>): Option<Summary> {
    match v
    case V1 => Some(SummaryV1(rs))
    case V2 =>
      if cmds == [] && rs == [] then Some(SummaryV2(gas, Success, rs))
      else if rs == [] then None
      else
        var exit := rs[|rs| - 1].exit;
        Some(SummaryV2(gas, exit, if |rs| < |cmds| then rs + Fillers(cmds[|rs|..]) else rs))
  }

  // ---------- the commands phase ----------

  datatype Task = Sent(command: Command) | Late(deferred: Deferred)

  /** One executed task, with the command index it was given. */
  datatype Event = Event(index: nat, task: Task)

  datatype Phase = Phase(ctx: Ctx, receipts: seq<Receipt>, error: Option<Error>, trace: seq<Event>)

  function GasOf(r: Ran): u64 { Clamped(r.ctx.meter) }

  function ReceiptOf(v: Version, r: Ran, kind: Kind): Receipt {
    Receipt(kind, ExitOf(r.error), GasOf(r), Output(v, kind, r.amount))
  }

  /** `complete_cmd_execution`: close the meter for this command and take its deferred commands. */
  function Complete(c: Ctx): Ctx { c.(meter := Take(c.meter), deferred := []) }

  function RunSent(p: Phase, txn: Txn, index: nat, cmd: Command): Phase {
    var r := Exec(p.ctx, txn.signer, txn.signer, cmd);
    var receipt := ReceiptOf(txn.version, r, KindOf(cmd.payload));
    Phase(Complete(r.ctx), p.receipts + [receipt], r.error, p.trace + [Event(index, Sent(cmd))])
  }

  /** The deferred commands a sent command leaves behind. */
  function DeferredBy(p: Phase, txn: Txn, cmd: Command): seq<Deferred> {
    Exec(p.ctx, txn.signer, txn.signer, cmd).ctx.deferred
  }

  function RunLate(p: Phase, txn: Txn, index: nat, d: Deferred): Phase {
    var r := Exec(p.ctx, txn.signer, d.contract, d.command);
    var receipt := ReceiptOf(txn.version, r, KindOf(d.command.payload));
    Phase(Complete(r.ctx), PushDeferred(txn.version, p.receipts, receipt), r.error, p.trace + [Event(index, Late(d))])
  }

  function RunLates(p: Phase, txn: Txn, index: nat, ds: seq<Deferred>): Phase
    decreases |ds|
  {
    if ds == [] || p.error.Some? then p else RunLates(RunLate(p, txn, index, ds[0]), txn, index, ds[1..])
  }

  /** Each command, at once followed by what it deferred, until one fails. */
  function RunAll(p: Phase, txn: Txn, index: nat, cmds: seq<Command>): Phase
    decreases |cmds|
  {
    if cmds == [] || p.error.Some? then p
    else
      var p1 := RunSent(p, txn, index, cmds[0]);
      var p2 := RunLates(p1, txn, index + 1, if p1.error.None? then DeferredBy(p, txn, cmds[0]) else []);
      RunAll(p2, txn, index + 1, cmds[1..])
  }

  // ---------- pre-charge and charge ----------

  datatype PreCharged = Accepted(world: World) | Rejected(error: Error)

  function Prepaid(txn: Txn, block: Block): nat { Mul(txn.gasLimit, block.baseFee + txn.priorityFee) }

  function PreCharge(w: World, txn: Txn, block: Block): PreCharged {
    var have := Get0(w.balances, txn.signer);
    if txn.inclusionCost > txn.gasLimit then Rejected(PreExecutionGasExhausted)
    else if txn.nonce != Get0(w.nonces, txn.signer) then Rejected(WrongNonce)
    else if block.baseFee + txn.priorityFee > U64_MAX || Prepaid(txn, block) > U64_MAX || Prepaid(txn, block) > have
      then Rejected(NotEnoughBalanceForGasLimit)
    else Accepted(w.(balances := w.balances[txn.signer := have - Prepaid(txn, block)]))
  }

  /** What goes back to the signer for the gas it did not use. */
  function Refund(txn: Txn, block: Block, gas: u64): nat
    requires gas <= txn.gasLimit
  {
    Mul(txn.gasLimit - gas, block.baseFee + txn.priorityFee)
  }

  function Tip(txn: Txn, gas: u64): nat { Mul(gas, txn.priorityFee) }

  /** The treasury's part of the base fee; the rest is burnt. */
  function TreasuryCut(gas: nat, baseFee: nat): nat { Mul(gas, baseFee) * 20 / 100 }

  function Credit(b: map<Address, u64>, a: Address, amount: nat): map<Address, u64> {
    b[a := Min(Get0(b, a) + amount, U64_MAX)]
  }

  /** Fee settlement, said simply: three credits one after the other, whoever the three parties are. */
  function Settle(w: World, txn: Txn, block: Block, gas: u64): World
    requires gas <= txn.gasLimit
  {
    var b1 := Credit(w.balances, txn.signer, Refund(txn, block, gas));
    var b2 := Credit(b1, block.proposer, Tip(txn, gas));
    var b3 := Credit(b2, block.treasury, TreasuryCut(gas, block.baseFee));
    w.(balances := b3, nonces := w.nonces[txn.signer := SatAdd(Get0(w.nonces, txn.signer), 1)])
  }

  /** The charge phase's plain sums and products that must stay below 2^64; the build checks overflow. */
  predicate SettleFits(w: World, txn: Txn, block: Block, gas: u64)
    requires gas <= txn.gasLimit
  {
    && block.baseFee + txn.priorityFee <= U64_MAX
    && Refund(txn, block, gas) <= U64_MAX
    && Get0(w.balances, txn.signer) + Refund(txn, block, gas) <= U64_MAX
    && Tip(txn, gas) <= U64_MAX
    && Mul(gas, block.baseFee) * 20 <= U64_MAX
  }

  function GasCharged(m: Meter, txn: Txn): u64 { Min(Executed(m), txn.gasLimit) }

  // ---------- the transition ----------

  datatype Transition = Finished(world: World, receipt: Option<Summary>, error: Option<Error>) | Panicked

  function Start(w: World, txn: Txn): Phase {
    Phase(Ctx(w, w, Meter(txn.gasLimit, txn.inclusionCost, 0, NO_COST), []), [], None, [])
  }

  function CommandsPhase(w: World, txn: Txn): Phase { RunAll(Start(w, txn), txn, 0, txn.commands) }

  function Transit(w: World, txn: Txn, block: Block): Transition {
    match PreCharge(w, txn, block)
    case Rejected(e) =>
      if IntoReceipt(txn.version, [], 0, txn.commands).None? then Panicked else Finished(w, None, Some(e))
    case Accepted(w1) =>
      var p := CommandsPhase(w1, txn);
      var gas := GasCharged(p.ctx.meter, txn);
      if !SettleFits(p.ctx.view, txn, block, gas) then Panicked
      else
        match IntoReceipt(txn.version, p.receipts, Executed(p.ctx.meter), txn.commands)
        case None => Panicked
        case Some(summary) => Finished(Settle(p.ctx.view, txn, block, gas), Some(summary), p.error)
  }
}
