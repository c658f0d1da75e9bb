/** What every command, succeeding or failing, and hence the whole commands phase, preserves. */
module TransactionProofs {
  import opened Words
  import opened Sums
  import opened Network
  import opened Staking
  import opened Gas
  import opened Contract
  import opened Transaction
  import opened Invariant
  import opened StakingProofs
  import opened ContractProofs

  lemma KeepsRefl(w: World)
    requires Inv(w.net)
    ensures Keeps(w, w)
  {
  }

  lemma KeepsTrans(a: World, b: World, c: World)
    requires Keeps(a, b) && Keeps(b, c)
    ensures Keeps(a, c)
  {
    hide Inv, Surplus, Supply;
  }

  lemma TameKeeps(w: World, w': World)
    requires Inv(w.net) && Tame(w, w')
    ensures Keeps(w, w')
  {
    hide Inv, Surplus, DepositTotal, Sum;
  }

  /** Every staking command, whoever sends it. */
  lemma {:induction false} StakesKeep(w: World, actor: Address, p: Payload)
    requires Sound(w) && !p.Transfer? && !p.Deploy? && !p.Call?
    ensures var r := Stakes(w, actor, p); r.Done? ==> Keeps(w, r.world)
  {
    hide Keeps, Sound, Staking.CreatePool, Staking.SetPoolSettings, Staking.DeletePool, Staking.CreateDeposit;
    hide Staking.SetDepositSettings, Staking.TopUpDeposit, Staking.WithdrawDeposit;
    hide Staking.StakeDeposit, Staking.UnstakeDeposit;
    match p
    case CreatePool(rate) => CreatePoolKeeps(w, actor, rate);
    case SetPoolSettings(rate) => SetPoolSettingsKeeps(w, actor, rate);
    case DeletePool => DeletePoolKeeps(w, actor);
    case CreateDeposit(operator, balance, autoStake) => CreateDepositKeeps(w, actor, operator, balance, autoStake);
    case SetDepositSettings(operator, autoStake) => SetDepositSettingsKeeps(w, actor, operator, autoStake);
    case TopUpDeposit(operator, amount) => TopUpDepositKeeps(w, actor, operator, amount);
    case WithdrawDeposit(operator, maxAmount) => WithdrawDepositKeeps(w, actor, operator, maxAmount);
    case StakeDeposit(operator, maxAmount) => StakeDepositKeeps(w, actor, operator, maxAmount);
    case UnstakeDeposit(operator, maxAmount) => UnstakeDepositKeeps(w, actor, operator, maxAmount);
  }

  /** The view is what a conserving, invariant-keeping run made of the committed world. */
  ghost predicate CtxOk(c: Ctx) {
    Sound(c.ws) && Keeps(c.ws, c.view) && AllDeferrable(c.deferred)
  }

  /** A command ends in a sound context over the same committed world, and a failure restores that world. */
  ghost predicate Safe(ws: World, r: Ran) {
    && CtxOk(r.ctx)
    && r.ctx.ws == ws
    && (r.error.Some? ==> r.ctx.view == ws)
  }

  /** Executing touches the meter only through its current counter, and exhaustion is what it says. */
  ghost predicate Metered(c: Ctx, r: Ran) {
    && r.ctx.meter == c.meter.(current := r.ctx.meter.current)
    && (r.error.None? ==> Used(r.ctx.meter) <= r.ctx.meter.limit)
    && (r.error == Some(ExecutionProperGasExhausted) ==> r.ctx.meter.limit < Used(r.ctx.meter))
  }

  /** What executing a command leaves of its context. */
  ghost predicate RanOk(c: Ctx, r: Ran) { Safe(c.ws, r) && Metered(c, r) }

  lemma ViewSound(c: Ctx)
    requires CtxOk(c)
    ensures Sound(c.view)
  {
    hide Inv, Supply;
  }

  lemma ViewStep(c: Ctx, w: World)
    requires CtxOk(c) && Keeps(c.view, w)
    ensures CtxOk(c.(view := w))
  {
    hide Keeps, Sound;
    KeepsTrans(c.ws, c.view, w);
  }

  lemma AbortedOk(c: Ctx, e: Error)
    requires CtxOk(c)
    ensures Safe(c.ws, Aborted(c, e))
  {
    hide Keeps, Inv, Supply;
    KeepsRefl(c.ws);
  }

  lemma AbortIfExhaustedOk(c: Ctx, amount: Option<u64>)
    requires CtxOk(c)
    ensures Safe(c.ws, AbortIfExhausted(c, amount))
  {
    hide CtxOk;
    AbortedOk(c, ExecutionProperGasExhausted);
  }

  lemma RunTransferOk(c: Ctx, signer: Address, recipient: Address, amount: u64)
    requires CtxOk(c)
    ensures Safe(c.ws, RunTransfer(c, signer, recipient, amount))
  {
    hide CtxOk, Move;
    var b := c.view.balances;
    if Get0(b, signer) < amount {
      AbortedOk(c, NotEnoughBalanceForTransfer);
    } else {
      MovedOk(c, signer, recipient, amount);
      AbortIfExhaustedOk(c.(view := c.view.(balances := Move(b, signer, recipient, amount))), None);
    }
  }

  lemma MovedOk(c: Ctx, payer: Address, recipient: Address, amount: u64)
    requires CtxOk(c) && amount <= Get0(c.view.balances, payer)
    ensures CtxOk(c.(view := c.view.(balances := Move(c.view.balances, payer, recipient, amount))))
  {
    var w := c.view.(balances := Move(c.view.balances, payer, recipient, amount));
    hide Inv, Move;
    ViewSound(c);
    MoveConserves(c.view.balances, payer, recipient, amount);
    TameKeeps(c.view, w);
    ViewStep(c, w);
  }

  lemma DeployedOk(c: Ctx, address: Address, code: Bytes, version: u32)
    requires CtxOk(c)
    ensures CtxOk(c.(view := Deployed(c.view, address, code, version)))
  {
    hide Inv, Surplus, DepositTotal, Sum;
    ViewSound(c);
    ViewStep(c, Deployed(c.view, address, code, version));
  }

  lemma RunDeployOk(c: Ctx, address: Address, code: Bytes, version: u32, fault: Option<Fault>)
    requires CtxOk(c)
    ensures Safe(c.ws, RunDeploy(c, address, code, version, fault))
  {
    hide CtxOk, Aborted, AbortIfExhausted;
    AbortedOk(c, OtherDeployError);
    AbortedOk(c, ContractAlreadyExists);
    if fault.Some? { AbortedOk(c, BadContract(fault.value)); }
    DeployedOk(c, address, code, version);
    AbortIfExhaustedOk(c.(view := Deployed(c.view, address, code, version)), None);
  }

  lemma ContractCtxOk(c: Ctx, gas: u64, target: Address, body: seq<Op>)
    requires CtxOk(c)
    ensures var m := Run(Machine(c.view, gas, c.deferred, true), target, body);
      CtxOk(c.(view := m.world, deferred := m.deferred))
  {
    hide Inv, Run, NoLooser, DepositTotal, Sum;
    var m0 := Machine(c.view, gas, c.deferred, true);
    var m := Run(m0, target, body);
    ViewSound(c);
    RunTame(m0, target, body);
    TameKeeps(c.view, m.world);
    KeepsTrans(c.ws, c.view, m.world);
  }

  lemma RunContractOk(c: Ctx, target: Address, body: seq<Op>)
    requires CtxOk(c) && Used(c.meter) <= c.meter.limit
    ensures Safe(c.ws, RunContract(c, target, body))
  {
    hide CtxOk, Run, Aborted, AbortIfExhausted;
    var gas := c.meter.limit - Used(c.meter);
    var m := Run(Machine(c.view, gas, c.deferred, true), target, body);
    ContractCtxOk(c, gas, target, body);
    var c1 := c.(view := m.world, deferred := m.deferred);
    var c' := Charged(c1, Cost(SatSub(gas, m.gas), 0));
    ChargedOk(c1, Cost(SatSub(gas, m.gas), 0));
    AbortedOk(c', ExecutionProperGasExhausted);
    AbortedOk(c', ContractExhausted);
    AbortedOk(c', RuntimeError);
    AbortIfExhaustedOk(c', None);
  }

  lemma ChargedOk(c: Ctx, cost: Cost)
    requires CtxOk(c)
    ensures CtxOk(Charged(c, cost))
  {
    hide Keeps, Sound;
  }

  lemma RunCallOk(c: Ctx, signer: Address, target: Address, value: Option<u64>, engine: Engine, body: seq<Op>)
    requires CtxOk(c)
    ensures Safe(c.ws, RunCall(c, signer, target, value, engine, body))
  {
    hide CtxOk, Move, RunContract, Aborted, Loads;
    if value.Some? && Get0(c.view.balances, signer) < value.value {
      AbortedOk(c, NotEnoughBalanceForTransfer);
    } else {
      var b := c.view.balances;
      var c1 := if value.Some? then c.(view := c.view.(balances := Move(b, signer, target, value.value))) else c;
      if value.Some? { MovedOk(c, signer, target, value.value); }
      match Refusal(c1, target, engine)
      case Some(e) => AbortedOk(c1, e);
      case None => RunContractOk(c1, target, body);
    }
  }

  lemma ReportOk(c: Ctx, cmd: Command, amount: u64)
    requires CtxOk(c)
    ensures Safe(c.ws, Report(c, cmd, amount))
  {
    hide CtxOk;
    ChargedOk(c, Cost(cmd.outputCost, 0));
    AbortIfExhaustedOk(Charged(c, Cost(cmd.outputCost, 0)), None);
    AbortIfExhaustedOk(Charged(c, Cost(cmd.outputCost, 0)), Some(amount));
  }

  lemma {:induction false} StakingExecOk(c: Ctx, actor: Address, cmd: Command)
    requires CtxOk(c)
    requires !cmd.payload.Transfer? && !cmd.payload.Deploy? && !cmd.payload.Call?
    ensures match Stakes(c.view, actor, cmd.payload)
      case Abort(e) => Safe(c.ws, Aborted(c, e))
      case Done(w, amount) =>
        Safe(c.ws, if amount.Some? then Report(c.(view := w), cmd, amount.value)
          else AbortIfExhausted(c.(view := w), None))
  {
    ViewSound(c);
    hide CtxOk, Stakes, Sound, Keeps, Report, AbortIfExhausted;
    StakesKeep(c.view, actor, cmd.payload);
    match Stakes(c.view, actor, cmd.payload)
    case Abort(e) => AbortedOk(c, e);
    case Done(w, amount) =>
      ViewStep(c, w);
      if amount.Some? { ReportOk(c.(view := w), cmd, amount.value); } else { AbortIfExhaustedOk(c.(view := w), None); }
  }

  lemma {:induction false} NoStrayExhaustion(w: World, actor: Address, p: Payload)
    requires !p.Transfer? && !p.Deploy? && !p.Call?
    ensures Stakes(w, actor, p) != Abort(ExecutionProperGasExhausted)
  {
  }

  lemma {:induction false} ExecMetered(c: Ctx, signer: Address, actor: Address, cmd: Command)
    ensures Metered(c, Exec(c, signer, actor, cmd))
  {
    hide Used, Add, Move, Run, Stakes, Loads, Deployed;
    match cmd.payload
    case Transfer(_, _) =>
    case Deploy(_, _, _, _) =>
    case Call(_, _, _, _) =>
    case _ => NoStrayExhaustion(c.view, actor, cmd.payload);
  }

  /** Any command, by any actor, succeeding or failing: tokens are conserved, the staking invariant
      holds, a failure restores the committed world, and only the current gas counter has moved. */
  lemma {:induction false} ExecOk(c0: Ctx, signer: Address, actor: Address, cmd: Command)
    requires CtxOk(c0)
    ensures RanOk(c0, Exec(c0, signer, actor, cmd))
  {
    var c := Charged(c0, cmd.cost);
    hide CtxOk, Safe, Metered, Stakes, RunTransfer, RunDeploy, RunCall, Report, AbortIfExhausted, Aborted, Used;
    ExecMetered(c0, signer, actor, cmd);
    ChargedOk(c0, cmd.cost);
    match cmd.payload
    case Transfer(recipient, amount) => RunTransferOk(c, signer, recipient, amount);
    case Deploy(address, code, version, fault) => RunDeployOk(c, address, code, version, fault);
    case Call(target, value, engine, body) => RunCallOk(c, signer, target, value, engine, body);
    case _ => StakingExecOk(c, actor, cmd);
  }
}
