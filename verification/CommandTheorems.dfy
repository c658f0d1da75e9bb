/** What executing a command achieves, payload by payload, and when it is refused: who acts, whose tokens
    and stakes move, and by how much. */
module CommandTheorems {
  import opened Words
  import opened Sums
  import opened Network
  import opened Staking
  import opened Gas
  import opened Contract
  import opened Transaction
  import opened Invariant
  import opened StakingProofs
  import opened StakingTheorems
  import opened ContractProofs
  import opened TransactionProofs
  import opened PhaseProofs

  // ---------- the promise of each payload ----------

  /** Do the command's own checks pass?  Transfers and deploys are the signer's, whoever acts. */
  ghost predicate Allowed(w: World, signer: Address, actor: Address, p: Payload)
    requires !p.Call?
  {
    var n := w.net;
    match p
    case Transfer(_, amount) => amount <= Get0(w.balances, signer)
    case Deploy(address, _, version, fault) => version <= CBI_VERSION && address !in w.versions && fault.None?
    case CreatePool(rate) => rate <= 100 && actor !in n.pools
    case SetPoolSettings(rate) => rate <= 100 && actor in n.pools && n.pools[actor].commissionRate != rate
    case DeletePool => actor in n.pools
    case CreateDeposit(operator, balance, _) =>
      operator in n.pools && (operator, actor) !in n.deposits && balance <= Get0(w.balances, actor)
    case SetDepositSettings(operator, autoStake) =>
      (operator, actor) in n.deposits && n.deposits[(operator, actor)].autoStake != autoStake
    case TopUpDeposit(operator, amount) => (operator, actor) in n.deposits && amount <= Get0(w.balances, actor)
    case WithdrawDeposit(operator, maxAmount) =>
      && (operator, actor) in n.deposits && maxAmount > 0
      && n.deposits[(operator, actor)].balance > LockedNow(n, operator, actor)
    case StakeDeposit(operator, maxAmount) =>
      && (operator, actor) in n.deposits && operator in n.pools && Stakeable(n, operator, actor, maxAmount) > 0
      && !Refuses(n.pools[operator], n.limits.stakesPerPool, operator, actor, Stakeable(n, operator, actor, maxAmount))
    case UnstakeDeposit(operator, _) =>
      (operator, actor) in n.deposits && operator in n.pools && LiveStake(n.pools, operator, actor).Some?
  }

  /** The error of a command whose checks do not pass. */
  ghost function Reason(w: World, actor: Address, p: Payload): Error
    requires !p.Call?
  {
    var n := w.net;
    match p
    case Transfer(_, _) => NotEnoughBalanceForTransfer
    case Deploy(address, _, version, fault) =>
      if version > CBI_VERSION then OtherDeployError
      else if address in w.versions then ContractAlreadyExists
      else BadContract(if fault.Some? then fault.value else DoesNotCompile)
    case CreatePool(rate) => if rate > 100 then InvalidPoolPolicy else PoolAlreadyExists
    case SetPoolSettings(rate) => if rate <= 100 && actor !in n.pools then PoolNotExists else InvalidPoolPolicy
    case DeletePool => PoolNotExists
    case CreateDeposit(operator, _, _) =>
      if operator !in n.pools then PoolNotExists
      else if (operator, actor) in n.deposits then DepositsAlreadyExists
      else NotEnoughBalanceForTransfer
    case SetDepositSettings(operator, _) =>
      if (operator, actor) in n.deposits then InvalidDepositPolicy else DepositsNotExists
    case TopUpDeposit(operator, _) =>
      if (operator, actor) in n.deposits then NotEnoughBalanceForTransfer else DepositsNotExists
    case WithdrawDeposit(operator, _) =>
      if (operator, actor) in n.deposits then InvalidStakeAmount else DepositsNotExists
    case StakeDeposit(operator, _) =>
      if (operator, actor) !in n.deposits then DepositsNotExists
      else if operator !in n.pools then PoolNotExists else InvalidStakeAmount
    case UnstakeDeposit(operator, _) =>
      if (operator, actor) !in n.deposits then DepositsNotExists
      else if operator !in n.pools then PoolNotExists else PoolHasNoStakes
  }

  /** The amount the three reporting commands are about. */
  ghost function Amount(w: World, actor: Address, p: Payload): Option<u64> {
    match p
    case WithdrawDeposit(operator, maxAmount) =>
      Some(Min(maxAmount, SatSub(BalanceOf(w.net.deposits, operator, actor), LockedNow(w.net, operator, actor))))
    case StakeDeposit(operator, maxAmount) => Some(Stakeable(w.net, operator, actor, maxAmount))
    case UnstakeDeposit(operator, maxAmount) => Some(Min(LivePower(w.net.pools, operator, actor), maxAmount))
    case _ => None
  }

  /** Code and interface version are at the address, and nothing else changed. */
  ghost predicate Installed(w: World, w': World, address: Address, code: Bytes, version: u32) {
    && Lookup(w'.contracts, address) == Some(code) && Lookup(w'.versions, address) == Some(version)
    && (forall a | a != address ::
          Lookup(w'.contracts, a) == Lookup(w.contracts, a) && Lookup(w'.versions, a) == Lookup(w.versions, a))
    && w' == w.(contracts := w'.contracts, versions := w'.versions)
  }

  /** What a successful command makes of the world. */
  ghost predicate Achieves(w: World, w': World, signer: Address, actor: Address, p: Payload)
    requires !p.Call?
  {
    match p
    case Transfer(recipient, amount) => Paid(w, w', signer, recipient, amount)
    case Deploy(address, code, version, _) => Installed(w, w', address, code, version)
    case CreatePool(rate) => PoolCreated(w, w', actor, rate)
    case SetPoolSettings(rate) => RateSet(w, w', actor, rate)
    case DeletePool => PoolDeleted(w, w', actor)
    case CreateDeposit(operator, balance, autoStake) => DepositCreated(w, w', actor, operator, balance, autoStake)
    case SetDepositSettings(operator, autoStake) => FlagSet(w, w', actor, operator, autoStake)
    case TopUpDeposit(operator, amount) => ToppedUp(w, w', actor, operator, amount)
    case WithdrawDeposit(operator, _) => Withdrawn(w, w', actor, operator, Amount(w, actor, p).value)
    case StakeDeposit(operator, _) => Staked(w, w', actor, operator, Amount(w, actor, p).value)
    case UnstakeDeposit(operator, maxAmount) => Unstaked(w, w', actor, operator, maxAmount)
  }

  // ---------- the promises are kept ----------

  predicate IsStaking(p: Payload) { !p.Transfer? && !p.Deploy? && !p.Call? }

  lemma {:induction false} StakesAchieve(w: World, signer: Address, actor: Address, p: Payload)
    requires Sound(w) && IsStaking(p)
    ensures var o := Stakes(w, actor, p);
      && (o.Done? <==> Allowed(w, signer, actor, p))
      && (o.Abort? ==> o.error == Reason(w, actor, p))
      && (o.Done? ==> o.amount == Amount(w, actor, p) && Achieves(w, o.world, signer, actor, p))
  {
    hide Sound, Staking.CreatePool, Staking.SetPoolSettings, Staking.DeletePool, Staking.CreateDeposit;
    hide Staking.SetDepositSettings, Staking.TopUpDeposit, Staking.WithdrawDeposit;
    hide Staking.StakeDeposit, Staking.UnstakeDeposit;
    hide PoolCreated, RateSet, PoolDeleted, DepositCreated, FlagSet, ToppedUp, Withdrawn, Staked, Unstaked;
    hide Stakeable, Refuses, LockedNow, LiveStake, LivePower;
    match p
    case CreatePool(rate) => CreatePoolEffect(w, actor, rate);
    case SetPoolSettings(rate) => SetPoolSettingsEffect(w, actor, rate);
    case DeletePool => DeletePoolEffect(w, actor);
    case CreateDeposit(operator, balance, autoStake) => CreateDepositEffect(w, actor, operator, balance, autoStake);
    case SetDepositSettings(operator, autoStake) => SetDepositSettingsEffect(w, actor, operator, autoStake);
    case TopUpDeposit(operator, amount) => TopUpEffect(w, actor, operator, amount);
    case WithdrawDeposit(operator, maxAmount) =>
      WithdrawAmount(w, actor, operator, maxAmount);
      WithdrawEffect(w, actor, operator, maxAmount);
    case StakeDeposit(operator, maxAmount) => StakeEffect(w, actor, operator, maxAmount);
    case UnstakeDeposit(operator, maxAmount) => UnstakeEffect(w, actor, operator, maxAmount);
  }

  lemma {:induction false} ReportIff(c: Ctx, cmd: Command, amount: u64)
    ensures var r := Report(c, cmd, amount);
      && (r.error.None? && r.amount.Some? <==> SatAdd(Used(c.meter), cmd.outputCost) <= c.meter.limit)
      && (r.amount.Some? ==> r.amount.value == amount)
      && (r.error.None? && r.amount.None? <==>
            Used(Charge(c.meter, Cost(cmd.outputCost, 0))) <= c.meter.limit < SatAdd(Used(c.meter), cmd.outputCost))
      && (r.error.Some? ==> r.error.value == ExecutionProperGasExhausted)
      && r.ctx.view == if r.error.None? then c.view else c.ws
  {
  }

  /** A command whose checks fail is refused for the stated reason.  One whose checks pass either runs out
      of gas or does what its payload says: for its signer, or for the contract that deferred it. */
  lemma {:induction false} ExecEffect(c: Ctx, signer: Address, actor: Address, cmd: Command)
    requires Sound(c.view) && !cmd.payload.Call?
    ensures var r, p := Exec(c, signer, actor, cmd), cmd.payload;
      && (!Allowed(c.view, signer, actor, p) ==> r.error == Some(Reason(c.view, actor, p)))
      && (Allowed(c.view, signer, actor, p) && r.error.Some? ==> r.error.value == ExecutionProperGasExhausted)
      && (r.error.Some? ==> r.ctx.view == c.ws)
      && (r.error.None? ==> Achieves(c.view, r.ctx.view, signer, actor, p))
      && (!Reports(KindOf(p)) ==>
            && r.amount.None?
            && (r.error.None? <==>
                  Allowed(c.view, signer, actor, p) && Used(Charge(c.meter, cmd.cost)) <= c.meter.limit))
  {
    hide Sound, Exec, Used, Add, Achieves, Allowed, Reason;
    if cmd.payload.Transfer? {
      TransferEffect(c, signer, actor, cmd);
    } else if cmd.payload.Deploy? {
      DeployEffect(c, signer, actor, cmd);
    } else {
      StakingEffect(c, signer, actor, cmd);
    }
  }

  lemma {:induction false} StakingEffect(c: Ctx, signer: Address, actor: Address, cmd: Command)
    requires Sound(c.view) && IsStaking(cmd.payload)
    ensures var r, p := Exec(c, signer, actor, cmd), cmd.payload;
      && (!Allowed(c.view, signer, actor, p) ==> r.error == Some(Reason(c.view, actor, p)))
      && (Allowed(c.view, signer, actor, p) && r.error.Some? ==> r.error.value == ExecutionProperGasExhausted)
      && (r.error.Some? ==> r.ctx.view == c.ws)
      && (r.error.None? ==> Achieves(c.view, r.ctx.view, signer, actor, p))
      && (!Reports(KindOf(p)) ==>
            && r.amount.None?
            && (r.error.None? <==>
                  Allowed(c.view, signer, actor, p) && Used(Charge(c.meter, cmd.cost)) <= c.meter.limit))
  {
    hide Sound, Stakes, Report, Used, Add, Achieves, Allowed, Reason, Amount;
    StakesAchieve(c.view, signer, actor, cmd.payload);
    AmountByKind(c.view, actor, cmd.payload);
    var o := Stakes(c.view, actor, cmd.payload);
    if o.Done? && o.amount.Some? {
      ReportIff(Charged(c, cmd.cost).(view := o.world), cmd, o.amount.value);
    }
  }

  lemma AmountByKind(w: World, actor: Address, p: Payload)
    ensures Amount(w, actor, p).Some? <==> Reports(KindOf(p))
  {
  }

  lemma {:induction false} TransferEffect(c: Ctx, signer: Address, actor: Address, cmd: Command)
    requires Sound(c.view) && cmd.payload.Transfer?
    ensures var r, p := Exec(c, signer, actor, cmd), cmd.payload;
      && (!Allowed(c.view, signer, actor, p) ==> r.error == Some(Reason(c.view, actor, p)))
      && (Allowed(c.view, signer, actor, p) && r.error.Some? ==> r.error.value == ExecutionProperGasExhausted)
      && (r.error.Some? ==> r.ctx.view == c.ws) && r.amount.None?
      && (r.error.None? ==> Achieves(c.view, r.ctx.view, signer, actor, p))
      && (r.error.None? <==> Allowed(c.view, signer, actor, p) && Used(Charge(c.meter, cmd.cost)) <= c.meter.limit)
  {
    hide Used, Add, Move, Inv, DepositTotal, Sum;
    if cmd.payload.amount <= Get0(c.view.balances, signer) {
      MovePays(c.view, signer, cmd.payload.recipient, cmd.payload.amount);
    }
  }

  lemma {:induction false} DeployEffect(c: Ctx, signer: Address, actor: Address, cmd: Command)
    requires cmd.payload.Deploy?
    ensures var r, p := Exec(c, signer, actor, cmd), cmd.payload;
      && (!Allowed(c.view, signer, actor, p) ==> r.error == Some(Reason(c.view, actor, p)))
      && (Allowed(c.view, signer, actor, p) && r.error.Some? ==> r.error.value == ExecutionProperGasExhausted)
      && (r.error.Some? ==> r.ctx.view == c.ws) && r.amount.None?
      && (r.error.None? ==> Achieves(c.view, r.ctx.view, signer, actor, p))
      && (r.error.None? <==> Allowed(c.view, signer, actor, p) && Used(Charge(c.meter, cmd.cost)) <= c.meter.limit)
  {
    hide Used, Add;
  }

  /** WithdrawDeposit, StakeDeposit and UnstakeDeposit, when their checks pass, end in one of three ways: the
      cost of reporting the amount fits the limit, and then the command succeeds with its amount (the last
      exhaustion check is redundant); it does not fit, and the command is aborted; or it does not fit, but
      refunds outweigh it, and the command succeeds without its amount.  The last cannot happen while
      deductions cover refunds. */
  lemma {:induction false} AmountReportedIff(c: Ctx, signer: Address, actor: Address, cmd: Command)
    requires Sound(c.view) && Reports(KindOf(cmd.payload))
    ensures var r, m := Exec(c, signer, actor, cmd), Charge(c.meter, cmd.cost);
      var ok := Allowed(c.view, signer, actor, cmd.payload);
      && (r.error.None? && r.amount.Some? <==> ok && SatAdd(Used(m), cmd.outputCost) <= m.limit)
      && (r.amount.Some? ==> r.amount == Amount(c.view, actor, cmd.payload))
      && (r.error.None? && r.amount.None? <==>
            ok && Used(Charge(m, Cost(cmd.outputCost, 0))) <= m.limit < SatAdd(Used(m), cmd.outputCost))
      && (m.current.reward <= m.current.deduct <= U64_MAX - cmd.outputCost && m.limit < U64_MAX ==>
            !(r.error.None? && r.amount.None?))
  {
    hide Stakes, Report, Sound, Allowed, Achieves;
    StakesAchieve(c.view, signer, actor, cmd.payload);
    AmountByKind(c.view, actor, cmd.payload);
    var c1 := Charged(c, cmd.cost);
    match Stakes(c.view, actor, cmd.payload)
    case Abort(_) =>
    case Done(w, amount) => ReportIff(c1.(view := w), cmd, amount.value);
  }

  /** What a command other than a call is charged: its own cost, and the cost of its report if it gets that
      far, whether or not it then runs out of gas. */
  lemma {:induction false} ExecCharges(c: Ctx, signer: Address, actor: Address, cmd: Command)
    requires Sound(c.view) && !cmd.payload.Call?
    ensures var m := Charge(c.meter, cmd.cost);
      Exec(c, signer, actor, cmd).ctx.meter
      == if Reports(KindOf(cmd.payload)) && Allowed(c.view, signer, actor, cmd.payload)
         then Charge(m, Cost(cmd.outputCost, 0)) else m
  {
    hide Stakes, Used, Add, Move, Sound, Allowed, Achieves, Reason, Amount;
    if IsStaking(cmd.payload) {
      StakesAchieve(c.view, signer, actor, cmd.payload);
      AmountByKind(c.view, actor, cmd.payload);
    }
  }

  // ---------- calls ----------

  /** The contract runs as the target on the gas that is left; its consumption is charged, what it deferred
      is kept, and what it did to the world is kept if and only if it ended well. */
  ghost predicate RunsAs(c: Ctx, r: Ran, start: World, m: Meter, target: Address, body: seq<Op>) {
    Used(m) <= m.limit &&
    var run := Run(Machine(start, m.limit - Used(m), c.deferred, true), target, body);
    && r.ctx.meter == Charge(m, Cost(SatSub(m.limit - Used(m), run.gas), 0))
    && r.ctx.deferred == run.deferred && r.amount.None?
    && r.error == (if run.ok then None else if run.gas == 0 then Some(ContractExhausted) else Some(RuntimeError))
    && r.ctx.view == (if run.ok then run.world else c.ws)
  }

  lemma {:induction false} RunContractEffect(c: Ctx, target: Address, body: seq<Op>)
    requires Used(c.meter) <= c.meter.limit
    ensures RunsAs(c, RunContract(c, target, body), c.view, c.meter, target, body)
  {
    hide Run, Add;
    var gas := c.meter.limit - Used(c.meter);
    var m := Run(Machine(c.view, gas, c.deferred, true), target, body);
    WithinLimit(c.meter, SatSub(gas, m.gas));
    hide Used;
  }

  /** A call that its signer can pay for pays the target first, and then is refused, for the first of these
      reasons that applies, or runs. */
  lemma {:induction false} CallEffect(c: Ctx, signer: Address, actor: Address, cmd: Command) returns (start: World)
    requires Sound(c.view) && cmd.payload.Call?
    ensures var r, m, p := Exec(c, signer, actor, cmd), Charge(c.meter, cmd.cost), cmd.payload;
      var value := OrZero(p.value);
      && (r.error.Some? ==> r.ctx.view == c.ws)
      && (value > Get0(c.view.balances, signer) ==> r.error == Some(NotEnoughBalanceForTransfer) && r.ctx.meter == m)
      && (value <= Get0(c.view.balances, signer) ==>
            && Paid(c.view, start, signer, p.target, value)
            && if p.target !in c.view.versions || c.view.versions[p.target] > CBI_VERSION
                 then r.error == Some(InvalidCBI) && r.ctx.meter == m
               else if !p.engine.cached && !(p.target in c.view.contracts && p.engine.compiles)
                 then r.error == Some(NoContractcode) && r.ctx.meter == m
               else if m.limit < Used(m) then r.error == Some(ExecutionProperGasExhausted) && r.ctx.meter == m
               else if !p.engine.instantiates then r.error == Some(CannotCompile) && r.ctx.meter == m
               else RunsAs(c, r, start, m, p.target, p.body))
  {
    hide Run, Move, Inv, DepositTotal, Sum, RunContract, Used, Add;
    var p := cmd.payload;
    start := c.view;
    if p.value.Some? && p.value.value <= Get0(c.view.balances, signer) {
      MovePays(c.view, signer, p.target, p.value.value);
      start := c.view.(balances := Move(c.view.balances, signer, p.target, p.value.value));
    }
    var c1 := Charged(c, cmd.cost).(view := start);
    if Used(c1.meter) <= c1.meter.limit {
      RunContractEffect(c1, p.target, p.body);
    }
  }

  lemma WithinLimit(m: Meter, gas: u64)
    requires Used(m) + gas <= m.limit
    ensures Used(Charge(m, Cost(gas, 0))) <= m.limit
  {
  }

  // ---------- in a transaction ----------

  /** A command of the transaction acts for its signer, on what the commands before it left. */
  lemma {:induction false} SentActs(p: Phase, w: World, txn: Txn, index: nat, cmd: Command)
    requires PhaseOk(p, w) && !cmd.payload.Call?
    ensures var p' := RunSent(p, txn, index, cmd);
      && (p'.error.None? ==> Achieves(p.ctx.view, p'.ctx.view, txn.signer, txn.signer, cmd.payload))
      && (!Allowed(p.ctx.view, txn.signer, txn.signer, cmd.payload) ==>
            p'.error == Some(Reason(p.ctx.view, txn.signer, cmd.payload)))
  {
    hide Exec, Achieves, Allowed, Reason, Sound, Keeps;
    ViewSound(p.ctx);
    ExecEffect(p.ctx, txn.signer, txn.signer, cmd);
  }

  /** A deferred command acts for the contract that deferred it. */
  lemma {:induction false} LateActs(p: Phase, w: World, txn: Txn, index: nat, d: Deferred)
    requires PhaseOk(p, w) && !d.command.payload.Call?
    ensures var p' := RunLate(p, txn, index, d);
      && (p'.error.None? ==> Achieves(p.ctx.view, p'.ctx.view, txn.signer, d.contract, d.command.payload))
      && (!Allowed(p.ctx.view, txn.signer, d.contract, d.command.payload) ==>
            p'.error == Some(Reason(p.ctx.view, d.contract, d.command.payload)))
  {
    hide Exec, Achieves, Allowed, Reason, Sound, Keeps, PushDeferred;
    ViewSound(p.ctx);
    ExecEffect(p.ctx, txn.signer, d.contract, d.command);
  }

  /** Deleting a deposit refunds more than the command costs: this WithdrawDeposit takes out all of an
      unstaked deposit of 10 and succeeds, but its amount is not reported. */
  lemma {:induction false} SilentSuccess()
    ensures var n := Network(Limits(1, 1), map[], map[(1, 2) := Deposit(10, false)], map[], [], [], 0);
      var w := World(map[], map[], map[], map[], map[], n);
      var cmd := Command(WithdrawDeposit(1, 10), Cost(80_000, 180_000), 240);
      var r := Exec(Ctx(w, w, Meter(200_100, 200_000, 0, NO_COST), []), 2, 2, cmd);
      && r.error.None? && r.amount.None?
      && BalanceOf(r.ctx.view.net.deposits, 1, 2) == 0 && Get0(r.ctx.view.balances, 2) == 10
  {
    var n := Network(Limits(1, 1), map[], map[(1, 2) := Deposit(10, false)], map[], [], [], 0);
    var w := World(map[], map[], map[], map[], map[], n);
    var c := Ctx(w, w, Meter(200_100, 200_000, 0, NO_COST), []);
    var cmd := Command(WithdrawDeposit(1, 10), Cost(80_000, 180_000), 240);
    assert Withdrawable(n, 1, 2, 10, 10) == 10;
    var o := Staking.WithdrawDeposit(w, 2, 1, 10);
    assert o.Done? && o.amount == Some(10);
    ReportIff(Charged(c, cmd.cost).(view := o.world), cmd, 10);
  }
}
