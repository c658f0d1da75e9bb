/** The executor: pre-charge, the loop over the command stack, charge and finalisation, on mutable
    state, proved to compute the structured transaction. */
module Executor {
  import opened Words
  import opened Network
  import opened Staking
  import opened Products
  import opened Rewards
  import opened Epoch
  import opened Gas
  import opened Contract
  import opened Transaction
  import opened WorldCache
  import opened StakingCommands
  import opened ExecutionParts
  import opened Instances

  /** The status a method returns, as part of the specification's result. */
  ghost function RanWith(c: Ctx, r: Status): Ran {
    match r
    case Ok(amount) => Ran(c, None, amount)
    case Err(e) => Ran(c, Some(e), None)
  }

  // ---------- the command stack ----------

  /** Commands on the stack, the next one on top (last). */
  function Stacked(cmds: seq<Command>): seq<Task> {
    if cmds == [] then [] else Stacked(cmds[1..]) + [Sent(cmds[0])]
  }

  function StackedLate(ds: seq<Deferred>): seq<Task> {
    if ds == [] then [] else StackedLate(ds[1..]) + [Late(ds[0])]
  }

  method StackCommands(cmds: seq<Command>) returns (stack: seq<Task>)
    ensures stack == Stacked(cmds)
  {
    stack := [];
    var i := |cmds|;
    assert cmds[i..] == [];
    while i > 0
      invariant 0 <= i <= |cmds| && stack == Stacked(cmds[i..])
    {
      i := i - 1;
      assert cmds[i..][1..] == cmds[i + 1..];
      stack := stack + [Sent(cmds[i])];
    }
    assert cmds[0..] == cmds;
  }

  method PushLates(stack: seq<Task>, ds: seq<Deferred>) returns (stack': seq<Task>)
    ensures stack' == stack + StackedLate(ds)
  {
    stack' := stack;
    var i := |ds|;
    assert ds[i..] == [];
    while i > 0
      invariant 0 <= i <= |ds| && stack' == stack + StackedLate(ds[i..])
    {
      i := i - 1;
      assert ds[i..][1..] == ds[i + 1..];
      stack' := stack' + [Late(ds[i])];
    }
    assert ds[0..] == ds;
  }

  class ExecutionState {
    const txn: Txn
    const block: Block
    const ctx: Context
    const meter: GasMeter
    const receipts: ReceiptBuffer

    constructor (w: World, txn: Txn, block: Block)
      ensures this.txn == txn && this.block == block
      ensures Untouched() && ctx.cache.ws == w && receipts.receipts == []
      ensures fresh(Parts() + {ctx.cache, receipts})
    {
      this.txn, this.block := txn, block;
      var cache := new WorldStateCache(w);
      ctx := new Context(cache);
      meter := new GasMeter(txn.gasLimit);
      receipts := new ReceiptBuffer();
    }

    ghost predicate Valid()
      reads ctx, ctx.cache, ctx.cache.Pending()
    {
      ctx.cache.Valid() && meter.limit == txn.gasLimit
    }

    /** What command execution may change; not the committed world. */
    ghost function Parts(): set<object> {
      {ctx, meter} + ctx.cache.Pending()
    }

    ghost function Abs(): Ctx
      reads ctx, ctx.cache, ctx.cache.Pending(), meter
    {
      Ctx(ctx.cache.ws, ctx.cache.View(), meter.Value(), ctx.deferred)
    }

    method AbortWith(e: Error) returns (r: Status)
      requires Valid()
      modifies Parts()
      ensures Valid() && RanWith(Abs(), r) == Aborted(old(Abs()), e)
    {
      ctx.cache.Revert();
      r := Err(e);
    }

    method CheckGas(amount: Option<u64>) returns (r: Status)
      requires Valid()
      modifies Parts()
      ensures Valid() && RanWith(Abs(), r) == AbortIfExhausted(old(Abs()), amount)
    {
      hide WorldStateCache.View, WorldStateCache.Valid;
      var used := meter.TotalUsed();
      if txn.gasLimit < used {
        r := AbortWith(ExecutionProperGasExhausted);
      } else {
        r := Ok(amount);
      }
    }

    method ReportAmount(cmd: Command, amount: u64) returns (r: Status)
      requires Valid()
      modifies Parts()
      ensures Valid() && RanWith(Abs(), r) == Report(old(Abs()), cmd, amount)
    {
      hide WorldStateCache.View, WorldStateCache.Valid, Used, AbortIfExhausted;
      var used := meter.TotalUsed();
      if SatAdd(used, cmd.outputCost) > txn.gasLimit {
        meter.ChargeCost(Cost(cmd.outputCost, 0));
        r := CheckGas(None);
        return;
      }
      meter.ChargeCost(Cost(cmd.outputCost, 0));
      r := CheckGas(Some(amount));
    }

    method Transfer(recipient: Address, amount: u64) returns (r: Status)
      requires Valid()
      modifies Parts()
      ensures Valid() && RanWith(Abs(), r) == RunTransfer(old(Abs()), txn.signer, recipient, amount)
    {
      hide WorldStateCache.View, WorldStateCache.Valid, Used, AbortIfExhausted, Move;
      var ok := ctx.cache.MoveTokens(txn.signer, recipient, amount);
      if !ok {
        r := AbortWith(NotEnoughBalanceForTransfer);
      } else {
        r := CheckGas(None);
      }
    }

    method DeployContract(address: Address, code: Bytes, version: u32, fault: Option<Fault>) returns (r: Status)
      requires Valid()
      modifies Parts()
      ensures Valid() && RanWith(Abs(), r) == RunDeploy(old(Abs()), address, code, version, fault)
    {
      hide WorldStateCache.View, WorldStateCache.Valid, Used, AbortIfExhausted;
      if version > CBI_VERSION {
        r := AbortWith(OtherDeployError);
        return;
      }
      var existing := ctx.cache.Version(address);
      if existing.Some? {
        r := AbortWith(ContractAlreadyExists);
      } else if fault.Some? {
        r := AbortWith(BadContract(fault.value));
      } else {
        ctx.cache.SetContract(address, code);
        ctx.cache.SetVersion(address, version);
        r := CheckGas(None);
      }
    }

    /** Run the contract on the gas left, then charge its consumption to the transaction's meter. */
    method RunAndCharge(target: Address, body: seq<Op>) returns (ok: bool, exhausted: bool)
      requires Valid() && Used(meter.Value()) <= txn.gasLimit
      modifies Parts()
      ensures Valid()
      ensures var c := old(Abs());
        var gas := c.meter.limit - Used(c.meter);
        var m := Run(Machine(c.view, gas, c.deferred, true), target, body);
        && Abs() == Charged(c.(view := m.world, deferred := m.deferred), Cost(SatSub(gas, m.gas), 0))
        && ok == m.ok && (exhausted <==> m.gas == 0)
    {
      hide WorldStateCache.View, WorldStateCache.Valid, Run, Used, Add;
      var used := meter.TotalUsed();
      var consumed;
      consumed, ok, exhausted := ctx.CallInstance(target, body, txn.gasLimit - used);
      meter.ChargeCost(Cost(consumed, 0));
    }

    method CallInto(target: Address, body: seq<Op>) returns (r: Status)
      requires Valid() && Used(meter.Value()) <= txn.gasLimit
      modifies Parts()
      ensures Valid() && RanWith(Abs(), r) == RunContract(old(Abs()), target, body)
    {
      hide WorldStateCache.View, WorldStateCache.Valid, Run, Used, Charged;
      var ok, exhausted := RunAndCharge(target, body);
      var used := meter.TotalUsed();
      if txn.gasLimit < used {
        r := AbortWith(ExecutionProperGasExhausted);
      } else if !ok {
        r := AbortWith(if exhausted then ContractExhausted else RuntimeError);
      } else {
        r := CheckGas(None);
      }
    }

    /** The checks before a contract is started, in the source's order. */
    method CheckTarget(target: Address, engine: Engine) returns (e: Option<Error>)
      requires Valid()
      modifies ctx.cache.versions, ctx.cache.contracts
      ensures Valid() && Abs() == old(Abs()) && e == Refusal(Abs(), target, engine)
    {
      hide OverlayStorage, Used, Loads;
      var version := ctx.cache.Version(target);
      if version.None? || version.value > CBI_VERSION {
        return Some(InvalidCBI);
      }
      var found := ctx.cache.LoadModule(target, engine);
      if !found {
        return Some(NoContractcode);
      }
      var used := meter.TotalUsed();
      if txn.gasLimit < used {
        return Some(ExecutionProperGasExhausted);
      }
      e := if engine.instantiates then None else Some(CannotCompile);
    }

    method CallContract(target: Address, value: Option<u64>, engine: Engine, body: seq<Op>) returns (r: Status)
      requires Valid()
      modifies Parts()
      ensures Valid() && RanWith(Abs(), r) == RunCall(old(Abs()), txn.signer, target, value, engine, body)
    {
      hide WorldStateCache.View, WorldStateCache.Valid, Used, RunContract, Move, Loads;
      if value.Some? {
        var ok := ctx.cache.MoveTokens(txn.signer, target, value.value);
        if !ok {
          r := AbortWith(NotEnoughBalanceForTransfer);
          return;
        }
      }
      var e := CheckTarget(target, engine);
      if e.Some? {
        r := AbortWith(e.value);
      } else {
        r := CallInto(target, body);
      }
    }

    /** Dispatch a staking command to its implementation. */
    method Stake(actor: Address, p: Payload) returns (r: Status)
      requires Valid() && !p.Transfer? && !p.Deploy? && !p.Call?
      modifies Parts()
      ensures Valid() && meter.Value() == old(meter.Value()) && ctx.deferred == old(ctx.deferred)
      ensures Performs(Stakes(old(ctx.cache.View()), actor, p), r, ctx.cache.View(), ctx.cache.ws)
    {
      hide WorldStateCache.View, WorldStateCache.Valid, Performs;
      hide Staking.CreatePool, Staking.SetPoolSettings, Staking.DeletePool, Staking.CreateDeposit;
      hide Staking.SetDepositSettings, Staking.TopUpDeposit, Staking.WithdrawDeposit;
      hide Staking.StakeDeposit, Staking.UnstakeDeposit;
      match p {
        case CreatePool(rate) => r := StakingCommands.CreatePool(ctx.cache, actor, rate);
        case SetPoolSettings(rate) => r := StakingCommands.SetPoolSettings(ctx.cache, actor, rate);
        case DeletePool => r := StakingCommands.DeletePool(ctx.cache, actor);
        case CreateDeposit(operator, balance, autoStake) =>
          r := StakingCommands.CreateDeposit(ctx.cache, actor, operator, balance, autoStake);
        case SetDepositSettings(operator, autoStake) =>
          r := StakingCommands.SetDepositSettings(ctx.cache, actor, operator, autoStake);
        case TopUpDeposit(operator, amount) => r := StakingCommands.TopUpDeposit(ctx.cache, actor, operator, amount);
        case WithdrawDeposit(operator, maxAmount) =>
          r := StakingCommands.WithdrawDeposit(ctx.cache, actor, operator, maxAmount);
        case StakeDeposit(operator, maxAmount) =>
          r := StakingCommands.StakeDeposit(ctx.cache, actor, operator, maxAmount);
        case UnstakeDeposit(operator, maxAmount) =>
          r := StakingCommands.UnstakeDeposit(ctx.cache, actor, operator, maxAmount);
      }
    }

    method StakeAndReport(actor: Address, cmd: Command) returns (r: Status)
      requires Valid() && !cmd.payload.Transfer? && !cmd.payload.Deploy? && !cmd.payload.Call?
      modifies Parts()
      ensures Valid()
      ensures RanWith(Abs(), r) == match Stakes(old(Abs()).view, actor, cmd.payload)
        case Abort(e) => Aborted(old(Abs()), e)
        case Done(w, amount) =>
          if amount.Some? then Report(old(Abs()).(view := w), cmd, amount.value)
            else AbortIfExhausted(old(Abs()).(view := w), None)
    {
      hide WorldStateCache.View, WorldStateCache.Valid, Stakes, Report, AbortIfExhausted, Used;
      var s := Stake(actor, cmd.payload);
      if s.Err? {
        r := s;
      } else if s.amount.Some? {
        r := ReportAmount(cmd, s.amount.value);
      } else {
        r := CheckGas(None);
      }
    }

    method Execute(actor: Address, cmd: Command) returns (r: Status)
      requires Valid()
      modifies Parts()
      ensures Valid() && RanWith(Abs(), r) == Exec(old(Abs()), txn.signer, actor, cmd)
    {
      hide WorldStateCache.View, WorldStateCache.Valid, Stakes, Report, AbortIfExhausted, Used;
      hide RunTransfer, RunDeploy, RunCall, RanWith;
      meter.ChargeCost(cmd.cost);
      match cmd.payload {
        case Transfer(recipient, amount) => r := Transfer(recipient, amount);
        case Deploy(address, code, version, fault) => r := DeployContract(address, code, version, fault);
        case Call(target, value, engine, body) => r := CallContract(target, value, engine, body);
        case _ => r := StakeAndReport(actor, cmd);
      }
    }

    // ---------- the commands phase ----------

    ghost function PhaseNow(error: Option<Error>, trace: seq<Event>): Phase
      reads ctx, ctx.cache, ctx.cache.Pending(), meter, receipts
    {
      Phase(Abs(), receipts.receipts, error, trace)
    }

    /** Execute a command of the transaction, push its receipt, and take what it deferred. */
    method DoSent(index: nat, cmd: Command, trace: seq<Event>)
        returns (error: Option<Error>, ds: seq<Deferred>, trace': seq<Event>)
      requires Valid()
      modifies Parts() + {receipts}
      ensures Valid()
      ensures PhaseNow(error, trace') == RunSent(old(PhaseNow(None, trace)), txn, index, cmd)
      ensures ds == DeferredBy(old(PhaseNow(None, trace)), txn, cmd)
    {
      hide Exec, WorldStateCache.View, WorldStateCache.Valid;
      var r := Execute(txn.signer, cmd);
      error := if r.Err? then Some(r.error) else None;
      var gas := meter.TakeResult();
      var amount := Output(txn.version, KindOf(cmd.payload), if r.Ok? then r.amount else None);
      receipts.Push(Receipt(KindOf(cmd.payload), ExitOf(error), gas, amount));
      ds := ctx.deferred;
      ctx.deferred := [];
      trace' := trace + [Event(index, Sent(cmd))];
    }

    /** Execute a deferred command as its contract and merge its receipt into the last one. */
    method DoLate(index: nat, d: Deferred, trace: seq<Event>) returns (error: Option<Error>, trace': seq<Event>)
      requires Valid()
      modifies Parts() + {receipts}
      ensures Valid()
      ensures PhaseNow(error, trace') == RunLate(old(PhaseNow(None, trace)), txn, index, d)
    {
      hide Exec, WorldStateCache.View, WorldStateCache.Valid, PushDeferred;
      var r := Execute(d.contract, d.command);
      error := if r.Err? then Some(r.error) else None;
      var gas := meter.TakeResult();
      var amount := Output(txn.version, KindOf(d.command.payload), if r.Ok? then r.amount else None);
      receipts.PushLate(txn.version, Receipt(KindOf(d.command.payload), ExitOf(error), gas, amount));
      ctx.deferred := [];
      trace' := trace + [Event(index, Late(d))];
    }

    /** The loop over the stack.  It ends because each round uses up a deferred command, or a command
        of the transaction, whose deferred commands then come first. */
    method RunStack() returns (error: Option<Error>, trace: seq<Event>)
      requires Valid()
      modifies Parts() + {receipts}
      ensures Valid()
      ensures PhaseNow(error, trace) == RunAll(old(PhaseNow(None, [])), txn, 0, txn.commands)
    {
      hide RunSent, RunLate, DeferredBy, WorldStateCache.View, WorldStateCache.Valid;
      error, trace := None, [];
      var stack := StackCommands(txn.commands);
      var index := 0;
      ghost var rest, late: seq<Deferred> := txn.commands, [];
      ghost var goal := RunAll(old(PhaseNow(None, [])), txn, 0, txn.commands);
      assert stack == stack + StackedLate([]);
      while stack != []
        invariant Valid() && error.None?
        invariant stack == Stacked(rest) + StackedLate(late)
        invariant RunAll(RunLates(PhaseNow(None, trace), txn, index, late), txn, index, rest) == goal
        decreases |rest|, |late|
      {
        StackTop(rest, late);
        var task := stack[|stack| - 1];
        stack := stack[..|stack| - 1];
        match task {
          case Sent(cmd) =>
            ghost var p := PhaseNow(None, trace);
            var ds;
            error, ds, trace := DoSent(index, cmd, trace);
            ghost var p1 := PhaseNow(error, trace);
            ghost var spawned := if p1.error.None? then ds else [];
            assert goal == RunAll(RunLates(p1, txn, index + 1, spawned), txn, index + 1, rest[1..]);
            index := index + 1;
            if error.Some? {
              assert p1 == goal;
              return;
            }
            stack := PushLates(stack, ds);
            rest, late := rest[1..], ds;
          case Late(d) =>
            error, trace := DoLate(index, d, trace);
            if error.Some? {
              return;
            }
            late := late[1..];
        }
      }
      StackEmpty(rest, late);
    }

    // ---------- pre-charge and charge ----------

    ghost predicate Untouched()
      reads ctx, ctx.cache, ctx.cache.Pending(), meter
    {
      && Valid() && ctx.deferred == [] && meter.Value() == Meter(txn.gasLimit, 0, 0, NO_COST)
      && ctx.cache.View() == ctx.cache.ws && ctx.cache.Clean()
    }

    /** Validate the transaction and take the whole gas limit's price from the signer, directly in the
        committed world. */
    method PreChargeSigner() returns (error: Option<Error>)
      requires Untouched()
      modifies ctx.cache, meter
      ensures match PreCharge(old(ctx.cache.ws), txn, block)
        case Rejected(e) => error == Some(e) && ctx.cache.View() == old(ctx.cache.ws) && ctx.cache.Separate()
        case Accepted(w) => error.None? && Valid() && Abs() == Start(w, txn).ctx
    {
      hide OverlayStorage, Mul;
      var included := meter.ChargeInclusion(txn.inclusionCost);
      if !included {
        return Some(PreExecutionGasExhausted);
      }
      var w := ctx.cache.ws;
      if txn.nonce != Get0(w.nonces, txn.signer) {
        return Some(WrongNonce);
      }
      var have := Get0(w.balances, txn.signer);
      var fee := block.baseFee + txn.priorityFee;
      if fee > U64_MAX || Mul(txn.gasLimit, fee) > U64_MAX {
        return Some(NotEnoughBalanceForGasLimit);
      }
      var preCharge: u64 := Mul(txn.gasLimit, fee);
      if preCharge > have {
        return Some(NotEnoughBalanceForGasLimit);
      }
      ctx.cache.ws := w.(balances := w.balances[txn.signer := have - preCharge]);
      ctx.cache.CleanView();
      error := None;
    }

    /** Settle the fees in the committed world, purging the three accounts from the pending writes.
        False stands for an overflow in the unchecked arithmetic. */
    method ChargeFees() returns (ok: bool)
      requires Valid()
      modifies ctx.cache, ctx.cache.balances
      ensures ctx.cache.Separate()
      ensures var gas := GasCharged(meter.Value(), txn);
        && (ok <==> SettleFits(old(ctx.cache.View()), txn, block, gas))
        && (ok ==> ctx.cache.View() == Settle(old(ctx.cache.View()), txn, block, gas))
    {
      hide OverlayStorage, Mul;
      var executed := meter.TotalExecuted();
      var gasUsed: u64 := Min(executed, txn.gasLimit);
      var gasUnused := txn.gasLimit - gasUsed;
      var fee := block.baseFee + txn.priorityFee;
      var refund, tip, base := Mul(gasUnused, fee), Mul(gasUsed, txn.priorityFee), Mul(gasUsed, block.baseFee);
      var have := ctx.cache.Balance(txn.signer);
      ok := fee <= U64_MAX && refund <= U64_MAX && have + refund <= U64_MAX && tip <= U64_MAX && base * 20 <= U64_MAX;
      if ok {
        SettleBalances(refund, tip, base * 20 / 100);
        var w := ctx.cache.ws;
        ctx.cache.ws := w.(nonces := w.nonces[txn.signer := SatAdd(Get0(w.nonces, txn.signer), 1)]);
      }
    }

    method SettleBalances(refund: u64, tip: u64, cut: u64)
      requires Valid() && Get0(ctx.cache.View().balances, txn.signer) + refund <= U64_MAX
      modifies ctx.cache, ctx.cache.balances
      ensures ctx.cache.Separate()
      ensures var b := old(ctx.cache.View()).balances;
        ctx.cache.View() == old(ctx.cache.View()).(balances :=
          Credit(Credit(Credit(b, txn.signer, refund), block.proposer, tip), block.treasury, cut))
      ensures ctx.cache.ws == old(ctx.cache.ws).(balances := ctx.cache.ws.balances)
    {
      hide OverlayStorage, Credit;
      var newSigner, newProposer, newTreasury := PurgeAndAdd(refund, tip, cut);
      var w := ctx.cache.ws;
      var b := w.balances[txn.signer := newSigner][block.proposer := newProposer][block.treasury := newTreasury];
      ctx.cache.ws := w.(balances := b);
      PurgedView(w.balances, old(ctx.cache.balances.writes), txn.signer, block.proposer, block.treasury,
                 newSigner, newProposer, newTreasury);
    }

    /** Take the three balances out of the cache and add the shares, minding who coincides with whom. */
    method PurgeAndAdd(refund: u64, tip: u64, cut: u64) returns (newSigner: u64, newProposer: u64, newTreasury: u64)
      requires Valid() && Get0(ctx.cache.View().balances, txn.signer) + refund <= U64_MAX
      modifies ctx.cache.balances
      ensures Valid()
      ensures ctx.cache.balances.writes
        == old(ctx.cache.balances.writes) - {txn.signer} - {block.proposer} - {block.treasury}
      ensures ctx.cache.View() == old(ctx.cache.View()).(balances := ctx.cache.View().balances)
      ensures var b := old(ctx.cache.View()).balances;
        b[txn.signer := newSigner][block.proposer := newProposer][block.treasury := newTreasury]
        == Credit(Credit(Credit(b, txn.signer, refund), block.proposer, tip), block.treasury, cut)
    {
      hide OverlayStorage, Credit;
      ghost var wsb, writes := ctx.cache.ws.balances, ctx.cache.balances.writes;
      var signer, proposer, treasury := txn.signer, block.proposer, block.treasury;
      var signerBalance := ctx.cache.PurgeBalance(signer);
      newSigner := signerBalance + refund;

      var proposerBalance := ctx.cache.PurgeBalance(proposer);
      if signer == proposer {
        proposerBalance := newSigner;
      }
      newProposer := SatAdd(proposerBalance, tip);

      var treasuryBalance := ctx.cache.PurgeBalance(treasury);
      if signer == treasury {
        treasuryBalance := newSigner;
      }
      if proposer == treasury {
        treasuryBalance := newProposer;
      }
      newTreasury := SatAdd(treasuryBalance, cut);
      Coincide(wsb, writes, signer, proposer, treasury, refund, tip, cut, newSigner, newProposer, newTreasury);
    }

    // ---------- the whole transaction ----------

    method TransitWorld() returns (t: Transition)
      requires Untouched() && receipts.receipts == []
      modifies Parts() + {ctx.cache, receipts}
      ensures t == Transit(old(ctx.cache.ws), txn, block)
    {
      hide WorldStateCache.View, WorldStateCache.Valid, RunAll, PreCharge, Settle, SettleFits, IntoReceipt;
      var rejected := PreChargeSigner();
      if rejected.Some? {
        var summary := receipts.Finalize(txn.version, 0, txn.commands);
        if summary.None? {
          return Panicked;
        }
        var w := ctx.cache.Commit();
        return Finished(w, None, rejected);
      }
      var error, _ := RunStack();
      var ok := ChargeFees();
      if !ok {
        return Panicked;
      }
      var gas := meter.TotalExecuted();
      var summary := receipts.Finalize(txn.version, gas, txn.commands);
      if summary.None? {
        return Panicked;
      }
      var w := ctx.cache.Commit();
      t := Finished(w, summary, error);
    }
  }

  /** A transaction from a world to its transition: the executor computes the structured form. */
  method TransitionOf(w: World, txn: Txn, block: Block) returns (t: Transition)
    ensures t == Transit(w, txn, block)
  {
    hide Transit;
    var state := new ExecutionState(w, txn, block);
    t := state.TransitWorld();
  }

  /** The NextEpoch transaction: validated, run on the cached network account, committed. */
  method EndEpoch(w: World, signer: Address, nonce: u64, single: bool, perf: Option<Performance>, table: RateTable)
      returns (out: World, changes: Option<Changes>)
    requires Indexed(w.net) && w.net.epoch < U64_MAX
    requires forall i, j | 0 <= i < j < |w.net.vp| :: w.net.vp[i].operator != w.net.vp[j].operator
    ensures if !single || perf.None? || nonce != Get0(w.nonces, signer) then out == w && changes == None
      else
        && out == w.(net := NextEpoch(w.net, table, perf.value),
                     nonces := w.nonces[signer := SatAdd(Get0(w.nonces, signer), 1)])
        && changes == Some(Diff(w.net.vp, out.net.vp))
  {
    hide NextEpoch, Diff, OverlayStorage;
    var cache := new WorldStateCache(w);
    if !single || perf.None? || nonce != Get0(w.nonces, signer) {
      return w, None;
    }
    var c := cache.network.AdvanceEpoch(table, perf.value);
    cache.ws := cache.ws.(nonces := cache.ws.nonces[signer := SatAdd(Get0(cache.ws.nonces, signer), 1)]);
    out := cache.Commit();
    changes := Some(c);
  }

  lemma StackTop(rest: seq<Command>, late: seq<Deferred>)
    requires Stacked(rest) + StackedLate(late) != []
    ensures var stack := Stacked(rest) + StackedLate(late);
      var top, below := stack[|stack| - 1], stack[..|stack| - 1];
      if late != [] then top == Late(late[0]) && below == Stacked(rest) + StackedLate(late[1..])
      else rest != [] && top == Sent(rest[0]) && below == Stacked(rest[1..])
  {
    var stack := Stacked(rest) + StackedLate(late);
    if late != [] {
      assert stack == (Stacked(rest) + StackedLate(late[1..])) + [Late(late[0])];
    } else {
      assert stack == Stacked(rest);
    }
  }

  lemma StackEmpty(rest: seq<Command>, late: seq<Deferred>)
    requires Stacked(rest) + StackedLate(late) == []
    ensures rest == [] && late == []
  {
    assert rest != [] ==> |Stacked(rest)| > 0;
    assert late != [] ==> |StackedLate(late)| > 0;
  }

  /** The case analysis on who coincides with whom amounts to three credits in a row. */
  lemma Coincide(ws: map<Address, u64>, writes: map<Address, u64>, s: Address, p: Address, t: Address, refund: u64,
      tip: u64, cut: u64, x: u64, y: u64, z: u64)
    requires x == Get0(ws + writes, s) + refund
    requires y == SatAdd(if s == p then x else Get0(ws + (writes - {s}), p), tip)
    requires z == SatAdd(if p == t then y else if s == t then x else Get0(ws + (writes - {s} - {p}), t), cut)
    ensures (ws + writes)[s := x][p := y][t := z] == Credit(Credit(Credit(ws + writes, s, refund), p, tip), t, cut)
  {
    var b := ws + writes;
    assert s != p ==> Get0(ws + (writes - {s}), p) == Get0(b, p);
    assert s != t && p != t ==> Get0(ws + (writes - {s} - {p}), t) == Get0(b, t);
    var b1: map<Address, u64> := b[s := x];
    assert Credit(b, s, refund) == b1;
    assert Credit(b1, p, tip) == b1[p := y];
  }

  /** Committing the remaining writes never overwrites a balance that was settled in the world. */
  lemma PurgedView(ws: map<Address, u64>, writes: map<Address, u64>, a: Address, b: Address, c: Address, x: u64,
      y: u64, z: u64)
    ensures ws[a := x][b := y][c := z] + (writes - {a} - {b} - {c}) == (ws + writes)[a := x][b := y][c := z]
  {
  }
}
