/** What the commands of a transaction do one after the other, and what its receipts report. */
module ReceiptTheorems {
  import opened Words
  import opened Network
  import opened Gas
  import opened Contract
  import opened Transaction
  import opened StakingProofs
  import opened ContractProofs
  import opened TransactionProofs
  import opened PhaseProofs
  import opened TransactionTheorems
  import opened CommandTheorems

  // ---------- one command after the other ----------

  lemma {:induction false} RunLatesDrained(p: Phase, txn: Txn, index: nat, ds: seq<Deferred>)
    requires p.ctx.deferred == []
    ensures RunLates(p, txn, index, ds).ctx.deferred == []
    decreases |ds|
  {
    hide Exec, PushDeferred;
    if ds == [] || p.error.Some? {
    } else {
      RunLatesDrained(RunLate(p, txn, index, ds[0]), txn, index, ds[1..]);
    }
  }

  /** Between commands nothing is waiting to be run. */
  lemma {:induction false} RunAllDrained(p: Phase, txn: Txn, index: nat, cmds: seq<Command>)
    requires p.ctx.deferred == []
    ensures RunAll(p, txn, index, cmds).ctx.deferred == []
    decreases |cmds|
  {
    hide Exec, DeferredBy;
    if cmds == [] || p.error.Some? {
    } else {
      var p1 := RunSent(p, txn, index, cmds[0]);
      var ds := if p1.error.None? then DeferredBy(p, txn, cmds[0]) else [];
      RunLatesDrained(p1, txn, index + 1, ds);
      RunAllDrained(RunLates(p1, txn, index + 1, ds), txn, index + 1, cmds[1..]);
    }
  }

  /** The world after the first `k` commands of a transaction. */
  function After(w: World, txn: Txn, k: nat): Phase
    requires k <= |txn.commands|
  {
    RunAll(Start(w, txn), txn, 0, txn.commands[..k])
  }

  /** Command by command: the k-th command, if it is no call, does for the signer what its payload says, on
      what the commands before it left; or it fails, for the stated reason if its checks fail. */
  lemma {:induction false} EachCommandActs(w: World, txn: Txn, k: nat)
    requires Sound(w) && k < |txn.commands| && !txn.commands[k].payload.Call?
    requires After(w, txn, k).error.None?
    ensures var before, after, p := After(w, txn, k), After(w, txn, k + 1), txn.commands[k].payload;
      && (after.error.None? ==> Achieves(before.ctx.view, after.ctx.view, txn.signer, txn.signer, p))
      && (!Allowed(before.ctx.view, txn.signer, txn.signer, p) ==>
            after.error == Some(Reason(before.ctx.view, txn.signer, p)))
    ensures k + 1 == |txn.commands| ==> CommandsPhase(w, txn) == After(w, txn, k + 1)
  {
    hide RunAll, RunSent, Achieves, Allowed, Reason, Sound, PhaseOk;
    var s, cmd := Start(w, txn), txn.commands[k];
    var q := After(w, txn, k);
    StartIsOk(w, txn);
    RunAllOk(s, w, txn, 0, txn.commands[..k]);
    RunAllDrained(s, txn, 0, txn.commands[..k]);
    assert txn.commands[..k + 1] == txn.commands[..k] + [cmd];
    assert txn.commands[..|txn.commands|] == txn.commands;
    RunAllSnoc(s, txn, 0, txn.commands[..k], cmd);
    NothingDeferred(q, txn, cmd);
    var q1 := RunSent(q, txn, k, cmd);
    assert RunLates(q1, txn, k + 1, []) == q1;
    SentActs(q, w, txn, k, cmd);
  }

  /** The k-th command, if it is a call that succeeds: its target is paid, its contract runs as the target on
      the gas left, and exactly what the contract deferred runs right after it. */
  lemma {:induction false} EachCallActs(w: World, txn: Txn, k: nat) returns (start: World)
    requires Sound(w) && k < |txn.commands| && txn.commands[k].payload.Call?
    requires After(w, txn, k).error.None?
    ensures var q, cmd := After(w, txn, k), txn.commands[k];
      var q1, p, m := RunSent(q, txn, k, cmd), cmd.payload, Charge(q.ctx.meter, cmd.cost);
      && (q1.error.Some? ==> After(w, txn, k + 1).error == q1.error)
      && (q1.error.None? ==>
            && Paid(q.ctx.view, start, txn.signer, p.target, OrZero(p.value)) && Used(m) <= m.limit
            && var run := Run(Machine(start, m.limit - Used(m), [], true), p.target, p.body);
            && run.ok && q1.ctx.view == run.world && Spawned(Start(w, txn), txn, k) == run.deferred
            && After(w, txn, k + 1) == RunLates(q1, txn, k + 1, run.deferred))
  {
    hide RunAll, Exec, Sound, Keeps, Used, Add, Paid, Run;
    var s, cmd := Start(w, txn), txn.commands[k];
    var q := After(w, txn, k);
    StartIsOk(w, txn);
    RunAllOk(s, w, txn, 0, txn.commands[..k]);
    RunAllDrained(s, txn, 0, txn.commands[..k]);
    assert txn.commands[..k + 1] == txn.commands[..k] + [cmd];
    RunAllSnoc(s, txn, 0, txn.commands[..k], cmd);
    ViewSound(q.ctx);
    start := CallEffect(q.ctx, txn.signer, txn.signer, cmd);
  }

  lemma StartIsOk(w: World, txn: Txn)
    requires Sound(w)
    ensures PhaseOk(Start(w, txn), w) && Start(w, txn).ctx.deferred == []
  {
    hide Keeps, Supply;
    KeepsRefl(w);
  }

  lemma NothingDeferred(p: Phase, txn: Txn, cmd: Command)
    requires p.ctx.deferred == [] && !cmd.payload.Call?
    ensures DeferredBy(p, txn, cmd) == []
  {
    hide Exec;
    OnlyCallsDefer(p.ctx, txn.signer, txn.signer, cmd);
  }

  // ---------- the receipt of a command ----------

  /** The amount a command's receipt shows: what the command was about, if reporting it still fitted the gas
      limit; else zero in V2 and nothing in V1.  Other commands show none. */
  ghost function ShownAmount(v: Version, c: Ctx, signer: Address, actor: Address, cmd: Command): Option<u64> {
    var m := Charge(c.meter, cmd.cost);
    if !Reports(KindOf(cmd.payload)) then None
    else if Allowed(c.view, signer, actor, cmd.payload) && SatAdd(Used(m), cmd.outputCost) <= m.limit
      then Amount(c.view, actor, cmd.payload)
    else if v.V2? then Some(0) else None
  }

  lemma {:induction false} OutputIsShown(v: Version, c: Ctx, signer: Address, actor: Address, cmd: Command)
    requires Sound(c.view)
    ensures Output(v, KindOf(cmd.payload), Exec(c, signer, actor, cmd).amount) == ShownAmount(v, c, signer, actor, cmd)
  {
    hide Exec, Allowed, Amount, Sound, Used, Achieves, Reason;
    if Reports(KindOf(cmd.payload)) {
      FailureShowsNothing(c, signer, actor, cmd);
      AmountReportedIff(c, signer, actor, cmd);
      AmountByKind(c.view, actor, cmd.payload);
    } else if cmd.payload.Call? {
      CallShowsNothing(c, signer, actor, cmd);
    } else {
      ExecEffect(c, signer, actor, cmd);
    }
  }

  lemma FailureShowsNothing(c: Ctx, signer: Address, actor: Address, cmd: Command)
    requires Reports(KindOf(cmd.payload))
    ensures Exec(c, signer, actor, cmd).error.Some? ==> Exec(c, signer, actor, cmd).amount.None?
  {
    hide Stakes, Used, Add;
  }

  lemma CallShowsNothing(c: Ctx, signer: Address, actor: Address, cmd: Command)
    requires cmd.payload.Call?
    ensures Exec(c, signer, actor, cmd).amount.None?
  {
    hide Used, Add, Move, Run, Loads;
  }

  /** The gas that joined the total between two phases. */
  function GasTaken(p: Phase, p': Phase): u64 { SatSub(p'.ctx.meter.executed, p.ctx.meter.executed) }

  /** A command of the transaction adds one receipt: its kind, outcome, gas and amount. */
  lemma {:induction false} SentReceipt(p: Phase, w: World, txn: Txn, index: nat, cmd: Command)
    requires PhaseOk(p, w) && MeterOk(p.ctx.meter)
    ensures var p' := RunSent(p, txn, index, cmd);
      p'.receipts == p.receipts +
        [Receipt(KindOf(cmd.payload), ExitOf(p'.error), GasTaken(p, p'),
                 ShownAmount(txn.version, p.ctx, txn.signer, txn.signer, cmd))]
  {
    hide Exec, ShownAmount, Sound, Keeps;
    ViewSound(p.ctx);
    ExecAccounts(p.ctx, txn.signer, txn.signer, cmd);
    ExecMetered(p.ctx, txn.signer, txn.signer, cmd);
    TakeGas(p.ctx.meter, Exec(p.ctx, txn.signer, txn.signer, cmd).ctx.meter);
    OutputIsShown(txn.version, p.ctx, txn.signer, txn.signer, cmd);
  }

  lemma TakeGas(m: Meter, m': Meter)
    requires MeterOk(m) && m' == m.(current := m'.current)
    ensures Take(m').executed == m.executed + Clamped(m')
  {
  }

  /** A deferred command's receipt merges into that of its call: gas adds up, the outcome is the later one,
      and the amount overrides the call's output in V1 always, in V2 if the command reports one. */
  lemma {:induction false} LateReceipt(p: Phase, w: World, txn: Txn, index: nat, d: Deferred)
    requires PhaseOk(p, w) && MeterOk(p.ctx.meter) && p.receipts != []
    requires Deferrable(KindOf(d.command.payload))
    ensures var p', last := RunLate(p, txn, index, d), p.receipts[|p.receipts| - 1];
      var shown := ShownAmount(txn.version, p.ctx, txn.signer, d.contract, d.command);
      var overrides := txn.version.V1? || (last.kind.KCall? && Reports(KindOf(d.command.payload)));
      p'.receipts == p.receipts[..|p.receipts| - 1] +
        [Receipt(last.kind, ExitOf(p'.error), SatAdd(last.gas, GasTaken(p, p')),
                 if overrides then shown else last.amount)]
  {
    hide Exec, ShownAmount, Sound, Keeps;
    ViewSound(p.ctx);
    ExecMetered(p.ctx, txn.signer, d.contract, d.command);
    TakeGas(p.ctx.meter, Exec(p.ctx, txn.signer, d.contract, d.command).ctx.meter);
    OutputIsShown(txn.version, p.ctx, txn.signer, d.contract, d.command);
  }

  // ---------- the receipt of the transaction ----------

  lemma {:induction false} RunLatesKeepReceipts(p: Phase, txn: Txn, index: nat, ds: seq<Deferred>)
    ensures var rs, rs' := p.receipts, RunLates(p, txn, index, ds).receipts;
      |rs'| == |rs| && (rs != [] ==> rs'[..|rs| - 1] == rs[..|rs| - 1])
    decreases |ds|
  {
    hide Exec, Merge;
    if ds == [] || p.error.Some? {
    } else {
      RunLatesKeepReceipts(RunLate(p, txn, index, ds[0]), txn, index, ds[1..]);
    }
  }

  /** Receipts of commands that are done with stay as they are. */
  lemma {:induction false} RunAllKeepsReceipts(p: Phase, txn: Txn, index: nat, cmds: seq<Command>)
    ensures p.receipts <= RunAll(p, txn, index, cmds).receipts
    decreases |cmds|
  {
    hide Exec, DeferredBy;
    if cmds == [] || p.error.Some? {
    } else {
      var p1 := RunSent(p, txn, index, cmds[0]);
      var ds := if p1.error.None? then DeferredBy(p, txn, cmds[0]) else [];
      var p2 := RunLates(p1, txn, index + 1, ds);
      RunLatesKeepReceipts(p1, txn, index + 1, ds);
      assert p1.receipts[..|p.receipts|] == p.receipts;
      assert p2.receipts[..|p.receipts|] == p.receipts;
      RunAllKeepsReceipts(p2, txn, index + 1, cmds[1..]);
    }
  }

  /** What is made of the receipts of the commands that ran: in V1 just these; in V2 these, the outcome and
      the gas of the whole, and for every command that did not run a receipt that says so. */
  ghost predicate Summarises(v: Version, s: Summary, rs: seq<Receipt>, gas: u64, exit: Exit, cmds: seq<Command>) {
    match v
    case V1 => s == SummaryV1(rs)
    case V2 =>
      && s.SummaryV2? && s.gas == gas && s.exit == exit
      && |s.receipts| == |cmds| && rs <= s.receipts
      && forall i | |rs| <= i < |cmds| ::
           var kind := KindOf(cmds[i].payload);
           s.receipts[i] == Receipt(kind, NotExecuted, 0, if Reports(kind) then Some(0) else None)
  }

  lemma {:induction false} IntoReceiptSums(v: Version, rs: seq<Receipt>, gas: u64, exit: Exit, cmds: seq<Command>)
    requires |rs| <= |cmds| && (if rs == [] then cmds == [] && exit == Success else rs[|rs| - 1].exit == exit)
    ensures var s := IntoReceipt(v, rs, gas, cmds); s.Some? && Summarises(v, s.value, rs, gas, exit, cmds)
  {
  }

  /** An accepted transaction's receipt. */
  lemma {:induction false} ReceiptIs(w: World, txn: Txn, block: Block)
    requires Sound(w) && PreCharge(w, txn, block).Accepted? && Transit(w, txn, block).Finished?
    ensures var t, w1 := Transit(w, txn, block), PreCharge(w, txn, block).world;
      && t.receipt.Some?
      && Summarises(txn.version, t.receipt.value, CommandsPhase(w1, txn).receipts, FeeGas(w1, txn), ExitOf(t.error),
                    txn.commands)
  {
    hide CommandsPhase, PhaseOk, LedgerOk, Follows, Supply, Sound, PreCharge, SettleFits, Settle;
    hide IntoReceipt, Summarises, GasSum, Refund, Tip, TreasuryCut, Prepaid;
    var w1 := PreCharge(w, txn, block).world;
    var p := CommandsPhase(w1, txn);
    PreChargeOk(w, txn, block);
    AcceptedInclusion(w, txn, block);
    CommandsPhaseOk(w1, txn);
    FeeGasIsOnTheReceipts(w1, txn);
    IntoReceiptSums(txn.version, p.receipts, FeeGas(w1, txn), ExitOf(p.error), txn.commands);
  }
}
