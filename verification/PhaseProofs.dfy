/** The commands phase over an arbitrary list: safety, the gas ledger, the receipts and the schedule. */
module PhaseProofs {
  import opened Words
  import opened Network
  import opened Staking
  import opened Gas
  import opened GasProofs
  import opened Contract
  import opened Transaction
  import opened StakingProofs
  import opened ContractProofs
  import opened TransactionProofs

  // ---------- safety ----------

  /** Between commands: the context is sound, and after a failure the view is the committed world. */
  ghost predicate PhaseOk(p: Phase, w: World) {
    && CtxOk(p.ctx) && p.ctx.ws == w
    && (p.error.Some? ==> p.ctx.view == w)
  }

  lemma CompleteOk(c: Ctx)
    requires CtxOk(c)
    ensures CtxOk(Complete(c))
  {
    hide Keeps, Sound;
  }

  lemma RunSentOk(p: Phase, w: World, txn: Txn, index: nat, cmd: Command)
    requires PhaseOk(p, w)
    ensures PhaseOk(RunSent(p, txn, index, cmd), w)
    ensures AllDeferrable(DeferredBy(p, txn, cmd))
  {
    ExecOk(p.ctx, txn.signer, txn.signer, cmd);
    var r := Exec(p.ctx, txn.signer, txn.signer, cmd);
    CompleteOk(r.ctx);
    hide Exec, Keeps, Sound, Take;
  }

  lemma {:induction false} RunLatesOk(p: Phase, w: World, txn: Txn, index: nat, ds: seq<Deferred>)
    requires PhaseOk(p, w)
    ensures PhaseOk(RunLates(p, txn, index, ds), w)
    decreases |ds|
  {
    if ds == [] || p.error.Some? {
    } else {
      ExecOk(p.ctx, txn.signer, ds[0].contract, ds[0].command);
      CompleteOk(Exec(p.ctx, txn.signer, ds[0].contract, ds[0].command).ctx);
      hide Exec, Keeps, Sound, Take, PushDeferred;
      RunLatesOk(RunLate(p, txn, index, ds[0]), w, txn, index, ds[1..]);
    }
  }

  /** For any command list, with whatever its contracts defer: tokens conserved, invariant kept, and
      if any command or deferred command fails, everything is as it was before the first command. */
  lemma {:induction false} RunAllOk(p: Phase, w: World, txn: Txn, index: nat, cmds: seq<Command>)
    requires PhaseOk(p, w)
    ensures PhaseOk(RunAll(p, txn, index, cmds), w)
    decreases |cmds|
  {
    hide PhaseOk, RunSent, RunLates, DeferredBy;
    if cmds == [] || p.error.Some? {
    } else {
      RunSentOk(p, w, txn, index, cmds[0]);
      var p1 := RunSent(p, txn, index, cmds[0]);
      var ds := if p1.error.None? then DeferredBy(p, txn, cmds[0]) else [];
      RunLatesOk(p1, w, txn, index + 1, ds);
      RunAllOk(RunLates(p1, txn, index + 1, ds), w, txn, index + 1, cmds[1..]);
    }
  }

  // ---------- gas ledger ----------

  ghost function GasSum(rs: seq<Receipt>): nat { if rs == [] then 0 else GasSum(rs[..|rs| - 1]) + rs[|rs| - 1].gas }

  ghost predicate LedgerOk(p: Phase, limit: u64, inclusion: u64) {
    && p.ctx.meter.limit == limit && p.ctx.meter.inclusion == inclusion
    && p.ctx.meter.current == NO_COST
    && MeterOk(p.ctx.meter)
    && p.ctx.meter.executed == GasSum(p.receipts)
    && (p.error == Some(ExecutionProperGasExhausted) ==> inclusion + p.ctx.meter.executed == limit)
  }

  lemma RunSentLedger(p: Phase, txn: Txn, index: nat, cmd: Command, limit: u64, inclusion: u64)
    requires LedgerOk(p, limit, inclusion)
    ensures LedgerOk(RunSent(p, txn, index, cmd), limit, inclusion)
  {
    ExecMetered(p.ctx, txn.signer, txn.signer, cmd);
    var r := Exec(p.ctx, txn.signer, txn.signer, cmd);
    hide Exec;
    TakeLedger(r.ctx.meter);
    var rcpt := ReceiptOf(txn.version, r, KindOf(cmd.payload));
    assert (p.receipts + [rcpt])[..|p.receipts|] == p.receipts;
  }

  lemma {:induction false} RunLatesLedger(p: Phase, txn: Txn, index: nat, ds: seq<Deferred>, limit: u64, inclusion: u64)
    requires LedgerOk(p, limit, inclusion) && p.receipts != []
    ensures var p' := RunLates(p, txn, index, ds); LedgerOk(p', limit, inclusion) && |p'.receipts| == |p.receipts|
    decreases |ds|
  {
    if ds == [] || p.error.Some? {
    } else {
      RunLateLedger(p, txn, index, ds[0], limit, inclusion);
      hide LedgerOk, RunLate;
      RunLatesLedger(RunLate(p, txn, index, ds[0]), txn, index, ds[1..], limit, inclusion);
    }
  }

  lemma RunLateLedger(p: Phase, txn: Txn, index: nat, d: Deferred, limit: u64, inclusion: u64)
    requires LedgerOk(p, limit, inclusion) && p.receipts != []
    ensures var p' := RunLate(p, txn, index, d); LedgerOk(p', limit, inclusion) && |p'.receipts| == |p.receipts|
  {
    ExecMetered(p.ctx, txn.signer, d.contract, d.command);
    var r := Exec(p.ctx, txn.signer, d.contract, d.command);
    hide Exec;
    TakeLedger(r.ctx.meter);
    var rs := p.receipts;
    var rs' := PushDeferred(txn.version, rs, ReceiptOf(txn.version, r, KindOf(d.command.payload)));
    assert rs'[..|rs'| - 1] == rs[..|rs| - 1];
  }

  /** Inclusion plus executed gas never passes the limit and is inclusion plus the gas on the
      receipts, deferred gas merged in; running out of gas uses up exactly the limit. */
  lemma {:induction false} RunAllLedger(p: Phase, txn: Txn, index: nat, cmds: seq<Command>, limit: u64, inclusion: u64)
    requires LedgerOk(p, limit, inclusion)
    ensures LedgerOk(RunAll(p, txn, index, cmds), limit, inclusion)
    decreases |cmds|
  {
    if cmds == [] || p.error.Some? {
    } else {
      RunSentLedger(p, txn, index, cmds[0], limit, inclusion);
      var p1 := RunSent(p, txn, index, cmds[0]);
      assert p1.receipts != [];
      hide LedgerOk, RunSent, RunLates, DeferredBy;
      var ds := if p1.error.None? then DeferredBy(p, txn, cmds[0]) else [];
      RunLatesLedger(p1, txn, index + 1, ds, limit, inclusion);
      RunAllLedger(RunLates(p1, txn, index + 1, ds), txn, index + 1, cmds[1..], limit, inclusion);
    }
  }

  // ---------- exactness of the ledger ----------

  /** The net cost of a command, before any clamping. */
  function NetOf(r: Ran): u64 { Net(r.ctx.meter.current) }

  /** The meter went from `m` to `m'` over commands of this net cost: it stays within the limit and never
      charges more than the cost; if all succeeded, it charged exactly the cost if and only if the true
      total fits a word, which it does unless the limit is the largest word. */
  ghost predicate Accounts(m: Meter, m': Meter, net: nat, ok: bool) {
    && m' == m.(executed := m'.executed, current := NO_COST) && MeterOk(m')
    && m'.executed <= m.executed + net
    && (ok ==> (m'.executed == m.executed + net <==> m.inclusion + m.executed + net <= U64_MAX))
    && (ok && m.limit < U64_MAX ==> m'.executed == m.executed + net)
  }

  lemma AccountsTrans(m: Meter, m1: Meter, m2: Meter, a: nat, b: nat, ok: bool)
    requires Accounts(m, m1, a, true) && Accounts(m1, m2, b, ok)
    ensures Accounts(m, m2, a + b, ok)
  {
  }

  lemma {:induction false} ExecAccounts(c: Ctx, signer: Address, actor: Address, cmd: Command)
    requires MeterOk(c.meter)
    ensures var r := Exec(c, signer, actor, cmd); Accounts(c.meter, Take(r.ctx.meter), NetOf(r), r.error.None?)
  {
    hide Exec;
    ExecMetered(c, signer, actor, cmd);
    TakeLedger(Exec(c, signer, actor, cmd).ctx.meter);
  }

  /** The true net costs of all commands that run, deferred ones included. */
  ghost function LatesNet(p: Phase, txn: Txn, index: nat, ds: seq<Deferred>): nat
    decreases |ds|
  {
    hide Exec;
    if ds == [] || p.error.Some? then 0
    else
      var first := NetOf(Exec(p.ctx, txn.signer, ds[0].contract, ds[0].command));
      first + LatesNet(RunLate(p, txn, index, ds[0]), txn, index, ds[1..])
  }

  ghost function AllNet(p: Phase, txn: Txn, index: nat, cmds: seq<Command>): nat
    decreases |cmds|
  {
    hide Exec;
    if cmds == [] || p.error.Some? then 0
    else
      var p1 := RunSent(p, txn, index, cmds[0]);
      var ds := if p1.error.None? then DeferredBy(p, txn, cmds[0]) else [];
      NetOf(Exec(p.ctx, txn.signer, txn.signer, cmds[0])) + LatesNet(p1, txn, index + 1, ds)
      + AllNet(RunLates(p1, txn, index + 1, ds), txn, index + 1, cmds[1..])
  }

  lemma {:induction false} RunLatesAccounts(p: Phase, txn: Txn, index: nat, ds: seq<Deferred>)
    requires MeterOk(p.ctx.meter) && p.ctx.meter.current == NO_COST && p.error.None?
    ensures var p' := RunLates(p, txn, index, ds);
      Accounts(p.ctx.meter, p'.ctx.meter, LatesNet(p, txn, index, ds), p'.error.None?)
    decreases |ds|
  {
    hide Exec, Take;
    if ds == [] {
    } else {
      var p1 := RunLate(p, txn, index, ds[0]);
      ExecAccounts(p.ctx, txn.signer, ds[0].contract, ds[0].command);
      if p1.error.None? {
        RunLatesAccounts(p1, txn, index, ds[1..]);
        var net := NetOf(Exec(p.ctx, txn.signer, ds[0].contract, ds[0].command));
        var p' := RunLates(p1, txn, index, ds[1..]);
        AccountsTrans(p.ctx.meter, p1.ctx.meter, p'.ctx.meter, net, LatesNet(p1, txn, index, ds[1..]), p'.error.None?);
      }
    }
  }

  /** The gas of a whole successful run is the sum of the true net costs of all its commands, sent and
      deferred, if and only if that sum and the inclusion gas fit a word. */
  lemma {:induction false} RunAllAccounts(p: Phase, txn: Txn, index: nat, cmds: seq<Command>)
    requires MeterOk(p.ctx.meter) && p.ctx.meter.current == NO_COST && p.error.None?
    ensures var p' := RunAll(p, txn, index, cmds);
      Accounts(p.ctx.meter, p'.ctx.meter, AllNet(p, txn, index, cmds), p'.error.None?)
    decreases |cmds|
  {
    hide Exec, Take;
    if cmds == [] {
    } else {
      var p1 := RunSent(p, txn, index, cmds[0]);
      var net := NetOf(Exec(p.ctx, txn.signer, txn.signer, cmds[0]));
      ExecAccounts(p.ctx, txn.signer, txn.signer, cmds[0]);
      if p1.error.None? {
        var ds := DeferredBy(p, txn, cmds[0]);
        var p2 := RunLates(p1, txn, index + 1, ds);
        RunLatesAccounts(p1, txn, index + 1, ds);
        AccountsTrans(p.ctx.meter, p1.ctx.meter, p2.ctx.meter, net, LatesNet(p1, txn, index + 1, ds), p2.error.None?);
        if p2.error.None? {
          RunAllAccounts(p2, txn, index + 1, cmds[1..]);
          var p' := RunAll(p2, txn, index + 1, cmds[1..]);
          AccountsTrans(p.ctx.meter, p2.ctx.meter, p'.ctx.meter, net + LatesNet(p1, txn, index + 1, ds),
                        AllNet(p2, txn, index + 1, cmds[1..]), p'.error.None?);
        }
      }
    }
  }

  // ---------- receipts ----------

  /** One receipt per started command, of its kind; every one but the last a success, and the last one
      carrying the outcome so far. */
  ghost predicate ShapeOk(p: Phase, cmds: seq<Command>) {
    && |p.receipts| <= |cmds|
    && (forall i | 0 <= i < |p.receipts| :: p.receipts[i].kind == KindOf(cmds[i].payload))
    && (forall i | 0 <= i < |p.receipts| - 1 :: p.receipts[i].exit == Success)
    && (if p.receipts == [] then p.error.None? else p.receipts[|p.receipts| - 1].exit == ExitOf(p.error))
  }

  lemma {:induction false} RunLatesShape(p: Phase, txn: Txn, index: nat, ds: seq<Deferred>, cmds: seq<Command>)
    requires ShapeOk(p, cmds) && p.receipts != []
    ensures var p' := RunLates(p, txn, index, ds); ShapeOk(p', cmds) && |p'.receipts| == |p.receipts|
    decreases |ds|
  {
    hide Exec;
    if ds == [] || p.error.Some? {
    } else {
      RunLatesShape(RunLate(p, txn, index, ds[0]), txn, index, ds[1..], cmds);
    }
  }

  lemma RunSentShape(p: Phase, txn: Txn, index: nat, cmds: seq<Command>)
    requires ShapeOk(p, cmds) && index == |p.receipts| < |cmds| && p.error.None?
    ensures var p1 := RunSent(p, txn, index, cmds[index]); ShapeOk(p1, cmds) && |p1.receipts| == index + 1
  {
    hide Exec;
  }

  lemma {:induction false} RunAllShape(p: Phase, txn: Txn, index: nat, cmds: seq<Command>)
    requires ShapeOk(p, cmds) && index == |p.receipts| <= |cmds|
    ensures var p' := RunAll(p, txn, index, cmds[index..]);
      ShapeOk(p', cmds) && (p'.error.None? ==> |p'.receipts| == |cmds|)
    decreases |cmds| - index
  {
    hide ShapeOk, RunSent, RunLates, DeferredBy;
    if index < |cmds| && p.error.None? {
      var cmd := cmds[index];
      var p1 := RunSent(p, txn, index, cmd);
      RunSentShape(p, txn, index, cmds);
      var ds := if p1.error.None? then DeferredBy(p, txn, cmd) else [];
      assert cmds[index..][0] == cmd && cmds[index..][1..] == cmds[index + 1..];
      RunLatesShape(p1, txn, index + 1, ds, cmds);
      RunAllShape(RunLates(p1, txn, index + 1, ds), txn, index + 1, cmds);
    }
  }

  // ---------- schedule ----------

  /** What the k-th command of the transaction leaves to be done after it, at its turn. */
  ghost function Spawned(s: Phase, txn: Txn, k: nat): seq<Deferred>
    requires k < |txn.commands|
  {
    var p := RunAll(s, txn, 0, txn.commands[..k]);
    if RunSent(p, txn, k, txn.commands[k]).error.None? then DeferredBy(p, txn, txn.commands[k]) else []
  }

  function LateEvents(index: nat, ds: seq<Deferred>): seq<Event> {
    if ds == [] then [] else [Event(index, Late(ds[0]))] + LateEvents(index, ds[1..])
  }

  /** The k-th command with index k, then the first `ran[k]` of the commands it deferred, in push order,
      with the index of the next command; and so on for every k. */
  ghost function Schedule(s: Phase, txn: Txn, ran: seq<nat>): seq<Event>
    requires |ran| <= |txn.commands|
    requires forall k | 0 <= k < |ran| :: ran[k] <= |Spawned(s, txn, k)|
    decreases |ran|
  {
    hide Spawned;
    if ran == [] then []
    else
      var k := |ran| - 1;
      Schedule(s, txn, ran[..k]) + [Event(k, Sent(txn.commands[k]))] + LateEvents(k + 1, Spawned(s, txn, k)[..ran[k]])
  }

  /** The trace of the first `n` commands is such a schedule: complete if all succeeded, and otherwise
      complete but for the commands that the last one deferred; and deferred commands are of kinds that
      defer nothing themselves. */
  ghost predicate Follows(s: Phase, txn: Txn, n: nat, p: Phase, ran: seq<nat>)
    requires n <= |txn.commands|
  {
    && |ran| <= n
    && (forall k | 0 <= k < |ran| :: ran[k] <= |Spawned(s, txn, k)| && AllDeferrable(Spawned(s, txn, k)))
    && p.trace == s.trace + Schedule(s, txn, ran)
    && (p.error.None? ==> |ran| == n)
    && (forall k | 0 <= k < |ran| && (p.error.None? || k < |ran| - 1) :: ran[k] == |Spawned(s, txn, k)|)
  }

  /** The commands a call deferred run right after it in the order in which it pushed them. */
  lemma {:induction false} RunLatesOrder(p: Phase, txn: Txn, index: nat, ds: seq<Deferred>) returns (k: nat)
    ensures k <= |ds|
    ensures var p' := RunLates(p, txn, index, ds);
      && p'.trace == p.trace + LateEvents(index, ds[..k])
      && (p'.error.None? ==> k == |ds|)
    decreases |ds|
  {
    hide RunLate;
    if ds == [] || p.error.Some? {
      k := 0;
      assert p.trace + [] == p.trace;
    } else {
      var e, p1 := Event(index, Late(ds[0])), RunLate(p, txn, index, ds[0]);
      RunLateTrace(p, txn, index, ds[0]);
      var n := RunLatesOrder(p1, txn, index, ds[1..]);
      k := n + 1;
      assert ds[..k][0] == ds[0] && ds[..k][1..] == ds[1..][..n];
      Reassociate(p.trace, [e], LateEvents(index, ds[1..][..n]));
    }
  }

  lemma Reassociate<T>(a: seq<T>, b: seq<T>, c: seq<T>)
    ensures (a + b) + c == a + (b + c)
  {
  }

  /** Running one more command after others. */
  lemma {:induction false} RunAllSnoc(p: Phase, txn: Txn, index: nat, cmds: seq<Command>, cmd: Command)
    ensures var q := RunAll(p, txn, index, cmds);
      RunAll(p, txn, index, cmds + [cmd]) ==
        if q.error.Some? then q
        else
          var k, q1 := index + |cmds|, RunSent(q, txn, index + |cmds|, cmd);
          RunLates(q1, txn, k + 1, if q1.error.None? then DeferredBy(q, txn, cmd) else [])
    decreases |cmds|
  {
    hide RunSent, RunLates, DeferredBy;
    if cmds == [] {
      assert ([] + [cmd])[1..] == [];
    } else if p.error.None? {
      assert (cmds + [cmd])[0] == cmds[0] && (cmds + [cmd])[1..] == cmds[1..] + [cmd];
      var p1 := RunSent(p, txn, index, cmds[0]);
      var ds := if p1.error.None? then DeferredBy(p, txn, cmds[0]) else [];
      RunAllSnoc(RunLates(p1, txn, index + 1, ds), txn, index + 1, cmds[1..], cmd);
    }
  }

  lemma {:induction false} ScheduleStep(s: Phase, txn: Txn, ran: seq<nat>, k: nat)
    requires |ran| < |txn.commands| && k <= |Spawned(s, txn, |ran|)|
    requires forall k | 0 <= k < |ran| :: ran[k] <= |Spawned(s, txn, k)|
    ensures forall j | 0 <= j < |ran| + 1 :: (ran + [k])[j] <= |Spawned(s, txn, j)|
    ensures Schedule(s, txn, ran + [k])
         == Schedule(s, txn, ran) + [Event(|ran|, Sent(txn.commands[|ran|]))]
           + LateEvents(|ran| + 1, Spawned(s, txn, |ran|)[..k])
  {
    hide Spawned, LateEvents;
    assert (ran + [k])[..|ran|] == ran;
  }

  lemma {:induction false} FollowsStep(s: Phase, txn: Txn, n: nat, q: Phase, p: Phase, ran: seq<nat>, k: nat)
    requires n < |txn.commands| && q.error.None? && Follows(s, txn, n, q, ran)
    requires AllDeferrable(Spawned(s, txn, n)) && k <= |Spawned(s, txn, n)|
      && (p.error.None? ==> k == |Spawned(s, txn, n)|)
    requires p.trace == q.trace + [Event(n, Sent(txn.commands[n]))] + LateEvents(n + 1, Spawned(s, txn, n)[..k])
    ensures Follows(s, txn, n + 1, p, ran + [k])
  {
    hide Spawned, AllDeferrable, LateEvents, Schedule;
    var sent, late := [Event(n, Sent(txn.commands[n]))], LateEvents(n + 1, Spawned(s, txn, n)[..k]);
    ScheduleStep(s, txn, ran, k);
    Reassociate(s.trace, Schedule(s, txn, ran), sent);
    Reassociate(s.trace, Schedule(s, txn, ran) + sent, late);
  }

  /** The executed sequence is each command of the transaction, with its own index, followed at once by
      the commands it deferred, in push order, up to the first failure. */
  lemma {:induction false} RunAllSchedule(s: Phase, w: World, txn: Txn, n: nat) returns (ran: seq<nat>)
    requires PhaseOk(s, w) && s.error.None? && n <= |txn.commands|
    ensures Follows(s, txn, n, RunAll(s, txn, 0, txn.commands[..n]), ran)
    decreases n
  {
    hide PhaseOk, RunSent, RunLates, DeferredBy, AllDeferrable;
    if n == 0 {
      ran := [];
    } else {
      var k, cmd := n - 1, txn.commands[n - 1];
      var before := txn.commands[..k];
      ran := RunAllSchedule(s, w, txn, k);
      var q := RunAll(s, txn, 0, before);
      assert txn.commands[..n] == before + [cmd];
      RunAllSnoc(s, txn, 0, before, cmd);
      if q.error.None? {
        RunAllOk(s, w, txn, 0, before);
        RunSentOk(q, w, txn, k, cmd);
        NoneDeferrable();
        var q1 := RunSent(q, txn, k, cmd);
        var late := RunLatesOrder(q1, txn, k + 1, Spawned(s, txn, k));
        RunSentTrace(q, txn, k, cmd);
        FollowsStep(s, txn, k, q, RunAll(s, txn, 0, txn.commands[..n]), ran, late);
        ran := ran + [late];
      }
    }
  }

  lemma NoneDeferrable()
    ensures AllDeferrable([])
  {
  }

  lemma RunLateTrace(p: Phase, txn: Txn, index: nat, d: Deferred)
    ensures RunLate(p, txn, index, d).trace == p.trace + [Event(index, Late(d))]
  {
    hide Exec;
  }

  lemma RunSentTrace(p: Phase, txn: Txn, index: nat, cmd: Command)
    ensures RunSent(p, txn, index, cmd).trace == p.trace + [Event(index, Sent(cmd))]
  {
    hide Exec;
  }

  /** Only a Call defers commands. */
  lemma {:induction false} OnlyCallsDefer(c: Ctx, signer: Address, actor: Address, cmd: Command)
    requires !cmd.payload.Call?
    ensures Exec(c, signer, actor, cmd).ctx.deferred == c.deferred
  {
    hide Stakes, Used, Add;
  }

  /** So a deferred command leaves nothing deferred: what the executor drops when it completes one is empty. */
  lemma {:induction false} LatesSpawnNothing(p: Phase, txn: Txn, index: nat, ds: seq<Deferred>, i: nat)
    requires p.ctx.deferred == [] && AllDeferrable(ds) && i < |ds|
    ensures var q := RunLates(p, txn, index, ds[..i]);
      q.ctx.deferred == [] && Exec(q.ctx, txn.signer, ds[i].contract, ds[i].command).ctx.deferred == []
    decreases i
  {
    hide Exec;
    if i == 0 || p.error.Some? {
      OnlyCallsDefer(p.ctx, txn.signer, ds[i].contract, ds[i].command);
    } else {
      assert ds[..i][0] == ds[0] && ds[..i][1..] == ds[1..][..i - 1];
      LatesSpawnNothing(RunLate(p, txn, index, ds[0]), txn, index, ds[1..], i - 1);
    }
  }
}
