/** The mutable parts of a transaction's execution state besides the world: meter and receipts. */
module ExecutionParts {
  import opened Words
  import opened Gas
  import opened Contract
  import opened Transaction

  class GasMeter {
    const limit: u64
    var inclusion: u64
    var executed: u64
    var current: Cost

    function Value(): Meter
      reads this
    {
      Meter(limit, inclusion, executed, current)
    }

    constructor (limit: u64)
      ensures Value() == Meter(limit, 0, 0, NO_COST)
    {
      this.limit := limit;
      inclusion, executed, current := 0, 0, NO_COST;
    }

    /** Inclusion gas is kept apart from the commands; a transaction that cannot pay it is turned away. */
    method ChargeInclusion(cost: u64) returns (ok: bool)
      modifies this
      ensures ok <==> cost <= limit
      ensures Value() == if ok then old(Value()).(inclusion := cost) else old(Value())
    {
      ok := cost <= limit;
      if ok {
        inclusion := cost;
      }
    }

    method ChargeCost(cost: Cost)
      modifies this`current
      ensures Value() == Charge(old(Value()), cost)
    {
      current := Cost(SatAdd(current.deduct, cost.deduct), SatAdd(current.reward, cost.reward));
    }

    method TotalExecuted() returns (total: u64)
      ensures total == Executed(Value())
    {
      total := SatAdd(inclusion, executed);
    }

    method TotalUsed() returns (total: u64)
      ensures total == Used(Value())
    {
      var before := TotalExecuted();
      total := SatAdd(before, Net(current));
    }

    /** Close the current command: its gas, clamped to what the limit leaves, joins the total. */
    method TakeResult() returns (gas: u64)
      modifies this
      ensures gas == Clamped(old(Value())) && Value() == Take(old(Value()))
    {
      var used := Net(current);
      var before := TotalExecuted();
      var allowed := SatSub(limit, before);
      gas := if used <= allowed then used else allowed;
      executed := SatAdd(executed, gas);
      current := NO_COST;
    }
  }

  class ReceiptBuffer {
    var receipts: seq<Receipt>

    constructor ()
      ensures receipts == []
    {
      receipts := [];
    }

    method Push(r: Receipt)
      modifies this
      ensures receipts == old(receipts) + [r]
    {
      receipts := receipts + [r];
    }

    /** Edit the last receipt in place: add the gas, override exit code and, where it applies, output. */
    method PushLate(v: Version, r: Receipt)
      modifies this
      ensures receipts == PushDeferred(v, old(receipts), r)
    {
      if receipts != [] {
        var i := |receipts| - 1;
        var last := receipts[i];
        last := last.(gas := SatAdd(last.gas, r.gas), exit := r.exit);
        if v.V1? || (last.kind.KCall? && (r.kind.KCall? || Reports(r.kind))) {
          last := last.(amount := r.amount);
        }
        receipts := receipts[i := last];
      }
    }

    /** None stands for the unwrap of a missing last receipt. */
    method Finalize(v: Version, gas: u64, cmds: seq<Command>) returns (summary: Option<Summary>)
      ensures summary == IntoReceipt(v, receipts, gas, cmds)
    {
      if v.V1? {
        return Some(SummaryV1(receipts));
      }
      if |cmds| == 0 && |receipts| == 0 {
        return Some(SummaryV2(gas, Success, receipts));
      }
      if receipts == [] {
        return None;
      }
      var exit := receipts[|receipts| - 1].exit;
      var all := receipts;
      var i := |receipts|;
      while i < |cmds|
        invariant |receipts| <= i && (i <= |cmds| || i == |receipts|)
        invariant i == |receipts| ==> all == receipts
        invariant |receipts| < i ==> all == receipts + Fillers(cmds[|receipts|..i])
      {
        all := all + [NotRun(KindOf(cmds[i].payload))];
        i := i + 1;
        assert all == receipts + Fillers(cmds[|receipts|..i]);
      }
      assert |receipts| < |cmds| ==> cmds[|receipts|..] == cmds[|receipts|..i];
      summary := Some(SummaryV2(gas, exit, all));
    }
  }

  /** The remaining-gas global of one Wasm instance. */
  class WasmerGas {
    var remaining: u64

    constructor (gas: u64)
      ensures remaining == gas
    {
      remaining := gas;
    }

    method Subtract(amount: u64)
      modifies this
      ensures remaining == SatSub(old(remaining), amount)
    {
      remaining := SatSub(remaining, amount);
    }
  }
}

/** Contract instances: each call gets its own gas global, shares the context, and hands its
    consumption back to its caller. */
module Instances {
  import opened Words
  import opened Gas
  import opened Contract
  import opened WorldCache
  import opened ExecutionParts

  /** What every nested call shares: the cached world and the deferred commands. */
  class Context {
    const cache: WorldStateCache
    var deferred: seq<Deferred>

    constructor (cache: WorldStateCache)
      ensures this.cache == cache && deferred == []
    {
      this.cache := cache;
      deferred := [];
    }

    ghost predicate Valid()
      reads this, cache, cache.Pending()
    {
      cache.Valid()
    }

    ghost function At(gas: u64, ok: bool): Machine
      reads this, cache, cache.Pending()
    {
      Machine(cache.View(), gas, deferred, ok)
    }

    method Transfer(payer: Address, recipient: Address, amount: u64, cost: Cost, writeCost: Cost, g: WasmerGas)
        returns (ok: bool)
      requires Valid()
      modifies cache.balances, g
      ensures Valid()
      ensures At(g.remaining, ok) == PayFrom(old(At(g.remaining, true)), payer, recipient, amount, cost, writeCost)
    {
      hide WorldStateCache.View, WorldStateCache.Valid, Move;
      assert g as object !in cache.Pending() + {cache};
      g.Subtract(Net(cost));
      ok := cache.MoveTokens(payer, recipient, amount);
      if ok {
        g.Subtract(Net(writeCost));
      }
    }

    method RunOp(self: Address, op: Op, g: WasmerGas) returns (ok: bool)
      requires Valid()
      modifies this, cache.balances, cache.contracts, cache.storage, g
      ensures Valid()
      ensures At(g.remaining, ok) == Step(old(At(g.remaining, true)), self, op)
      decreases op, 1
    {
      hide WorldStateCache.View, WorldStateCache.Valid, PayFrom, SetStorage, Loads, Trie, Run;
      assert g as object !in cache.Pending() + {cache};
      match op {
        case Wasm(gas) =>
          if g.remaining < gas {
            g.remaining := 0;
            return false;
          }
          g.Subtract(gas);
          ok := true;
        case Host(cost, fine) =>
          g.Subtract(Net(cost));
          ok := fine;
        case Store(key, data, cost) =>
          g.Subtract(Net(cost));
          cache.SetStorageData(self, key, data);
          ok := true;
        case Pay(recipient, amount, cost, writeCost) =>
          ok := Transfer(self, recipient, amount, cost, writeCost, g);
        case Defer(via, command, cost) =>
          g.Subtract(Net(cost));
          ok := Deferrable(via) && KindOf(command.payload) == via;
          if ok {
            deferred := deferred + [Deferred(self, command)];
          }
        case Invoke(_, _, _, _, _, _, _, _) =>
          ok := RunInvoke(self, op, g);
        case Branch(_, _, _, _, _) =>
          ok := RunBranch(self, op, g);
      }
    }

    /** Read the storage and go on accordingly. */
    method RunBranch(self: Address, op: Op, g: WasmerGas) returns (ok: bool)
      requires Valid() && op.Branch?
      modifies this, cache.balances, cache.contracts, cache.storage, g
      ensures Valid()
      ensures At(g.remaining, ok) == Step(old(At(g.remaining, true)), self, op)
      decreases op, 0
    {
      hide WorldStateCache.View, WorldStateCache.Valid, Trie, Run;
      assert g as object !in cache.Pending() + {cache};
      g.Subtract(Net(op.cost));
      var data := cache.GetStorage(self, op.key);
      if NonEmpty(data) == op.expected {
        ok := RunBody(self, op.same, g);
      } else {
        ok := RunBody(self, op.other, g);
      }
    }

    /** A call to another contract: pay it, load it, run it. */
    method RunInvoke(self: Address, op: Op, g: WasmerGas) returns (ok: bool)
      requires Valid() && op.Invoke?
      modifies this, cache.balances, cache.contracts, cache.storage, g
      ensures Valid()
      ensures At(g.remaining, ok) == Step(old(At(g.remaining, true)), self, op)
      decreases op, 0
    {
      hide WorldStateCache.View, WorldStateCache.Valid, PayFrom, Loads, Run;
      assert g as object !in cache.Pending() + {cache};
      if op.value.Some? {
        ok := Transfer(self, op.target, op.value.value, op.cost, op.writeCost, g);
        if !ok {
          return;
        }
      } else {
        g.Subtract(Net(op.cost));
      }
      g.Subtract(Net(op.loadCost));
      var found := cache.LoadModule(op.target, op.engine);
      if !found || !op.engine.instantiates {
        return false;
      }
      ok := CallChild(op.target, op.body, op.returnCost, g);
    }

    /** The child runs on the parent's remaining gas; the parent pays what the child consumed. */
    method CallChild(target: Address, body: seq<Op>, returnCost: Cost, g: WasmerGas) returns (ok: bool)
      requires Valid()
      modifies this, cache.balances, cache.contracts, cache.storage, g
      ensures Valid()
      ensures var m := old(At(g.remaining, true));
        var child := Run(m, target, body);
        var m' := child.(gas := SatSub(m.gas, SatSub(m.gas, child.gas)));
        At(g.remaining, ok) == if child.ok then Deduct(m', returnCost) else m'
      decreases body, 2
    {
      hide Run, OverlayStorage;
      var consumed, exhausted;
      consumed, ok, exhausted := CallInstance(target, body, g.remaining);
      g.Subtract(consumed);
      if ok {
        g.Subtract(Net(returnCost));
      }
    }

    /** Run a body on a fresh gas global; the consumption is the limit less what remains. */
    method CallInstance(self: Address, body: seq<Op>, gasLimit: u64) returns (consumed: u64, ok: bool, exhausted: bool)
      requires Valid()
      modifies this, cache.balances, cache.contracts, cache.storage
      ensures Valid()
      ensures var m := Run(old(At(gasLimit, true)), self, body);
        consumed == SatSub(gasLimit, m.gas) && At(m.gas, ok) == m && (exhausted <==> m.gas == 0)
      decreases body, 1
    {
      hide Run, OverlayStorage;
      var global := new WasmerGas(gasLimit);
      ok := RunBody(self, body, global);
      consumed := SatSub(gasLimit, global.remaining);
      exhausted := global.remaining == 0;
    }

    method RunBody(self: Address, ops: seq<Op>, g: WasmerGas) returns (ok: bool)
      requires Valid()
      modifies this, cache.balances, cache.contracts, cache.storage, g
      ensures Valid()
      ensures At(g.remaining, ok) == Run(old(At(g.remaining, true)), self, ops)
      decreases ops, 0
    {
      hide Step, OverlayStorage;
      if ops == [] {
        return true;
      }
      ok := RunOp(self, ops[0], g);
      if ok {
        ok := RunBody(self, ops[1..], g);
      }
    }
  }
}
