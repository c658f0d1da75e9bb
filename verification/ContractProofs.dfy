/** Contract execution: nested metering is flat metering, and a body can only move tokens, write
    storage and defer deposit commands. */
module ContractProofs {
  import opened Words
  import opened Sums
  import opened Network
  import opened Gas
  import opened Contract

  // ---------- metering ----------

  /** Charge a list of costs one after the other, stopping at zero: no nesting, no limits handed down. */
  function Flat(gas: u64, costs: seq<u64>): u64
    decreases |costs|
  {
    if costs == [] then gas else Flat(SatSub(gas, costs[0]), costs[1..])
  }

  /** The costs a run is charged, in order, children inlined, up to where it stops. */
  function PayCosts(m: Machine, payer: Address, amount: u64, cost: Cost, writeCost: Cost): seq<u64> {
    if Get0(m.world.balances, payer) < amount then [Net(cost)] else [Net(cost), Net(writeCost)]
  }

  function StepCosts(m: Machine, self: Address, op: Op): seq<u64>
    requires m.ok
    decreases op
  {
    match op
    case Wasm(gas) => [gas]
    case Host(cost, _) => [Net(cost)]
    case Store(_, _, cost) => [Net(cost)]
    case Pay(_, amount, cost, writeCost) => PayCosts(m, self, amount, cost, writeCost)
    case Defer(_, _, cost) => [Net(cost)]
    case Invoke(target, value, cost, writeCost, loadCost, engine, body, returnCost) =>
      var m1 := if value.Some? then PayFrom(m, self, target, value.value, cost, writeCost) else Deduct(m, cost);
      var before := if value.Some? then PayCosts(m, self, value.value, cost, writeCost) else [Net(cost)];
      if !m1.ok then before
      else
        var m2 := Deduct(m1, loadCost);
        if !(Loads(m2.world, target, engine) && engine.instantiates) then before + [Net(loadCost)]
        else
          before + [Net(loadCost)] + RunCosts(m2, target, body)
          + (if Run(m2, target, body).ok then [Net(returnCost)] else [])
    case Branch(key, expected, cost, same, other) =>
      var ops := if Stored(m.world.storage, self, key) == expected then same else other;
      [Net(cost)] + RunCosts(Deduct(m, cost), self, ops)
  }

  function RunCosts(m: Machine, self: Address, ops: seq<Op>): seq<u64>
    decreases ops
  {
    if ops == [] || !m.ok then []
    else StepCosts(m, self, ops[0]) + RunCosts(Step(m, self, ops[0]), self, ops[1..])
  }

  ghost function Total(costs: seq<u64>): nat { if costs == [] then 0 else costs[0] + Total(costs[1..]) }

  lemma {:induction false} FlatAppend(gas: u64, a: seq<u64>, b: seq<u64>)
    ensures Flat(gas, a + b) == Flat(Flat(gas, a), b)
    decreases |a|
  {
    if a == [] {
      assert a + b == b;
    } else {
      assert (a + b)[1..] == a[1..] + b;
      FlatAppend(SatSub(gas, a[0]), a[1..], b);
    }
  }

  /** Flat charging takes the whole sum, or everything there is. */
  lemma {:induction false} FlatIs(gas: u64, costs: seq<u64>)
    ensures Flat(gas, costs) == Max(gas - Total(costs), 0)
    decreases |costs|
  {
    if costs == [] {
    } else {
      FlatIs(SatSub(gas, costs[0]), costs[1..]);
    }
  }

  lemma FlatOne(gas: u64, a: u64)
    ensures Flat(gas, [a]) == SatSub(gas, a)
  {
    assert [a][1..] == [];
  }

  lemma {:induction false} PayIsFlat(m: Machine, payer: Address, recipient: Address, amount: u64, cost: Cost,
      writeCost: Cost)
    ensures PayFrom(m, payer, recipient, amount, cost, writeCost).gas
      == Flat(m.gas, PayCosts(m, payer, amount, cost, writeCost))
  {
    FlatOne(m.gas, Net(cost));
    FlatOne(SatSub(m.gas, Net(cost)), Net(writeCost));
    assert [Net(cost), Net(writeCost)] == [Net(cost)] + [Net(writeCost)];
    FlatAppend(m.gas, [Net(cost)], [Net(writeCost)]);
  }

  lemma {:induction false} StepIsFlat(m: Machine, self: Address, op: Op)
    requires m.ok
    ensures Step(m, self, op).gas == Flat(m.gas, StepCosts(m, self, op))
    decreases op
  {
    hide Net;
    match op
    case Wasm(gas) => FlatOne(m.gas, gas);
    case Host(cost, _) => FlatOne(m.gas, Net(cost));
    case Store(_, _, cost) => FlatOne(m.gas, Net(cost));
    case Pay(recipient, amount, cost, writeCost) => PayIsFlat(m, self, recipient, amount, cost, writeCost);
    case Defer(_, _, cost) => FlatOne(m.gas, Net(cost));
    case Invoke(target, value, cost, writeCost, loadCost, engine, body, returnCost) =>
      InvokeIsFlat(m, self, target, value, cost, writeCost, loadCost, engine, body, returnCost);
    case Branch(key, expected, cost, same, other) =>
      var ops := if Stored(m.world.storage, self, key) == expected then same else other;
      FlatOne(m.gas, Net(cost));
      RunIsFlat(Deduct(m, cost), self, ops);
      FlatAppend(m.gas, [Net(cost)], RunCosts(Deduct(m, cost), self, ops));
  }

  lemma {:induction false} InvokeIsFlat(m: Machine, self: Address, target: Address, value: Option<u64>, cost: Cost,
      writeCost: Cost, loadCost: Cost, engine: Engine, body: seq<Op>, returnCost: Cost)
    requires m.ok
    ensures var op := Invoke(target, value, cost, writeCost, loadCost, engine, body, returnCost);
      Step(m, self, op).gas == Flat(m.gas, StepCosts(m, self, op))
    decreases body, 1
  {
    hide Net, PayFrom, PayCosts;
    var m1 := if value.Some? then PayFrom(m, self, target, value.value, cost, writeCost) else Deduct(m, cost);
    var before := if value.Some? then PayCosts(m, self, value.value, cost, writeCost) else [Net(cost)];
    if value.Some? { PayIsFlat(m, self, target, value.value, cost, writeCost); } else { FlatOne(m.gas, Net(cost)); }
    if m1.ok {
      var m2 := Deduct(m1, loadCost);
      FlatAppend(m.gas, before, [Net(loadCost)]);
      FlatOne(m1.gas, Net(loadCost));
      if Loads(m2.world, target, engine) && engine.instantiates {
        var inner := RunCosts(m2, target, body);
        var child := Run(m2, target, body);
        RunIsFlat(m2, target, body);
        FlatIs(m2.gas, inner);
        FlatAppend(m.gas, before + [Net(loadCost)], inner);
        FlatAppend(m.gas, before + [Net(loadCost)] + inner, if child.ok then [Net(returnCost)] else []);
        FlatOne(child.gas, Net(returnCost));
      }
    }
  }

  /** Handing each child the parent's remaining gas and deducting what the child consumed leaves the
      same gas as charging the flattened costs one by one. */
  lemma {:induction false} RunIsFlat(m: Machine, self: Address, ops: seq<Op>)
    ensures Run(m, self, ops).gas == Flat(m.gas, RunCosts(m, self, ops))
    decreases ops, 0
  {
    if ops == [] || !m.ok {
    } else {
      StepIsFlat(m, self, ops[0]);
      RunIsFlat(Step(m, self, ops[0]), self, ops[1..]);
      FlatAppend(m.gas, StepCosts(m, self, ops[0]), RunCosts(Step(m, self, ops[0]), self, ops[1..]));
    }
  }

  /** So a contract execution consumes the total of its costs, capped at the gas it was given. */
  lemma {:induction false} RunConsumes(m: Machine, self: Address, ops: seq<Op>)
    ensures SatSub(m.gas, Run(m, self, ops).gas) == Min(m.gas, Total(RunCosts(m, self, ops)))
  {
    RunIsFlat(m, self, ops);
    FlatIs(m.gas, RunCosts(m, self, ops));
  }

  // ---------- effects ----------

  lemma {:induction false} MoveConserves(b: map<Address, u64>, payer: Address, recipient: Address, amount: u64)
    requires amount <= Get0(b, payer) && Sum(b) <= U64_MAX
    ensures Sum(Move(b, payer, recipient, amount)) == Sum(b)
    ensures payer == recipient ==> Get0(Move(b, payer, recipient, amount), payer) == Get0(b, payer)
    ensures payer != recipient ==>
      && Get0(Move(b, payer, recipient, amount), payer) == Get0(b, payer) - amount
      && Get0(Move(b, payer, recipient, amount), recipient) == Get0(b, recipient) + amount
  {
    var b1 := b[payer := Get0(b, payer) - amount];
    SumUpdate(b, payer, Get0(b, payer) - amount);
    SumAtLeast(b1, recipient);
    SumUpdate(b1, recipient, Get0(b1, recipient) + amount);
  }

  /** The amount moved from payer to recipient (who may be the same), and nothing else changed. */
  ghost predicate Paid(w: World, w': World, payer: Address, recipient: Address, amount: u64) {
    && w' == w.(balances := w'.balances)
    && forall a :: Get0(w'.balances, a)
         == Get0(w.balances, a) - (if a == payer then amount else 0) + (if a == recipient then amount else 0)
  }

  lemma {:induction false} MovePays(w: World, payer: Address, recipient: Address, amount: u64)
    requires amount <= Get0(w.balances, payer) && Sum(w.balances) <= U64_MAX
    ensures Paid(w, w.(balances := Move(w.balances, payer, recipient, amount)), payer, recipient, amount)
  {
    MoveConserves(w.balances, payer, recipient, amount);
  }

  /** What a contract may do to the world: nothing but conserve tokens and write storage. */
  ghost predicate Tame(w: World, w': World) {
    && Sum(w'.balances) == Sum(w.balances)
    && w' == w.(balances := w'.balances, storage := w'.storage)
  }

  ghost predicate AllDeferrable(ds: seq<Deferred>) {
    forall i | 0 <= i < |ds| :: Deferrable(KindOf(ds[i].command.payload))
  }

  ghost predicate Bounded(m: Machine) { Sum(m.world.balances) <= U64_MAX && AllDeferrable(m.deferred) }

  lemma {:induction false} PayTame(m: Machine, payer: Address, recipient: Address, amount: u64, cost: Cost,
      writeCost: Cost)
    requires Bounded(m)
    ensures var m' := PayFrom(m, payer, recipient, amount, cost, writeCost);
      Tame(m.world, m'.world) && m'.deferred == m.deferred && m'.gas <= m.gas
  {
    if amount <= Get0(m.world.balances, payer) {
      MoveConserves(m.world.balances, payer, recipient, amount);
    }
  }

  lemma {:induction false} StepTame(m: Machine, self: Address, op: Op)
    requires m.ok && Bounded(m)
    ensures var m' := Step(m, self, op);
      Tame(m.world, m'.world) && AllDeferrable(m'.deferred) && m.deferred <= m'.deferred
    decreases op
  {
    match op
    case Pay(recipient, amount, cost, writeCost) => PayTame(m, self, recipient, amount, cost, writeCost);
    case Invoke(target, value, cost, writeCost, loadCost, engine, body, returnCost) =>
      var m1 := if value.Some? then PayFrom(m, self, target, value.value, cost, writeCost) else Deduct(m, cost);
      if value.Some? { PayTame(m, self, target, value.value, cost, writeCost); }
      hide PayFrom;
      if m1.ok {
        RunTame(Deduct(m1, loadCost), target, body);
      }
    case Branch(key, expected, cost, same, other) =>
      RunTame(Deduct(m, cost), self, if Stored(m.world.storage, self, key) == expected then same else other);
    case _ =>
  }

  /** Whatever a body does, tokens are conserved, staking state is untouched, and every command it
      defers is of a kind that has a `defer_*` host function. */
  lemma {:induction false} RunTame(m: Machine, self: Address, ops: seq<Op>)
    requires Bounded(m)
    ensures var m' := Run(m, self, ops);
      Tame(m.world, m'.world) && AllDeferrable(m'.deferred) && m.deferred <= m'.deferred
    decreases ops
  {
    if ops == [] || !m.ok {
    } else {
      StepTame(m, self, ops[0]);
      hide Step;
      RunTame(Step(m, self, ops[0]), self, ops[1..]);
    }
  }

  // ---------- what each operation does ----------

  /** One cell of one account's storage holds the data now, and every other cell what it held. */
  ghost predicate CellSet(s: Storage, s': Storage, a: Address, key: Bytes, data: Bytes) {
    forall b, k :: Lookup(Trie(s', b), k) == if (b, k) == (a, key) then Some(data) else Lookup(Trie(s, b), k)
  }

  lemma SetStorageSets(s: Storage, a: Address, key: Bytes, data: Bytes)
    ensures CellSet(s, SetStorage(s, a, key, data), a, key, data)
  {
  }

  /** The effect of each operation besides its gas, which RunIsFlat accounts for.  A called contract starts
      after its value has been paid, runs as itself, on the gas its caller has left. */
  lemma {:induction false} StepEffect(m: Machine, self: Address, op: Op) returns (start: World)
    requires m.ok && Sum(m.world.balances) <= U64_MAX
    ensures var m' := Step(m, self, op);
      match op
      case Wasm(gas) => m'.world == m.world && m'.deferred == m.deferred && (m'.ok <==> gas <= m.gas)
      case Host(_, ok) => m'.world == m.world && m'.deferred == m.deferred && m'.ok == ok
      case Store(key, data, _) =>
        && m'.ok && m'.deferred == m.deferred && m'.world == m.world.(storage := m'.world.storage)
        && CellSet(m.world.storage, m'.world.storage, self, key, data)
      case Pay(recipient, amount, _, _) =>
        && m'.deferred == m.deferred && (m'.ok <==> amount <= Get0(m.world.balances, self))
        && (if m'.ok then Paid(m.world, m'.world, self, recipient, amount) else m'.world == m.world)
      case Defer(via, command, _) =>
        && m'.world == m.world
        && var kinds := {KCreateDeposit, KSetDepositSettings, KTopUpDeposit,
                         KWithdrawDeposit, KStakeDeposit, KUnstakeDeposit};
        && (m'.ok <==> KindOf(command.payload) == via && via in kinds)
        && m'.deferred == if m'.ok then m.deferred + [Deferred(self, command)] else m.deferred
      case Invoke(target, value, cost, writeCost, loadCost, engine, body, _) =>
        if OrZero(value) > Get0(m.world.balances, self)
        then !m'.ok && m'.world == m.world && m'.deferred == m.deferred
        else
          && Paid(m.world, start, self, target, OrZero(value))
          && if !((engine.cached || (target in m.world.contracts && engine.compiles)) && engine.instantiates)
             then !m'.ok && m'.world == start && m'.deferred == m.deferred
             else
               var paid := SatSub(SatSub(m.gas, Net(cost)), if value.Some? then Net(writeCost) else 0);
               var child := Run(Machine(start, SatSub(paid, Net(loadCost)), m.deferred, true), target, body);
               m'.ok == child.ok && m'.world == child.world && m'.deferred == child.deferred
      case Branch(key, expected, cost, same, other) =>
        var ops := if Stored(m.world.storage, self, key) == expected then same else other;
        m' == Run(m.(gas := SatSub(m.gas, Net(cost))), self, ops)
  {
    hide Run, Move, SetStorage, Sum, Net;
    start := m.world;
    match op
    case Store(key, data, _) => SetStorageSets(m.world.storage, self, key, data);
    case Pay(recipient, amount, _, _) =>
      if amount <= Get0(m.world.balances, self) { MovePays(m.world, self, recipient, amount); }
    case Invoke(target, value, _, _, _, _, _, _) =>
      if value.Some? && value.value <= Get0(m.world.balances, self) {
        MovePays(m.world, self, target, value.value);
        start := m.world.(balances := Move(m.world.balances, self, target, value.value));
      }
    case _ =>
  }

  /** Kinds and payloads go together one to one. */
  lemma KindsMatch(p: Payload)
    ensures && (KindOf(p) == KTransfer <==> p.Transfer?) && (KindOf(p) == KDeploy <==> p.Deploy?)
            && (KindOf(p) == KCall <==> p.Call?) && (KindOf(p) == KCreatePool <==> p.CreatePool?)
            && (KindOf(p) == KSetPoolSettings <==> p.SetPoolSettings?) && (KindOf(p) == KDeletePool <==> p.DeletePool?)
            && (KindOf(p) == KCreateDeposit <==> p.CreateDeposit?)
            && (KindOf(p) == KSetDepositSettings <==> p.SetDepositSettings?)
            && (KindOf(p) == KTopUpDeposit <==> p.TopUpDeposit?)
            && (KindOf(p) == KWithdrawDeposit <==> p.WithdrawDeposit?)
            && (KindOf(p) == KStakeDeposit <==> p.StakeDeposit?)
            && (KindOf(p) == KUnstakeDeposit <==> p.UnstakeDeposit?)
  {
  }

  /** What a contract stored is what it reads back; an empty value reads as absent. */
  lemma {:induction false} StoreThenBranch(m: Machine, self: Address, key: Bytes, data: Bytes, cost: Cost, op: Op)
    requires m.ok && Sum(m.world.balances) <= U64_MAX && op.Branch? && op.key == key
    ensures var m1 := Step(m, self, Store(key, data, cost));
      m1.ok && Step(m1, self, op)
        == Run(m1.(gas := SatSub(m1.gas, Net(op.cost))), self,
               if op.expected == (if data == [] then None else Some(data)) then op.same else op.other)
  {
    hide Run, Sum, Net, SetStorage;
    SetStorageSets(m.world.storage, self, key, data);
    var m1 := Step(m, self, Store(key, data, cost));
    assert Lookup(Trie(m1.world.storage, self), key) == Some(data);
  }
}
