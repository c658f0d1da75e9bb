/** The main results about a whole transaction. */
module TransactionTheorems {
  import opened Words
  import opened Sums
  import opened Network
  import opened Staking
  import opened Products
  import opened Gas
  import opened Contract
  import opened Transaction
  import opened Invariant
  import opened StakingProofs
  import opened TransactionProofs
  import opened PhaseProofs

  // ---------- settlement ----------

  /** The part of the base fee that leaves circulation. */
  function Burnt(gas: nat, baseFee: nat): int { Mul(gas, baseFee) - TreasuryCut(gas, baseFee) }

  /** The shares in numbers: the refund is the price of the unused gas, the tip the priority fee of the used
      gas, the treasury's cut a fifth of its base fee, rounded down; the rest of the base fee is burnt. */
  lemma FeeNumbers(txn: Txn, block: Block, gas: u64)
    requires gas <= txn.gasLimit
    ensures Prepaid(txn, block) == txn.gasLimit * (block.baseFee + txn.priorityFee)
    ensures Refund(txn, block, gas) == (txn.gasLimit - gas) * (block.baseFee + txn.priorityFee)
    ensures Tip(txn, gas) == gas * txn.priorityFee
    ensures TreasuryCut(gas, block.baseFee) == gas * block.baseFee * 20 / 100
    ensures var cut, base := TreasuryCut(gas, block.baseFee), gas * block.baseFee;
      100 * cut <= 20 * base < 100 * cut + 100 && Burnt(gas, block.baseFee) == base - cut
  {
  }

  /** Prepaying and then settling moves exactly the burnt part of the base fee out of circulation. */
  lemma FeesAddUp(txn: Txn, block: Block, gas: u64)
    requires gas <= txn.gasLimit
    ensures Refund(txn, block, gas) + Tip(txn, gas) + TreasuryCut(gas, block.baseFee)
         == Prepaid(txn, block) - Burnt(gas, block.baseFee)
    ensures 0 <= Burnt(gas, block.baseFee)
  {
    hide Mul;
    MulAdd(txn.gasLimit - gas, gas, block.baseFee + txn.priorityFee);
    MulAdd(block.baseFee, txn.priorityFee, gas);
  }

  lemma {:induction false} CreditAdds(b: map<Address, u64>, a: Address, amount: nat)
    requires Sum(b) + amount <= U64_MAX
    ensures Sum(Credit(b, a, amount)) == Sum(b) + amount
    ensures forall k :: Get0(Credit(b, a, amount), k) == Get0(b, k) + (if k == a then amount else 0)
  {
    SumAtLeast(b, a);
    SumUpdate(b, a, Get0(b, a) + amount);
  }

  /** Whoever the signer, the proposer and the treasury are, and however they coincide, each account
      ends with what it had plus every share due to it. */
  lemma {:induction false} SettlePays(w: World, txn: Txn, block: Block, gas: u64)
    requires gas <= txn.gasLimit
    requires Sum(w.balances) + Refund(txn, block, gas) + Tip(txn, gas) + TreasuryCut(gas, block.baseFee) <= U64_MAX
    ensures var w' := Settle(w, txn, block, gas);
      && Sum(w'.balances) == Sum(w.balances) + Refund(txn, block, gas) + Tip(txn, gas) + TreasuryCut(gas, block.baseFee)
      && forall a :: Get0(w'.balances, a) == Get0(w.balances, a)
             + (if a == txn.signer then Refund(txn, block, gas) else 0)
             + (if a == block.proposer then Tip(txn, gas) else 0)
             + (if a == block.treasury then TreasuryCut(gas, block.baseFee) else 0)
  {
    hide Credit, TreasuryCut, Refund, Tip, Sum;
    var refund, tip, cut := Refund(txn, block, gas), Tip(txn, gas), TreasuryCut(gas, block.baseFee);
    var b1 := Credit(w.balances, txn.signer, refund);
    CreditAdds(w.balances, txn.signer, refund);
    var b2 := Credit(b1, block.proposer, tip);
    CreditAdds(b1, block.proposer, tip);
    CreditAdds(b2, block.treasury, cut);
  }

  // ---------- from pre-charge to the end of the commands ----------

  /** When a transaction is accepted: it pays for its inclusion, its nonce is the signer's next, and the
      price of its whole gas limit fits a word and the signer's balance; otherwise the first of these that
      fails is the error.  An accepted signer has paid exactly that price, and nothing else has changed. */
  lemma {:induction false} AcceptedIff(w: World, txn: Txn, block: Block)
    ensures var r, have := PreCharge(w, txn, block), Get0(w.balances, txn.signer);
      var price := txn.gasLimit * (block.baseFee + txn.priorityFee);
      var included, next := txn.inclusionCost <= txn.gasLimit, txn.nonce == Get0(w.nonces, txn.signer);
      var affordable := block.baseFee + txn.priorityFee <= U64_MAX && price <= U64_MAX && price <= have;
      && (r.Accepted? <==> included && next && affordable)
      && (r == Rejected(PreExecutionGasExhausted) <==> !included)
      && (r == Rejected(WrongNonce) <==> included && !next)
      && (r == Rejected(NotEnoughBalanceForGasLimit) <==> included && next && !affordable)
      && (r.Accepted? ==>
            && r.world == w.(balances := r.world.balances)
            && forall a :: Get0(r.world.balances, a) == Get0(w.balances, a) - (if a == txn.signer then price else 0))
  {
    assert Prepaid(txn, block) == txn.gasLimit * (block.baseFee + txn.priorityFee) by {
      FeeNumbers(txn, block, 0);
    }
    hide Prepaid;
  }

  lemma {:induction false} PreChargeOk(w: World, txn: Txn, block: Block)
    requires Sound(w) && PreCharge(w, txn, block).Accepted?
    ensures var w1 := PreCharge(w, txn, block).world;
      && Sound(w1) && w1 == w.(balances := w1.balances)
      && Supply(w1) == Supply(w) - Prepaid(txn, block)
      && (forall a ::
            Get0(w1.balances, a) == Get0(w.balances, a) - (if a == txn.signer then Prepaid(txn, block) else 0))
  {
    hide Inv, DepositTotal, Prepaid, Sum;
    var have := Get0(w.balances, txn.signer);
    SumUpdate(w.balances, txn.signer, have - Prepaid(txn, block));
  }

  lemma StartOk(w: World, txn: Txn)
    requires Sound(w) && txn.inclusionCost <= txn.gasLimit
    ensures PhaseOk(Start(w, txn), w)
    ensures LedgerOk(Start(w, txn), txn.gasLimit, txn.inclusionCost)
    ensures ShapeOk(Start(w, txn), txn.commands)
  {
    hide Inv, NoLooser, Supply;
    KeepsRefl(w);
  }

  /** Everything the commands phase guarantees, for any accepted transaction. */
  lemma {:induction false} CommandsPhaseOk(w: World, txn: Txn)
    requires Sound(w) && txn.inclusionCost <= txn.gasLimit
    ensures var p := CommandsPhase(w, txn);
      && PhaseOk(p, w)
      && LedgerOk(p, txn.gasLimit, txn.inclusionCost)
      && ShapeOk(p, txn.commands) && (p.error.None? ==> |p.receipts| == |txn.commands|)
      && exists ran :: Follows(Start(w, txn), txn, |txn.commands|, p, ran)
  {
    var s := Start(w, txn);
    StartOk(w, txn);
    assert txn.commands[0..] == txn.commands;
    hide PhaseOk, LedgerOk, ShapeOk, Follows, RunAll;
    RunAllOk(s, w, txn, 0, txn.commands);
    RunAllLedger(s, txn, 0, txn.commands, txn.gasLimit, txn.inclusionCost);
    RunAllShape(s, txn, 0, txn.commands);
    assert txn.commands[..|txn.commands|] == txn.commands;
    var ran := RunAllSchedule(s, w, txn, |txn.commands|);
    assert Follows(s, txn, |txn.commands|, RunAll(s, txn, 0, txn.commands), ran);
  }

  /** The gas a transaction is charged for. */
  function FeeGas(w: World, txn: Txn): u64 { GasCharged(CommandsPhase(w, txn).ctx.meter, txn) }

  /** It is the inclusion cost plus the gas on the receipts, and within the limit. */
  lemma {:induction false} FeeGasIsOnTheReceipts(w: World, txn: Txn)
    requires Sound(w) && txn.inclusionCost <= txn.gasLimit
    ensures var p := CommandsPhase(w, txn);
      && FeeGas(w, txn) == Executed(p.ctx.meter) == txn.inclusionCost + GasSum(p.receipts) <= txn.gasLimit
      && (p.error == Some(ExecutionProperGasExhausted) ==> FeeGas(w, txn) == txn.gasLimit)
  {
    hide CommandsPhase, PhaseOk, ShapeOk, Follows, GasSum;
    CommandsPhaseOk(w, txn);
  }

  // ---------- the theorems ----------

  /** A sufficient condition that can be read off the transaction. */
  predicate FeesFit(txn: Txn, block: Block) { Mul(txn.gasLimit, block.baseFee) * 20 <= U64_MAX }

  /** The supply right before the charge phase, for any accepted transaction. */
  lemma {:induction false} ViewSupply(w: World, txn: Txn, block: Block)
    requires Sound(w) && PreCharge(w, txn, block).Accepted?
    ensures var p := CommandsPhase(PreCharge(w, txn, block).world, txn);
      && Supply(p.ctx.view) == Supply(w) - Prepaid(txn, block) && Inv(p.ctx.view.net)
      && (p.receipts == [] ==> txn.commands == [])
  {
    var w1 := PreCharge(w, txn, block).world;
    PreChargeOk(w, txn, block);
    hide Inv, NoLooser, Supply, CommandsPhase, LedgerOk, Follows, Prepaid;
    CommandsPhaseOk(w1, txn);
  }

  lemma AcceptedFees(w: World, txn: Txn, block: Block, gas: u64)
    requires PreCharge(w, txn, block).Accepted? && gas <= txn.gasLimit
    ensures block.baseFee + txn.priorityFee <= U64_MAX
    ensures Refund(txn, block, gas) <= U64_MAX && Tip(txn, gas) <= U64_MAX
    ensures FeesFit(txn, block) ==> Mul(gas, block.baseFee) * 20 <= U64_MAX
  {
    hide Mul;
    MulLe(txn.gasLimit - gas, txn.gasLimit, block.baseFee + txn.priorityFee, block.baseFee + txn.priorityFee);
    MulLe(gas, txn.gasLimit, txn.priorityFee, block.baseFee + txn.priorityFee);
    MulLe(gas, txn.gasLimit, block.baseFee, block.baseFee);
  }

  /** After an accepted pre-charge one step of the charge phase can overflow, and no other: the product
      20 * gas_used * base_fee. */
  lemma {:induction false} ChargeOverflowsIff(w: World, txn: Txn, block: Block)
    requires Sound(w) && PreCharge(w, txn, block).Accepted?
    ensures var w1 := PreCharge(w, txn, block).world;
      var p, gas := CommandsPhase(w1, txn), FeeGas(w1, txn);
      && (SettleFits(p.ctx.view, txn, block, gas) <==> Mul(gas, block.baseFee) * 20 <= U64_MAX)
      && (FeesFit(txn, block) ==> SettleFits(p.ctx.view, txn, block, gas))
      && Sum(p.ctx.view.balances) + Refund(txn, block, gas) + Tip(txn, gas) + TreasuryCut(gas, block.baseFee) <= U64_MAX
  {
    hide CommandsPhase, DepositTotal, Inv, PreCharge, TreasuryCut, Refund, Tip, Prepaid, FeesFit, Burnt, Sum;
    var w1 := PreCharge(w, txn, block).world;
    var p, gas := CommandsPhase(w1, txn), FeeGas(w1, txn);
    ViewSupply(w, txn, block);
    AcceptedFees(w, txn, block, gas);
    FeesAddUp(txn, block, gas);
    SumAtLeast(p.ctx.view.balances, txn.signer);
  }

  /** Whole-transaction conservation: for any command list, with deferred commands and contract
      transfers, succeeding or failing after pre-charge, the tokens in balances and deposits drop by
      exactly the base fee less the treasury's fifth of it; and the world stays sound for the next one. */
  lemma {:induction false} TransactionConserves(w: World, txn: Txn, block: Block)
    requires Sound(w) && PreCharge(w, txn, block).Accepted?
    ensures var t, gas := Transit(w, txn, block), FeeGas(PreCharge(w, txn, block).world, txn);
      t.Finished? ==>
        && Supply(t.world) == Supply(w) - (gas * block.baseFee - gas * block.baseFee * 20 / 100)
        && Sound(t.world)
  {
    hide CommandsPhase, DepositTotal, Inv, PreCharge, SettleFits, TreasuryCut, Refund, Tip, Prepaid, Burnt, Sum;
    hide FeesFit;
    var w1 := PreCharge(w, txn, block).world;
    var p, gas := CommandsPhase(w1, txn), FeeGas(w1, txn);
    ViewSupply(w, txn, block);
    ChargeOverflowsIff(w, txn, block);
    SettlePays(p.ctx.view, txn, block, gas);
    FeesAddUp(txn, block, gas);
    FeeNumbers(txn, block, gas);
  }

  /** A finished transaction commits what its commands made of the world; signer, proposer and treasury get
      their shares on top, whoever they are; and the signer's nonce goes up by one. */
  lemma {:induction false} TransactionCommits(w: World, txn: Txn, block: Block)
    requires Sound(w) && PreCharge(w, txn, block).Accepted? && Transit(w, txn, block).Finished?
    ensures var t, w1 := Transit(w, txn, block), PreCharge(w, txn, block).world;
      var p, gas := CommandsPhase(w1, txn), FeeGas(w1, txn);
      && t.error == p.error
      && t.world == p.ctx.view.(balances := t.world.balances,
                                nonces := w.nonces[txn.signer := SatAdd(Get0(w.nonces, txn.signer), 1)])
      && forall a :: Get0(t.world.balances, a) == Get0(p.ctx.view.balances, a)
             + (if a == txn.signer then (txn.gasLimit - gas) * (block.baseFee + txn.priorityFee) else 0)
             + (if a == block.proposer then gas * txn.priorityFee else 0)
             + (if a == block.treasury then gas * block.baseFee * 20 / 100 else 0)
  {
    hide CommandsPhase, Supply, Sound, PreCharge, SettleFits, FeesFit;
    hide TreasuryCut, Prepaid, Refund, Tip, Credit, Sum;
    var w1 := PreCharge(w, txn, block).world;
    PreChargeOk(w, txn, block);
    ViewNonces(w, txn, block);
    ChargeOverflowsIff(w, txn, block);
    SettlePays(CommandsPhase(w1, txn).ctx.view, txn, block, FeeGas(w1, txn));
    FeeNumbers(txn, block, FeeGas(w1, txn));
  }

  /** Commands do not touch nonces. */
  lemma {:induction false} ViewNonces(w: World, txn: Txn, block: Block)
    requires Sound(w) && PreCharge(w, txn, block).Accepted?
    ensures CommandsPhase(PreCharge(w, txn, block).world, txn).ctx.view.nonces == w.nonces
  {
    hide CommandsPhase, LedgerOk, ShapeOk, Follows, Sound, PreCharge, Inv, Supply, NoLooser;
    PreChargeOk(w, txn, block);
    AcceptedInclusion(w, txn, block);
    CommandsPhaseOk(PreCharge(w, txn, block).world, txn);
  }

  /** Atomic abort: if anything fails after pre-charge, the final world differs from the initial one
      only in the fee movements of signer, proposer and treasury and in the signer's nonce. */
  lemma {:induction false} AbortIsAtomic(w: World, txn: Txn, block: Block)
    requires Sound(w) && PreCharge(w, txn, block).Accepted?
    ensures var t, gas := Transit(w, txn, block), FeeGas(PreCharge(w, txn, block).world, txn);
      t.Finished? && t.error.Some? ==>
        && t.world == w.(balances := t.world.balances,
                         nonces := w.nonces[txn.signer := SatAdd(Get0(w.nonces, txn.signer), 1)])
        && forall a :: Get0(t.world.balances, a) == Get0(w.balances, a)
             - (if a == txn.signer then gas * (block.baseFee + txn.priorityFee) else 0)
             + (if a == block.proposer then gas * txn.priorityFee else 0)
             + (if a == block.treasury then gas * block.baseFee * 20 / 100 else 0)
  {
    hide CommandsPhase, Supply, Sound, PreCharge, Transit, Prepaid;
    if Transit(w, txn, block).Finished? && Transit(w, txn, block).error.Some? {
      PreChargeOk(w, txn, block);
      FailureRestores(w, txn, block);
      TransactionCommits(w, txn, block);
      FeeOfUsedGas(txn, block, FeeGas(PreCharge(w, txn, block).world, txn));
    }
  }

  lemma FeeOfUsedGas(txn: Txn, block: Block, gas: u64)
    requires gas <= txn.gasLimit
    ensures Prepaid(txn, block)
         == (txn.gasLimit - gas) * (block.baseFee + txn.priorityFee) + gas * (block.baseFee + txn.priorityFee)
  {
    FeeNumbers(txn, block, gas);
  }

  /** After a failure the commands phase leaves the world as pre-charge left it. */
  lemma {:induction false} FailureRestores(w: World, txn: Txn, block: Block)
    requires Sound(w) && PreCharge(w, txn, block).Accepted?
    ensures var w1 := PreCharge(w, txn, block).world;
      CommandsPhase(w1, txn).error.Some? ==> CommandsPhase(w1, txn).ctx.view == w1
  {
    hide CommandsPhase, LedgerOk, ShapeOk, Follows, CtxOk, Sound, PreCharge;
    PreChargeOk(w, txn, block);
    AcceptedInclusion(w, txn, block);
    CommandsPhaseOk(PreCharge(w, txn, block).world, txn);
  }

  lemma AcceptedInclusion(w: World, txn: Txn, block: Block)
    requires PreCharge(w, txn, block).Accepted?
    ensures txn.inclusionCost <= txn.gasLimit
  {
  }

  /** A rejected transaction changes nothing, if it returns at all: a V2 transaction with commands
      panics while building the receipt it then drops. */
  lemma {:induction false} RejectionChangesNothing(w: World, txn: Txn, block: Block)
    requires PreCharge(w, txn, block).Rejected?
    ensures var t := Transit(w, txn, block);
      if txn.version.V2? && txn.commands != [] then t.Panicked?
      else t == Finished(w, None, Some(PreCharge(w, txn, block).error))
  {
  }

  /** A transaction panics in two cases only: it is a rejected V2 transaction with commands, or it is
      accepted and 20 times its base fee does not fit a word. */
  lemma {:induction false} PanicsIff(w: World, txn: Txn, block: Block)
    requires Sound(w)
    ensures Transit(w, txn, block).Panicked? <==>
      match PreCharge(w, txn, block)
      case Rejected(_) => txn.version.V2? && txn.commands != []
      case Accepted(w1) => FeeGas(w1, txn) * block.baseFee * 20 > U64_MAX
    ensures FeesFit(txn, block) && PreCharge(w, txn, block).Accepted? ==> Transit(w, txn, block).Finished?
  {
    if PreCharge(w, txn, block).Accepted? {
      ViewSupply(w, txn, block);
      ChargeOverflowsIff(w, txn, block);
      assert Mul(FeeGas(PreCharge(w, txn, block).world, txn), block.baseFee)
        == FeeGas(PreCharge(w, txn, block).world, txn) * block.baseFee;
      hide PreCharge, Sound, CommandsPhase, SettleFits, FeesFit, Settle, Supply, Mul, Inv, Sum;
    } else {
      RejectionChangesNothing(w, txn, block);
      hide Transit, PreCharge, Sound;
    }
  }

  /** No pools, no deposits. */
  function EmptyNetwork(limits: Limits): Network { Network(limits, map[], map[], map[], [], [], 0) }

  /** A world of accounts only. */
  function Accounts(balances: map<Address, u64>): World {
    World(balances, map[], map[], map[], map[], EmptyNetwork(Limits(1, 1)))
  }

  /** A base fee of 10^13 is affordable for a million units of gas, but 20 times the fee of the 200000 that
      are used overflows. */
  lemma {:induction false} FeeOverflowPanics()
    ensures var w := Accounts(map[7 := 10_000_000_000_000_000_000]);
      var txn, block := Txn(V1, 7, 0, 1_000_000, 0, 200_000, []), Block(10_000_000_000_000, 8, 9);
      PreCharge(w, txn, block).Accepted? && Transit(w, txn, block).Panicked?
  {
    var w := Accounts(map[7 := 10_000_000_000_000_000_000]);
    var txn, block := Txn(V1, 7, 0, 1_000_000, 0, 200_000, []), Block(10_000_000_000_000, 8, 9);
    assert Prepaid(txn, block) == 10_000_000_000_000_000_000;
    assert PreCharge(w, txn, block).Accepted?;
    assert FeeGas(PreCharge(w, txn, block).world, txn) == 200_000;
  }

  /** A V2 transaction that pays for its inclusion but has the wrong nonce. */
  lemma {:induction false} RejectedV2Panics()
    ensures var w := Accounts(map[]);
      var txn := Txn(V2, 7, 1, 1_000_000, 0, 200_000, [Command(DeletePool, Cost(1_000, 0), 0)]);
      PreCharge(w, txn, Block(0, 8, 9)) == Rejected(WrongNonce) && Transit(w, txn, Block(0, 8, 9)).Panicked?
  {
    var w := Accounts(map[]);
    var txn := Txn(V2, 7, 1, 1_000_000, 0, 200_000, [Command(DeletePool, Cost(1_000, 0), 0)]);
    assert PreCharge(w, txn, Block(0, 8, 9)) == Rejected(WrongNonce);
  }

  /** The V2 receipt of an accepted transaction: one command receipt per command, of its kind; a run
      of successes, at most one failure, then only NotExecuted with no gas; the overall exit code is
      that of the last command that ran, and the gas is what the fees were computed from. */
  lemma {:induction false} ReceiptV2Shape(w: World, txn: Txn, block: Block) returns (k: nat)
    requires Sound(w) && PreCharge(w, txn, block).Accepted? && txn.version.V2?
    requires Transit(w, txn, block).Finished?
    ensures var t := Transit(w, txn, block);
      && t.receipt.Some? && t.receipt.value.SummaryV2?
      && t.receipt.value.gas == FeeGas(PreCharge(w, txn, block).world, txn)
      && t.receipt.value.exit == ExitOf(t.error)
      && var rs := t.receipt.value.receipts;
      && k <= |rs| == |txn.commands|
      && (forall i | 0 <= i < |rs| :: rs[i].kind == KindOf(txn.commands[i].payload))
      && (forall i | 0 <= i < k :: rs[i].exit == Success)
      && (k < |rs| ==> t.error.Some? && rs[k].exit == Failed(t.error.value))
      && (forall i | k < i < |rs| :: rs[i].exit == NotExecuted && rs[i].gas == 0)
      && (k == |rs| ==> t.error.None?)
  {
    hide CommandsPhase, PhaseOk, LedgerOk, Follows, Supply, Sound, PreCharge, SettleFits, Settle, GasSum, Refund, Tip,
      TreasuryCut, Prepaid;
    var w1 := PreCharge(w, txn, block).world;
    var p := CommandsPhase(w1, txn);
    PreChargeOk(w, txn, block);
    AcceptedInclusion(w, txn, block);
    CommandsPhaseOk(w1, txn);
    FeeGasIsOnTheReceipts(w1, txn);
    k := if p.error.None? then |p.receipts| else |p.receipts| - 1;
  }

  /** The fee gas of a successful transaction is its inclusion gas plus the true net cost of every command,
      sent or deferred, if and only if that sum fits a word; it always does below the largest gas limit. */
  lemma {:induction false} SuccessIsExact(w: World, txn: Txn)
    requires txn.inclusionCost <= txn.gasLimit
    ensures var p, net := CommandsPhase(w, txn), AllNet(Start(w, txn), txn, 0, txn.commands);
      p.error.None? ==>
        && (FeeGas(w, txn) == txn.inclusionCost + net <==> txn.inclusionCost + net <= U64_MAX)
        && (txn.gasLimit < U64_MAX ==> FeeGas(w, txn) == txn.inclusionCost + net)
  {
    hide RunAll, AllNet;
    RunAllAccounts(Start(w, txn), txn, 0, txn.commands);
  }

  /** With the largest gas limit, after a contract that leaves 5 units of gas, a transfer that costs 10
      succeeds and is charged 5. */
  lemma {:induction false} SaturatedSuccess()
    ensures var w := Accounts(map[]).(versions := map[9 := 0]);
      var call, pay := Busy(9, U64_MAX - 130_005), Command(Transfer(8, 0), Cost(10, 0), 0);
      var txn := Txn(V1, 7, 0, U64_MAX, 0, 130_000, [call, pay]);
      && CommandsPhase(w, txn).error.None?
      && FeeGas(w, txn) == U64_MAX == txn.inclusionCost + AllNet(Start(w, txn), txn, 0, txn.commands) - 5
  {
    hide Exec, Complete;
    var w := Accounts(map[]).(versions := map[9 := 0]);
    var call, pay := Busy(9, U64_MAX - 130_005), Command(Transfer(8, 0), Cost(10, 0), 0);
    var txn := Txn(V1, 7, 0, U64_MAX, 0, 130_000, [call, pay]);
    var s := Start(w, txn);
    BusyRuns(s.ctx, 7, 9, U64_MAX - 130_005);
    var p1 := RunSent(s, txn, 0, call);
    CompleteIs(Exec(s.ctx, 7, 7, call).ctx);
    LastTransfer(p1.ctx, 7);
    CompleteIs(Exec(p1.ctx, 7, 7, pay).ctx);
    assert txn.commands[1..] == [pay] && [pay][1..] == [];
    var p2 := RunSent(p1, txn, 1, pay);
    assert RunLates(p1, txn, 1, []) == p1 && RunLates(p2, txn, 2, []) == p2;
    assert RunAll(p2, txn, 2, []) == p2 && RunAll(p1, txn, 1, [pay]) == p2;
    assert AllNet(p1, txn, 1, [pay]) == 10;
  }

  /** A call of a contract that does nothing but use gas. */
  function Busy(target: Address, gas: u64): Command {
    Command(Call(target, None, Engine(true, true, true), [Wasm(gas)]), NO_COST, 0)
  }

  lemma {:induction false} BusyRuns(c: Ctx, signer: Address, target: Address, gas: u64)
    requires target in c.view.versions && c.view.versions[target] <= CBI_VERSION
    requires c.meter.current == NO_COST && Used(c.meter) + gas <= c.meter.limit
    ensures Exec(c, signer, signer, Busy(target, gas)) == Ran(Charged(c, Cost(gas, 0)), None, None)
  {
    var m := Machine(c.view, c.meter.limit - Used(c.meter), c.deferred, true);
    var m' := m.(gas := m.gas - gas);
    assert [Wasm(gas)][1..] == [] && Run(m', target, []) == m';
    assert Run(m, target, [Wasm(gas)]) == m';
    hide Run;
  }

  lemma CompleteIs(c: Ctx)
    ensures Complete(c) == c.(meter := Take(c.meter), deferred := [])
  {
  }

  lemma {:induction false} LastTransfer(c: Ctx, signer: Address)
    requires c.meter == Meter(U64_MAX, 130_000, U64_MAX - 130_005, NO_COST)
    ensures var r := Exec(c, signer, signer, Command(Transfer(8, 0), Cost(10, 0), 0));
      && r.error.None? && r.ctx.deferred == c.deferred && r.ctx.meter == c.meter.(current := Cost(10, 0))
  {
    hide Move;
  }

  /** A contract execution never pushes the meter past the limit; one that runs out of gas uses the limit
      up if and only if it was given none, or deductions covered refunds and the counter has room. */
  lemma {:induction false} ContractStaysWithinLimit(c: Ctx, target: Address, body: seq<Op>)
    requires Used(c.meter) <= c.meter.limit
    ensures var r, gas, cost := RunContract(c, target, body), c.meter.limit - Used(c.meter), c.meter.current;
      && Used(r.ctx.meter) <= r.ctx.meter.limit == c.meter.limit
      && r.error != Some(ExecutionProperGasExhausted)
      && (r.error == Some(ContractExhausted) ==>
            (Used(r.ctx.meter) == c.meter.limit <==>
               gas == 0 || (cost.reward <= cost.deduct && cost.deduct + gas <= U64_MAX)))
  {
    hide Run;
  }
}
