/** Gas: cost changes with refunds, the transaction's clamped meter, and the algebra of refunds. */
module Gas {
  import opened Words

  /** `CostChange`: gas charged and gas given back. */
  datatype Cost = Cost(deduct: u64, reward: u64)

  const NO_COST := Cost(0, 0)

  /** `net_cost().0`: what is finally chargeable; a refund beyond the charge is dropped. */
  function Net(c: Cost): u64 { SatSub(c.deduct, c.reward) }

  function Add(a: Cost, b: Cost): Cost { Cost(SatAdd(a.deduct, b.deduct), SatAdd(a.reward, b.reward)) }

  /** Subtraction turns what it cannot take back from one side into an amount on the other.
      Its two plain additions must not overflow. */
  predicate CanSub(a: Cost, b: Cost) {
    && SatSub(a.deduct, b.deduct) + SatSub(b.reward, a.reward) <= U64_MAX
    && SatSub(a.reward, b.reward) + SatSub(b.deduct, a.deduct) <= U64_MAX
  }

  function Sub(a: Cost, b: Cost): Cost
    requires CanSub(a, b)
  {
    Cost(SatSub(a.deduct, b.deduct) + SatSub(b.reward, a.reward),
         SatSub(a.reward, b.reward) + SatSub(b.deduct, a.deduct))
  }

  /** The signed value a cost change stands for. */
  function Signed(c: Cost): int { c.reward - c.deduct }

  // ---------- the meter ----------

  datatype Meter = Meter(limit: u64, inclusion: u64, executed: u64, current: Cost)

  function Executed(m: Meter): u64 { SatAdd(m.inclusion, m.executed) }

  /** `total_gas_used`: may exceed the limit until the command is completed. */
  function Used(m: Meter): u64 { SatAdd(Executed(m), Net(m.current)) }

  function Charge(m: Meter, c: Cost): Meter { m.(current := Add(m.current, c)) }

  function Clamped(m: Meter): u64 { Min(Net(m.current), SatSub(m.limit, Executed(m))) }

  /** Completing a command: its clamped gas joins the total and the counter restarts. */
  function Take(m: Meter): Meter { m.(executed := SatAdd(m.executed, Clamped(m)), current := NO_COST) }

  predicate MeterOk(m: Meter) { m.inclusion + m.executed <= m.limit }
}

module GasProofs {
  import opened Words
  import opened Gas

  /** Add and Sub act on the signed values as plus and minus (Add as long as neither side saturates). */
  lemma SignedAlgebra(a: Cost, b: Cost)
    ensures a.deduct + b.deduct <= U64_MAX && a.reward + b.reward <= U64_MAX
      ==> Signed(Add(a, b)) == Signed(a) + Signed(b)
    ensures CanSub(a, b) ==> Signed(Sub(a, b)) == Signed(a) - Signed(b)
    ensures CanSub(a, b) && b.deduct <= a.deduct && b.reward <= a.reward ==> Add(Sub(a, b), b) == a
  {
  }

  function ChargeAll(c: Cost, costs: seq<Cost>): Cost
    decreases |costs|
  {
    if costs == [] then c else ChargeAll(Add(c, costs[0]), costs[1..])
  }

  ghost function DeductSum(costs: seq<Cost>): nat { if costs == [] then 0 else costs[0].deduct + DeductSum(costs[1..]) }

  ghost function RewardSum(costs: seq<Cost>): nat { if costs == [] then 0 else costs[0].reward + RewardSum(costs[1..]) }

  lemma {:induction false} ChargeAllIs(c: Cost, costs: seq<Cost>)
    ensures ChargeAll(c, costs)
      == Cost(Min(c.deduct + DeductSum(costs), U64_MAX), Min(c.reward + RewardSum(costs), U64_MAX))
    decreases |costs|
  {
    if costs == [] {
    } else {
      ChargeAllIs(Add(c, costs[0]), costs[1..]);
    }
  }

  lemma {:induction false} SumsRemove(costs: seq<Cost>, i: nat)
    requires i < |costs|
    ensures var rest := costs[..i] + costs[i + 1..];
      DeductSum(costs) == costs[i].deduct + DeductSum(rest) && RewardSum(costs) == costs[i].reward + RewardSum(rest)
    decreases |costs|
  {
    var rest := costs[..i] + costs[i + 1..];
    if i == 0 {
      assert rest == costs[1..];
    } else {
      SumsRemove(costs[1..], i - 1);
      assert rest[1..] == costs[1..][..i - 1] + costs[1..][i..];
      assert rest[0] == costs[0];
    }
  }

  /** Charging natively does not depend on the order of the charges, even when counters saturate. */
  lemma {:induction false} ChargeOrder(c: Cost, a: seq<Cost>, b: seq<Cost>)
    requires multiset(a) == multiset(b)
    ensures ChargeAll(c, a) == ChargeAll(c, b)
  {
    SumsPermute(a, b);
    ChargeAllIs(c, a);
    ChargeAllIs(c, b);
  }

  lemma Without<T>(s: seq<T>, i: nat)
    requires i < |s|
    ensures multiset(s[..i] + s[i + 1..]) == multiset(s) - multiset{s[i]}
  {
    assert s == s[..i] + [s[i]] + s[i + 1..];
  }

  lemma IndexOf<T>(s: seq<T>, x: T) returns (i: nat)
    requires x in multiset(s)
    ensures i < |s| && s[i] == x
  {
    i :| 0 <= i < |s| && s[i] == x;
  }

  lemma {:induction false} SumsPermute(a: seq<Cost>, b: seq<Cost>)
    requires multiset(a) == multiset(b)
    ensures DeductSum(a) == DeductSum(b) && RewardSum(a) == RewardSum(b)
    decreases |a|
  {
    hide DeductSum, RewardSum;
    if a == [] {
      assert |multiset(b)| == 0;
      assert b == [];
    } else {
      assert a[0] in multiset(a);
      var i := IndexOf(b, a[0]);
      var a', b' := a[..0] + a[0 + 1..], b[..i] + b[i + 1..];
      Without(a, 0);
      Without(b, i);
      SumsPermute(a', b');
      SumsRemove(a, 0);
      SumsRemove(b, i);
    }
  }

  /** What the host-function meter charges for the same operations: each net cost by itself. */
  ghost function HostSum(costs: seq<Cost>): nat { if costs == [] then 0 else Net(costs[0]) + HostSum(costs[1..]) }

  /** Through the host meter, which drops every refund surplus, operations never cost less. */
  lemma {:induction false} HostNeverCheaper(costs: seq<Cost>)
    ensures Net(ChargeAll(NO_COST, costs)) <= HostSum(costs)
  {
    ChargeAllIs(NO_COST, costs);
    HostCoversDifference(costs);
  }

  lemma {:induction false} HostCoversDifference(costs: seq<Cost>)
    ensures DeductSum(costs) - RewardSum(costs) <= HostSum(costs)
    decreases |costs|
  {
    if costs == [] {
    } else {
      HostCoversDifference(costs[1..]);
    }
  }

  /** Completing a command never pushes the total past the limit; the receipt's gas is the exact net
      cost if and only if the command stayed within the limit, and an exhausted command uses it up. */
  lemma TakeLedger(m: Meter)
    requires MeterOk(m)
    ensures var m' := Take(m);
      && MeterOk(m') && m'.executed == m.executed + Clamped(m)
      && (Clamped(m) == Net(m.current) <==> m.inclusion + m.executed + Net(m.current) <= m.limit)
      && (Used(m) <= m.limit < U64_MAX ==> Clamped(m) == Net(m.current))
      && (m.limit < Used(m) ==> m'.inclusion + m'.executed == m.limit)
  {
  }
}
