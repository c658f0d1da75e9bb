/** NextEpoch as a function of the network account it starts from. */
module Epoch {
  import opened Words
  import opened Heap
  import opened Network
  import opened Staking
  import opened Rewards

  /** Block proposal statistics of the epoch that ends. */
  datatype Performance = Performance(blocksPerEpoch: u32, proposed: map<Address, u32>)

  datatype AutoStake = AutoStake(operator: Address, owner: Address, amount: u64)

  /** What paying rewards changes and remembers: the deposits, and the rewards to stake afterwards. */
  datatype Payout = Payout(deposits: Deposits, autos: seq<AutoStake>)

  datatype Changes = Changes(added: seq<(Address, u64)>, removed: seq<Address>)

  // ---------- 1. rewards ----------

  function TotalStakes(own: u64, owners: seq<Address>, stakes: Entries): u64
    requires forall i | 0 <= i < |owners| :: owners[i] in stakes
    decreases |owners|
  {
    if owners == [] then own
    else TotalStakes(SatAdd(own, stakes[owners[0]]), owners[1..], stakes)
  }

  function RewardOf(reward: u64, rate: u8, stake: u64, total: u64): (u64, u64)
    requires 4371 * reward <= U64_MAX
  {
    ProductsFit(reward, rate, stake);
    StakeReward(reward, rate, stake, total)
  }

  /** Add a delegator's reward to the deposit it belongs to; without a deposit it is dropped. */
  function CreditOwner(p: Payout, operator: Address, owner: Address, amount: u64): Payout {
    var key := (operator, owner);
    if key !in p.deposits then p
    else
      var d := p.deposits[key];
      Payout(p.deposits[key := d.(balance := SatAdd(d.balance, amount))],
             if d.autoStake then p.autos + [AutoStake(operator, owner, amount)] else p.autos)
  }

  /** The operator is always paid: a missing deposit is created. */
  function CreditOperator(p: Payout, operator: Address, amount: u64): Payout {
    var key := (operator, operator);
    if key !in p.deposits then p.(deposits := p.deposits[key := Deposit(amount, false)])
    else CreditOwner(p, operator, operator, amount)
  }

  function CreditOwners(p: Payout, operator: Address, pool: Pool, owners: seq<Address>, reward: u64, total: u64): Payout
    requires forall i | 0 <= i < |owners| :: owners[i] in pool.delegated
    requires 4371 * reward <= U64_MAX
    decreases |owners|
  {
    hide RewardOf;
    if owners == [] then p
    else
      var k := owners[0];
      var amount := RewardOf(reward, pool.commissionRate, pool.delegated[k], total).0;
      CreditOwners(CreditOwner(p, operator, k, amount), operator, pool, owners[1..], reward, total)
  }

  function Commissions(sum: u64, pool: Pool, owners: seq<Address>, reward: u64, total: u64): u64
    requires forall i | 0 <= i < |owners| :: owners[i] in pool.delegated
    requires 4371 * reward <= U64_MAX
    decreases |owners|
  {
    hide RewardOf;
    if owners == [] then sum
    else
      var fee := RewardOf(reward, pool.commissionRate, pool.delegated[owners[0]], total).1;
      Commissions(SatAdd(sum, fee), pool, owners[1..], reward, total)
  }

  function PayPool(p: Payout, s: Snapshot, reward: u64): Payout
    requires 4371 * reward <= U64_MAX
  {
    if reward == 0 then p
    else
      var owners := Listing(s.pool.delegated.Keys);
      var own := OrZero(s.pool.operatorStake);
      var total := TotalStakes(own, owners, s.pool.delegated);
      var amount := SatAdd(RewardOf(reward, 0, own, total).0, Commissions(0, s.pool, owners, reward, total));
      CreditOperator(CreditOwners(p, s.operator, s.pool, owners, reward, total), s.operator, amount)
  }

  function RewardFor(table: RateTable, perf: Performance, epoch: u64, size: nat, s: Snapshot): (r: u64)
    requires size > 0
    ensures 4371 * r <= U64_MAX
  {
    var proposed := if s.operator in perf.proposed then perf.proposed[s.operator] else 0;
    PoolReward(table, epoch, s.pool.power, proposed, perf.blocksPerEpoch / size)
  }

  function PayAll(p: Payout, table: RateTable, perf: Performance, epoch: u64, size: nat, vs: seq<Snapshot>): Payout
    requires |vs| <= size
    decreases |vs|
  {
    hide PayPool, RewardFor;
    if vs == [] then p
    else PayAll(PayPool(p, vs[0], RewardFor(table, perf, epoch, size, vs[0])), table, perf, epoch, size, vs[1..])
  }

  // ---------- auto-stake ----------

  function ApplyAuto(n: Network, a: AutoStake): Network {
    if a.operator !in n.pools then n
    else
      match Increase(n, a.operator, a.owner, a.amount, false)
      case Some(n') => n'
      case None => n
  }

  function ApplyAutos(n: Network, autos: seq<AutoStake>): Network
    decreases |autos|
  {
    if autos == [] then n else ApplyAutos(ApplyAuto(n, autos[0]), autos[1..])
  }

  // ---------- 2.-4. rotation ----------

  function Record(pools: map<Address, Pool>, order: seq<Address>): seq<Snapshot>
    requires forall i | 0 <= i < |order| :: order[i] in pools
  {
    seq(|order|, i requires 0 <= i < |order| => Snapshot(order[i], pools[order[i]]))
  }

  /** The network account after rewards and auto-stakes, before the sets rotate. */
  function Rewarded(n: Network, table: RateTable, perf: Performance): Network {
    var p := PayAll(Payout(n.deposits, []), table, perf, n.epoch, |n.vp|, n.vp);
    ApplyAutos(n.(deposits := p.deposits), p.autos)
  }

  /** The source unwraps the pool of every entry of the next validator set, so it relies on those
      entries naming live pools. */
  ghost predicate Indexed(n: Network) { forall o | o in n.nvp :: o in n.pools }

  lemma {:induction false} ApplyAutosFrame(n: Network, autos: seq<AutoStake>)
    ensures var n' := ApplyAutos(n, autos);
      && n' == n.(pools := n'.pools, nvp := n'.nvp)
      && (Indexed(n) ==> Indexed(n'))
    decreases |autos|
  {
    if autos == [] {
    } else {
      ApplyAutosFrame(ApplyAuto(n, autos[0]), autos[1..]);
    }
  }

  function Rotate(n: Network, was: Network): Network
    requires forall o | o in n.nvp :: o in n.pools
    requires was.epoch < U64_MAX
  {
    n.(pvp := was.vp, vp := Record(n.pools, Listing(n.nvp.Keys)), epoch := was.epoch + 1)
  }

  function NextEpoch(n: Network, table: RateTable, perf: Performance): Network
    requires Indexed(n) && n.epoch < U64_MAX
  {
    var p := PayAll(Payout(n.deposits, []), table, perf, n.epoch, |n.vp|, n.vp);
    ApplyAutosFrame(n.(deposits := p.deposits), p.autos);
    Rotate(Rewarded(n, table, perf), n)
  }

  // ---------- 5. the diff ----------

  predicate Kept(was: seq<Snapshot>, s: Snapshot) {
    exists i | 0 <= i < |was| :: was[i].operator == s.operator && was[i].pool.power == s.pool.power
  }

  predicate Named(vs: seq<Snapshot>, operator: Address) {
    exists i | 0 <= i < |vs| :: vs[i].operator == operator
  }

  function Added(was: seq<Snapshot>, now: seq<Snapshot>): seq<(Address, u64)> {
    if now == [] then []
    else (if Kept(was, now[0]) then [] else [(now[0].operator, now[0].pool.power)]) + Added(was, now[1..])
  }

  function Removed(was: seq<Snapshot>, now: seq<Snapshot>): seq<Address> {
    if was == [] then []
    else (if Named(now, was[0].operator) then [] else [was[0].operator]) + Removed(was[1..], now)
  }

  function Diff(was: seq<Snapshot>, now: seq<Snapshot>): Changes { Changes(Added(was, now), Removed(was, now)) }
}
