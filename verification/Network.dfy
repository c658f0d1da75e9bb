/** The world state: accounts, contracts, and the decoded network account that holds pools,
    deposits and the three validator sets. */
module Network {
  import opened Words
  import opened Heap

  /** `MAX_STAKES_PER_POOL` and `MAX_VALIDATOR_SET_SIZE`. */
  datatype Limits = Limits(stakesPerPool: nat, validators: nat)

  datatype Pool = Pool(commissionRate: u8, power: u64, operatorStake: Option<u64>, delegated: Entries)

  datatype Deposit = Deposit(balance: u64, autoStake: bool)

  /** A pool as recorded in the current (`vp`) or previous (`pvp`) validator set. */
  datatype Snapshot = Snapshot(operator: Address, pool: Pool)

  /** Deposits are keyed by (operator, owner). */
  type Deposits = map<(Address, Address), Deposit>

  datatype Network = Network(
    limits: Limits,
    pools: map<Address, Pool>,
    deposits: Deposits,
    nvp: Entries,
    vp: seq<Snapshot>,
    pvp: seq<Snapshot>,
    epoch: u64)

  type Storage = map<Address, map<Bytes, Bytes>>

  datatype World = World(
    balances: map<Address, u64>,
    nonces: map<Address, u64>,
    versions: map<Address, u32>,
    contracts: map<Address, Bytes>,
    storage: Storage,
    net: Network)

  function StakeOf(pool: Pool, operator: Address, owner: Address): Option<u64> {
    if operator == owner then pool.operatorStake else Lookup(pool.delegated, owner)
  }

  function OrZero(o: Option<u64>): u64 { if o.Some? then o.value else 0 }

  function PowerOf(pool: Pool, operator: Address, owner: Address): u64 {
    OrZero(StakeOf(pool, operator, owner))
  }

  /** The power `owner` has in `operator`'s live pool. */
  function LivePower(pools: map<Address, Pool>, operator: Address, owner: Address): u64 {
    if operator in pools then PowerOf(pools[operator], operator, owner) else 0
  }

  function Find(vs: seq<Snapshot>, operator: Address): Option<Pool> {
    if vs == [] then None
    else if vs[0].operator == operator then Some(vs[0].pool)
    else Find(vs[1..], operator)
  }

  /** The power `owner` has in `operator`'s pool in a recorded validator set. */
  function Locked(vs: seq<Snapshot>, operator: Address, owner: Address): u64 {
    match Find(vs, operator)
    case None => 0
    case Some(pool) => PowerOf(pool, operator, owner)
  }

  function BalanceOf(deposits: Deposits, operator: Address, owner: Address): u64 {
    if (operator, owner) in deposits then deposits[(operator, owner)].balance else 0
  }

  function DepositBalances(deposits: Deposits): map<(Address, Address), u64> {
    map k | k in deposits :: deposits[k].balance
  }
}
