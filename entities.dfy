/** The entities of the lending subgraph as the mapping sees them: the three
    aggregates (LendingPoolFactory, LendingPool, User), the seven kinds of
    event record, the incoming events, and the store that holds
    them. Only the fields the mapping reads or writes are modelled. */
module Entities {
  import opened Wrappers
  import EventIds

  /** An on-chain address. `hex` is its toHexString form, which is the id of
      every aggregate keyed by that address. */
  datatype Address = Address(hex: string)

  /** A transaction hash, copied through unchanged. */
  type Bytes = seq<bv8>

  datatype Factory = Factory(
    id: string,
    address: Address,
    totalPoolsCreated: nat,
    created: nat)

  /** `factory`, `token0` and `token1` are unset until a PoolCreated event
      names this pool. */
  datatype Pool = Pool(
    id: string,
    address: Address,
    factory: Option<string>,
    token0: Option<Address>,
    token1: Option<Address>,
    totalDeposits: nat,
    totalWithdrawals: nat,
    totalBorrows: nat,
    totalRepays: nat,
    created: nat)

  datatype User = User(
    id: string,
    address: Address,
    totalDeposited: nat,
    totalWithdrawn: nat,
    totalBorrowed: nat,
    totalRepaid: nat)

  /** Each kind of event record is its own entity type, stored in its own table. */
  datatype RecordKind =
    | PoolCreatedKind
    | SupplyLiquidityKind
    | WithdrawLiquidityKind
    | BorrowDebtCrosschainKind
    | RepayWithCollateralByPositionKind
    | SupplyCollateralKind
    | CreatePositionKind

  /** Where a record lives in the store: its entity type and its id. */
  datatype RecordKey = RecordKey(kind: RecordKind, id: string)

  /** One event record, written under its (type, id) key each time its
      event is handled. `user` and `pool` hold the ids of the
      aggregates the event was booked against. */
  datatype EventRecord =
    | PoolCreatedRecord(
        id: string, lendingPool: Address, collateralToken: Address, borrowToken: Address,
        ltv: nat, timestamp: nat, blockNumber: nat, transactionHash: Bytes)
    | SupplyLiquidityRecord(
        id: string, user: string, pool: string, asset: Address, amount: nat,
        onBehalfOf: Address, timestamp: nat, blockNumber: nat, transactionHash: Bytes)
    | WithdrawLiquidityRecord(
        id: string, user: string, pool: string, asset: Address, amount: nat,
        to: Address, timestamp: nat, blockNumber: nat, transactionHash: Bytes)
    | BorrowDebtCrosschainRecord(
        id: string, user: string, pool: string, asset: Address, amount: nat,
        borrowRateMode: nat, borrowRate: nat, onBehalfOf: Address,
        timestamp: nat, blockNumber: nat, transactionHash: Bytes)
    | RepayWithCollateralByPositionRecord(
        id: string, user: string, pool: string, asset: Address, amount: nat,
        repayer: Address, timestamp: nat, blockNumber: nat, transactionHash: Bytes)
    | SupplyCollateralRecord(
        id: string, user: string, pool: string, asset: Address, amount: nat,
        onBehalfOf: Address, timestamp: nat, blockNumber: nat, transactionHash: Bytes)
    | CreatePositionRecord(
        id: string, user: string, pool: string,
        timestamp: nat, blockNumber: nat, transactionHash: Bytes)
  {
    function Kind(): RecordKind {
      match this
      case PoolCreatedRecord(_, _, _, _, _, _, _, _) => PoolCreatedKind
      case SupplyLiquidityRecord(_, _, _, _, _, _, _, _, _) => SupplyLiquidityKind
      case WithdrawLiquidityRecord(_, _, _, _, _, _, _, _, _) => WithdrawLiquidityKind
      case BorrowDebtCrosschainRecord(_, _, _, _, _, _, _, _, _, _, _) => BorrowDebtCrosschainKind
      case RepayWithCollateralByPositionRecord(_, _, _, _, _, _, _, _, _) => RepayWithCollateralByPositionKind
      case SupplyCollateralRecord(_, _, _, _, _, _, _, _, _) => SupplyCollateralKind
      case CreatePositionRecord(_, _, _, _, _, _) => CreatePositionKind
    }

    function Key(): RecordKey {
      RecordKey(Kind(), id)
    }
  }

  /** What every incoming event carries besides its parameters: the emitting
      contract, the block and log position, the block time and the transaction. */
  datatype EventMeta = EventMeta(
    address: Address,
    blockNumber: nat,
    logIndex: nat,
    timestamp: nat,
    transactionHash: Bytes)

  /** The incoming events, one variant per handler, with the parameters the
      handler reads. LendingPoolCreated is emitted by the factory; the other
      six by a pool. */
  datatype Event =
    | LendingPoolCreated(
        meta: EventMeta, lendingPool: Address, collateralToken: Address,
        borrowToken: Address, ltv: nat)
    | SupplyLiquidity(meta: EventMeta, user: Address, amount: nat)
    | WithdrawLiquidity(meta: EventMeta, user: Address, amount: nat)
    | BorrowDebtCrosschain(meta: EventMeta, user: Address, amount: nat)
    | RepayWithCollateralByPosition(meta: EventMeta, user: Address, amount: nat)
    | SupplyCollateral(meta: EventMeta, user: Address, amount: nat)
    | CreatePosition(meta: EventMeta, user: Address)

  /** createEventID applied to an event. */
  function EventId(m: EventMeta): string {
    EventIds.CreateEventId(m.blockNumber, m.logIndex)
  }

  /** The four running totals a User and a Pool keep, side by side:
      User.totalDeposited goes with Pool.totalDeposits, and so on. */
  datatype Counter = Deposit | Withdrawal | Borrow | Repay

  function UserCount(u: User, c: Counter): nat {
    match c
    case Deposit => u.totalDeposited
    case Withdrawal => u.totalWithdrawn
    case Borrow => u.totalBorrowed
    case Repay => u.totalRepaid
  }

  function PoolCount(p: Pool, c: Counter): nat {
    match c
    case Deposit => p.totalDeposits
    case Withdrawal => p.totalWithdrawals
    case Borrow => p.totalBorrows
    case Repay => p.totalRepays
  }

  /** The whole store: one table per aggregate type, keyed by id, one table
      of event records keyed by (entity type, id), and the pool addresses the
      host has been told to start watching, in the order it was told. */
  datatype State = State(
    factories: map<string, Factory>,
    pools: map<string, Pool>,
    users: map<string, User>,
    records: map<RecordKey, EventRecord>,
    registrations: seq<Address>)

  const EmptyState := State(map[], map[], map[], map[], [])

  /** Every entity is stored under its own id, as save() stores it. */
  predicate WellKeyed(s: State) {
    && (forall k | k in s.factories :: s.factories[k].id == k)
    && (forall k | k in s.pools :: s.pools[k].id == k)
    && (forall k | k in s.users :: s.users[k].id == k)
    && (forall k | k in s.records :: s.records[k].Key() == k)
  }

  /** The fresh aggregates getOrCreate* builds for an address not yet stored:
      keyed by the address, with every counter at zero. */
  function NewFactory(a: Address): (f: Factory)
    ensures f.id == a.hex && f.address == a
    ensures f.totalPoolsCreated == 0 && f.created == 0
  {
    Factory(a.hex, a, 0, 0)
  }

  function NewPool(a: Address): (p: Pool)
    ensures p.id == a.hex && p.address == a
    ensures p.factory == None && p.token0 == None && p.token1 == None && p.created == 0
    ensures forall c :: PoolCount(p, c) == 0
  {
    Pool(a.hex, a, None, None, None, 0, 0, 0, 0, 0)
  }

  function NewUser(a: Address): (u: User)
    ensures u.id == a.hex && u.address == a
    ensures forall c :: UserCount(u, c) == 0
  {
    User(a.hex, a, 0, 0, 0, 0)
  }

  /** Load by toHexString, or the fresh aggregate when nothing is stored.
      When the table holds the aggregate under its own id, the result is
      keyed by the address either way. */
  function ResolveFactory(m: map<string, Factory>, a: Address): (f: Factory)
    ensures (a.hex in m ==> m[a.hex].id == a.hex) ==> f.id == a.hex
    ensures a.hex !in m ==> f.address == a && f.totalPoolsCreated == 0
  {
    if a.hex in m then m[a.hex] else NewFactory(a)
  }

  function ResolvePool(m: map<string, Pool>, a: Address): (p: Pool)
    ensures (a.hex in m ==> m[a.hex].id == a.hex) ==> p.id == a.hex
    ensures a.hex !in m ==> p.address == a && forall c :: PoolCount(p, c) == 0
  {
    if a.hex in m then m[a.hex] else NewPool(a)
  }

  function ResolveUser(m: map<string, User>, a: Address): (u: User)
    ensures (a.hex in m ==> m[a.hex].id == a.hex) ==> u.id == a.hex
    ensures a.hex !in m ==> u.address == a && forall c :: UserCount(u, c) == 0
  {
    if a.hex in m then m[a.hex] else NewUser(a)
  }

  /** The value of a user's counter, 0 for a user not yet stored. */
  function UserTotal(s: State, a: Address, c: Counter): nat {
    if a.hex in s.users then UserCount(s.users[a.hex], c) else 0
  }

  /** The value of a pool's counter, 0 for a pool not yet stored. */
  function PoolTotal(s: State, a: Address, c: Counter): nat {
    if a.hex in s.pools then PoolCount(s.pools[a.hex], c) else 0
  }

  /** A factory's pool count, 0 for a factory not yet stored. */
  function FactoryTotal(s: State, a: Address): nat {
    if a.hex in s.factories then s.factories[a.hex].totalPoolsCreated else 0
  }
}
