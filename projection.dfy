/** The effect of each handler of the lending mapping on the store, as a
    function from the store before the event to the store after it. The
    methods of LendingMapping.Store are proved to have exactly these effects. */
module Projection {
  import opened Wrappers
  import opened Entities

  /** The factory after it announced one more pool. */
  function AnnouncedFactory(factory: Factory): (f: Factory)
    ensures f.id == factory.id && f.address == factory.address && f.created == factory.created
    ensures f.totalPoolsCreated == factory.totalPoolsCreated + 1
  {
    factory.(totalPoolsCreated := factory.totalPoolsCreated + 1)
  }

  /** The pool after its announcement: its factory, tokens and creation time
      are overwritten, its counters are kept. */
  function AnnouncedPool(
    pool: Pool, factoryId: string, collateralToken: Address, borrowToken: Address,
    timestamp: nat): (p: Pool)
    ensures p.id == pool.id && p.address == pool.address
    ensures forall c :: PoolCount(p, c) == PoolCount(pool, c)
  {
    pool.(
      factory := Some(factoryId),
      token0 := Some(collateralToken),
      token1 := Some(borrowToken),
      created := timestamp)
  }

  /** The record handlePoolCreated writes. */
  function PoolCreatedLog(
    m: EventMeta, lendingPool: Address, collateralToken: Address,
    borrowToken: Address, ltv: nat): (r: EventRecord)
    ensures r.Key() == RecordKey(PoolCreatedKind, EventId(m))
  {
    PoolCreatedRecord(
      EventId(m), lendingPool, collateralToken, borrowToken, ltv,
      m.timestamp, m.blockNumber, m.transactionHash)
  }

  /** handlePoolCreated: the factory is keyed by the emitting address, the
      pool by the lendingPool parameter. The pool's identity fields are
      overwritten on every call, and the pool is registered with the host. */
  function PoolCreatedStep(
    s: State, m: EventMeta, lendingPool: Address, collateralToken: Address,
    borrowToken: Address, ltv: nat): (r: State)
    ensures r.users == s.users && r.registrations == s.registrations + [lendingPool]
  {
    var factory' := AnnouncedFactory(ResolveFactory(s.factories, m.address));
    var pool' := AnnouncedPool(
      ResolvePool(s.pools, lendingPool), factory'.id, collateralToken, borrowToken, m.timestamp);
    var record := PoolCreatedLog(m, lendingPool, collateralToken, borrowToken, ltv);
    s.(factories := s.factories[factory'.id := factory'],
       pools := s.pools[pool'.id := pool'],
       records := s.records[record.Key() := record],
       registrations := s.registrations + [lendingPool])
  }

  /** The counter update of a pool-scoped handler: the one User counter and
      the matching Pool counter its event kind adds the amount to. Collateral
      is booked on the same counters as liquidity; CreatePosition books
      nothing. */
  function Book(e: Event, user: User, pool: Pool): (r: (User, Pool))
    requires !e.LendingPoolCreated?
    ensures r.0.id == user.id && r.0.address == user.address
    ensures r.1.id == pool.id && r.1.address == pool.address
    ensures r.1.factory == pool.factory && r.1.token0 == pool.token0
    ensures r.1.token1 == pool.token1 && r.1.created == pool.created
  {
    match e
    case SupplyLiquidity(_, _, amount) =>
      (user.(totalDeposited := user.totalDeposited + amount),
       pool.(totalDeposits := pool.totalDeposits + amount))
    case WithdrawLiquidity(_, _, amount) =>
      (user.(totalWithdrawn := user.totalWithdrawn + amount),
       pool.(totalWithdrawals := pool.totalWithdrawals + amount))
    case BorrowDebtCrosschain(_, _, amount) =>
      (user.(totalBorrowed := user.totalBorrowed + amount),
       pool.(totalBorrows := pool.totalBorrows + amount))
    case RepayWithCollateralByPosition(_, _, amount) =>
      (user.(totalRepaid := user.totalRepaid + amount),
       pool.(totalRepays := pool.totalRepays + amount))
    case SupplyCollateral(_, _, amount) =>
      (user.(totalDeposited := user.totalDeposited + amount),
       pool.(totalDeposits := pool.totalDeposits + amount))
    case CreatePosition(_, _) =>
      (user, pool)
  }

  /** The record a pool-scoped handler writes, linked to the ids of the
      resolved user and pool. A cross-chain borrow is logged with the
      constants borrowRateMode = 1 and borrowRate = 0. */
  function Log(e: Event, userId: string, poolId: string): (r: EventRecord)
    requires !e.LendingPoolCreated?
    ensures r.id == EventId(e.meta)
  {
    var m := e.meta;
    match e
    case SupplyLiquidity(_, u, amount) =>
      SupplyLiquidityRecord(EventId(m), userId, poolId, m.address, amount, u,
        m.timestamp, m.blockNumber, m.transactionHash)
    case WithdrawLiquidity(_, u, amount) =>
      WithdrawLiquidityRecord(EventId(m), userId, poolId, m.address, amount, u,
        m.timestamp, m.blockNumber, m.transactionHash)
    case BorrowDebtCrosschain(_, u, amount) =>
      BorrowDebtCrosschainRecord(EventId(m), userId, poolId, m.address, amount, 1, 0, u,
        m.timestamp, m.blockNumber, m.transactionHash)
    case RepayWithCollateralByPosition(_, u, amount) =>
      RepayWithCollateralByPositionRecord(EventId(m), userId, poolId, m.address, amount, u,
        m.timestamp, m.blockNumber, m.transactionHash)
    case SupplyCollateral(_, u, amount) =>
      SupplyCollateralRecord(EventId(m), userId, poolId, m.address, amount, u,
        m.timestamp, m.blockNumber, m.transactionHash)
    case CreatePosition(_, _) =>
      CreatePositionRecord(EventId(m), userId, poolId, m.timestamp, m.blockNumber, m.transactionHash)
  }

  /** The common shape of the six pool-scoped handlers: resolve the pool by
      the emitting address and the user by the user parameter, book the
      amount, save the user, the pool and the record. */
  function PoolEventStep(s: State, e: Event): (r: State)
    requires !e.LendingPoolCreated?
    ensures r.factories == s.factories && r.registrations == s.registrations
  {
    var pool := ResolvePool(s.pools, e.meta.address);
    var user := ResolveUser(s.users, e.user);
    var (user', pool') := Book(e, user, pool);
    var record := Log(e, user'.id, pool'.id);
    s.(users := s.users[user'.id := user'],
       pools := s.pools[pool'.id := pool'],
       records := s.records[record.Key() := record])
  }

  /** Dispatch by event kind, as the subgraph's handler table does. */
  function Step(s: State, e: Event): (r: State)
    ensures |r.registrations| == |s.registrations| + (if e.LendingPoolCreated? then 1 else 0)
  {
    if e.LendingPoolCreated?
    then PoolCreatedStep(s, e.meta, e.lendingPool, e.collateralToken, e.borrowToken, e.ltv)
    else PoolEventStep(s, e)
  }

  /** The host delivers events one at a time, in order, each handled to
      completion before the next. */
  function Run(s: State, events: seq<Event>): State
    decreases |events|
  {
    if events == [] then s else Run(Step(s, events[0]), events[1..])
  }
}
