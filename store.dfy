/** The lending mapping itself: the entity store its handlers load from and
    save to, the three get-or-create resolvers and the seven event handlers.
    Each handler is proved to change the store exactly as the matching
    function of module Projection says; the properties of those functions are
    proved in module ProjectionProperties. */
module LendingMapping {
  import opened Wrappers
  import opened Entities
  import Projection
  import ProjectionProperties

  class Store {
    var factories: map<string, Factory>
    var pools: map<string, Pool>
    var users: map<string, User>
    var records: map<RecordKey, EventRecord>
    /** The pools the host was told to start watching (LendingPoolTemplate.create). */
    var registrations: seq<Address>

    function Snapshot(): State
      reads this
    {
      State(factories, pools, users, records, registrations)
    }

    /** Every entity is stored under its own id, as save() keeps it. */
    predicate Valid()
      reads this
    {
      WellKeyed(Snapshot())
    }

    constructor ()
      ensures Valid() && Snapshot() == EmptyState
    {
      factories, pools, users, records, registrations := map[], map[], map[], map[], [];
    }

    // ---- getOrCreate*: load by id, or build a zeroed aggregate without saving it

    method GetOrCreateFactory(factoryAddress: Address) returns (factory: Factory)
      ensures factory == ResolveFactory(factories, factoryAddress)
      ensures factoryAddress.hex in factories ==> factory == factories[factoryAddress.hex]
      ensures factoryAddress.hex !in factories ==>
        && factory.id == factoryAddress.hex && factory.address == factoryAddress
        && factory.totalPoolsCreated == 0 && factory.created == 0
    {
      if factoryAddress.hex in factories {
        factory := factories[factoryAddress.hex];
      } else {
        factory := NewFactory(factoryAddress);
      }
    }

    method GetOrCreateUser(userAddress: Address) returns (user: User)
      ensures user == ResolveUser(users, userAddress)
      ensures userAddress.hex in users ==> user == users[userAddress.hex]
      ensures userAddress.hex !in users ==>
        && user.id == userAddress.hex && user.address == userAddress
        && user.totalDeposited == 0 && user.totalWithdrawn == 0
        && user.totalBorrowed == 0 && user.totalRepaid == 0
    {
      if userAddress.hex in users {
        user := users[userAddress.hex];
      } else {
        user := NewUser(userAddress);
      }
    }

    method GetOrCreatePool(poolAddress: Address) returns (pool: Pool)
      ensures pool == ResolvePool(pools, poolAddress)
      ensures poolAddress.hex in pools ==> pool == pools[poolAddress.hex]
      ensures poolAddress.hex !in pools ==>
        && pool.id == poolAddress.hex && pool.address == poolAddress
        && pool.factory == None && pool.token0 == None && pool.token1 == None
        && pool.totalDeposits == 0 && pool.totalWithdrawals == 0
        && pool.totalBorrows == 0 && pool.totalRepays == 0 && pool.created == 0
    {
      if poolAddress.hex in pools {
        pool := pools[poolAddress.hex];
      } else {
        pool := NewPool(poolAddress);
      }
    }

    // ---- save(): upsert under the entity's own id

    method SaveFactory(factory: Factory)
      modifies this`factories
      ensures factories == old(factories)[factory.id := factory]
    {
      factories := factories[factory.id := factory];
    }

    method SavePool(pool: Pool)
      modifies this`pools
      ensures pools == old(pools)[pool.id := pool]
    {
      pools := pools[pool.id := pool];
    }

    method SaveUser(user: User)
      modifies this`users
      ensures users == old(users)[user.id := user]
    {
      users := users[user.id := user];
    }

    method SaveRecord(record: EventRecord)
      modifies this`records
      ensures records == old(records)[record.Key() := record]
    {
      records := records[record.Key() := record];
    }

    /** LendingPoolTemplate.create: the host is told to watch the pool. */
    method RegisterPool(poolAddress: Address)
      modifies this`registrations
      ensures registrations == old(registrations) + [poolAddress]
    {
      registrations := registrations + [poolAddress];
    }

    // ---- the handlers

    method HandlePoolCreated(
      m: EventMeta, lendingPool: Address, collateralToken: Address,
      borrowToken: Address, ltv: nat)
      requires Valid()
      modifies this
      ensures Valid()
      ensures Snapshot() == Projection.Step(
        old(Snapshot()), LendingPoolCreated(m, lendingPool, collateralToken, borrowToken, ltv))
    {
      ghost var e := LendingPoolCreated(m, lendingPool, collateralToken, borrowToken, ltv);
      ghost var before := Snapshot();
      ProjectionProperties.StepPreservesWellKeyed(before, e);
      var factory := GetOrCreateFactory(m.address);
      var pool := GetOrCreatePool(lendingPool);
      var id := EventId(m);

      factory := factory.(totalPoolsCreated := factory.totalPoolsCreated + 1);
      assert factory == Projection.AnnouncedFactory(ResolveFactory(before.factories, m.address));
      SaveFactory(factory);

      pool := pool.(factory := Some(factory.id));
      pool := pool.(token0 := Some(collateralToken));
      pool := pool.(token1 := Some(borrowToken));
      pool := pool.(created := m.timestamp);
      assert pool == Projection.AnnouncedPool(
        ResolvePool(before.pools, lendingPool), factory.id, collateralToken, borrowToken, m.timestamp);
      SavePool(pool);

      var poolCreated := PoolCreatedRecord(
        id, lendingPool, collateralToken, borrowToken, ltv,
        m.timestamp, m.blockNumber, m.transactionHash);
      assert poolCreated == Projection.PoolCreatedLog(m, lendingPool, collateralToken, borrowToken, ltv);
      SaveRecord(poolCreated);

      RegisterPool(lendingPool);
    }

    method HandleSupplyLiquidity(m: EventMeta, userAddress: Address, amount: nat)
      requires Valid()
      modifies this`users, this`pools, this`records
      ensures Valid()
      ensures Snapshot() == Projection.Step(old(Snapshot()), SupplyLiquidity(m, userAddress, amount))
    {
      ghost var e := SupplyLiquidity(m, userAddress, amount);
      var pool := GetOrCreatePool(m.address);
      var user := GetOrCreateUser(userAddress);
      ghost var booked := Projection.Book(e, user, pool);
      var id := EventId(m);

      user := user.(totalDeposited := user.totalDeposited + amount);
      SaveUser(user);

      pool := pool.(totalDeposits := pool.totalDeposits + amount);
      SavePool(pool);

      var supplyLiquidity := SupplyLiquidityRecord(
        id, user.id, pool.id, m.address, amount, userAddress,
        m.timestamp, m.blockNumber, m.transactionHash);
      assert (user, pool) == booked;
      assert supplyLiquidity == Projection.Log(e, user.id, pool.id);
      SaveRecord(supplyLiquidity);
      ProjectionProperties.StepPreservesWellKeyed(old(Snapshot()), e);
    }

    method HandleWithdrawLiquidity(m: EventMeta, userAddress: Address, amount: nat)
      requires Valid()
      modifies this`users, this`pools, this`records
      ensures Valid()
      ensures Snapshot() == Projection.Step(old(Snapshot()), WithdrawLiquidity(m, userAddress, amount))
    {
      ghost var e := WithdrawLiquidity(m, userAddress, amount);
      var pool := GetOrCreatePool(m.address);
      var user := GetOrCreateUser(userAddress);
      ghost var booked := Projection.Book(e, user, pool);
      var id := EventId(m);

      user := user.(totalWithdrawn := user.totalWithdrawn + amount);
      SaveUser(user);

      pool := pool.(totalWithdrawals := pool.totalWithdrawals + amount);
      SavePool(pool);

      var withdrawLiquidity := WithdrawLiquidityRecord(
        id, user.id, pool.id, m.address, amount, userAddress,
        m.timestamp, m.blockNumber, m.transactionHash);
      assert (user, pool) == booked;
      assert withdrawLiquidity == Projection.Log(e, user.id, pool.id);
      SaveRecord(withdrawLiquidity);
      ProjectionProperties.StepPreservesWellKeyed(old(Snapshot()), e);
    }

    method HandleBorrowDebtCrosschain(m: EventMeta, userAddress: Address, amount: nat)
      requires Valid()
      modifies this`users, this`pools, this`records
      ensures Valid()
      ensures Snapshot() == Projection.Step(old(Snapshot()), BorrowDebtCrosschain(m, userAddress, amount))
    {
      ghost var e := BorrowDebtCrosschain(m, userAddress, amount);
      var pool := GetOrCreatePool(m.address);
      var user := GetOrCreateUser(userAddress);
      ghost var booked := Projection.Book(e, user, pool);
      var id := EventId(m);

      user := user.(totalBorrowed := user.totalBorrowed + amount);
      SaveUser(user);

      pool := pool.(totalBorrows := pool.totalBorrows + amount);
      SavePool(pool);

      var borrowDebtCrosschain := BorrowDebtCrosschainRecord(
        id, user.id, pool.id, m.address, amount, 1, 0, userAddress,
        m.timestamp, m.blockNumber, m.transactionHash);
      assert (user, pool) == booked;
      assert borrowDebtCrosschain == Projection.Log(e, user.id, pool.id);
      SaveRecord(borrowDebtCrosschain);
      ProjectionProperties.StepPreservesWellKeyed(old(Snapshot()), e);
    }

    method HandleRepayWithCollateralByPosition(m: EventMeta, userAddress: Address, amount: nat)
      requires Valid()
      modifies this`users, this`pools, this`records
      ensures Valid()
      ensures Snapshot() == Projection.Step(
        old(Snapshot()), RepayWithCollateralByPosition(m, userAddress, amount))
    {
      ghost var e := RepayWithCollateralByPosition(m, userAddress, amount);
      var pool := GetOrCreatePool(m.address);
      var user := GetOrCreateUser(userAddress);
      ghost var booked := Projection.Book(e, user, pool);
      var id := EventId(m);

      user := user.(totalRepaid := user.totalRepaid + amount);
      SaveUser(user);

      pool := pool.(totalRepays := pool.totalRepays + amount);
      SavePool(pool);

      var repayWithCollateralByPosition := RepayWithCollateralByPositionRecord(
        id, user.id, pool.id, m.address, amount, userAddress,
        m.timestamp, m.blockNumber, m.transactionHash);
      assert (user, pool) == booked;
      assert repayWithCollateralByPosition == Projection.Log(e, user.id, pool.id);
      SaveRecord(repayWithCollateralByPosition);
      ProjectionProperties.StepPreservesWellKeyed(old(Snapshot()), e);
    }

    method HandleSupplyCollateral(m: EventMeta, userAddress: Address, amount: nat)
      requires Valid()
      modifies this`users, this`pools, this`records
      ensures Valid()
      ensures Snapshot() == Projection.Step(old(Snapshot()), SupplyCollateral(m, userAddress, amount))
    {
      ghost var e := SupplyCollateral(m, userAddress, amount);
      var pool := GetOrCreatePool(m.address);
      var user := GetOrCreateUser(userAddress);
      ghost var booked := Projection.Book(e, user, pool);
      var id := EventId(m);

      user := user.(totalDeposited := user.totalDeposited + amount);
      SaveUser(user);

      pool := pool.(totalDeposits := pool.totalDeposits + amount);
      SavePool(pool);

      var supplyCollateral := SupplyCollateralRecord(
        id, user.id, pool.id, m.address, amount, userAddress,
        m.timestamp, m.blockNumber, m.transactionHash);
      assert (user, pool) == booked;
      assert supplyCollateral == Projection.Log(e, user.id, pool.id);
      SaveRecord(supplyCollateral);
      ProjectionProperties.StepPreservesWellKeyed(old(Snapshot()), e);
    }

    method HandleCreatePosition(m: EventMeta, userAddress: Address)
      requires Valid()
      modifies this`users, this`pools, this`records
      ensures Valid()
      ensures Snapshot() == Projection.Step(old(Snapshot()), CreatePosition(m, userAddress))
    {
      ghost var e := CreatePosition(m, userAddress);
      var pool := GetOrCreatePool(m.address);
      var user := GetOrCreateUser(userAddress);
      ghost var booked := Projection.Book(e, user, pool);
      var id := EventId(m);

      SaveUser(user);
      SavePool(pool);

      var createPosition := CreatePositionRecord(
        id, user.id, pool.id, m.timestamp, m.blockNumber, m.transactionHash);
      assert (user, pool) == booked;
      assert createPosition == Projection.Log(e, user.id, pool.id);
      SaveRecord(createPosition);
      ProjectionProperties.StepPreservesWellKeyed(old(Snapshot()), e);
    }
  }
}
