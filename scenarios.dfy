/** Three worked examples of the lending mapping, run through the store's
    handlers: a pool announcement on an empty store, a supply into a pool
    that already holds deposits, and a position opened on an empty store. Each is proved from the handlers' contracts and the
    lemmas of ProjectionProperties alone. */
module Scenarios {
  import opened Wrappers
  import opened Entities
  import EventIds
  import opened Projection
  import opened ProjectionProperties
  import opened LendingMapping

  const Factory0 := Address("0xf")
  const PoolP := Address("0xp")
  const TokenC := Address("0xc")
  const TokenB := Address("0xb")
  const UserU := Address("0xu")

  /** PoolCreated on an empty store: the pool gets its tokens, creation time
      and factory, the factory counts one pool, the record "100-2" holds the
      ltv, and the pool is registered. */
  method PoolCreatedScenario(tx: Bytes) returns (st: Store)
    ensures st.Valid()
    ensures PoolP.hex in st.Snapshot().pools
    ensures st.Snapshot().pools[PoolP.hex].token0 == Some(TokenC)
    ensures st.Snapshot().pools[PoolP.hex].token1 == Some(TokenB)
    ensures st.Snapshot().pools[PoolP.hex].created == 1000
    ensures st.Snapshot().pools[PoolP.hex].factory == Some(Factory0.hex)
    ensures FactoryTotal(st.Snapshot(), Factory0) == 1
    ensures RecordKey(PoolCreatedKind, "100-2") in st.Snapshot().records
    ensures st.Snapshot().records[RecordKey(PoolCreatedKind, "100-2")].PoolCreatedRecord?
    ensures st.Snapshot().records[RecordKey(PoolCreatedKind, "100-2")].ltv == 7500
    ensures st.Snapshot().registrations == [PoolP]
  {
    st := new Store();
    var m := EventMeta(Factory0, 100, 2, 1000, tx);
    ghost var e := LendingPoolCreated(m, PoolP, TokenC, TokenB, 7500);
    st.HandlePoolCreated(m, PoolP, TokenC, TokenB, 7500);
    PoolCreatedEffects(EmptyState, e);
    EventIds.EventIdExample();
    assert RecordKeyOf(e) == RecordKey(PoolCreatedKind, "100-2");
  }

  /** SupplyLiquidity of 300 by user 0xu into pool 0xp, which already holds
      500, at block 101, log index 0: the pool's deposits reach 800, the
      user's rise by 300, and record "101-0" links the two with the supplier
      as onBehalfOf. */
  method SupplyLiquidityScenario(st: Store, tx: Bytes)
    requires st.Valid()
    requires PoolTotal(st.Snapshot(), PoolP, Deposit) == 500
    modifies st
    ensures st.Valid()
    ensures PoolTotal(st.Snapshot(), PoolP, Deposit) == 800
    ensures UserTotal(st.Snapshot(), UserU, Deposit) == old(UserTotal(st.Snapshot(), UserU, Deposit)) + 300
    ensures RecordKey(SupplyLiquidityKind, "101-0") in st.Snapshot().records
    ensures var r := st.Snapshot().records[RecordKey(SupplyLiquidityKind, "101-0")];
      && r.SupplyLiquidityRecord? && r.user == UserU.hex && r.pool == PoolP.hex
      && r.amount == 300 && r.onBehalfOf == UserU && r.timestamp == 1001
  {
    var m := EventMeta(PoolP, 101, 0, 1001, tx);
    ghost var before := st.Snapshot();
    ghost var e := SupplyLiquidity(m, UserU, 300);
    st.HandleSupplyLiquidity(m, UserU, 300);
    StepCounters(before, e, PoolP, Deposit);
    StepCounters(before, e, UserU, Deposit);
    PoolScopedRecord(before, e);
    EventIds.EventIdExample();
    assert RecordKeyOf(e) == RecordKey(SupplyLiquidityKind, "101-0");
  }

  /** CreatePosition by user 0xu in pool 0xp, at block 7, log index 1, with
      no prior pool or user: both are created with zero counters, and record
      "7-1" links them. */
  method CreatePositionScenario(tx: Bytes) returns (st: Store)
    ensures st.Valid()
    ensures PoolP.hex in st.Snapshot().pools && UserU.hex in st.Snapshot().users
    ensures forall c :: UserTotal(st.Snapshot(), UserU, c) == 0 && PoolTotal(st.Snapshot(), PoolP, c) == 0
    ensures RecordKey(CreatePositionKind, "7-1") in st.Snapshot().records
    ensures var r := st.Snapshot().records[RecordKey(CreatePositionKind, "7-1")];
      r.CreatePositionRecord? && r.user == UserU.hex && r.pool == PoolP.hex
  {
    st := new Store();
    var m := EventMeta(PoolP, 7, 1, 5, tx);
    ghost var e := CreatePosition(m, UserU);
    st.HandleCreatePosition(m, UserU);
    CreatePositionEffects(EmptyState, e);
    PoolScopedRecord(EmptyState, e);
    EventIds.EventIdExample();
    assert RecordKeyOf(e) == RecordKey(CreatePositionKind, "7-1");
  }
}
