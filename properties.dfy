/** What the lending mapping promises, proved of the step functions in module
    Projection (and so, through their contracts, of the handlers of
    LendingMapping.Store). The reference definitions at the top state, as a
    table by event kind, which counter each event moves and for whom,
    independently of how the handlers are written. */
module ProjectionProperties {
  import opened Wrappers
  import opened Entities
  import EventIds
  import opened Projection

  // ---- reference definitions

  /** The record type each event kind is logged as. */
  function KindOf(e: Event): RecordKind {
    match e
    case LendingPoolCreated(_, _, _, _, _) => PoolCreatedKind
    case SupplyLiquidity(_, _, _) => SupplyLiquidityKind
    case WithdrawLiquidity(_, _, _) => WithdrawLiquidityKind
    case BorrowDebtCrosschain(_, _, _) => BorrowDebtCrosschainKind
    case RepayWithCollateralByPosition(_, _, _) => RepayWithCollateralByPositionKind
    case SupplyCollateral(_, _, _) => SupplyCollateralKind
    case CreatePosition(_, _) => CreatePositionKind
  }

  /** Where the record of an event is stored. */
  function RecordKeyOf(e: Event): RecordKey {
    RecordKey(KindOf(e), EventId(e.meta))
  }

  /** The counter an event kind moves, if any. */
  function CounterOf(e: Event): Option<Counter> {
    match e
    case LendingPoolCreated(_, _, _, _, _) => None
    case SupplyLiquidity(_, _, _) => Some(Deposit)
    case WithdrawLiquidity(_, _, _) => Some(Withdrawal)
    case BorrowDebtCrosschain(_, _, _) => Some(Borrow)
    case RepayWithCollateralByPosition(_, _, _) => Some(Repay)
    case SupplyCollateral(_, _, _) => Some(Deposit)
    case CreatePosition(_, _) => None
  }

  /** The amount an event carries; 0 for the kinds that carry none. */
  function AmountOf(e: Event): nat {
    if e.LendingPoolCreated? || e.CreatePosition? then 0 else e.amount
  }

  /** The amount an event adds to counter c of the user at address a. */
  function UserCredit(e: Event, a: Address, c: Counter): nat {
    if !e.LendingPoolCreated? && e.user == a && CounterOf(e) == Some(c) then AmountOf(e) else 0
  }

  /** The amount an event adds to counter c of the pool at address a: pool
      events are booked against the pool that emitted them. */
  function PoolCredit(e: Event, a: Address, c: Counter): nat {
    if !e.LendingPoolCreated? && e.meta.address == a && CounterOf(e) == Some(c) then AmountOf(e) else 0
  }

  /** What an event adds to the pool count of the factory at address a. */
  function FactoryCredit(e: Event, a: Address): nat {
    if e.LendingPoolCreated? && e.meta.address == a then 1 else 0
  }

  function SumUserCredit(events: seq<Event>, a: Address, c: Counter): nat {
    if events == [] then 0 else UserCredit(events[0], a, c) + SumUserCredit(events[1..], a, c)
  }

  function SumPoolCredit(events: seq<Event>, a: Address, c: Counter): nat {
    if events == [] then 0 else PoolCredit(events[0], a, c) + SumPoolCredit(events[1..], a, c)
  }

  function PoolsCreatedBy(events: seq<Event>, a: Address): nat {
    if events == [] then 0 else FactoryCredit(events[0], a) + PoolsCreatedBy(events[1..], a)
  }

  /** The sum of the amounts of the SupplyLiquidity and SupplyCollateral
      events whose user parameter is a. */
  function SuppliedBy(events: seq<Event>, a: Address): nat {
    if events == [] then 0
    else
      var here := match events[0]
        case SupplyLiquidity(_, u, amount) => if u == a then amount else 0
        case SupplyCollateral(_, u, amount) => if u == a then amount else 0
        case _ => 0;
      here + SuppliedBy(events[1..], a)
  }

  /** The sum of the amounts of the SupplyLiquidity and SupplyCollateral
      events emitted by the pool at address p. */
  function SuppliedTo(events: seq<Event>, p: Address): nat {
    if events == [] then 0
    else
      var here := match events[0]
        case SupplyLiquidity(m, _, amount) => if m.address == p then amount else 0
        case SupplyCollateral(m, _, amount) => if m.address == p then amount else 0
        case _ => 0;
      here + SuppliedTo(events[1..], p)
  }

  // ---- one event

  /** The record an event is logged as, once the aggregates it names are
      resolved to their ids. */
  function RecordOf(e: Event): EventRecord {
    if e.LendingPoolCreated?
    then PoolCreatedLog(e.meta, e.lendingPool, e.collateralToken, e.borrowToken, e.ltv)
    else Log(e, e.user.hex, e.meta.address.hex)
  }

  /** In a well-keyed store an aggregate resolves to an entity whose id is
      the address it was looked up by. */
  lemma ResolvedIds(s: State, a: Address)
    requires WellKeyed(s)
    ensures ResolveFactory(s.factories, a).id == a.hex
    ensures ResolvePool(s.pools, a).id == a.hex
    ensures ResolveUser(s.users, a).id == a.hex
  {
  }

  lemma LogIsRecordOf(e: Event, userId: string, poolId: string)
    requires !e.LendingPoolCreated? && userId == e.user.hex && poolId == e.meta.address.hex
    ensures Log(e, userId, poolId) == RecordOf(e)
    ensures RecordOf(e).Key() == RecordKeyOf(e)
  {
  }

  /** The user and the pool a pool-scoped event leaves behind. */
  function BookedUser(s: State, e: Event): User
    requires !e.LendingPoolCreated?
  {
    Book(e, ResolveUser(s.users, e.user), ResolvePool(s.pools, e.meta.address)).0
  }

  function BookedPool(s: State, e: Event): Pool
    requires !e.LendingPoolCreated?
  {
    Book(e, ResolveUser(s.users, e.user), ResolvePool(s.pools, e.meta.address)).1
  }

  /** In a well-keyed store, a pool-scoped handler writes its user under the
      user address, its pool under the emitting address and RecordOf(e)
      under RecordKeyOf(e), and nothing else. */
  lemma PoolEventNormalForm(s: State, e: Event)
    requires WellKeyed(s) && !e.LendingPoolCreated?
    ensures Step(s, e) == s.(
      users := s.users[e.user.hex := BookedUser(s, e)],
      pools := s.pools[e.meta.address.hex := BookedPool(s, e)],
      records := s.records[RecordKeyOf(e) := RecordOf(e)])
    ensures BookedUser(s, e).id == e.user.hex && BookedPool(s, e).id == e.meta.address.hex
  {
    ResolvedIds(s, e.user);
    ResolvedIds(s, e.meta.address);
    LogIsRecordOf(e, e.user.hex, e.meta.address.hex);
  }

  /** The factory and the pool a PoolCreated event leaves behind. */
  function CreatedFactory(s: State, e: Event): Factory
    requires e.LendingPoolCreated?
  {
    AnnouncedFactory(ResolveFactory(s.factories, e.meta.address))
  }

  function CreatedPool(s: State, e: Event): Pool
    requires e.LendingPoolCreated?
  {
    AnnouncedPool(
      ResolvePool(s.pools, e.lendingPool), e.meta.address.hex,
      e.collateralToken, e.borrowToken, e.meta.timestamp)
  }

  /** In a well-keyed store, PoolCreated writes its factory under the
      emitting address, its pool under the lendingPool address and
      RecordOf(e) under RecordKeyOf(e), and appends one registration. */
  lemma PoolCreatedNormalForm(s: State, e: Event)
    requires WellKeyed(s) && e.LendingPoolCreated?
    ensures Step(s, e) == s.(
      factories := s.factories[e.meta.address.hex := CreatedFactory(s, e)],
      pools := s.pools[e.lendingPool.hex := CreatedPool(s, e)],
      records := s.records[RecordKeyOf(e) := RecordOf(e)],
      registrations := s.registrations + [e.lendingPool])
    ensures CreatedFactory(s, e).id == e.meta.address.hex && CreatedPool(s, e).id == e.lendingPool.hex
  {
    ResolvedIds(s, e.meta.address);
    ResolvedIds(s, e.lendingPool);
  }

  /** Every handler writes exactly one record, RecordOf(e), at RecordKeyOf(e),
      and leaves every other record as it was. So what is logged depends on
      the event alone, not on what the store held before. */
  lemma StepRecord(s: State, e: Event)
    requires WellKeyed(s)
    ensures Step(s, e).records == s.records[RecordKeyOf(e) := RecordOf(e)]
  {
    if e.LendingPoolCreated? {
      PoolCreatedNormalForm(s, e);
    } else {
      PoolEventNormalForm(s, e);
    }
  }

  /** Every handler stores each entity under its own id. */
  lemma StepPreservesWellKeyed(s: State, e: Event)
    requires WellKeyed(s)
    ensures WellKeyed(Step(s, e))
  {
    if e.LendingPoolCreated? {
      PoolCreatedNormalForm(s, e);
      LogIsRecordOfPoolCreated(e);
    } else {
      PoolEventNormalForm(s, e);
      LogIsRecordOf(e, e.user.hex, e.meta.address.hex);
    }
  }

  lemma LogIsRecordOfPoolCreated(e: Event)
    requires e.LendingPoolCreated?
    ensures RecordOf(e).Key() == RecordKeyOf(e)
  {
  }

  /** Book adds the event's amount to exactly the counter the reference table
      names, on both the user and the pool, and leaves the others alone. */
  lemma BookCredits(e: Event, user: User, pool: Pool, c: Counter)
    requires !e.LendingPoolCreated?
    ensures UserCount(Book(e, user, pool).0, c)
         == UserCount(user, c) + (if CounterOf(e) == Some(c) then AmountOf(e) else 0)
    ensures PoolCount(Book(e, user, pool).1, c)
         == PoolCount(pool, c) + (if CounterOf(e) == Some(c) then AmountOf(e) else 0)
  {
  }

  /** Each event adds its amount to exactly the user counter the reference
      table names, and to no other user counter. */
  lemma StepUserCounter(s: State, e: Event, a: Address, c: Counter)
    requires WellKeyed(s)
    ensures UserTotal(Step(s, e), a, c) == UserTotal(s, a, c) + UserCredit(e, a, c)
  {
    if e.LendingPoolCreated? {
      PoolCreatedNormalForm(s, e);
    } else {
      PoolEventUserCounter(s, e, a, c);
    }
  }

  lemma PoolEventUserCounter(s: State, e: Event, a: Address, c: Counter)
    requires WellKeyed(s) && !e.LendingPoolCreated?
    ensures UserTotal(Step(s, e), a, c) == UserTotal(s, a, c) + UserCredit(e, a, c)
  {
    PoolEventNormalForm(s, e);
    var t := Step(s, e);
    assert t.users == s.users[e.user.hex := BookedUser(s, e)];
    if a == e.user {
      BookCredits(e, ResolveUser(s.users, e.user), ResolvePool(s.pools, e.meta.address), c);
      assert UserTotal(t, a, c) == UserCount(BookedUser(s, e), c);
      assert UserTotal(s, a, c) == UserCount(ResolveUser(s.users, e.user), c);
    } else {
      assert a.hex != e.user.hex;
      assert UserTotal(t, a, c) == UserTotal(s, a, c);
    }
  }

  /** Each event adds its amount to exactly the counter of the emitting pool
      the reference table names, and to no other pool counter. */
  lemma StepPoolCounter(s: State, e: Event, a: Address, c: Counter)
    requires WellKeyed(s)
    ensures PoolTotal(Step(s, e), a, c) == PoolTotal(s, a, c) + PoolCredit(e, a, c)
  {
    if e.LendingPoolCreated? {
      PoolCreatedNormalForm(s, e);
      assert Step(s, e).pools == s.pools[e.lendingPool.hex := CreatedPool(s, e)];
    } else {
      PoolEventPoolCounter(s, e, a, c);
    }
  }

  lemma PoolEventPoolCounter(s: State, e: Event, a: Address, c: Counter)
    requires WellKeyed(s) && !e.LendingPoolCreated?
    ensures PoolTotal(Step(s, e), a, c) == PoolTotal(s, a, c) + PoolCredit(e, a, c)
  {
    PoolEventNormalForm(s, e);
    assert Step(s, e).pools == s.pools[e.meta.address.hex := BookedPool(s, e)];
    if a == e.meta.address {
      BookCredits(e, ResolveUser(s.users, e.user), ResolvePool(s.pools, e.meta.address), c);
    } else {
      assert a.hex != e.meta.address.hex;
    }
  }

  /** PoolCreated adds exactly 1 to its factory's pool count; nothing else
      changes any factory. */
  lemma StepFactoryCounter(s: State, e: Event, a: Address)
    requires WellKeyed(s)
    ensures FactoryTotal(Step(s, e), a) == FactoryTotal(s, a) + FactoryCredit(e, a)
  {
    if e.LendingPoolCreated? {
      PoolCreatedNormalForm(s, e);
    } else {
      PoolEventNormalForm(s, e);
    }
  }

  lemma StepCounters(s: State, e: Event, a: Address, c: Counter)
    requires WellKeyed(s)
    ensures UserTotal(Step(s, e), a, c) == UserTotal(s, a, c) + UserCredit(e, a, c)
    ensures PoolTotal(Step(s, e), a, c) == PoolTotal(s, a, c) + PoolCredit(e, a, c)
    ensures FactoryTotal(Step(s, e), a) == FactoryTotal(s, a) + FactoryCredit(e, a)
  {
    StepUserCounter(s, e, a, c);
    StepPoolCounter(s, e, a, c);
    StepFactoryCounter(s, e, a);
  }

  /** No counter ever decreases. */
  lemma StepMonotone(s: State, e: Event, a: Address, c: Counter)
    requires WellKeyed(s)
    ensures UserTotal(s, a, c) <= UserTotal(Step(s, e), a, c)
    ensures PoolTotal(s, a, c) <= PoolTotal(Step(s, e), a, c)
    ensures FactoryTotal(s, a) <= FactoryTotal(Step(s, e), a)
  {
    StepCounters(s, e, a, c);
  }

  /** A pool-scoped handler touches only the pool that emitted the event,
      the user named by it and the event's record; the factories and the
      registration log are untouched. */
  lemma PoolScopedFrame(s: State, e: Event)
    requires WellKeyed(s) && !e.LendingPoolCreated?
    ensures var t, u, p, k := Step(s, e), e.user.hex, e.meta.address.hex, RecordKeyOf(e);
      && t.factories == s.factories
      && t.registrations == s.registrations
      && u in t.users && t.users - {u} == s.users - {u}
      && p in t.pools && t.pools - {p} == s.pools - {p}
      && k in t.records && t.records - {k} == s.records - {k}
  {
    PoolEventNormalForm(s, e);
  }

  /** The record a pool-scoped handler writes: keyed by the event id, linked
      to the resolved user and pool, carrying the event's fields; a
      cross-chain borrow is logged with rate mode 1 and rate 0. */
  lemma PoolScopedRecord(s: State, e: Event)
    requires WellKeyed(s) && !e.LendingPoolCreated?
    ensures RecordKeyOf(e) in Step(s, e).records
    ensures var r := Step(s, e).records[RecordKeyOf(e)];
      && r.Kind() == KindOf(e) && r.id == EventId(e.meta)
      && r.user == e.user.hex && r.pool == e.meta.address.hex
      && r.timestamp == e.meta.timestamp && r.blockNumber == e.meta.blockNumber
      && r.transactionHash == e.meta.transactionHash
      && (!e.CreatePosition? ==> !r.CreatePositionRecord? && r.asset == e.meta.address && r.amount == e.amount)
      && (e.SupplyLiquidity? || e.SupplyCollateral? || e.BorrowDebtCrosschain? ==>
            (r.SupplyLiquidityRecord? || r.SupplyCollateralRecord? || r.BorrowDebtCrosschainRecord?)
            && r.onBehalfOf == e.user)
      && (e.WithdrawLiquidity? ==> r.WithdrawLiquidityRecord? && r.to == e.user)
      && (e.RepayWithCollateralByPosition? ==> r.RepayWithCollateralByPositionRecord? && r.repayer == e.user)
      && (e.BorrowDebtCrosschain? ==> r.BorrowDebtCrosschainRecord? && r.borrowRateMode == 1 && r.borrowRate == 0)
  {
    PoolEventNormalForm(s, e);
  }

  /** handlePoolCreated: one more pool for the factory that emitted the event;
      the pool named by the event gets its factory, tokens and creation time,
      overwriting whatever it had, and keeps its counters; the pool is
      registered exactly once; the record is keyed by the event id. */
  lemma PoolCreatedEffects(s: State, e: Event)
    requires WellKeyed(s) && e.LendingPoolCreated?
    ensures var t, f, p, k := Step(s, e), e.meta.address.hex, e.lendingPool.hex, RecordKeyOf(e);
      && FactoryTotal(t, e.meta.address) == FactoryTotal(s, e.meta.address) + 1
      && f in t.factories && t.factories - {f} == s.factories - {f}
      && t.factories[f].created == (if f in s.factories then s.factories[f].created else 0)
      && p in t.pools && t.pools - {p} == s.pools - {p}
      && t.pools[p].factory == Some(f)
      && t.pools[p].token0 == Some(e.collateralToken)
      && t.pools[p].token1 == Some(e.borrowToken)
      && t.pools[p].created == e.meta.timestamp
      && (forall c :: PoolTotal(t, e.lendingPool, c) == PoolTotal(s, e.lendingPool, c))
      && t.users == s.users
      && t.registrations == s.registrations + [e.lendingPool]
      && k in t.records && t.records - {k} == s.records - {k}
      && t.records[k] == PoolCreatedRecord(
           EventId(e.meta), e.lendingPool, e.collateralToken, e.borrowToken, e.ltv,
           e.meta.timestamp, e.meta.blockNumber, e.meta.transactionHash)
  {
    PoolCreatedNormalForm(s, e);
    LogIsRecordOfPoolCreated(e);
  }

  /** handleCreatePosition: afterwards both the emitting pool and the user
      are stored, no counter of either has moved, and a newly seen one is
      stored with all counters at 0. */
  lemma CreatePositionEffects(s: State, e: Event)
    requires WellKeyed(s) && e.CreatePosition?
    ensures var t, u, p := Step(s, e), e.user.hex, e.meta.address.hex;
      && u in t.users && p in t.pools
      && (u in s.users ==> t.users[u] == s.users[u])
      && (p in s.pools ==> t.pools[p] == s.pools[p])
      && (forall c :: UserCount(t.users[u], c) == UserTotal(s, e.user, c))
      && (forall c :: PoolCount(t.pools[p], c) == PoolTotal(s, e.meta.address, c))
      && (u !in s.users ==> t.users[u] == NewUser(e.user))
      && (p !in s.pools ==> t.pools[p] == NewPool(e.meta.address))
  {
    PoolEventNormalForm(s, e);
  }

  // ---- sequences of events

  lemma {:induction false} RunPreservesWellKeyed(s: State, events: seq<Event>)
    requires WellKeyed(s)
    ensures WellKeyed(Run(s, events))
    decreases |events|
  {
    if events != [] {
      StepPreservesWellKeyed(s, events[0]);
      RunPreservesWellKeyed(Step(s, events[0]), events[1..]);
    }
  }

  /** Over any sequence of events, every counter ends at its start value plus
      the credits the reference table assigns, in any interleaving. */
  lemma {:induction false} RunCounters(s: State, events: seq<Event>, a: Address, c: Counter)
    requires WellKeyed(s)
    ensures UserTotal(Run(s, events), a, c) == UserTotal(s, a, c) + SumUserCredit(events, a, c)
    ensures PoolTotal(Run(s, events), a, c) == PoolTotal(s, a, c) + SumPoolCredit(events, a, c)
    ensures FactoryTotal(Run(s, events), a) == FactoryTotal(s, a) + PoolsCreatedBy(events, a)
    decreases |events|
  {
    if events != [] {
      StepCounters(s, events[0], a, c);
      StepPreservesWellKeyed(s, events[0]);
      RunCounters(Step(s, events[0]), events[1..], a, c);
    }
  }

  lemma {:induction false} DepositCreditsAreSupplies(events: seq<Event>, a: Address)
    ensures SumUserCredit(events, a, Deposit) == SuppliedBy(events, a)
    ensures SumPoolCredit(events, a, Deposit) == SuppliedTo(events, a)
    decreases |events|
  {
    if events != [] {
      DepositCreditsAreSupplies(events[1..], a);
    }
  }

  /** User.totalDeposited grows by exactly the amounts of the user's
      SupplyLiquidity and SupplyCollateral events, and Pool.totalDeposits by
      exactly the amounts of those events the pool emitted. */
  lemma DepositsAreSupplySums(s: State, events: seq<Event>, a: Address)
    requires WellKeyed(s)
    ensures UserTotal(Run(s, events), a, Deposit) == UserTotal(s, a, Deposit) + SuppliedBy(events, a)
    ensures PoolTotal(Run(s, events), a, Deposit) == PoolTotal(s, a, Deposit) + SuppliedTo(events, a)
  {
    RunCounters(s, events, a, Deposit);
    DepositCreditsAreSupplies(events, a);
  }

  /** Started from an empty store, a user's totalDeposited is the sum of its
      supplies of both kinds. */
  lemma TotalDepositedFromEmpty(events: seq<Event>, a: Address)
    ensures UserTotal(Run(EmptyState, events), a, Deposit) == SuppliedBy(events, a)
  {
    DepositsAreSupplySums(EmptyState, events, a);
  }

  /** A factory's totalPoolsCreated counts the PoolCreated events it emitted. */
  lemma FactoryCountsPoolsCreated(events: seq<Event>, a: Address)
    ensures FactoryTotal(Run(EmptyState, events), a) == PoolsCreatedBy(events, a)
  {
    RunCounters(EmptyState, events, a, Deposit);
  }

  /** No counter decreases over any sequence of events. */
  lemma {:induction false} RunMonotone(s: State, events: seq<Event>, a: Address, c: Counter)
    requires WellKeyed(s)
    ensures UserTotal(s, a, c) <= UserTotal(Run(s, events), a, c)
    ensures PoolTotal(s, a, c) <= PoolTotal(Run(s, events), a, c)
    ensures FactoryTotal(s, a) <= FactoryTotal(Run(s, events), a)
  {
    RunCounters(s, events, a, c);
  }

  // ---- no replay protection, no first-time guard

  /** Handling the same pool-scoped event twice adds its amount to the
      counters twice: there is no replay guard. */
  lemma ReplayDoubleCounts(s: State, e: Event, c: Counter)
    requires WellKeyed(s) && !e.LendingPoolCreated?
    ensures UserTotal(Step(Step(s, e), e), e.user, c) == UserTotal(s, e.user, c) + 2 * UserCredit(e, e.user, c)
    ensures PoolTotal(Step(Step(s, e), e), e.meta.address, c)
         == PoolTotal(s, e.meta.address, c) + 2 * PoolCredit(e, e.meta.address, c)
  {
    StepPreservesWellKeyed(s, e);
    StepUserCounter(s, e, e.user, c);
    StepUserCounter(Step(s, e), e, e.user, c);
    StepPoolCounter(s, e, e.meta.address, c);
    StepPoolCounter(Step(s, e), e, e.meta.address, c);
  }

  /** ... while its record is written over itself: the record table after
      the replay is the table after the first handling. */
  lemma ReplayRewritesRecord(s: State, e: Event)
    requires WellKeyed(s)
    ensures Step(Step(s, e), e).records == Step(s, e).records
  {
    StepPreservesWellKeyed(s, e);
    StepRecord(s, e);
    StepRecord(Step(s, e), e);
  }

  /** A second PoolCreated for the same pool overwrites its factory, creation
      time and tokens with the later event's, bumps the later event's factory
      again, and registers the pool a second time. */
  lemma PoolCreatedOverwrites(s: State, e1: Event, e2: Event)
    requires WellKeyed(s) && e1.LendingPoolCreated? && e2.LendingPoolCreated?
    requires e1.lendingPool == e2.lendingPool
    ensures var t, p := Step(Step(s, e1), e2), e2.lendingPool.hex;
      && p in t.pools
      && t.pools[p].factory == Some(e2.meta.address.hex)
      && t.pools[p].created == e2.meta.timestamp
      && t.pools[p].token0 == Some(e2.collateralToken)
      && t.pools[p].token1 == Some(e2.borrowToken)
      && FactoryTotal(t, e2.meta.address)
         == FactoryTotal(s, e2.meta.address) + (if e1.meta.address == e2.meta.address then 2 else 1)
      && t.registrations == s.registrations + [e1.lendingPool, e2.lendingPool]
  {
    PoolCreatedEffects(s, e1);
    StepPreservesWellKeyed(s, e1);
    PoolCreatedEffects(Step(s, e1), e2);
  }

  /** Distinct events collide on their record only when they share block
      number, log index and record type. */
  lemma RecordKeysCollide(e1: Event, e2: Event)
    ensures RecordKeyOf(e1) == RecordKeyOf(e2) <==>
      KindOf(e1) == KindOf(e2)
      && e1.meta.blockNumber == e2.meta.blockNumber && e1.meta.logIndex == e2.meta.logIndex
  {
    EventIds.EventIdInjective(e1.meta.blockNumber, e1.meta.logIndex, e2.meta.blockNumber, e2.meta.logIndex);
  }
}
