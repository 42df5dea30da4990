# Lending subgraph mapping, modelled in Dafny

This project models `src/lending-mapping.ts`, the event-projection engine of a
lending-protocol subgraph. The engine folds on-chain events into an entity store
and keeps four kinds of state:

- **Aggregates.** There are three: LendingPoolFactory, LendingPool and User. Each
  is keyed by the hex form of its address and holds running counters.
- **Event records.** There is one record per event, keyed by its record type
  and `"<block>-<logIndex>"`. It is rewritten if the event is handled again.
- **Registrations.** This is the log of pools the host is told to start watching.

Files and modules:

- `wrappers.dfy` has `Wrappers`, the `Option` type.
- `event_ids.dfy` has `EventIds`. It holds `createEventID` and the decimal
  rendering of a non-negative integer. It also holds a parser back from the id,
  proved to be the id's inverse, so ids are injective.
- `entities.dfy` has `Entities`. It holds the entity, record and event
  datatypes, the store as a value (`State`), and the get-or-create lookups as
  functions.
- `projection.dfy` has `Projection`. It gives the effect of each handler as a
  function from the store before the event to the store after it.
  `PoolCreatedStep` is the factory handler. The six pool-scoped handlers share
  one shape, `PoolEventStep`: resolve the pool and the user, then `Book` the
  amount on the counters the event kind names, then `Log` the event's record.
  `Step` dispatches on the event kind. `Run` handles a sequence of events in
  order, one at a time, as the host delivers them.
- `store.dfy` has `LendingMapping`. Its class `Store` has one map field per
  entity table and a `seq` of registrations. On it sit the three `getOrCreate*`
  resolvers, the `save()` upserts and the seven handlers, written step by step
  as in the source. Each handler's postcondition is `Snapshot() ==
  Projection.Step(old(Snapshot()), <its event>)`. Pool-scoped handlers may
  modify only the user, pool and record tables. The class invariant `Valid()`
  says every entity is stored under its own id; the constructor establishes
  it and every handler keeps it.
- `properties.dfy` has `ProjectionProperties`. It holds reference definitions of
  which counter each event kind credits and to whom, plus the lemmas that tie
  the step functions to them.
- `scenarios.dfy` has `Scenarios`. It holds three worked examples run through
  the `Store` handlers: PoolCreated on an empty store, a supply of 300 into a
  pool holding 500, and CreatePosition on an empty store.

Modelling choices:

- Amounts, timestamps, block numbers, log indices and `ltv` are `nat`. These are
  BigInt values in the source, which are unbounded and never negative here.
- An address is `Address(hex)`, and its `toHexString` is `hex`.
- A transaction hash is an opaque byte sequence.
- `save()` is an upsert under the entity's own `id`. The predicate
  `WellKeyed` says every entity is stored under its own id. Every handler
  preserves it (`StepPreservesWellKeyed`). The frame lemmas assume it.
- Each record type is its own entity table. So records are keyed by
  (record type, id), and records of different types with the same id do not
  collide.

Where a natural reading of the entity names differs from what the code does,
the model follows the code:

- A `created` field set only at the first PoolCreated would be the natural
  reading. The code (line 86) overwrites it, and the factory and tokens too
  (lines 83-85), on every PoolCreated for that pool, whichever factory emits
  it. `PoolCreatedOverwrites` states this for two announcements of one pool,
  and `PoolCreatedEffects` for a single one.
- A factory creation timestamp would be the natural reading of
  `factory.created`. The code only ever sets it to 0 (line 43).
  `PoolCreatedEffects` states that the field keeps its old value.
- The code has no deduplication, so handling an event twice is not harmless.
  `ReplayDoubleCounts` shows that a replayed pool event adds its amount to the
  counters again, and `ReplayRewritesRecord` that it rewrites the same record.

## Model

| member | source | states |
|---|---|---|
| EventIds.NatToDecimal | src/lending-mapping.ts:34 | BigInt.toString of a non-negative value is a non-empty string of decimal digits, with no leading zero unless the value is below 10 |
| EventIds.CreateEventId | src/lending-mapping.ts:33-35 | the block number in decimal, '-', the log index in decimal; `EventIdRoundTrip` proves that `ParseEventId` inverts it, and `EventIdInjective` that distinct pairs give distinct ids |
| EventIds.DecimalRoundTrip | src/lending-mapping.ts:34 | reading the decimal rendering back gives the number again |
| EventIds.NatToDecimalInjective | src/lending-mapping.ts:34 | two numbers render the same exactly when they are equal |
| EventIds.EventIdRoundTrip | src/lending-mapping.ts:33-35 | the id `<block>-<logIndex>` parses back into exactly that block number and log index, because digits contain no '-' |
| EventIds.EventIdInjective | src/lending-mapping.ts:33-35 | two (block, logIndex) pairs give the same id if and only if they are equal, so a replayed event collides with itself |
| EventIds.EventIdExample | src/lending-mapping.ts:33-35 | block 100, log index 2 gives the id "100-2"; likewise "101-0" and "7-1" |
| ProjectionProperties.RecordKeysCollide | src/lending-mapping.ts:78-217 | two events' records, created at lines 78, 105, 127, 149, 173, 195 and 217, share a store slot exactly when they have the same record type, block number and log index |
| Entities.NewFactory | src/lending-mapping.ts:40-43 | a fresh factory has the address's hex form as id, the address itself, totalPoolsCreated 0 and created 0 |
| Entities.NewUser | src/lending-mapping.ts:51-56 | a fresh user has the address's hex form as id, the address itself, and every counter at 0 |
| Entities.NewPool | src/lending-mapping.ts:64-70 | a fresh pool has the address's hex form as id, the address itself, every counter and created at 0, and no factory or tokens |
| Entities.ResolveFactory | src/lending-mapping.ts:37-46 | the get-or-create lookup as a value: in a table that stores the factory under its own id, the result's id is the looked-up hex form; a missing factory comes back with that address and a zero pool count |
| Entities.ResolveUser | src/lending-mapping.ts:48-59 | the same for users: the result's id is the looked-up hex form in a well-keyed table, and a missing user comes back with that address and all counters 0 |
| Entities.ResolvePool | src/lending-mapping.ts:61-73 | the same for pools: the result's id is the looked-up hex form in a well-keyed table, and a missing pool comes back with that address and all counters 0 |
| LendingMapping.Store.GetOrCreateFactory | src/lending-mapping.ts:37-46 | returns the stored factory unchanged when its address key is present, else a fresh factory with that id and address, totalPoolsCreated 0 and created 0; the store is not modified |
| LendingMapping.Store.GetOrCreateUser | src/lending-mapping.ts:48-59 | returns the stored user when present, else a fresh user with that id and address and all four counters 0; the store is not modified |
| LendingMapping.Store.GetOrCreatePool | src/lending-mapping.ts:61-73 | returns the stored pool when present, else a fresh pool with that id and address, factory and tokens unset, and all counters and created at 0; the store is not modified |
| LendingMapping.Store.SaveFactory | src/lending-mapping.ts:81 | save() of a factory upserts it under its own id and changes no other table |
| LendingMapping.Store.SavePool | src/lending-mapping.ts:87 | save() of a pool (also lines 111, 133, 155, 179, 201, 220) upserts it under its own id and changes no other table |
| LendingMapping.Store.SaveUser | src/lending-mapping.ts:108 | save() of a user (also lines 130, 152, 176, 198, 219) upserts it under its own id and changes no other table |
| LendingMapping.Store.SaveRecord | src/lending-mapping.ts:96 | save() of a record upserts it under (its type, its id) and changes no other table |
| LendingMapping.Store.RegisterPool | src/lending-mapping.ts:99 | LendingPoolTemplate.create appends the pool address to the registration log and changes nothing else |
| LendingMapping.Store.HandlePoolCreated | src/lending-mapping.ts:75-100 | the new store is `Projection.Step` of the old one for the PoolCreated event built from its parameters, that is `PoolCreatedStep`; it requires and keeps `Valid()`, every entity stored under its own id |
| LendingMapping.Store.HandleSupplyLiquidity | src/lending-mapping.ts:102-122 | the new store is `Projection.Step` of the old one for the SupplyLiquidity event built from its parameters; only the user, pool and record tables may change; it requires and keeps `Valid()`, every entity stored under its own id |
| LendingMapping.Store.HandleWithdrawLiquidity | src/lending-mapping.ts:124-144 | the new store is `Projection.Step` of the old one for the WithdrawLiquidity event built from its parameters; only the user, pool and record tables may change; it requires and keeps `Valid()`, every entity stored under its own id |
| LendingMapping.Store.HandleBorrowDebtCrosschain | src/lending-mapping.ts:146-168 | the new store is `Projection.Step` of the old one for the BorrowDebtCrosschain event built from its parameters; only the user, pool and record tables may change; it requires and keeps `Valid()`, every entity stored under its own id |
| LendingMapping.Store.HandleRepayWithCollateralByPosition | src/lending-mapping.ts:170-190 | the new store is `Projection.Step` of the old one for the RepayWithCollateralByPosition event built from its parameters; only the user, pool and record tables may change; it requires and keeps `Valid()`, every entity stored under its own id |
| LendingMapping.Store.HandleSupplyCollateral | src/lending-mapping.ts:192-212 | the new store is `Projection.Step` of the old one for the SupplyCollateral event built from its parameters; only the user, pool and record tables may change; it requires and keeps `Valid()`, every entity stored under its own id |
| LendingMapping.Store.HandleCreatePosition | src/lending-mapping.ts:214-228 | the new store is `Projection.Step` of the old one for the CreatePosition event built from its parameters; only the user, pool and record tables may change; it requires and keeps `Valid()`, every entity stored under its own id |
| Projection.AnnouncedFactory | src/lending-mapping.ts:80 | the announcing factory keeps its id, address and created, and counts one more pool |
| Projection.AnnouncedPool | src/lending-mapping.ts:83-86 | the announced pool keeps its id, address and all four counters; its factory, tokens and created are overwritten |
| Projection.PoolCreatedLog | src/lending-mapping.ts:78-96 | the PoolCreated record is stored under (PoolCreated type, the event id) |
| Projection.PoolCreatedStep | src/lending-mapping.ts:75-100 | the effect of handlePoolCreated: users are untouched and the pool is appended to the registrations once; `PoolCreatedEffects`, `StepFactoryCounter` and `PoolCreatedOverwrites` state the rest |
| Projection.PoolEventStep | src/lending-mapping.ts:102-228 | the shared effect of the six pool-scoped handlers: factories and registrations are untouched; `StepUserCounter`, `StepPoolCounter`, `PoolScopedFrame` and `PoolScopedRecord` state the rest |
| Projection.Step | src/lending-mapping.ts:75-228 | dispatch by event kind: exactly PoolCreated appends one registration; `StepRecord` and `StepPreservesWellKeyed` hold for every kind |
| Projection.Book | src/lending-mapping.ts:102-228 | booking a pool-scoped event keeps the user's and the pool's id and address, and the pool's factory, tokens and created |
| Projection.Log | src/lending-mapping.ts:105-227 | the record of a pool-scoped event carries the event id `createEventID(block, logIndex)` |
| ProjectionProperties.BookCredits | src/lending-mapping.ts:107-201 | booking adds the event's amount to exactly the user counter and the pool counter the reference table names for its kind, and leaves the other counters as they were |
| ProjectionProperties.StepRecord | src/lending-mapping.ts:78-227 | every handler writes exactly one record, determined by the event alone, at (its record type, the event id), and leaves every other record unchanged |
| ProjectionProperties.StepPreservesWellKeyed | src/lending-mapping.ts:75-228 | every handler keeps every entity stored under its own id |
| ProjectionProperties.StepUserCounter | src/lending-mapping.ts:102-228 | each event adds its amount to exactly the one user counter that the reference table names for its kind, for the user it names, and changes no other user counter |
| ProjectionProperties.StepPoolCounter | src/lending-mapping.ts:102-228 | each pool event adds its amount to exactly the matching counter of the pool that emitted it; PoolCreated and CreatePosition move no pool counter |
| ProjectionProperties.StepFactoryCounter | src/lending-mapping.ts:80 | PoolCreated adds exactly 1 to totalPoolsCreated of the factory that emitted it; no other event changes any factory count |
| ProjectionProperties.StepMonotone | src/lending-mapping.ts:75-228 | no user, pool or factory counter decreases on any event |
| ProjectionProperties.PoolScopedFrame | src/lending-mapping.ts:102-228 | a pool-scoped handler changes only the pool at the emitting address, the user at `params.user` and the record at the event id; the handler leaves factories and registrations equal, and the touched user and pool exist afterwards |
| ProjectionProperties.PoolScopedRecord | src/lending-mapping.ts:113-227 | a pool-scoped record is keyed by the event id and has the user and pool id and the time, block and hash; asset and amount when the kind has them; onBehalfOf, to or repayer equal to the user; rate mode 1 and rate 0 for a cross-chain borrow |
| ProjectionProperties.PoolCreatedEffects | src/lending-mapping.ts:75-100 | the emitting factory's pool count goes up by exactly 1 and its created stays as it was; the named pool gets factory id, token0, token1 and created overwritten and keeps its counters; users are untouched; the pool is appended to the registrations once; the record at the event id has the event's fields |
| ProjectionProperties.CreatePositionEffects | src/lending-mapping.ts:214-228 | afterwards both the emitting pool and the user are stored; an existing one is unchanged and a new one is exactly the fresh aggregate, with all counters 0 |
| ProjectionProperties.RunCounters | src/lending-mapping.ts:102-228 | over any sequence of events, every user, pool and factory counter ends at its start value plus the sum of the credits the reference table gives each event |
| ProjectionProperties.DepositsAreSupplySums | src/lending-mapping.ts:102-212 | over any interleaving, User.totalDeposited grows by the sum of the amounts of that user's SupplyLiquidity and SupplyCollateral events, and Pool.totalDeposits by the sum of those the pool emitted |
| ProjectionProperties.TotalDepositedFromEmpty | src/lending-mapping.ts:107-197 | from an empty store, a user's totalDeposited equals the sum of the user's supplies of both kinds (lines 107 and 197) |
| ProjectionProperties.FactoryCountsPoolsCreated | src/lending-mapping.ts:80 | from an empty store, a factory's totalPoolsCreated equals the number of PoolCreated events it emitted |
| ProjectionProperties.RunMonotone | src/lending-mapping.ts:75-228 | no counter decreases over any sequence of events |
| ProjectionProperties.ReplayDoubleCounts | src/lending-mapping.ts:102-228 | handling the same pool event twice adds its amount to the user and pool counters twice |
| ProjectionProperties.ReplayRewritesRecord | src/lending-mapping.ts:75-228 | handling any event a second time leaves the record table as it was after the first handling |
| ProjectionProperties.PoolCreatedOverwrites | src/lending-mapping.ts:79-99 | a second PoolCreated for the same pool, from any factory, overwrites its factory, created and tokens with the later event's; the later factory's count rises by 2 if it also emitted the first announcement and by 1 otherwise; the pool is registered twice |
| Scenarios.PoolCreatedScenario | src/lending-mapping.ts:75-100 | on an empty store, PoolCreated for pool 0xp at block 100, log 2, time 1000, ltv 7500 gives the pool its tokens, created 1000 and the factory id; the factory count is 1; record "100-2" has ltv 7500; the registrations are [0xp] |
| Scenarios.SupplyLiquidityScenario | src/lending-mapping.ts:102-122 | supplying 300 to a pool holding 500 at block 101, log 0 brings its totalDeposits to 800, raises the user's totalDeposited by 300 and writes record "101-0" linking user and pool with amount 300 and onBehalfOf the user; the store stays valid |
| Scenarios.CreatePositionScenario | src/lending-mapping.ts:214-228 | on an empty store, CreatePosition at block 7, log 1 creates the pool and the user with all their counters 0 and writes record "7-1" linking them |

## Left out

- How `@graphprotocol/graph-ts` represents BigInt, Address and events is not modelled. Decoding events is not modelled either. Amounts are `nat` and addresses are opaque strings.
- The casing that `Address.toHexString` produces is not modelled. The model takes the hex form as already given.
- The `address` byte fields the resolvers set (lines 41, 52, 65) are kept as the `Address` value itself.
- The generated schema and contract bindings are not part of this model. Only the fields the mapping reads or writes are modelled.
- `LendingPoolTemplate.create` (line 99) only appends to the registration log. What the host does with it is host-side.
- The storage engine, durability and store failures are not modelled. `save()` is an upsert by key, and `load` is a map lookup.
- Replay protection is absent in the code and is not added. `ReplayDoubleCounts` states what the code does instead.
- Transaction hashes and timestamps are copied through unchecked. No validity of them is modelled.
- Aggregates are values. So two get-or-create calls for a missing id yield independent zeroed aggregates by construction, and it has no lemma of its own.
- The event-kind-to-handler table of the subgraph manifest is not part of the source file. `Projection.Step` stands in for it as a match on the event.
