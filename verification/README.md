# OnlineShopPricing pricing kernel, in Dafny

This project models the domain kernel of an online-shop cart. It covers:

- the `Money` value object;
- the three fixed price tables (Individual, SmallBusiness, LargeBusiness) and their two lookups;
- the customers, and the factory that picks a customer's price table;
- the `Entity` and `AggregateRoot` seed work: identity equality and the domain-event log;
- the `Cart` aggregate: guarded `AddProduct`, `ProductAddedToCart` events, and `CalculateTotal`.

Everything is a pure function over immutable values. A C# exception becomes
`Err(DomainError)` in a `Result`. A C# `null` argument becomes `None` in an `Option`.
A failing cart operation returns no new cart, so the caller keeps the old one: nothing is
mutated on failure. `decimal` amounts are exact `real`s. A subset type keeps every
`Money` non-negative, so every `Money` any operation produces has a non-negative amount.
Quantities are C# `int`s (`Int32.int32`), and the unchecked `int` addition in the cart is
written out as `WrapAdd`.

Files and modules:

| file | module | models |
|---|---|---|
| `int32.dfy` | `Int32` | C# `int` range and unchecked addition |
| `products.dfy` | `Products` | `ProductType` |
| `outcomes.dfy` | `Outcomes` | null (`Option`), the exceptions (`DomainError`), `Result` |
| `money.dfy` | `ValueObjects` | `Money` |
| `pricing_strategy_base.dfy` | `PricingStrategyBase` | the generic lookups over a price map |
| `individual_pricing_strategy.dfy`, `small_business_pricing_strategy.dfy`, `large_business_pricing_strategy.dfy` | one module each | the three price tables |
| `pricing_strategies.dfy` | `PricingStrategies` | `IPricingStrategy` as a tagged type |
| `customers.dfy` | `Customers` | `Customer`, `IndividualCustomer`, `BusinessCustomer` |
| `pricing_strategy_factory.dfy` | `PricingStrategyFactory` | customer to strategy |
| `entity.dfy` | `Entities` | `Entity<K>` equality and hashing |
| `aggregate_root.dfy` | `AggregateRoots` | the domain-event log |
| `cart.dfy` | `Carts` | `Cart` and `ProductAddedToCart` |
| `cart_scenarios.dfy` | `CartScenarios` | runs of additions and the documented pricing examples |

Where the revisions of the source disagree, the model follows the code and resolves the gaps as follows:

- `Cart` calls `Customer.GetPricingStrategy()` and `Customer.CustomerId`, but `Customer` declares neither.
  - Strategy resolution follows the factory rule (`Carts.GetCurrentPricingStrategy`).
  - `CustomerId` is the `ClientId`.
- `Cart` calls `TryGetUnitPrice` through the strategy interface. It is taken from the strategy classes.
- The strategy classes type prices as `decimal`, but `Cart` and its tests use them as `Money`.
  - The tables hold `Money`.
  - Every price is a non-negative constant, so the conversion cannot fail.
- Customer construction only rejects `null`. It does not reject blank strings or a negative revenue, and the model does the same.
  - The errors are `ArgumentNullException(paramName)`.
  - C# runs a derived class's property initializers before the base constructor. So the name fields are checked before `clientId`.
- `GetUnitPrice` on a missing product fails the way the dictionary indexer does (`KeyNotFound`). There is no separate "unknown product" error.
- `Cart` would throw `MissingPricingStrategyException` if the strategy were null. The factory never returns null, so that error cannot arise and is not modelled.
- A customer kind other than Individual or Business is `OtherCustomer`.
  - The factory rejects it with `ArgumentException` (`UnsupportedCustomerType`), as the factory test with the tests' `InvalidCustomerType` expects.
  - Because cart resolution follows the factory rule, `AddProduct` and `CalculateTotal` fail with that error for such a cart, even when it is empty.
  - `InvalidCustomerType` itself overrides `GetPricingStrategy()` to throw `NotImplementedException`. A cart owned by it would fail with that exception instead, which the model does not reproduce.
- `ProductType` is `HighEndPhone | MidRangePhone | Laptop | Other(code)`. `Other` covers undeclared enum values such as `(ProductType)999`. Every `Other(code)` is treated as undeclared, whatever its code.
- The pricing tests pass the VAT number third to `BusinessCustomer`. The constructor (OnLineShopPricing.Core/Domain/BusinessCustomer.cs:3-8) takes it last, and the scenarios use the constructor's order.

## Model

| member | source | states |
|---|---|---|
| Int32.WrapAdd | OnLineShopPricing.Core/Domain/Cart.cs:112 | the unchecked `int` sum equals the exact sum when that fits, and is off by exactly 2^32 when it overflows either way |
| Int32.AccumulateOverflowIff | OnLineShopPricing.Core/Domain/Cart.cs:111-118 | for a non-negative stored quantity and a positive addition, the `newQuantity <= 0` guard fires exactly when the exact sum exceeds 2^31-1 |
| ValueObjects.Create | OnLineShopPricing.Core/Domain/ValueObjects/Money.cs:20-26 | construction fails with InvalidAmount iff the amount is negative; otherwise `Amount` is exactly the argument |
| ValueObjects.Add | OnLineShopPricing.Core/Domain/ValueObjects/Money.cs:36-37 | `+` is what the validating constructor yields on the sum of the amounts, and that constructor never rejects it |
| ValueObjects.Scale | OnLineShopPricing.Core/Domain/ValueObjects/Money.cs:42-45 | a negative quantity fails with InvalidQuantity carrying exactly that quantity; otherwise the amount is amount times quantity |
| ValueObjects.CreateRoundTrip | OnLineShopPricing.Core/Domain/ValueObjects/Money.cs:20-26 | reconstructing a Money from its own amount succeeds and gives back an equal value |
| ValueObjects.EqualityIsByAmount | OnLineShopPricing.Core/Domain/ValueObjects/Money.cs:8 | record-struct equality: two Money values are equal iff their amounts are |
| ValueObjects.ZeroIsIdentity | OnLineShopPricing.Core/Domain/ValueObjects/Money.cs:31-37 | `Zero` has amount 0 and is a left and right identity of `+` |
| ValueObjects.AddCommutesAndAssociates | OnLineShopPricing.Core/Domain/ValueObjects/Money.cs:36-37 | `+` is commutative and associative, so a folded total does not depend on visiting order |
| ValueObjects.ScaleByZeroOrOne | OnLineShopPricing.Core/Domain/ValueObjects/Money.cs:42-45 | `m * 0` is `Zero` and `m * 1` is `m` |
| ValueObjects.ScaleDistributes | OnLineShopPricing.Core/Domain/ValueObjects/Money.cs:42-45 | `m * (p + q)` equals `m * p + m * q` for non-negative quantities |
| PricingStrategyBase.TryGetUnitPrice | OnLineShopPricing.Core/Services/PricingStrategyBase.cs:11-14 | reports true iff the product is a key of the map; the out-price is then the map's price, and otherwise the default zero |
| PricingStrategyBase.GetUnitPrice | OnLineShopPricing.Core/Services/PricingStrategyBase.cs:16-19 | returns the map's price for a key and fails with KeyNotFound for any other product |
| PricingStrategyBase.LookupsAgree | OnLineShopPricing.Core/Services/PricingStrategyBase.cs:11-19 | `GetUnitPrice` succeeds exactly when `TryGetUnitPrice` reports true, and returns the same price |
| IndividualPricingStrategy.TryGetUnitPrice | OnLineShopPricing.Core/Services/IndividualPricingStrategy.cs:8-18 | true exactly for the three catalog products, with prices 1500, 800, 1200; false for `(ProductType)999` |
| IndividualPricingStrategy.GetUnitPrice | OnLineShopPricing.Core/Services/IndividualPricingStrategy.cs:20-23 | succeeds exactly on the catalog, with prices 1500, 800, 1200, the same price `TryGetUnitPrice` reports; fails with KeyNotFound otherwise |
| SmallBusinessPricingStrategy.TryGetUnitPrice | OnLineShopPricing.Core/Services/SmallBusinessPricingStrategy.cs:8-18 | true exactly for the three catalog products, with prices 1150, 600, 1000 |
| SmallBusinessPricingStrategy.GetUnitPrice | OnLineShopPricing.Core/Services/SmallBusinessPricingStrategy.cs:20-23 | succeeds exactly on the catalog, with prices 1150, 600, 1000, the same price `TryGetUnitPrice` reports; fails with KeyNotFound otherwise |
| LargeBusinessPricingStrategy.TryGetUnitPrice | OnLineShopPricing.Core/Services/LargeBusinessPricingStrategy.cs:7-17 | true exactly for the three catalog products, with prices 1000, 550, 900 |
| LargeBusinessPricingStrategy.GetUnitPrice | OnLineShopPricing.Core/Services/LargeBusinessPricingStrategy.cs:19-22 | succeeds exactly on the catalog, with prices 1000, 550, 900, the same price `TryGetUnitPrice` reports; fails with KeyNotFound otherwise |
| PricingStrategies.TryGetUnitPrice | OnLineShopPricing.Core/Domain/Cart.cs:88 | the strategy-polymorphic call reports true iff the product is in that strategy's table, with that table's price |
| PricingStrategies.GetUnitPrice | OnLineShopPricing.Core/Domain/Cart.cs:62 | the strategy-polymorphic call returns that strategy's table price, or fails with KeyNotFound for an unpriced product |
| PricingStrategies.PricesExactlyTheCatalog | OnLineShopPricing.Core/Services/IndividualPricingStrategy.cs:8-13 | every strategy's table holds exactly the three catalog products: none omits one, none prices an undeclared value |
| Customers.NewIndividualCustomer | OnLineShopPricing.Core/Domain/IndividualCustomer.cs:3-6 | succeeds iff no argument is null, storing the arguments unchanged; a null first name, last name or client id fails with ArgumentNull naming that parameter, checked in that order |
| Customers.NewBusinessCustomer | OnLineShopPricing.Core/Domain/BusinessCustomer.cs:3-13 | succeeds iff company name, registration number and client id are non-null; the VAT number is optional and the revenue unchecked; each null fails with ArgumentNull naming it, in initializer order |
| Customers.IsLargeAccount | OnLineShopPricing.Core/Domain/BusinessCustomer.cs:14 | a business is a large account iff its revenue strictly exceeds 10,000,000; a revenue of exactly 10,000,000 is not |
| Customers.ConstructionRoundTrip | OnLineShopPricing.Core/Domain/Customer.cs:5 | a constructed customer reports exactly its arguments as `ClientId` and fields; a business built without a VAT number has none, and is a large account iff revenue > 10,000,000 |
| PricingStrategyFactory.CreateStrategy | OnLineShopPricing.Core/Services/PricingStrategyFactory.cs:15-25 | null fails with ArgumentNull; an individual gets Individual; a business gets LargeBusiness iff revenue > 10,000,000, otherwise SmallBusiness; any other kind fails with ArgumentException |
| PricingStrategyFactory.StrategyDependsOnlyOnKindAndRevenue | OnLineShopPricing.Core/Services/PricingStrategyFactory.cs:18-24 | two customers of the same kind, on the same side of the large-account threshold, always get the same table |
| PricingStrategyFactory.ThresholdIsStrict | OnLineShopPricing.Core/Domain/BusinessCustomer.cs:14 | a revenue of exactly 10,000,000 is priced as SmallBusiness, so one high-end phone costs 1150 |
| Entities.IsTransient | OnLineShopPricing.Core/Domain/SeedWork/Entity.cs:47-50 | an entity is transient exactly when its id still equals the key type's default value |
| Entities.EqualsEntity | OnLineShopPricing.Core/Domain/SeedWork/Entity.cs:73-84 | the typed overload is false for null; for two distinct references it holds iff the left entity is persisted and the ids are equal |
| Entities.Equals | OnLineShopPricing.Core/Domain/SeedWork/Entity.cs:57-64 | never equal to null; always equal to the same reference; otherwise equal iff same runtime type, persisted, and same id |
| Entities.TransientEqualityIsByReference | OnLineShopPricing.Core/Domain/SeedWork/Entity.cs:57-84 | a transient entity is `Equals` to the very same reference only: never to another transient entity, never to a persisted one, in either argument order |
| Entities.GetHashCode | OnLineShopPricing.Core/Domain/SeedWork/Entity.cs:88-98 | a persisted entity hashes as its id; a transient one by its reference |
| Entities.EqualsIsEquivalence | OnLineShopPricing.Core/Domain/SeedWork/Entity.cs:57-84 | on a consistent heap `Equals` is reflexive, symmetric and transitive |
| Entities.EqualEntitiesHashEqually | OnLineShopPricing.Core/Domain/SeedWork/Entity.cs:88-98 | entities that are `Equals` have equal hash codes, whatever the id and reference hashes are |
| Entities.OperatorEqualsAsWritten | OnLineShopPricing.Core/Domain/SeedWork/Entity.cs:103-107 | as written, `null == x` iff x is null, and a persisted left entity is `==` to any entity with the same id, whatever its runtime type |
| Entities.OperatorIgnoresRuntimeType | OnLineShopPricing.Core/Domain/SeedWork/Entity.cs:103-115 | a persisted "Cart" and a persisted "Order" with the same id are `==` and not `!=` as written, yet not `Equals`, and `!=` under the corrected operator |
| Entities.OperatorEquals | OnLineShopPricing.Core/Domain/SeedWork/Entity.cs:103-107 | corrected `==`: null equals only null; entities of different runtime types are never `==`; same-type persisted entities are `==` iff their ids are equal |
| Entities.OperatorNotEqualsAsWritten | OnLineShopPricing.Core/Domain/SeedWork/Entity.cs:112-115 | as written, `null != x` iff x is non-null and an entity is `!=` null; a persisted left entity is `!=` another entity iff the ids differ, whatever the runtime types; two transient entities are `!=` iff they are different references |
| Entities.OperatorNotEquals | OnLineShopPricing.Core/Domain/SeedWork/Entity.cs:112-115 | corrected `!=`: null differs from every entity and not from null; entities of different runtime types always differ; same-type persisted entities differ iff their ids do; it is exactly the negation of `Equals` |
| Entities.OperatorEqualsAgreesWithEquals | OnLineShopPricing.Core/Domain/SeedWork/Entity.cs:100-115 | corrected `==` agrees with `Equals`, is symmetric, and holds of an entity and itself; corrected `!=` is its negation |
| AggregateRoots.AddDomainEvent | OnLineShopPricing.Core/Domain/SeedWork/AggregateRoot.cs:37-45 | a null event fails with ArgumentNull; otherwise the log grows by one, keeps all earlier events in order, and ends with the new event |
| AggregateRoots.ClearDomainEvents | OnLineShopPricing.Core/Domain/SeedWork/AggregateRoot.cs:51-54 | the log is empty afterwards |
| AggregateRoots.PopDomainEvents | OnLineShopPricing.Core/Domain/SeedWork/AggregateRoot.cs:61-66 | returns exactly the log as it was and leaves it cleared |
| AggregateRoots.AddAllAppends | OnLineShopPricing.Core/Domain/SeedWork/AggregateRoot.cs:37-45 | raising events one by one yields the old log followed by the new events in raise order |
| AggregateRoots.PopReturnsEventsSinceLastPop | OnLineShopPricing.Core/Domain/SeedWork/AggregateRoot.cs:61-66 | a pop returns exactly the events raised since the previous pop; a second pop right after returns nothing |
| Carts.GetCurrentPricingStrategy | OnLineShopPricing.Core/Domain/Cart.cs:100-104 | resolution fails only for an unsupported customer kind, with that error; an individual always gets the Individual table |
| Carts.NewCart | OnLineShopPricing.Core/Domain/Cart.cs:19-27 | a null customer fails with MissingCustomer; otherwise the cart has that customer and id, no items and no events, and satisfies the cart invariants |
| Carts.QuantityOf | OnLineShopPricing.Core/Domain/Cart.cs:111 | the stored quantity of a product the cart holds, and 0 for one it does not |
| Carts.GuardAgainstNonPositiveQuantity | OnLineShopPricing.Core/Domain/Cart.cs:73-79 | passes iff the quantity is positive; otherwise fails with InvalidQuantity carrying it |
| Carts.GuardAgainstUnpricedProduct | OnLineShopPricing.Core/Domain/Cart.cs:86-93 | passes exactly for the catalog products, whatever the strategy; otherwise fails with InvalidProductType |
| Carts.IncreaseProductQuantity | OnLineShopPricing.Core/Domain/Cart.cs:109-132 | fails with InvalidQuantity carrying the wrapped sum iff that sum is not positive; otherwise stores it and appends exactly one event, keeping the earlier events |
| Carts.AddProduct | OnLineShopPricing.Core/Domain/Cart.cs:41-49 | the error for each failing check, in order; on an ordinary cart, success iff the sum fits in an `int`; on success, only that product's quantity changes, to old + quantity, and exactly one event is appended with cart id, customer id, product, quantity, new total and the unit price |
| Carts.AddProductKeepsInvariant | OnLineShopPricing.Core/Domain/Cart.cs:13-16 | after a successful add, every stored quantity is still positive and every stored product still priced by the customer's strategy |
| Carts.AddSameProductTwice | OnlineShopPricingTests/CartDomainTests.cs:220-234 | adding q1 then q2 of one product stores q1 + q2 and raises two events whose running totals are q1 and q1 + q2 |
| Carts.PopDomainEvents | OnlineShopPricingTests/CartDomainTests.cs:237-246 | draining a cart returns its pending events and leaves the log empty, with items, owner and id untouched |
| Carts.LineSumRemove | OnLineShopPricing.Core/Domain/Cart.cs:60-64 | any entry may be folded first: the sum of line totals does not depend on dictionary enumeration order |
| Carts.LineSumFrame | OnLineShopPricing.Core/Domain/Cart.cs:60-64 | the folded total reads only the entries it visits: two carts that agree on those entries have the same sum |
| Carts.CalculateTotal | OnLineShopPricing.Core/Domain/Cart.cs:55-67 | succeeds iff every entry is priced with a non-negative quantity, and then equals the sum of unit price times quantity; any error names a bad entry; never fails on an invariant-keeping cart of a supported customer; an empty cart totals Zero |
| Carts.SumLines | OnLineShopPricing.Core/Domain/Cart.cs:57-64 | the fold over the entries succeeds iff every entry is in the price table with a non-negative quantity, and then yields the exact sum of price times quantity; a failure names an offending entry |
| Carts.AddProductRaisesTotal | OnlineShopPricingTests/CartDomainTests.cs:39-52 | after a successful add to an invariant-keeping cart, the total grows by exactly the customer's unit price times the quantity added |
| CartScenarios.AddProducts | OnlineShopPricingTests/PricingDomainTests.cs:92-95 | a run of successful additions keeps owner, id and earlier events, raises one event per line, and keeps the cart invariants |
| CartScenarios.DistinctLinesSucceed | OnLineShopPricing.Core/Domain/Cart.cs:41-49 | a run of additions of distinct products the cart does not hold yet, each priced and with a positive quantity, always succeeds |
| CartScenarios.AddProductsRaisesTotal | OnlineShopPricingTests/PricingDomainTests.cs:90-97 | a successful run of additions prices every line and raises the total by exactly the sum of each line's unit price times quantity, repeated products included |
| CartScenarios.FreshRunTotal | OnlineShopPricingTests/PricingDomainTests.cs:90-100 | filling a fresh cart with distinct priced lines succeeds, and the total is then exactly the cost of the lines |
| CartScenarios.FreshCartTotalsZero | OnlineShopPricingTests/CartDomainTests.cs:25-36 | a fresh cart of a supported customer totals 0 |
| CartScenarios.IndividualTotal | OnlineShopPricingTests/PricingDomainTests.cs:20-29 | individual, 1 high-end phone and 2 laptops: total 3900 |
| CartScenarios.SmallBusinessTotal | OnlineShopPricingTests/PricingDomainTests.cs:32-42 | business with revenue 5,000,000, 1 high-end, 3 mid-range, 1 laptop: total 3950 |
| CartScenarios.LargeBusinessTotal | OnlineShopPricingTests/PricingDomainTests.cs:45-62 | business with revenue 15,000,000, 2 high-end, 1 mid-range, 5 laptops: total 7050 |
| CartScenarios.ThresholdRevenueTotal | OnlineShopPricingTests/PricingDomainTests.cs:65-80 | business with revenue exactly 10,000,000, 1 high-end phone: total 1150 |
| CartScenarios.FirstAdditionEvent | OnlineShopPricingTests/CartDomainTests.cs:195-217 | the single event of a first addition carries the cart id, "C001", the product, 2 added, running total 2 and unit price 1500 |
| CartScenarios.DrainAfterAdditions | OnlineShopPricingTests/CartDomainTests.cs:237-246 | after additions to a drained cart, a pop returns one event per addition in order and a second pop returns nothing; items stay |
| CartScenarios.DrainedEventsFollowLines | OnlineShopPricingTests/CartDomainTests.cs:220-234 | the i-th event raised by a run of additions names the i-th line's product and quantity |

## Left out

- `DateTime.UtcNow` for `OccurredOn` and `Guid.NewGuid()` for the cart id are a clock and a random source. They are parameters (`occurredOn`, `id`).
- The hash of a transient entity comes from the runtime's per-object hash. It is a parameter (`referenceHash`), and only its consistency with `Equals` is stated.
- The EF Core protected setter of `Entity.Id` is not modelled. Ids never change here.
- `Money.ToString` is not modelled. It uses culture-dependent `F2` formatting.
- `Money`'s generated `GetHashCode` is not modelled. It is runtime hashing; equality by amount is stated instead.
- `decimal`'s 28-digit range and rounding are not modelled. Amounts are unbounded exact reals, so the decimal overflow `money * quantity` could raise is not modelled either.
- Exception messages are not modelled. They come from a localised resource that is not part of this model.
- `IDomainEvent`, `IAggregateRoot`, `IEntity` and `IPricingStrategy` are markers and interfaces with no logic. They become the `ProductAddedToCart`, `Cart` and `PricingStrategy` datatypes.
- The read-only views `Items` and `DomainEvents` are the `items` and `domainEvents` fields of the immutable `Cart` value. Callers cannot mutate a cart through them.
- The older `Cart(customer, strategy)` API and its mock-based tests target code that is not part of this model.
- Concurrency is not modelled. The cart is not synchronised and is modelled as single-threaded.
- `ProductType`'s declaration is not part of this model, so the codes of the declared members are unknown. `Other(c)` where `c` is a declared member's code is a junk value that C# could not produce; the model treats it as unpriced.
- Entities.EqualsEntity: keys are modelled as values with a non-null default, such as `Guid` or `int`. For a key type whose default is `null` (`string`, a record-class id), a transient entity's `Id` is `null`. Comparing it with a persisted entity then throws `NullReferenceException` at `Id.Equals(other.Id)` (Entity.cs:83), where the model returns false.
- Entities.Equals: keys are modelled as values with a non-null default. For a null-default key, a transient entity compared with a persisted entity of the same runtime type reaches the same `Id.Equals` call on a `null` `Id` and throws `NullReferenceException`, where the model returns false.
- Entities.TransientEqualityIsByReference: its "in either argument order" holds only for keys with a non-null default. For a null-default key, the transient-first comparison with a persisted entity throws `NullReferenceException` instead of returning false.
- Entities.EqualsIsEquivalence: its symmetry clause holds only for keys with a non-null default. For a null-default key, `a.Equals(b)` throws `NullReferenceException` when `a` is transient and `b` persisted, while `b.Equals(a)` is false.
- Entities.Equals: only entities with the same key type are compared. An argument that is not an `Entity<K>` at all is only represented as `null` or as another runtime type.

## Findings

| source | as written | input that shows it | evidently intended | confidence | as-written member | corrected member |
|---|---|---|---|---|---|---|
| OnLineShopPricing.Core/Domain/SeedWork/Entity.cs:103-115 | `left.Equals(right)` takes an argument statically typed `Entity<K>?`. It binds to the more specific protected overload `Equals(Entity<K>?)`, which skips the reference and `GetType()` checks of `Equals(object?)` | a persisted `Cart` and a persisted `Order` that share id 7: `==` is true and `!=` false, yet `Equals` is false | `==` agrees with `Equals(object?)`, so entities of different runtime types are never `==`, and `!=` is its negation | medium, not executed | Entities.OperatorEqualsAsWritten and Entities.OperatorNotEqualsAsWritten (shown by Entities.OperatorIgnoresRuntimeType) | Entities.OperatorEquals and Entities.OperatorNotEquals (proved by Entities.OperatorEqualsAgreesWithEquals) |
