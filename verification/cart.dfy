/** `Cart`: the aggregate root that stores quantities per product, guards every addition,
    records one `ProductAddedToCart` per successful addition, and prices its content
    with the customer's current strategy. */
module Carts {
  import opened Int32
  import opened Products
  import opened Outcomes
  import opened ValueObjects
  import opened Customers
  import opened PricingStrategies
  import opened PricingStrategyFactory
  import AggregateRoots

  /** A `System.Guid`. */
  type Guid = bv128

  /** A `DateTime` instant, supplied by the caller in place of `DateTime.UtcNow`. */
  type Timestamp = int

  /** The `ProductAddedToCart` domain event. */
  datatype ProductAddedToCart = ProductAddedToCart(
    cartId: Guid,
    customerId: string,
    product: ProductType,
    quantityAdded: int32,
    newTotalQuantity: int32,
    unitPrice: Money,
    occurredOn: Timestamp)

  /** A cart: its id, its owner, the quantity per product (`Items`), and the pending
      domain events (`DomainEvents`). */
  datatype Cart = Cart(
    id: Guid,
    customer: Customer,
    items: map<ProductType, int32>,
    domainEvents: seq<ProductAddedToCart>)

  /** `GetCurrentPricingStrategy()`: the customer's strategy, resolved afresh by the
      factory rule; only a customer of an unsupported kind has none. */
  function GetCurrentPricingStrategy(customer: Customer): (r: Result<PricingStrategy>)
    ensures r.Err? <==> customer.OtherCustomer?
    ensures r.Err? ==> r.error == UnsupportedCustomerType
    ensures customer.IndividualCustomer? ==> r == Ok(Individual)
  {
    CreateStrategy(Some(customer))
  }

  /** The product has a price under the customer's current strategy. */
  predicate Priced(customer: Customer, product: ProductType) {
    var strategy := GetCurrentPricingStrategy(customer);
    strategy.Ok? && product in Prices(strategy.value)
  }

  /** The customer's current unit price for a priced product. */
  function UnitPrice(customer: Customer, product: ProductType): Money
    requires Priced(customer, product)
  {
    Prices(GetCurrentPricingStrategy(customer).value)[product]
  }

  /** The cart's documented invariants: every stored quantity is positive, and every
      stored product is priced by the customer's current strategy. */
  predicate ValidCart(cart: Cart) {
    && (forall p :: p in cart.items ==> 0 < cart.items[p])
    && (forall p :: p in cart.items ==> Priced(cart.customer, p))
  }

  /** `_productQuantities.GetValueOrDefault(product)`: the stored quantity, or the
      default `0` for a product the cart does not hold. */
  function QuantityOf(items: map<ProductType, int32>, product: ProductType): (r: int32)
    ensures product in items ==> r == items[product]
    ensures product !in items ==> r == 0
  {
    if product in items then items[product] else 0
  }

  /** `new Cart(customer)`, with `id` standing for the `Guid.NewGuid()` it draws. */
  function NewCart(customer: Option<Customer>, id: Guid): (r: Result<Cart>)
    ensures customer.None? <==> r == Err(MissingCustomer)
    ensures customer.Some? ==> r.Ok? && r.value.customer == customer.value && r.value.id == id
                               && r.value.items == map[] && r.value.domainEvents == []
    ensures r.Ok? ==> ValidCart(r.value)
  {
    if customer.None? then Err(MissingCustomer)
    else Ok(Cart(id, customer.value, map[], []))
  }

  /** `GuardAgainstNonPositiveQuantity`. */
  function GuardAgainstNonPositiveQuantity(quantity: int32): (r: Result<()>)
    ensures r.Ok? <==> 0 < quantity
    ensures r.Err? ==> r.error == InvalidQuantity(quantity)
  {
    if quantity <= 0 then Err(InvalidQuantity(quantity)) else Ok(())
  }

  /** `GuardAgainstUnpricedProduct`: asks the strategy's `TryGetUnitPrice`. */
  function GuardAgainstUnpricedProduct(product: ProductType, strategy: PricingStrategy): (r: Result<()>)
    ensures r.Ok? <==> IsCatalogProduct(product)
    ensures r.Err? ==> r.error == InvalidProductType(product)
  {
    if !TryGetUnitPrice(strategy, product).0 then Err(InvalidProductType(product)) else Ok(())
  }

  /** `IncreaseProductQuantity`: accumulates with `int` wrap-around, rejects a
      non-positive result, commits, and then raises the event with the unit price
      looked up after the commit. Only reached with a product the guards accepted. */
  function IncreaseProductQuantity(cart: Cart, product: ProductType, quantity: int32,
                                   occurredOn: Timestamp): (r: Result<Cart>)
    requires Priced(cart.customer, product)
    ensures var newQuantity := WrapAdd(QuantityOf(cart.items, product), quantity);
            && (r.Err? <==> newQuantity <= 0)
            && (r.Err? ==> r.error == InvalidQuantity(newQuantity))
            && (r.Ok? ==> r.value.items == cart.items[product := newQuantity]
                          && |r.value.domainEvents| == |cart.domainEvents| + 1
                          && r.value.domainEvents[..|cart.domainEvents|] == cart.domainEvents)
  {
    var currentQuantity := QuantityOf(cart.items, product);
    var newQuantity := WrapAdd(currentQuantity, quantity);
    if newQuantity <= 0 then Err(InvalidQuantity(newQuantity))
    else
      var committed := cart.(items := cart.items[product := newQuantity]);
      var unitPrice := GetUnitPrice(GetCurrentPricingStrategy(committed.customer).value, product).value;
      var event := ProductAddedToCart(committed.id, committed.customer.CustomerId(), product,
                                      quantity, newQuantity, unitPrice, occurredOn);
      Ok(committed.(domainEvents := AggregateRoots.AddDomainEvent(committed.domainEvents, Some(event)).value))
  }

  /** `AddProduct(product, quantity)`. Checks, in order: a positive quantity, a resolvable
      strategy, a priced product, an accumulated quantity that stays a positive `int`.
      Any failure returns no new cart, so items and events stay as they were; a success
      stores the exact sum and appends exactly one event describing it. */
  function AddProduct(cart: Cart, product: ProductType, quantity: int32,
                      occurredOn: Timestamp): (r: Result<Cart>)
    ensures quantity <= 0 ==> r == Err(InvalidQuantity(quantity))
    ensures 0 < quantity && cart.customer.OtherCustomer? ==> r == Err(UnsupportedCustomerType)
    ensures (0 < quantity && !cart.customer.OtherCustomer? && !IsCatalogProduct(product))
            ==> r == Err(InvalidProductType(product))
    ensures (0 < quantity && Priced(cart.customer, product) && 0 <= QuantityOf(cart.items, product))
            ==> (r.Ok? <==> QuantityOf(cart.items, product) + quantity <= MaxValue)
    ensures (0 < quantity && Priced(cart.customer, product) && r.Err?)
            ==> r.error.InvalidQuantity? && r.error.quantity <= 0
    ensures r.Ok? ==>
              var newQuantity := QuantityOf(cart.items, product) + quantity;
              && 0 < quantity && Priced(cart.customer, product)
              && MinValue <= newQuantity <= MaxValue
              && r.value.id == cart.id && r.value.customer == cart.customer
              && r.value.items == cart.items[product := newQuantity]
              && r.value.domainEvents == cart.domainEvents +
                   [ProductAddedToCart(cart.id, cart.customer.CustomerId(), product, quantity,
                                       newQuantity, UnitPrice(cart.customer, product), occurredOn)]
  {
    var positive :- GuardAgainstNonPositiveQuantity(quantity);
    var pricingStrategy :- GetCurrentPricingStrategy(cart.customer);
    var priced :- GuardAgainstUnpricedProduct(product, pricingStrategy);
    IncreaseProductQuantity(cart, product, quantity, occurredOn)
  }

  /** A successful addition keeps the cart's invariants. */
  lemma AddProductKeepsInvariant(cart: Cart, product: ProductType, quantity: int32, occurredOn: Timestamp)
    requires ValidCart(cart)
    requires AddProduct(cart, product, quantity, occurredOn).Ok?
    ensures ValidCart(AddProduct(cart, product, quantity, occurredOn).value)
  {
    var next := AddProduct(cart, product, quantity, occurredOn).value;
    forall p | p in next.items
      ensures 0 < next.items[p] && Priced(next.customer, p)
    {
      if p != product {
        assert p in cart.items;
      }
    }
  }

  /** Adding the same product twice accumulates the quantities and raises two events
      whose running totals are the first quantity and then the sum. */
  lemma AddSameProductTwice(cart: Cart, product: ProductType, q1: int32, q2: int32,
                            t1: Timestamp, t2: Timestamp)
    requires product !in cart.items
    requires Priced(cart.customer, product)
    requires 0 < q1 && 0 < q2 && q1 + q2 <= MaxValue
    ensures var first := AddProduct(cart, product, q1, t1);
            && first.Ok?
            && var second := AddProduct(first.value, product, q2, t2);
            && second.Ok?
            && second.value.items[product] == q1 + q2
            && |second.value.domainEvents| == |cart.domainEvents| + 2
            && second.value.domainEvents[|cart.domainEvents|].newTotalQuantity == q1
            && second.value.domainEvents[|cart.domainEvents| + 1].newTotalQuantity == q1 + q2
  {
    AccumulateOverflowIff(0, q1);
    AccumulateOverflowIff(q1, q2);
  }

  /** `PopDomainEvents()` on the cart: returns the pending events and leaves the log
      empty; items, owner and id are untouched. */
  function PopDomainEvents(cart: Cart): (r: (seq<ProductAddedToCart>, Cart))
    ensures r.0 == cart.domainEvents
    ensures r.1 == cart.(domainEvents := [])
  {
    var popped := AggregateRoots.PopDomainEvents(cart.domainEvents);
    (popped.0, cart.(domainEvents := popped.1))
  }

  // -----------------------------------------------------------------------
  // Total
  // -----------------------------------------------------------------------

  /** `unitPrice * quantity`, as an exact amount. */
  function LineTotal(unitPrice: Money, quantity: int32): real {
    unitPrice.amount * quantity as real
  }

  /** The line total of one stored product under a price table. */
  function LineAmount(items: map<ProductType, int32>, prices: map<ProductType, Money>,
                      product: ProductType): real
    requires product in items && product in prices
  {
    LineTotal(prices[product], items[product])
  }

  /** The sum of the line totals of the products in `keys`, in no particular order. */
  ghost function LineSum(items: map<ProductType, int32>, prices: map<ProductType, Money>,
                         keys: set<ProductType>): real
    requires keys <= items.Keys && keys <= prices.Keys
    decreases keys
  {
    if keys == {} then 0.0
    else
      var product :| product in keys;
      LineAmount(items, prices, product) + LineSum(items, prices, keys - {product})
  }

  /** Any product may be taken out of the sum first: the sum does not depend on the
      order in which a dictionary enumerates its entries. */
  lemma {:induction false} LineSumRemove(items: map<ProductType, int32>, prices: map<ProductType, Money>,
                                         keys: set<ProductType>, x: ProductType)
    requires keys <= items.Keys && keys <= prices.Keys
    requires x in keys
    ensures LineSum(items, prices, keys) == LineAmount(items, prices, x) + LineSum(items, prices, keys - {x})
    decreases keys
  {
    var y :| y in keys && LineSum(items, prices, keys) ==
               LineAmount(items, prices, y) + LineSum(items, prices, keys - {y});
    if y != x {
      LineSumRemove(items, prices, keys - {y}, x);
      LineSumRemove(items, prices, keys - {x}, y);
      assert keys - {y} - {x} == keys - {x} - {y};
    }
  }

  /** Two quantity maps that agree on `keys` have the same sum over `keys`. */
  lemma {:induction false} LineSumFrame(items: map<ProductType, int32>, other: map<ProductType, int32>,
                                        prices: map<ProductType, Money>, keys: set<ProductType>)
    requires keys <= items.Keys && keys <= other.Keys && keys <= prices.Keys
    requires forall p :: p in keys ==> items[p] == other[p]
    ensures LineSum(items, prices, keys) == LineSum(other, prices, keys)
    decreases keys
  {
    if keys != {} {
      var x :| x in keys;
      LineSumRemove(items, prices, keys, x);
      LineSumRemove(other, prices, keys, x);
      LineSumFrame(items, other, prices, keys - {x});
    }
  }

  /** `CalculateTotal()` can complete: the strategy resolves, and every stored product is
      priced and stored with a quantity `money * quantity` accepts. */
  predicate Totalable(cart: Cart) {
    && GetCurrentPricingStrategy(cart.customer).Ok?
    && (forall p :: p in cart.items ==> Priced(cart.customer, p) && 0 <= cart.items[p])
  }

  /** The exact total of a cart: the sum over its entries of unit price times quantity. */
  ghost function Total(cart: Cart): real
    requires Totalable(cart)
  {
    LineSum(cart.items, Prices(GetCurrentPricingStrategy(cart.customer).value), cart.items.Keys)
  }

  /** `CalculateTotal()`: resolves the strategy afresh and folds `total += unitPrice * quantity`
      over the entries, in whatever order the dictionary yields them. It succeeds exactly
      when the cart is totalable, then with the exact total; it always succeeds on a cart
      that keeps its invariants and has a supported owner, and an empty cart totals `Zero`. */
  method CalculateTotal(cart: Cart) returns (r: Result<Money>)
    ensures cart.customer.OtherCustomer? ==> r == Err(UnsupportedCustomerType)
    ensures r.Ok? <==> Totalable(cart)
    ensures r.Ok? ==> r.value.amount == Total(cart)
    ensures (r.Err? && !cart.customer.OtherCustomer?) ==>
              || (r.error.KeyNotFound? && r.error.key in cart.items && !Priced(cart.customer, r.error.key))
              || (r.error.InvalidQuantity? && r.error.quantity < 0
                  && exists p :: p in cart.items && cart.items[p] == r.error.quantity)
    ensures ValidCart(cart) && !cart.customer.OtherCustomer? ==> r.Ok?
    ensures cart.items == map[] && !cart.customer.OtherCustomer? ==> r == Ok(Zero)
  {
    var resolved := GetCurrentPricingStrategy(cart.customer);
    if resolved.Err? {
      return Err(resolved.error);
    }
    r := SumLines(cart.items, resolved.value);
  }

  /** The loop of `CalculateTotal()` once the strategy is resolved: every entry's unit
      price times its quantity, added up. It succeeds exactly when every entry is priced
      and has a quantity `money * quantity` accepts, and then yields the exact sum; a
      failure names the entry that caused it. */
  method SumLines(items: map<ProductType, int32>, pricingStrategy: PricingStrategy)
    returns (r: Result<Money>)
    ensures r.Ok? <==> forall p :: p in items ==> p in Prices(pricingStrategy) && 0 <= items[p]
    ensures r.Ok? ==> r.value.amount == LineSum(items, Prices(pricingStrategy), items.Keys)
    ensures r.Err? ==>
              || (r.error.KeyNotFound? && r.error.key in items && r.error.key !in Prices(pricingStrategy))
              || (r.error.InvalidQuantity? && r.error.quantity < 0
                  && exists p :: p in items && items[p] == r.error.quantity)
  {
    var prices := Prices(pricingStrategy);
    var total := Zero;
    var remaining := items.Keys;
    ghost var visited: set<ProductType> := {};
    while remaining != {}
      invariant remaining + visited == items.Keys
      invariant remaining !! visited
      invariant visited <= prices.Keys
      invariant forall p :: p in visited ==> 0 <= items[p]
      invariant total.amount == LineSum(items, prices, visited)
      decreases remaining
    {
      var product :| product in remaining;
      var unitPrice := GetUnitPrice(pricingStrategy, product);
      if unitPrice.Err? {
        return Err(unitPrice.error);
      }
      var line := Scale(unitPrice.value, items[product]);
      if line.Err? {
        return Err(line.error);
      }
      total := Add(total, line.value);
      LineSumRemove(items, prices, visited + {product}, product);
      assert visited + {product} - {product} == visited;
      remaining := remaining - {product};
      visited := visited + {product};
    }
    return Ok(total);
  }

  /** The line of a product whose quantity becomes `old + quantity` grows by the price
      times `quantity` (an absent product had no line). */
  lemma StoreRaisesLineAmount(items: map<ProductType, int32>, prices: map<ProductType, Money>,
                              product: ProductType, quantity: int32, newQuantity: int32)
    requires product in prices
    requires newQuantity as real == QuantityOf(items, product) as real + quantity as real
    ensures LineAmount(items[product := newQuantity], prices, product) ==
              (if product in items then LineAmount(items, prices, product) else 0.0)
              + LineTotal(prices[product], quantity)
  {
    var price := prices[product].amount;
    var before := QuantityOf(items, product) as real;
    assert price * (before + quantity as real) == price * before + price * quantity as real;
  }

  /** Storing `old + quantity` for one product raises the sum of line totals by the
      product's price times `quantity`. */
  lemma {:induction false} StoreRaisesLineSum(items: map<ProductType, int32>, prices: map<ProductType, Money>,
                                              product: ProductType, quantity: int32, newQuantity: int32)
    requires items.Keys <= prices.Keys && product in prices
    requires newQuantity as real == QuantityOf(items, product) as real + quantity as real
    ensures LineSum(items[product := newQuantity], prices, items.Keys + {product}) ==
              LineSum(items, prices, items.Keys) + LineTotal(prices[product], quantity)
  {
    var next := items[product := newQuantity];
    var rest := items.Keys - {product};
    assert next.Keys == items.Keys + {product};
    LineSumRemove(next, prices, next.Keys, product);
    assert next.Keys - {product} == rest;
    LineSumFrame(next, items, prices, rest);
    StoreRaisesLineAmount(items, prices, product, quantity, newQuantity);
    if product in items {
      LineSumRemove(items, prices, items.Keys, product);
    } else {
      assert items.Keys == rest;
    }
  }

  /** A successful `AddProduct` raises the total `CalculateTotal` computes by exactly the
      unit price times the quantity added. */
  lemma AddProductRaisesTotal(cart: Cart, product: ProductType, quantity: int32, occurredOn: Timestamp)
    requires ValidCart(cart)
    requires AddProduct(cart, product, quantity, occurredOn).Ok?
    ensures Totalable(cart) && Totalable(AddProduct(cart, product, quantity, occurredOn).value)
    ensures Total(AddProduct(cart, product, quantity, occurredOn).value) ==
              Total(cart) + LineTotal(UnitPrice(cart.customer, product), quantity)
  {
    var next := AddProduct(cart, product, quantity, occurredOn).value;
    AddProductKeepsInvariant(cart, product, quantity, occurredOn);
    var prices := Prices(GetCurrentPricingStrategy(cart.customer).value);
    var newQuantity := QuantityOf(cart.items, product) + quantity;
    assert next.items == cart.items[product := newQuantity];
    assert next.items.Keys == cart.items.Keys + {product};
    StoreRaisesLineSum(cart.items, prices, product, quantity, newQuantity);
    assert next.customer == cart.customer;
    assert UnitPrice(cart.customer, product) == prices[product];
  }
}
