/** The two lookups every pricing strategy offers over its read-only price map. */
module PricingStrategyBase {
  import opened Products
  import opened Outcomes
  import opened ValueObjects

  /** `TryGetUnitPrice(product, out price)`: reports whether the product has a price; the
      out-parameter holds that price, or `default` (zero) when there is none. Never fails. */
  function TryGetUnitPrice(prices: map<ProductType, Money>, product: ProductType): (r: (bool, Money))
    ensures r.0 <==> product in prices
    ensures r.0 ==> r.1 == prices[product]
    ensures !r.0 ==> r.1 == Zero
  {
    if product in prices then (true, prices[product]) else (false, Zero)
  }

  /** `GetUnitPrice(product)`: the dictionary indexer, which throws on a missing key. */
  function GetUnitPrice(prices: map<ProductType, Money>, product: ProductType): (r: Result<Money>)
    ensures r.Ok? <==> product in prices
    ensures r.Ok? ==> r.value == prices[product]
    ensures r.Err? ==> r.error == KeyNotFound(product)
  {
    if product in prices then Ok(prices[product]) else Err(KeyNotFound(product))
  }

  /** The two lookups agree: `GetUnitPrice` succeeds exactly when `TryGetUnitPrice`
      reports true, and then returns the same price. */
  lemma LookupsAgree(prices: map<ProductType, Money>, product: ProductType)
    ensures GetUnitPrice(prices, product).Ok? <==> TryGetUnitPrice(prices, product).0
    ensures GetUnitPrice(prices, product).Ok? ==>
              GetUnitPrice(prices, product).value == TryGetUnitPrice(prices, product).1
  {
  }
}
