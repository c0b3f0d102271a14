/** The SmallBusiness price table and its lookups. */
module SmallBusinessPricingStrategy {
  import opened Products
  import opened Outcomes
  import opened ValueObjects
  import PricingStrategyBase

  /** The static read-only price table. */
  const Prices: map<ProductType, Money> :=
    map[HighEndPhone := Money(1150.0), MidRangePhone := Money(600.0), Laptop := Money(1000.0)]

  /** Reports a price exactly for the three catalog products, with the table's price. */
  function TryGetUnitPrice(product: ProductType): (r: (bool, Money))
    ensures r.0 <==> IsCatalogProduct(product)
    ensures product == HighEndPhone ==> r == (true, Money(1150.0))
    ensures product == MidRangePhone ==> r == (true, Money(600.0))
    ensures product == Laptop ==> r == (true, Money(1000.0))
  {
    PricingStrategyBase.TryGetUnitPrice(Prices, product)
  }

  /** Returns the table's price for a catalog product, the same one `TryGetUnitPrice`
      reports, and fails on any other value. */
  function GetUnitPrice(product: ProductType): (r: Result<Money>)
    ensures r.Ok? <==> IsCatalogProduct(product)
    ensures r.Ok? ==> r == Ok(TryGetUnitPrice(product).1)
    ensures product == HighEndPhone ==> r == Ok(Money(1150.0))
    ensures product == MidRangePhone ==> r == Ok(Money(600.0))
    ensures product == Laptop ==> r == Ok(Money(1000.0))
    ensures r.Err? ==> r.error == KeyNotFound(product)
  {
    PricingStrategyBase.GetUnitPrice(Prices, product)
  }
}
