/** The Individual price table and its lookups. */
module IndividualPricingStrategy {
  import opened Products
  import opened Outcomes
  import opened ValueObjects
  import PricingStrategyBase

  /** The static read-only price table. */
  const Prices: map<ProductType, Money> :=
    map[HighEndPhone := Money(1500.0), MidRangePhone := Money(800.0), Laptop := Money(1200.0)]

  /** Reports a price exactly for the three catalog products, with the table's price. */
  function TryGetUnitPrice(product: ProductType): (r: (bool, Money))
    ensures r.0 <==> IsCatalogProduct(product)
    ensures product == HighEndPhone ==> r == (true, Money(1500.0))
    ensures product == MidRangePhone ==> r == (true, Money(800.0))
    ensures product == Laptop ==> r == (true, Money(1200.0))
  {
    PricingStrategyBase.TryGetUnitPrice(Prices, product)
  }

  /** Returns the table's price for a catalog product, the same one `TryGetUnitPrice`
      reports, and fails on any other value. */
  function GetUnitPrice(product: ProductType): (r: Result<Money>)
    ensures r.Ok? <==> IsCatalogProduct(product)
    ensures r.Ok? ==> r == Ok(TryGetUnitPrice(product).1)
    ensures product == HighEndPhone ==> r == Ok(Money(1500.0))
    ensures product == MidRangePhone ==> r == Ok(Money(800.0))
    ensures product == Laptop ==> r == Ok(Money(1200.0))
    ensures r.Err? ==> r.error == KeyNotFound(product)
  {
    PricingStrategyBase.GetUnitPrice(Prices, product)
  }
}
