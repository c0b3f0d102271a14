/** `IPricingStrategy`: the three concrete strategies as one tagged type. */
module PricingStrategies {
  import opened Products
  import opened Outcomes
  import opened ValueObjects
  import IndividualPricingStrategy
  import SmallBusinessPricingStrategy
  import LargeBusinessPricingStrategy

  datatype PricingStrategy = Individual | SmallBusiness | LargeBusiness

  /** The price table of a strategy. */
  function Prices(strategy: PricingStrategy): map<ProductType, Money> {
    match strategy
    case Individual => IndividualPricingStrategy.Prices
    case SmallBusiness => SmallBusinessPricingStrategy.Prices
    case LargeBusiness => LargeBusinessPricingStrategy.Prices
  }

  /** Dispatches `TryGetUnitPrice` to the strategy's class. */
  function TryGetUnitPrice(strategy: PricingStrategy, product: ProductType): (r: (bool, Money))
    ensures r.0 <==> product in Prices(strategy)
    ensures r.0 ==> r.1 == Prices(strategy)[product]
  {
    match strategy
    case Individual => IndividualPricingStrategy.TryGetUnitPrice(product)
    case SmallBusiness => SmallBusinessPricingStrategy.TryGetUnitPrice(product)
    case LargeBusiness => LargeBusinessPricingStrategy.TryGetUnitPrice(product)
  }

  /** Dispatches `GetUnitPrice` to the strategy's class. */
  function GetUnitPrice(strategy: PricingStrategy, product: ProductType): (r: Result<Money>)
    ensures r.Ok? <==> product in Prices(strategy)
    ensures r.Ok? ==> r.value == Prices(strategy)[product]
    ensures r.Err? ==> r.error == KeyNotFound(product)
  {
    match strategy
    case Individual => IndividualPricingStrategy.GetUnitPrice(product)
    case SmallBusiness => SmallBusinessPricingStrategy.GetUnitPrice(product)
    case LargeBusiness => LargeBusinessPricingStrategy.GetUnitPrice(product)
  }

  /** Every strategy prices exactly the catalog: no table omits a catalog product, and
      none prices an undeclared value. */
  lemma PricesExactlyTheCatalog(strategy: PricingStrategy, product: ProductType)
    ensures product in Prices(strategy) <==> IsCatalogProduct(product)
    ensures TryGetUnitPrice(strategy, product).0 <==> IsCatalogProduct(product)
  {
  }
}
