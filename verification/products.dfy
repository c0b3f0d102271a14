/** The product catalog keys. */
module Products {

  /** `ProductType`: the three declared catalog members, and `Other` for any undeclared
      value the enum can still carry through a cast such as `(ProductType)999`. */
  datatype ProductType = HighEndPhone | MidRangePhone | Laptop | Other(code: int)

  /** The declared members of the enum. */
  predicate IsCatalogProduct(product: ProductType) {
    !product.Other?
  }
}
