/** Null references, the domain's failure vocabulary, and results that carry either. */
module Outcomes {
  import opened Products

  /** A nullable reference: `None` is `null`. */
  datatype Option<+T> = None | Some(value: T)

  /** The exceptions the core throws, each with the context it records. */
  datatype DomainError =
    | InvalidAmount                            // InvalidAmountException
    | InvalidQuantity(quantity: int)           // InvalidQuantityException(quantity)
    | InvalidProductType(product: ProductType) // InvalidProductTypeException
    | KeyNotFound(key: ProductType)            // dictionary indexer on a missing key
    | MissingCustomer                          // MissingCustomerException
    | ArgumentNull(paramName: string)          // ArgumentNullException(nameof(...))
    | UnsupportedCustomerType                  // ArgumentException from the strategy factory

  /** Either a value or the exception that replaced it; usable with `:-`. */
  datatype Result<+T> = Ok(value: T) | Err(error: DomainError) {

    predicate IsFailure() {
      Err?
    }

    function PropagateFailure<U>(): Result<U>
      requires Err?
    {
      Err(error)
    }

    function Extract(): T
      requires Ok?
    {
      value
    }
  }
}
