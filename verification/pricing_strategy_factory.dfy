/** `PricingStrategyFactory.CreateStrategy`: which price table a customer gets. */
module PricingStrategyFactory {
  import opened Outcomes
  import opened Products
  import opened ValueObjects
  import opened Customers
  import opened PricingStrategies

  /** Individuals get the individual table; businesses the large-business table when
      they are large accounts and the small-business table otherwise; a null client and
      any other kind of customer are rejected. */
  function CreateStrategy(client: Option<Customer>): (r: Result<PricingStrategy>)
    ensures client.None? ==> r == Err(ArgumentNull("client"))
    ensures client.Some? && client.value.IndividualCustomer? ==> r == Ok(Individual)
    ensures client.Some? && client.value.BusinessCustomer? ==>
              (r == Ok(LargeBusiness) <==> client.value.annualRevenue > 10_000_000.0)
    ensures client.Some? && client.value.BusinessCustomer? ==>
              (r == Ok(SmallBusiness) <==> client.value.annualRevenue <= 10_000_000.0)
    ensures client.Some? && client.value.OtherCustomer? ==> r == Err(UnsupportedCustomerType)
  {
    if client.None? then Err(ArgumentNull("client"))
    else
      match client.value
      case IndividualCustomer(_, _, _) => Ok(Individual)
      case BusinessCustomer(_, _, _, _, _) =>
        if IsLargeAccount(client.value) then Ok(LargeBusiness) else Ok(SmallBusiness)
      case OtherCustomer(_) => Err(UnsupportedCustomerType)
  }

  /** The strategy depends only on the customer's kind and, for a business, on which
      side of the threshold its revenue lies: names, ids and VAT numbers do not matter. */
  lemma StrategyDependsOnlyOnKindAndRevenue(a: Customer, b: Customer)
    requires a.IndividualCustomer? <==> b.IndividualCustomer?
    requires a.OtherCustomer? <==> b.OtherCustomer?
    requires a.BusinessCustomer? && b.BusinessCustomer? ==>
               (IsLargeAccount(a) <==> IsLargeAccount(b))
    ensures CreateStrategy(Some(a)) == CreateStrategy(Some(b))
  {
  }

  /** A revenue of exactly 10,000,000 is not a large account: the business is priced
      by the small-business table, so one high-end phone costs 1150, not 1000. */
  lemma ThresholdIsStrict(clientId: string, company: string, registration: string)
    ensures var c := NewBusinessCustomer(Some(clientId), Some(company), Some(registration), 10_000_000.0);
            c.Ok? && CreateStrategy(Some(c.value)) == Ok(SmallBusiness)
            && GetUnitPrice(CreateStrategy(Some(c.value)).value, HighEndPhone) == Ok(Money(1150.0))
  {
  }
}
