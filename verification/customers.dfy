/** Customers: an immutable client id plus the fields of each concrete kind. */
module Customers {
  import opened Outcomes

  /** `Customer` is abstract. `IndividualCustomer` and `BusinessCustomer` are its two
      kinds in the core; `OtherCustomer` stands for any further subclass a caller
      may declare. All properties are get-only, so a customer never changes. */
  datatype Customer =
    | IndividualCustomer(clientId: string, firstName: string, lastName: string)
    | BusinessCustomer(clientId: string, companyName: string, registrationNumber: string,
                       annualRevenue: real, vatNumber: Option<string>)
    | OtherCustomer(clientId: string)
  {
    /** The id the cart's events report as `CustomerId`. */
    function CustomerId(): string {
      clientId
    }
  }

  /** Revenue a business must strictly exceed to be a large account. */
  const LargeAccountThreshold: real := 10_000_000.0

  /** `BusinessCustomer.IsLargeAccount`: revenue strictly above ten million. */
  function IsLargeAccount(customer: Customer): (r: bool)
    requires customer.BusinessCustomer?
    ensures r <==> customer.annualRevenue > 10_000_000.0
    ensures customer.annualRevenue == 10_000_000.0 ==> !r
  {
    customer.annualRevenue > LargeAccountThreshold
  }

  /** `new IndividualCustomer(clientId, firstName, lastName)`. The derived class's
      property initializers run before the base constructor, so the names are checked
      before the client id. */
  function NewIndividualCustomer(clientId: Option<string>, firstName: Option<string>,
                                 lastName: Option<string>): (r: Result<Customer>)
    ensures r.Ok? <==> clientId.Some? && firstName.Some? && lastName.Some?
    ensures r.Ok? ==> r.value == IndividualCustomer(clientId.value, firstName.value, lastName.value)
    ensures firstName.None? ==> r == Err(ArgumentNull("firstName"))
    ensures firstName.Some? && lastName.None? ==> r == Err(ArgumentNull("lastName"))
    ensures firstName.Some? && lastName.Some? && clientId.None? ==> r == Err(ArgumentNull("clientId"))
  {
    if firstName.None? then Err(ArgumentNull("firstName"))
    else if lastName.None? then Err(ArgumentNull("lastName"))
    else if clientId.None? then Err(ArgumentNull("clientId"))
    else Ok(IndividualCustomer(clientId.value, firstName.value, lastName.value))
  }

  /** `new BusinessCustomer(clientId, companyName, registrationNumber, annualRevenue, vatNumber = null)`.
      Company name, then registration number, then (in the base constructor) client id
      are null-checked; the VAT number is optional and the revenue is stored unchecked. */
  function NewBusinessCustomer(clientId: Option<string>, companyName: Option<string>,
                               registrationNumber: Option<string>, annualRevenue: real,
                               vatNumber: Option<string> := None): (r: Result<Customer>)
    ensures r.Ok? <==> clientId.Some? && companyName.Some? && registrationNumber.Some?
    ensures r.Ok? ==> r.value == BusinessCustomer(clientId.value, companyName.value,
                                                  registrationNumber.value, annualRevenue, vatNumber)
    ensures companyName.None? ==> r == Err(ArgumentNull("companyName"))
    ensures companyName.Some? && registrationNumber.None? ==> r == Err(ArgumentNull("registrationNumber"))
    ensures companyName.Some? && registrationNumber.Some? && clientId.None? ==> r == Err(ArgumentNull("clientId"))
  {
    if companyName.None? then Err(ArgumentNull("companyName"))
    else if registrationNumber.None? then Err(ArgumentNull("registrationNumber"))
    else if clientId.None? then Err(ArgumentNull("clientId"))
    else Ok(BusinessCustomer(clientId.value, companyName.value, registrationNumber.value,
                             annualRevenue, vatNumber))
  }

  /** A constructed customer reports back exactly the arguments it was given, and a
      business created without a VAT number has none. */
  lemma ConstructionRoundTrip(clientId: string, first: string, last: string, company: string,
                              registration: string, revenue: real)
    ensures var c := NewIndividualCustomer(Some(clientId), Some(first), Some(last));
            c.Ok? && c.value.CustomerId() == clientId
            && c.value.firstName == first && c.value.lastName == last
    ensures var c := NewBusinessCustomer(Some(clientId), Some(company), Some(registration), revenue);
            c.Ok? && c.value.CustomerId() == clientId && c.value.companyName == company
            && c.value.registrationNumber == registration && c.value.annualRevenue == revenue
            && c.value.vatNumber == None
            && (IsLargeAccount(c.value) <==> revenue > 10_000_000.0)
  {
  }
}
