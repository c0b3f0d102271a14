/** Whole-cart behaviour: a sequence of additions, the documented pricing examples, and
    draining the events. */
module CartScenarios {
  import opened Int32
  import opened Products
  import opened Outcomes
  import opened ValueObjects
  import opened Customers
  import opened PricingStrategies
  import opened Carts

  /** Calling `AddProduct` for each line in turn, stopping at the first failure. */
  function AddProducts(cart: Cart, lines: seq<(ProductType, int32)>, occurredOn: Timestamp): (r: Result<Cart>)
    ensures r.Ok? ==> r.value.id == cart.id && r.value.customer == cart.customer
    ensures r.Ok? ==> |r.value.domainEvents| == |cart.domainEvents| + |lines|
    ensures r.Ok? ==> r.value.domainEvents[..|cart.domainEvents|] == cart.domainEvents
    ensures r.Ok? && ValidCart(cart) ==> ValidCart(r.value)
    decreases |lines|
  {
    if |lines| == 0 then Ok(cart)
    else
      var next :- AddProduct(cart, lines[0].0, lines[0].1, occurredOn);
      assert ValidCart(cart) ==> ValidCart(next) by {
        if ValidCart(cart) {
          AddProductKeepsInvariant(cart, lines[0].0, lines[0].1, occurredOn);
        }
      }
      var rest := AddProducts(next, lines[1..], occurredOn);
      assert rest.Ok? ==> rest.value.domainEvents[..|cart.domainEvents|] == cart.domainEvents by {
        if rest.Ok? {
          assert rest.value.domainEvents[..|next.domainEvents|] == next.domainEvents;
          assert next.domainEvents[..|cart.domainEvents|] == cart.domainEvents;
        }
      }
      rest
  }

  /** What a run of lines costs the customer: each line's unit price times its quantity,
      added up; a line the customer has no price for contributes nothing. */
  function LinesTotal(customer: Customer, lines: seq<(ProductType, int32)>): real
    decreases |lines|
  {
    if |lines| == 0 then 0.0
    else
      (if Priced(customer, lines[0].0) then LineTotal(UnitPrice(customer, lines[0].0), lines[0].1) else 0.0)
      + LinesTotal(customer, lines[1..])
  }

  /** A successful run of additions prices every line, and raises the total by exactly
      the cost of its lines, whatever the products and however often they repeat. */
  lemma {:induction false} AddProductsRaisesTotal(cart: Cart, lines: seq<(ProductType, int32)>, now: Timestamp)
    requires ValidCart(cart) && Totalable(cart)
    requires AddProducts(cart, lines, now).Ok?
    ensures forall i :: 0 <= i < |lines| ==> Priced(cart.customer, lines[i].0)
    ensures Totalable(AddProducts(cart, lines, now).value)
    ensures Total(AddProducts(cart, lines, now).value) == Total(cart) + LinesTotal(cart.customer, lines)
    decreases |lines|
  {
    if |lines| != 0 {
      var next := AddProduct(cart, lines[0].0, lines[0].1, now).value;
      AddProductRaisesTotal(cart, lines[0].0, lines[0].1, now);
      AddProductKeepsInvariant(cart, lines[0].0, lines[0].1, now);
      assert AddProducts(cart, lines, now) == AddProducts(next, lines[1..], now);
      AddProductsRaisesTotal(next, lines[1..], now);
      forall i | 0 < i < |lines|
        ensures Priced(cart.customer, lines[i].0)
      {
        assert lines[i] == lines[1..][i - 1];
      }
    }
  }

  /** A run of additions of distinct products the cart does not hold yet, each priced
      for the customer and with a positive quantity, always succeeds: no running total
      can overflow when every product is added once. */
  lemma {:induction false} DistinctLinesSucceed(cart: Cart, lines: seq<(ProductType, int32)>, now: Timestamp)
    requires forall i :: 0 <= i < |lines| ==>
               0 < lines[i].1 && Priced(cart.customer, lines[i].0) && lines[i].0 !in cart.items
    requires forall i, j :: 0 <= i < j < |lines| ==> lines[i].0 != lines[j].0
    ensures AddProducts(cart, lines, now).Ok?
    decreases |lines|
  {
    if |lines| != 0 {
      var product := lines[0].0;
      assert QuantityOf(cart.items, product) == 0;
      var next := AddProduct(cart, product, lines[0].1, now);
      assert next.Ok?;
      forall i | 0 <= i < |lines[1..]|
        ensures 0 < lines[1..][i].1 && Priced(next.value.customer, lines[1..][i].0)
        ensures lines[1..][i].0 !in next.value.items
      {
        assert lines[1..][i] == lines[i + 1];
      }
      DistinctLinesSucceed(next.value, lines[1..], now);
    }
  }

  /** A fresh cart totals zero. */
  lemma FreshCartTotalsZero(customer: Customer, id: Guid)
    requires !customer.OtherCustomer?
    ensures var cart := NewCart(Some(customer), id);
            cart.Ok? && Totalable(cart.value) && Total(cart.value) == 0.0
  {
  }

  /** Filling a fresh cart with distinct priced products in positive quantities
      succeeds, and the cart then totals exactly the cost of the lines. */
  lemma FreshRunTotal(owner: Customer, id: Guid, lines: seq<(ProductType, int32)>, now: Timestamp)
    requires !owner.OtherCustomer?
    requires forall i :: 0 <= i < |lines| ==> 0 < lines[i].1 && Priced(owner, lines[i].0)
    requires forall i, j :: 0 <= i < j < |lines| ==> lines[i].0 != lines[j].0
    ensures var cart := AddProducts(NewCart(Some(owner), id).value, lines, now);
            cart.Ok? && Totalable(cart.value) && Total(cart.value) == LinesTotal(owner, lines)
  {
    var empty := NewCart(Some(owner), id).value;
    FreshCartTotalsZero(owner, id);
    DistinctLinesSucceed(empty, lines, now);
    AddProductsRaisesTotal(empty, lines, now);
  }

  /** An individual buying one high-end phone and two laptops pays 1500 + 2 * 1200 = 3900. */
  lemma IndividualTotal(id: Guid, now: Timestamp)
    ensures var cart := AddProducts(NewCart(Some(IndividualCustomer("IND001", "John", "Doe")), id).value,
                                    [(HighEndPhone, 1), (Laptop, 2)], now);
            cart.Ok? && Totalable(cart.value) && Total(cart.value) == 3900.0
  {
    var owner := IndividualCustomer("IND001", "John", "Doe");
    var lines: seq<(ProductType, int32)> := [(HighEndPhone, 1), (Laptop, 2)];
    assert Priced(owner, HighEndPhone) && Priced(owner, Laptop);
    assert LinesTotal(owner, lines) == 3900.0;
    FreshRunTotal(owner, id, lines, now);
  }

  /** A business with a revenue of 5,000,000 buying one high-end phone, three mid-range
      phones and one laptop pays 1150 + 3 * 600 + 1000 = 3950. */
  lemma SmallBusinessTotal(id: Guid, now: Timestamp)
    ensures var owner := BusinessCustomer("BIZ001", "Small Corp", "REG450", 5_000_000.0, Some("FR927654321"));
            var cart := AddProducts(NewCart(Some(owner), id).value,
                                    [(HighEndPhone, 1), (MidRangePhone, 3), (Laptop, 1)], now);
            cart.Ok? && Totalable(cart.value) && Total(cart.value) == 3950.0
  {
    var owner := BusinessCustomer("BIZ001", "Small Corp", "REG450", 5_000_000.0, Some("FR927654321"));
    var lines: seq<(ProductType, int32)> := [(HighEndPhone, 1), (MidRangePhone, 3), (Laptop, 1)];
    assert Priced(owner, HighEndPhone) && Priced(owner, MidRangePhone) && Priced(owner, Laptop);
    assert LinesTotal(owner, lines) == 3950.0;
    FreshRunTotal(owner, id, lines, now);
  }

  /** A business with a revenue of 15,000,000 buying two high-end phones, one mid-range
      phone and five laptops pays 2 * 1000 + 550 + 5 * 900 = 7050. */
  lemma LargeBusinessTotal(id: Guid, now: Timestamp)
    ensures var owner := BusinessCustomer("BIZ002", "Large Corp", "REG456", 15_000_000.0, Some("FR987654321"));
            var cart := AddProducts(NewCart(Some(owner), id).value,
                                    [(HighEndPhone, 2), (MidRangePhone, 1), (Laptop, 5)], now);
            cart.Ok? && Totalable(cart.value) && Total(cart.value) == 7050.0
  {
    var owner := BusinessCustomer("BIZ002", "Large Corp", "REG456", 15_000_000.0, Some("FR987654321"));
    var lines: seq<(ProductType, int32)> := [(HighEndPhone, 2), (MidRangePhone, 1), (Laptop, 5)];
    assert Priced(owner, HighEndPhone) && Priced(owner, MidRangePhone) && Priced(owner, Laptop);
    assert LinesTotal(owner, lines) == 7050.0;
    FreshRunTotal(owner, id, lines, now);
  }

  /** A business with a revenue of exactly 10,000,000 is priced as a small business:
      one high-end phone costs 1150, not 1000. */
  lemma ThresholdRevenueTotal(id: Guid, now: Timestamp)
    ensures var owner := BusinessCustomer("BIZ010", "Exact Corp", "REG010", 10_000_000.0, Some("FR123456789"));
            var cart := AddProducts(NewCart(Some(owner), id).value, [(HighEndPhone, 1)], now);
            cart.Ok? && Totalable(cart.value) && Total(cart.value) == 1150.0
  {
    var owner := BusinessCustomer("BIZ010", "Exact Corp", "REG010", 10_000_000.0, Some("FR123456789"));
    var lines: seq<(ProductType, int32)> := [(HighEndPhone, 1)];
    assert Priced(owner, HighEndPhone);
    assert LinesTotal(owner, lines) == 1150.0;
    FreshRunTotal(owner, id, lines, now);
  }

  /** The event of a first addition carries the cart id, the customer id, the product,
      the quantity added, the same quantity as running total, and the unit price. */
  lemma FirstAdditionEvent(id: Guid, now: Timestamp)
    ensures var owner := IndividualCustomer("C001", "Jean", "Dupont");
            var cart := AddProduct(NewCart(Some(owner), id).value, HighEndPhone, 2, now);
            cart.Ok? && cart.value.domainEvents ==
              [ProductAddedToCart(id, "C001", HighEndPhone, 2, 2, Money(1500.0), now)]
  {
  }

  /** Draining after some additions returns one event per addition, in order, and
      leaves nothing to drain a second time; the items stay. */
  lemma DrainAfterAdditions(cart: Cart, lines: seq<(ProductType, int32)>, now: Timestamp)
    requires cart.domainEvents == []
    requires AddProducts(cart, lines, now).Ok?
    ensures var filled := AddProducts(cart, lines, now).value;
            var first := PopDomainEvents(filled);
            var second := PopDomainEvents(first.1);
            && |first.0| == |lines|
            && (forall i :: 0 <= i < |lines| ==> first.0[i].product == lines[i].0
                                                  && first.0[i].quantityAdded == lines[i].1)
            && first.1.items == filled.items
            && second.0 == []
  {
    var filled := AddProducts(cart, lines, now).value;
    DrainedEventsFollowLines(cart, lines, now);
    DrainFollowsLines(filled, lines);
  }

  /** Draining a cart whose log matches the lines one for one hands back that log and
      empties it; nothing else about the cart moves. */
  lemma DrainFollowsLines(filled: Cart, lines: seq<(ProductType, int32)>)
    requires EventsFollowLinesFrom(filled.domainEvents, 0, lines)
    ensures var first := PopDomainEvents(filled);
            var second := PopDomainEvents(first.1);
            && |first.0| == |lines|
            && (forall i :: 0 <= i < |lines| ==> first.0[i].product == lines[i].0
                                                  && first.0[i].quantityAdded == lines[i].1)
            && first.1.items == filled.items
            && second.0 == []
  {
  }

  /** The event a successful addition appends describes that addition, and the earlier
      events stay in front of it. */
  lemma AddedEventDescribesLine(cart: Cart, product: ProductType, quantity: int32, now: Timestamp)
    requires AddProduct(cart, product, quantity, now).Ok?
    ensures var events := AddProduct(cart, product, quantity, now).value.domainEvents;
            && |events| == |cart.domainEvents| + 1
            && events[|cart.domainEvents|].product == product
            && events[|cart.domainEvents|].quantityAdded == quantity
  {
  }

  /** Event `i` of a log, counted from offset `n`, describes line `i`. */
  ghost predicate EventsFollowLinesFrom(events: seq<ProductAddedToCart>, n: nat,
                                        lines: seq<(ProductType, int32)>)
  {
    && |events| == n + |lines|
    && forall i :: 0 <= i < |lines| ==>
         events[n + i].product == lines[i].0 && events[n + i].quantityAdded == lines[i].1
  }

  /** The log follows the lines from `n` when its entry `n` describes the first line
      and it follows the remaining lines from `n + 1`. */
  lemma EventsFollowLinesStep(events: seq<ProductAddedToCart>, n: nat, lines: seq<(ProductType, int32)>)
    requires |lines| != 0 && n < |events|
    requires events[n].product == lines[0].0 && events[n].quantityAdded == lines[0].1
    requires EventsFollowLinesFrom(events, n + 1, lines[1..])
    ensures EventsFollowLinesFrom(events, n, lines)
  {
    forall i | 0 <= i < |lines|
      ensures events[n + i].product == lines[i].0 && events[n + i].quantityAdded == lines[i].1
    {
      if i != 0 {
        assert events[n + i] == events[(n + 1) + (i - 1)];
        assert lines[1..][i - 1] == lines[i];
      }
    }
  }

  /** The i-th event raised by a run of additions describes the i-th line. */
  lemma {:induction false} DrainedEventsFollowLines(cart: Cart, lines: seq<(ProductType, int32)>, now: Timestamp)
    requires AddProducts(cart, lines, now).Ok?
    ensures EventsFollowLinesFrom(AddProducts(cart, lines, now).value.domainEvents,
                                  |cart.domainEvents|, lines)
    decreases |lines|
  {
    if |lines| != 0 {
      var next := AddProduct(cart, lines[0].0, lines[0].1, now).value;
      var n := |cart.domainEvents|;
      AddedEventDescribesLine(cart, lines[0].0, lines[0].1, now);
      DrainedEventsFollowLines(next, lines[1..], now);
      var events := AddProducts(next, lines[1..], now).value.domainEvents;
      assert events == AddProducts(cart, lines, now).value.domainEvents;
      assert events[..n + 1] == next.domainEvents;
      assert events[n] == next.domainEvents[n];
      EventsFollowLinesStep(events, n, lines);
    }
  }
}
