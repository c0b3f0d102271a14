/** `Money`: a non-negative amount of euros with value semantics. */
module ValueObjects {
  import opened Outcomes
  import opened Int32

  /** A C# `decimal` amount, taken exactly (no rounding) and never negative. */
  type Amount = r: real | 0.0 <= r

  /** A `readonly record struct`: two values are equal exactly when their amounts are. */
  datatype Money = Money(amount: Amount)

  /** The validating constructor `new Money(amount)`. */
  function Create(amount: real): (r: Result<Money>)
    ensures amount < 0.0 <==> r == Err(InvalidAmount)
    ensures 0.0 <= amount ==> r.Ok? && r.value.amount == amount
  {
    if amount < 0.0 then Err(InvalidAmount) else Ok(Money(amount))
  }

  /** `Money.Zero`. */
  const Zero: Money := Money(0.0)

  /** `left + right`: the sum goes through the validating constructor, which cannot reject it. */
  function Add(left: Money, right: Money): (r: Money)
    ensures Create(left.amount + right.amount) == Ok(r)
  {
    Money(left.amount + right.amount)
  }

  /** `money * quantity`: a negative quantity is rejected, carrying the quantity itself;
      otherwise the product goes through the validating constructor. */
  function Scale(money: Money, quantity: int32): (r: Result<Money>)
    ensures quantity < 0 <==> r == Err(InvalidQuantity(quantity))
    ensures 0 <= quantity ==> r.Ok? && r.value.amount == money.amount * quantity as real
  {
    if quantity < 0 then Err(InvalidQuantity(quantity))
    else Create(money.amount * quantity as real)
  }

  /** Every `Money` is what the validating constructor yields on its own amount. */
  lemma CreateRoundTrip(m: Money)
    ensures Create(m.amount) == Ok(m)
  {
  }

  /** Value equality: two `Money` values are equal iff their amounts are. */
  lemma EqualityIsByAmount(a: Money, b: Money)
    ensures a == b <==> a.amount == b.amount
  {
  }

  /** `Zero` is an identity of `+`, on either side. */
  lemma ZeroIsIdentity(m: Money)
    ensures Zero.amount == 0.0
    ensures Add(Zero, m) == m && Add(m, Zero) == m
  {
  }

  /** `+` is commutative and associative, so a sum of line totals does not depend on
      the order in which the lines are visited. */
  lemma AddCommutesAndAssociates(a: Money, b: Money, c: Money)
    ensures Add(a, b) == Add(b, a)
    ensures Add(Add(a, b), c) == Add(a, Add(b, c))
  {
  }

  /** Scaling by zero yields `Zero`, and scaling by one is the identity. */
  lemma ScaleByZeroOrOne(m: Money)
    ensures Scale(m, 0) == Ok(Zero)
    ensures Scale(m, 1) == Ok(m)
  {
  }

  /** Scaling distributes over a sum of non-negative quantities that stays an `int`. */
  lemma ScaleDistributes(m: Money, p: int32, q: int32)
    requires 0 <= p && 0 <= q && p + q <= MaxValue
    ensures Scale(m, p + q) == Ok(Add(Scale(m, p).value, Scale(m, q).value))
  {
    var a, x, y := m.amount, p as real, q as real;
    assert (p + q) as real == x + y;
    assert a * (x + y) == a * x + a * y;
    var left, right := Scale(m, p + q).value, Add(Scale(m, p).value, Scale(m, q).value);
    assert left.amount == a * (x + y);
    assert right.amount == a * x + a * y;
  }
}
