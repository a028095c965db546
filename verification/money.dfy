/**
 Monetary arithmetic of the cart. Every amount is an integer number of cents;
 the decimal strings with two places that the store keeps are not modelled.
 */
module Money {

  /** The delivery fee charged on every cart, 50.00. */
  const DeliveryFee: int := 5000

  /** Ten percent of `subtotal`, rounded to a whole cent. As with `toFixed(2)`, the
      magnitude is rounded to the nearest cent and a tie goes to the larger magnitude. */
  function Tax(subtotal: int): (tax: int)
    ensures subtotal >= 0 ==> -5 < 10 * tax - subtotal <= 5
    ensures subtotal < 0 ==> -5 <= 10 * tax - subtotal < 5
    ensures (tax >= 0) == (subtotal >= 0) || tax == 0
  {
    if subtotal >= 0 then (subtotal + 5) / 10 else -((-subtotal + 5) / 10)
  }

  /** The rounding rule leaves no choice: any cent amount within the rounding window is `Tax`. */
  lemma TaxIsUnique(subtotal: int, tax: int)
    requires subtotal >= 0 ==> -5 < 10 * tax - subtotal <= 5
    requires subtotal < 0 ==> -5 <= 10 * tax - subtotal < 5
    ensures tax == Tax(subtotal)
  {
  }
}
