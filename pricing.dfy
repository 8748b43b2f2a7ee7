/** The shipping rule shared by the cart page (src/app/cart/page.tsx:206-219)
    and the checkout page (src/app/checkout/page.tsx:49-51), in integer
    cents: shipping is free from a subtotal of 50.00, and 5.99 below it. */
module Pricing {
  import opened Wrappers

  /** 50.00, in cents. */
  const FreeShippingThreshold := 5000
  /** 5.99, in cents. */
  const StandardShipping := 599

  /** `totalPrice >= 50 ? 0 : 5.99`. */
  function ShippingCost(subtotal: int): (r: int)
    ensures r == 0 <==> subtotal >= FreeShippingThreshold
    ensures r == 0 || r == StandardShipping
  {
    if subtotal >= FreeShippingThreshold then 0 else StandardShipping
  }

  /** `totalPrice + shippingCost`. */
  function OrderTotal(subtotal: int): (r: int)
    ensures subtotal >= FreeShippingThreshold ==> r == subtotal
    ensures subtotal < FreeShippingThreshold ==> r == subtotal + StandardShipping
    ensures subtotal <= r <= subtotal + StandardShipping
  {
    subtotal + ShippingCost(subtotal)
  }

  /** The amount the cart page asks the customer to add for free shipping
      (src/app/cart/page.tsx:210-212): shown only below the threshold. */
  function FreeShippingRemainder(subtotal: int): (r: Option<int>)
    ensures r.Some? <==> subtotal < FreeShippingThreshold
    ensures r.Some? ==> r.value > 0 && subtotal + r.value == FreeShippingThreshold
  {
    if subtotal < FreeShippingThreshold then Some(FreeShippingThreshold - subtotal) else None
  }

  /** Adding the advertised remainder, or anything more, reaches free
      shipping; adding anything less does not. */
  lemma RemainderReachesFreeShipping(subtotal: int, extra: int)
    requires FreeShippingRemainder(subtotal).Some?
    ensures ShippingCost(subtotal + extra) == 0 <==> extra >= FreeShippingRemainder(subtotal).value
  {
  }

  /** The total is not monotone in the subtotal: just below the threshold
      the customer pays more than at the threshold itself. */
  lemma TotalDropsAtThreshold(subtotal: int)
    requires FreeShippingThreshold - StandardShipping < subtotal < FreeShippingThreshold
    ensures OrderTotal(subtotal) > OrderTotal(FreeShippingThreshold)
  {
  }
}
