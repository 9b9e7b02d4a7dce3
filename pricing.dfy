/** The money arithmetic of checkout: tax, shipping and the order total,
    derived from the cart subtotal. Amounts are exact reals. */
module Pricing {

  /** Flat tax rate: 8 %. */
  const TaxRate: real := 0.08

  /** Orders whose subtotal is strictly above this ship free. */
  const FreeShippingThreshold: real := 100.0

  /** Shipping charged at or below the threshold. */
  const FlatShippingFee: real := 10.0

  datatype OrderTotals = OrderTotals(subtotal: real, tax: real, shipping: real, total: real)

  function Tax(subtotal: real): real
  {
    subtotal * TaxRate
  }

  function Shipping(subtotal: real): real
  {
    if subtotal > FreeShippingThreshold then 0.0 else FlatShippingFee
  }

  /** The four money fields of a new order, computed from its subtotal. */
  function ComputeTotals(subtotal: real): (t: OrderTotals)
    ensures t.subtotal == subtotal
    ensures t.total == t.subtotal + t.tax + t.shipping
    ensures t.shipping == 0.0 || t.shipping == FlatShippingFee
    ensures t.shipping == 0.0 <==> subtotal > FreeShippingThreshold
    ensures t.tax * 100.0 == subtotal * 8.0
  {
    var tax := Tax(subtotal);
    var shipping := Shipping(subtotal);
    OrderTotals(subtotal, tax, shipping, subtotal + tax + shipping)
  }

  /** A non-negative subtotal never produces a total below it, nor one more
      than 8 % plus the flat fee above it. */
  lemma TotalBounds(subtotal: real)
    requires subtotal >= 0.0
    ensures subtotal <= ComputeTotals(subtotal).total <= subtotal * 1.08 + FlatShippingFee
  {
  }

  /** A subtotal of exactly 100 still pays shipping: 100 + 8 + 10. */
  lemma ThresholdPaysShipping()
    ensures ComputeTotals(100.0) == OrderTotals(100.0, 8.0, 10.0, 118.0)
  {
  }

  /** Subtotal 50: tax 4, shipping 10, total 64. */
  lemma BelowThreshold()
    ensures ComputeTotals(50.0) == OrderTotals(50.0, 4.0, 10.0, 64.0)
  {
  }

  /** Subtotal 150: tax 12, free shipping, total 162. */
  lemma AboveThreshold()
    ensures ComputeTotals(150.0) == OrderTotals(150.0, 12.0, 0.0, 162.0)
  {
  }

  /** The total is not monotone in the subtotal: just above the threshold an
      order costs less than one at the threshold. */
  lemma FreeShippingStep()
    ensures ComputeTotals(100.01).total < ComputeTotals(100.0).total
  {
  }

  /** Above the threshold, the total is 108 % of the subtotal; at or below it,
      108 % plus the flat fee. */
  lemma {:induction false} TotalIsScaledSubtotal(subtotal: real)
    ensures ComputeTotals(subtotal).total ==
      subtotal * 1.08 + (if subtotal > FreeShippingThreshold then 0.0 else FlatShippingFee)
  {
  }
}
