/** The checkout pricing rule shared by the cart page and the checkout page:
    an 18% tax on the subtotal and a flat delivery charge that is waived for
    an empty cart and from the free-delivery threshold upwards.

    The subtotal is an input (the shop context computes it). All arithmetic
    is exact over `real`; the browser's floating-point rounding and the
    two-decimal display formatting are not modelled. */
module Pricing {

  const FreeDeliveryThreshold: real := 1999.0
  const FlatDeliveryCharge: real := 100.0
  const TaxRate: real := 0.18

  /** 0 for an empty cart, 0 at or above the threshold, 100 otherwise. */
  function DeliveryCharge(subtotal: real): (d: real)
    ensures d == 0.0 || d == FlatDeliveryCharge
    ensures d == 0.0 <==> subtotal == 0.0 || subtotal >= FreeDeliveryThreshold
  {
    if subtotal == 0.0 then 0.0
    else if subtotal >= FreeDeliveryThreshold then 0.0
    else FlatDeliveryCharge
  }

  function Tax(subtotal: real): (t: real)
    ensures subtotal >= 0.0 ==> 0.0 <= t <= subtotal
    ensures 100.0 * t == 18.0 * subtotal
  {
    subtotal * TaxRate
  }

  /** Subtotal, plus tax, plus delivery. */
  function GrandTotal(subtotal: real): (g: real)
    ensures subtotal == 0.0 ==> g == 0.0
    ensures subtotal != 0.0 && subtotal < FreeDeliveryThreshold ==> 100.0 * g == 118.0 * subtotal + 100.0 * FlatDeliveryCharge
    ensures subtotal >= FreeDeliveryThreshold ==> 100.0 * g == 118.0 * subtotal
    ensures subtotal >= 0.0 ==> g >= subtotal
  {
    subtotal + Tax(subtotal) + DeliveryCharge(subtotal)
  }

  /** What the delivery row shows: "0.00" for an empty cart, "Free" when the
      threshold is reached, otherwise the charge as an amount. */
  datatype DeliveryLabel = ZeroAmount | Free | Amount(value: real)

  function DeliveryLabelFor(subtotal: real): (l: DeliveryLabel)
    ensures l.ZeroAmount? <==> subtotal == 0.0
    ensures l.Free? <==> subtotal != 0.0 && subtotal >= FreeDeliveryThreshold
    ensures l.Amount? ==> l.value == FlatDeliveryCharge
  {
    if subtotal == 0.0 then ZeroAmount
    else if subtotal >= FreeDeliveryThreshold then Free
    else Amount(DeliveryCharge(subtotal))
  }

  /** The label never contradicts the charge that enters the grand total. */
  lemma LabelMatchesCharge(subtotal: real)
    ensures DeliveryLabelFor(subtotal).Amount? <==> DeliveryCharge(subtotal) != 0.0
    ensures DeliveryLabelFor(subtotal).Amount? ==> DeliveryLabelFor(subtotal).value == DeliveryCharge(subtotal)
  {
  }

  /** Two worked examples: 2×500 + 1×1200 and 1×300. */
  lemma WorkedExamples()
    ensures Tax(2200.0) == 396.0 && DeliveryCharge(2200.0) == 0.0 && GrandTotal(2200.0) == 2596.0
    ensures Tax(300.0) == 54.0 && DeliveryCharge(300.0) == 100.0 && GrandTotal(300.0) == 454.0
  {
  }

  /** Reaching the threshold can lower the grand total: a subtotal just below
      1999 costs more than 1999 itself exactly when it lies less than 100/1.18
      below the threshold (1998 is one such subtotal). */
  lemma ThresholdLowersTotal(s: real)
    requires 0.0 < s < FreeDeliveryThreshold
    ensures GrandTotal(s) > GrandTotal(FreeDeliveryThreshold) <==> 118.0 * (FreeDeliveryThreshold - s) < 10000.0
    ensures s == FreeDeliveryThreshold - 1.0 ==> GrandTotal(s) > GrandTotal(FreeDeliveryThreshold)
  {
  }
}
