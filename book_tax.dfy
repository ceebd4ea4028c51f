/**
 * DesignPrinciples/SingleResponsibility/without/Book.java: the price with
 * tax is price * 120 / 100 on Java ints, so the product wraps on overflow
 * and the division truncates toward zero; the total adds the shipping cost.
 * The shipping cost is computed in floating point and enters here only as
 * the int it is cast to.
 */
module BookTax {
  import opened JavaLang

  /** The largest price whose product with 120 still fits in an int. */
  const LARGEST_EXACT_PRICE: int := 17895697

  /**
   * calculatePriceWithTax: p * 120 wrapped to an int, then divided by 100
   * toward zero. Whatever the overflow, the result is at most a hundredth
   * of the int range in size; without overflow it is never below a price
   * that is not negative.
   */
  function PriceWithTax(price: int32): (r: int32)
    ensures -21474836 <= r <= 21474836
    ensures 0 <= price <= LARGEST_EXACT_PRICE ==> price <= r
  {
    JavaDiv(Wrap32(price * 120), 100)
  }

  /** Total price: price with tax plus shipping, an int sum: exact when it fits, else off by a multiple of 2^32. */
  function TotalPrice(priceWithTax: int32, shippingCost: int32): (r: int32)
    ensures INT_MIN <= priceWithTax + shippingCost <= INT_MAX ==> r == priceWithTax + shippingCost
    ensures (priceWithTax + shippingCost - r) % 0x1_0000_0000 == 0
  {
    Wrap32(priceWithTax + shippingCost)
  }

  /**
   * Without overflow the result is 120 percent of the price, cut toward
   * zero: never below the price for a price that is not negative, and
   * exactly 6/5 of it when the price is a multiple of 5.
   */
  lemma TaxWithoutOverflow(price: int32)
    requires 0 <= price <= LARGEST_EXACT_PRICE
    ensures PriceWithTax(price) == price * 120 / 100
    ensures price <= PriceWithTax(price) <= price + price / 5 + 1
    ensures price % 5 == 0 ==> PriceWithTax(price) == price / 5 * 6
  {
    assert price * 120 <= INT_MAX;
  }

  /** 17895697 is the boundary: one more and the product wraps to a negative price with tax. */
  lemma TaxOverflowBoundary()
    ensures LARGEST_EXACT_PRICE * 120 <= INT_MAX < (LARGEST_EXACT_PRICE + 1) * 120
    ensures PriceWithTax(17895698) == -21474835
    ensures PriceWithTax(17895698) < 0
  {
    assert Wrap32(17895698 * 120) == 17895698 * 120 - 0x1_0000_0000;
  }

  /** Negative prices are cut toward zero, not toward minus infinity: -1 gives -1, not -2. */
  lemma TaxOfNegativePrice()
    ensures PriceWithTax(-1) == -1
    ensures PriceWithTax(-5) == -6
  {
  }

  /**
   * The total is the exact sum whenever that fits in an int; otherwise it
   * differs from the sum by a multiple of 2^32, so the largest price with
   * tax plus one shipping unit comes out as the smallest int.
   */
  lemma TotalPriceWraps(priceWithTax: int32, shippingCost: int32)
    ensures INT_MIN <= priceWithTax + shippingCost <= INT_MAX ==> TotalPrice(priceWithTax, shippingCost) == priceWithTax + shippingCost
    ensures (priceWithTax + shippingCost - TotalPrice(priceWithTax, shippingCost)) % 0x1_0000_0000 == 0
    ensures TotalPrice(priceWithTax, shippingCost) == TotalPrice(shippingCost, priceWithTax)
    ensures TotalPrice(INT_MAX, 1) == INT_MIN
  {
  }
}
