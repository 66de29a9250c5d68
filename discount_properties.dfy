/**
 * What the discount engine promises: when a coupon is applicable, what each
 * strategy gives each item, how the totals relate, and in what order the
 * applicable coupons are listed.
 */
module DiscountProperties {
  import opened Wrappers
  import opened Types
  import opened ArrayOps
  import opened CartTotal
  import opened CouponExpiry
  import opened DiscountService

  // ---- Applicability ----

  /** An expired coupon is never applicable, whatever the cart. */
  lemma ExpiredNeverApplicable(c: Coupon, cart: Cart, now: int)
    requires CheckIsCouponExpired(c, now)
    ensures !CheckIsCouponApplicable(c, cart, now)
  {
  }

  /** A set threshold the cart subtotal falls short of makes the coupon inapplicable. */
  lemma BelowThresholdNotApplicable(c: Coupon, cart: Cart, now: int)
    requires c.threshold.Some? && c.threshold.value != 0.0
    requires CalculateCartTotal(cart.items) < c.threshold.value
    ensures !CheckIsCouponApplicable(c, cart, now)
  {
  }

  /** A threshold of zero is falsy, so it behaves exactly as a missing one. */
  lemma ZeroThresholdActsAsAbsent(c: Coupon, cart: Cart, now: int)
    requires c.threshold == Some(0.0)
    ensures CheckIsCouponApplicable(c, cart, now) == CheckIsCouponApplicable(c.(threshold := None), cart, now)
  {
  }

  /** CART_WISE is applicable exactly when it is unexpired and its threshold is met. */
  lemma CartWiseApplicableIff(c: Coupon, cart: Cart, now: int)
    requires c.CartWiseCoupon?
    ensures CheckIsCouponApplicable(c, cart, now) <==>
            !CheckIsCouponExpired(c, now) &&
            (ThresholdSet(c.threshold) ==> CalculateCartTotal(cart.items) >= c.threshold.value)
  {
  }

  /**
   * BXGY is applicable exactly when it is unexpired, meets its threshold, and
   * for EVERY buy entry the first cart item with that product id has at least
   * the required quantity.
   */
  lemma BxgyApplicableIff(c: Coupon, cart: Cart, now: int)
    requires c.BxgyCoupon?
    ensures CheckIsCouponApplicable(c, cart, now) <==>
            !CheckIsCouponExpired(c, now) &&
            (ThresholdSet(c.threshold) ==> CalculateCartTotal(cart.items) >= c.threshold.value) &&
            forall i :: 0 <= i < |c.buyProducts| ==>
              exists k :: IsFirstItem(cart.items, c.buyProducts[i].productId, k) &&
                          cart.items[k].quantity >= c.buyProducts[i].quantity
  {
    var items, buy := cart.items, c.buyProducts;
    assert CheckIsCouponApplicable(c, cart, now) ==
           (!CheckIsCouponExpired(c, now) &&
            !(ThresholdSet(c.threshold) && CalculateCartTotal(items) < c.threshold.value) &&
            AllBuyEntriesMet(items, buy));
    forall i | 0 <= i < |buy|
      ensures BuyEntryMet(items, buy[i]) <==>
              exists k :: IsFirstItem(items, buy[i].productId, k) && items[k].quantity >= buy[i].quantity
    {
    }
  }

  /**
   * PRODUCT_WISE is applicable exactly when it is unexpired, meets its
   * threshold, and SOME listed entry is matched by SOME cart item with the
   * same product id and at least the required quantity.
   */
  lemma ProductWiseApplicableIff(c: Coupon, cart: Cart, now: int)
    requires c.ProductWiseCoupon?
    ensures CheckIsCouponApplicable(c, cart, now) <==>
            !CheckIsCouponExpired(c, now) &&
            (ThresholdSet(c.threshold) ==> CalculateCartTotal(cart.items) >= c.threshold.value) &&
            exists i, k :: 0 <= i < |c.productWiseProducts| && 0 <= k < |cart.items| &&
                           SameProduct(cart.items[k].productId, c.productWiseProducts[i].productId) &&
                           cart.items[k].quantity >= c.productWiseProducts[i].quantity
  {
  }

  /**
   * Only the first cart item with a buy product's id counts for BXGY, while
   * PRODUCT_WISE accepts any matching item: with two lines of product A, one
   * short and one sufficient, BXGY fails where PRODUCT_WISE succeeds.
   */
  lemma FirstItemOnlyForBxgy()
    ensures var cart := Cart([CartItem(StrId("A"), 1.0, 10.0), CartItem(StrId("A"), 5.0, 10.0)]);
            var need := [Product("A", 2.0)];
            !CheckIsCouponApplicable(BxgyCoupon("b", None, None, need, need), cart, 0) &&
            CheckIsCouponApplicable(ProductWiseCoupon("p", None, None, 10.0, need), cart, 0)
  {
  }

  /** A cart item whose id is a number never matches a coupon's (string) product id. */
  lemma NumericIdNeverMatches(item: CartItem, pct: real, ps: seq<Product>)
    requires item.productId.NumId?
    ensures ProductItemDiscount(pct, ps, item) == 0.0
    ensures FreeUnits(ps, item) == 0.0
    ensures forall k :: 0 <= k < |ps| ==> !BuyEntryMet([item], ps[k])
  {
  }

  // ---- The strategies ----

  /**
   * CART_WISE discounts the unit price: an item's discount is `pct` percent
   * of its price, the same for any quantity, so over the whole line it comes
   * to `pct` percent of one unit per unit bought.
   */
  lemma CartWideDiscountPerUnit(pct: real, items: seq<CartItem>, i: int, j: int)
    requires 0 <= i < |items| && 0 <= j < |items|
    requires items[i].price == items[j].price
    ensures var r := CalculateCartWideDiscount(pct, items);
            r[i].discount == items[i].price * pct / 100.0 &&
            r[i].discount == r[j].discount &&
            r[i].discount * items[i].quantity == PercentOf(Subtotal(items[i]), pct)
  {
  }

  /**
   * PRODUCT_WISE gives an item `pct` percent of its whole subtotal when some
   * entry names it with a quantity it meets, and nothing otherwise.
   */
  lemma ProductDiscountCases(pct: real, ps: seq<Product>, items: seq<CartItem>, i: int)
    requires 0 <= i < |items|
    ensures CalculateProductDiscount(pct, ps, items)[i].discount ==
            if exists k :: 0 <= k < |ps| && SameProduct(items[i].productId, ps[k].productId) &&
                           ps[k].quantity <= items[i].quantity
            then items[i].price * items[i].quantity * pct / 100.0
            else 0.0
  {
  }

  /**
   * BXGY gives an item the price of `min(quantity, q)` units, where `q` is the
   * quantity of the FIRST get entry naming it, and nothing when no get entry
   * names it (in particular when only a buy entry does).
   */
  lemma BxgyDiscountCases(get: seq<Product>, items: seq<CartItem>, i: int)
    requires 0 <= i < |items|
    ensures NotListed(get, items[i].productId) ==> CalculateBxgyDiscount(get, items)[i].discount == 0.0
    ensures forall k :: IsFirstEntry(get, items[i].productId, k) ==>
              CalculateBxgyDiscount(get, items)[i].discount ==
              PriceOf(items[i].price, Min(items[i].quantity, get[k].quantity))
  {
  }

  /** `pct` percent of a non-negative amount, for `0 < pct <= 100`, lies in `[0, amount]`. */
  lemma PercentBounded(amount: real, pct: real)
    requires amount >= 0.0 && ValidPercentage(pct)
    ensures 0.0 <= PercentOf(amount, pct) <= amount
  {
  }

  /** Fewer units cost less. */
  lemma PriceMonotone(price: real, u: real, hi: real)
    requires price >= 0.0 && 0.0 <= u <= hi
    ensures 0.0 <= PriceOf(price, u) <= PriceOf(price, hi)
  {
  }

  /** CART_WISE: between zero and the subtotal, once the quantity is at least one. */
  lemma CartWideItemBounded(pct: real, item: CartItem)
    requires ValidPercentage(pct) && ValidItem(item) && item.quantity >= 1.0
    ensures 0.0 <= PercentOf(item.price, pct) <= Subtotal(item)
  {
    PercentBounded(item.price, pct);
    PriceMonotone(item.price, 1.0, item.quantity);
  }

  /** PRODUCT_WISE: between zero and the subtotal. */
  lemma ProductItemBounded(pct: real, ps: seq<Product>, item: CartItem)
    requires ValidPercentage(pct) && ValidItem(item)
    ensures 0.0 <= ProductItemDiscount(pct, ps, item) <= Subtotal(item)
  {
    PriceMonotone(item.price, 0.0, item.quantity);
    PercentBounded(Subtotal(item), pct);
  }

  /** BXGY never gives away more units than the cart line holds. */
  lemma FreeUnitsBounded(get: seq<Product>, item: CartItem)
    requires ValidProducts(get) && ValidItem(item)
    ensures 0.0 <= FreeUnits(get, item) <= item.quantity
  {
  }

  /** BXGY: between zero and the subtotal. */
  lemma BxgyItemBounded(get: seq<Product>, item: CartItem)
    requires ValidProducts(get) && ValidItem(item)
    ensures 0.0 <= BxgyItemDiscount(get, item) <= Subtotal(item)
  {
    var u := FreeUnits(get, item);
    FreeUnitsBounded(get, item);
    PriceMonotone(item.price, u, item.quantity);
  }

  /**
   * The discount of one item under any strategy lies between zero and the
   * item's subtotal, for a valid coupon and item; CART_WISE needs a quantity
   * of at least one, since it discounts the unit price.
   */
  lemma ItemDiscountBounded(c: Coupon, items: seq<CartItem>, i: int)
    requires ValidCoupon(c)
    requires 0 <= i < |items| && ValidItem(items[i])
    requires c.CartWiseCoupon? ==> items[i].quantity >= 1.0
    ensures var d := DiscountedItems(c, items)[i].discount;
            0.0 <= d <= Subtotal(items[i])
  {
    match c
    case CartWiseCoupon(_, _, _, pct) =>
      CartWideItemBounded(pct, items[i]);
    case ProductWiseCoupon(_, _, _, pct, ps) =>
      ProductItemBounded(pct, ps, items[i]);
    case BxgyCoupon(_, _, _, _, get) =>
      BxgyItemBounded(get, items[i]);
  }

  /** The discount total of a breakdown whose items each stay within their subtotal. */
  lemma {:induction false} TotalDiscountBounded(ds: seq<DiscountedItem>, items: seq<CartItem>)
    requires |ds| == |items|
    requires forall i :: 0 <= i < |ds| ==> ds[i].item == items[i]
    requires forall i :: 0 <= i < |ds| ==> 0.0 <= ds[i].discount <= Subtotal(items[i])
    ensures 0.0 <= TotalDiscount(ds) <= CalculateCartTotal(items)
  {
    if ds != [] {
      var n := |ds| - 1;
      TotalDiscountBounded(ds[..n], items[..n]);
      assert 0.0 <= ds[n].discount <= Subtotal(items[n]);
    }
  }

  /**
   * For a valid coupon and cart (and, for CART_WISE, lines of at least one
   * unit) the discount never exceeds the cart total, so the final price is
   * never negative.
   */
  lemma ApplyCouponFinalPriceNonNegative(cart: Cart, c: Coupon)
    requires ValidCoupon(c) && ValidCart(cart)
    requires c.CartWiseCoupon? ==> forall i :: 0 <= i < |cart.items| ==> cart.items[i].quantity >= 1.0
    ensures var r := ApplyCoupon(cart, c);
            0.0 <= r.totalDiscount <= r.totalPrice && r.finalPrice >= 0.0
  {
    var ds := DiscountedItems(c, cart.items);
    forall i | 0 <= i < |ds|
      ensures 0.0 <= ds[i].discount <= Subtotal(cart.items[i])
    {
      ItemDiscountBounded(c, cart.items, i);
    }
    TotalDiscountBounded(ds, cart.items);
  }

  /**
   * On a line of less than one unit the CART_WISE asymmetry shows: half a unit at
   * 100 % off yields a discount twice the subtotal and a negative final price.
   */
  lemma CartWideFractionalQuantityGoesNegative()
    ensures var r := ApplyCoupon(Cart([CartItem(StrId("A"), 0.5, 10.0)]), CartWiseCoupon("c", None, None, 100.0));
            r.totalPrice == 5.0 && r.totalDiscount == 10.0 && r.finalPrice == -5.0
  {
  }

  // ---- The applicable-coupons listing ----

  /** Listing a concatenation lists each part in turn: the listing keeps list order. */
  lemma GetApplicableCouponsConcat(cart: Cart, a: seq<Coupon>, b: seq<Coupon>, now: int)
    ensures GetApplicableCoupons(cart, a + b, now) ==
            GetApplicableCoupons(cart, a, now) + GetApplicableCoupons(cart, b, now)
  {
    FilterConcat(a, b, ApplicableTo(cart, now));
    MapConcat(Filter(a, ApplicableTo(cart, now)), Filter(b, ApplicableTo(cart, now)), SummaryFor(cart));
  }

  /** A single coupon is listed, with its total discount, exactly when it is applicable. */
  lemma GetApplicableCouponsSingleton(cart: Cart, c: Coupon, now: int)
    ensures GetApplicableCoupons(cart, [c], now) ==
            if CheckIsCouponApplicable(c, cart, now)
            then [CouponSummary(c.id, TypeOf(c), ApplyCoupon(cart, c).totalDiscount)]
            else []
  {
  }
}
