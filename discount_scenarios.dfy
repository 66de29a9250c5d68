/**
 * Worked examples of the discount engine on concrete carts and coupons, each
 * stating the complete outcome.
 */
module DiscountScenarios {
  import opened Wrappers
  import opened Types
  import opened CartTotal
  import opened CouponExpiry
  import opened DiscountService

  /** Two units of A at 10 under CART_WISE 10 %: one off the unit price, 19 to pay. */
  lemma CartWideScenario()
    ensures var r := ApplyCoupon(Cart([CartItem(StrId("A"), 2.0, 10.0)]), CartWiseCoupon("c1", None, None, 10.0));
            |r.items| == 1 && r.items[0].discount == 1.0 &&
            r.totalDiscount == 1.0 && r.totalPrice == 20.0 && r.finalPrice == 19.0
  {
  }

  /** PRODUCT_WISE 50 % on A (at least 2): A's whole subtotal of 30 is halved, B gets nothing. */
  lemma ProductWiseScenario()
    ensures var cart := Cart([CartItem(StrId("A"), 3.0, 10.0), CartItem(StrId("B"), 1.0, 5.0)]);
            var r := ApplyCoupon(cart, ProductWiseCoupon("c2", None, None, 50.0, [Product("A", 2.0)]));
            |r.items| == 2 && r.items[0].discount == 15.0 && r.items[1].discount == 0.0 &&
            r.totalDiscount == 15.0 && r.totalPrice == 35.0 && r.finalPrice == 20.0
  {
    var items := [CartItem(StrId("A"), 3.0, 10.0), CartItem(StrId("B"), 1.0, 5.0)];
    var ps := [Product("A", 2.0)];
    assert IsDiscounted(ps, items[0]) by {
      assert SameProduct(items[0].productId, ps[0].productId);
    }
    assert !IsDiscounted(ps, items[1]);
    var c := ProductWiseCoupon("c2", None, None, 50.0, ps);
    var ds := DiscountedItems(c, items);
    assert ds[0].discount == 15.0 by {
      assert ds[0].discount == ProductItemDiscount(50.0, ps, items[0]);
      assert Subtotal(items[0]) == 30.0;
    }
    assert ds[1].discount == 0.0 by {
      assert ds[1].discount == ProductItemDiscount(50.0, ps, items[1]);
    }
    assert ds[..1] == [ds[0]] && ds[..1][..0] == [];
    assert TotalDiscount(ds) == 15.0;
    assert items[..1] == [items[0]] && items[..1][..0] == [];
    assert CalculateCartTotal(items) == 35.0;
    assert ApplyCoupon(Cart(items), c).items == ds;
  }

  /** BXGY buy 2 A get 1 B: applicable with five A, and the one B is free. */
  lemma BxgyScenario(now: int)
    ensures var cart := Cart([CartItem(StrId("A"), 5.0, 4.0), CartItem(StrId("B"), 1.0, 20.0)]);
            var c := BxgyCoupon("c3", None, None, [Product("A", 2.0)], [Product("B", 1.0)]);
            var r := ApplyCoupon(cart, c);
            CheckIsCouponApplicable(c, cart, now) &&
            |r.items| == 2 && r.items[0].discount == 0.0 && r.items[1].discount == 20.0 &&
            r.totalDiscount == 20.0 && r.totalPrice == 40.0 && r.finalPrice == 20.0
  {
    var items := [CartItem(StrId("A"), 5.0, 4.0), CartItem(StrId("B"), 1.0, 20.0)];
    var cart := Cart(items);
    var buy, get := [Product("A", 2.0)], [Product("B", 1.0)];
    assert IsFirstItem(items, "A", 0);
    assert BuyEntryMet(items, buy[0]);
    assert NotListed(get, items[0].productId);
    assert IsFirstEntry(get, items[1].productId, 0);
    assert FreeUnits(get, items[1]) == 1.0;
    var c := BxgyCoupon("c3", None, None, buy, get);
    assert CheckIsCouponApplicable(c, cart, now) by {
      assert AllBuyEntriesMet(items, buy);
    }
    var ds := DiscountedItems(c, items);
    assert ds[0].discount == 0.0 by {
      assert ds[0].discount == BxgyItemDiscount(get, items[0]);
    }
    assert ds[1].discount == 20.0 by {
      assert ds[1].discount == BxgyItemDiscount(get, items[1]);
    }
    assert ds[..1] == [ds[0]] && ds[..1][..0] == [];
    assert TotalDiscount(ds) == 20.0;
    assert items[..1] == [items[0]] && items[..1][..0] == [];
    assert CalculateCartTotal(items) == 40.0;
    assert ApplyCoupon(cart, c).items == ds;
  }

  /** A threshold of 100 rejects a cart worth 90, whatever the coupon's type. */
  lemma ThresholdScenario(c: Coupon, now: int)
    requires c.threshold == Some(100.0)
    ensures !CheckIsCouponApplicable(c, Cart([CartItem(StrId("A"), 9.0, 10.0)]), now)
  {
  }

  /**
   * `applyCoupon` trusts its caller: the BXGY coupon above, on a cart without
   * any A, is not applicable, yet applying it still makes the B free.
   */
  lemma ApplyCouponDoesNotCheckApplicability(now: int)
    ensures var cart := Cart([CartItem(StrId("B"), 1.0, 20.0)]);
            var c := BxgyCoupon("c3", None, None, [Product("A", 2.0)], [Product("B", 1.0)]);
            !CheckIsCouponApplicable(c, cart, now) && ApplyCoupon(cart, c).totalDiscount == 20.0
  {
  }
}
