/**
 * What the store operations do to later lookups and listings, stated on the
 * coupon sequence before and after each change.
 */
module StoreProperties {
  import opened Wrappers
  import opened Types
  import opened ArrayOps
  import opened CouponExpiry
  import opened CouponService

  /** Two stores that agree, position by position, on which coupons carry `id` give the same lookup. */
  lemma IndexOfAgree(a: seq<Coupon>, b: seq<Coupon>, id: string)
    requires |a| == |b|
    requires forall k :: 0 <= k < |a| ==> (a[k].id == id <==> b[k].id == id)
    ensures IndexOf(a, id) == IndexOf(b, id)
  {
  }

  /** After `createCoupon` the new id finds the appended coupon and every other id finds what it found before. */
  lemma LookupAfterCreate(cs: seq<Coupon>, c: Coupon, id: string)
    requires forall i :: 0 <= i < |cs| ==> cs[i].id != c.id
    ensures id == c.id ==> IndexOf(cs + [c], id) == Some(|cs|)
    ensures id != c.id ==> IndexOf(cs + [c], id) == IndexOf(cs, id)
  {
    var after := cs + [c];
    assert after[|cs|] == c;
    assert forall k :: 0 <= k < |cs| ==> after[k] == cs[k];
  }

  /** After `updateCoupon` the id still finds the same position, and other ids are unaffected. */
  lemma LookupAfterUpdate(cs: seq<Coupon>, id: string, data: Coupon, other: string)
    requires IndexOf(cs, id).Some?
    ensures var i := IndexOf(cs, id).value;
            IndexOf(cs[i := data.(id := id)], id) == Some(i) &&
            IndexOf(cs[i := data.(id := id)], other) == IndexOf(cs, other)
  {
    var i := IndexOf(cs, id).value;
    var after := cs[i := data.(id := id)];
    IndexOfAgree(cs, after, id);
    IndexOfAgree(cs, after, other);
  }

  /** With unique ids, `deleteCoupon` leaves no coupon with that id. */
  lemma LookupAfterDelete(cs: seq<Coupon>, id: string)
    requires UniqueIds(cs)
    requires IndexOf(cs, id).Some?
    ensures var i := IndexOf(cs, id).value;
            IndexOf(cs[..i] + cs[i + 1..], id).None?
  {
  }

  /**
   * An update keeps the id it looked up, so it cannot create a duplicate, but
   * the seeded coupons may already share an id: deleting that id removes the
   * first copy only, and the second is found next.
   */
  lemma DeleteRemovesFirstOnly(a: Coupon, b: Coupon)
    requires a.id == b.id
    ensures IndexOf([a, b], a.id) == Some(0)
    ensures IndexOf([a, b][..0] + [a, b][1..], a.id) == Some(0)
    ensures [a, b][..0] + [a, b][1..] == [b]
  {
  }

  /** Listing without expired coupons keeps store order: appending a coupon appends it to the listing iff it is unexpired. */
  lemma ListedAppend(cs: seq<Coupon>, c: Coupon, now: int)
    ensures Listed(cs + [c], false, now) ==
            Listed(cs, false, now) + (if CheckIsCouponExpired(c, now) then [] else [c])
  {
    FilterConcat(cs, [c], Unexpired(now));
    FilterSingleton(c, Unexpired(now));
  }

  /** When nothing in the store has expired, hiding expired coupons lists the whole store. */
  lemma NothingExpiredListsAll(cs: seq<Coupon>, now: int)
    requires forall i :: 0 <= i < |cs| ==> !CheckIsCouponExpired(cs[i], now)
    ensures Listed(cs, false, now) == cs
  {
    FilterAll(cs, Unexpired(now));
  }

  /** An expired coupon is never listed when expired coupons are hidden. */
  lemma ExpiredNotListed(cs: seq<Coupon>, c: Coupon, now: int)
    requires CheckIsCouponExpired(c, now)
    ensures c !in Listed(cs, false, now)
  {
  }
}
