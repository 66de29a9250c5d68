/** Coupon expiry. The clock read of the source is the parameter `now`. */
module CouponExpiry {
  import opened Wrappers
  import opened Types

  /** `checkIsCouponExpired`: a coupon without an end date never expires. */
  function CheckIsCouponExpired(c: Coupon, now: int): bool
  {
    if c.endDate.None? then false
    else c.endDate.value < now
  }

  lemma NoEndDateNeverExpired(c: Coupon, now: int)
    requires c.endDate.None?
    ensures !CheckIsCouponExpired(c, now)
  {
  }

  /** Expired exactly when the end date lies strictly before `now`. */
  lemma ExpiredIff(c: Coupon, now: int)
    ensures CheckIsCouponExpired(c, now) <==> exists e :: c.endDate == Some(e) && e < now
  {
  }

  lemma EndDateAtNowNotExpired(c: Coupon, now: int)
    requires c.endDate == Some(now)
    ensures !CheckIsCouponExpired(c, now)
  {
  }

  /** Once expired, a coupon stays expired. */
  lemma ExpiredMonotone(c: Coupon, now: int, later: int)
    requires CheckIsCouponExpired(c, now)
    requires now <= later
    ensures CheckIsCouponExpired(c, later)
  {
  }
}
