/**
 * The in-memory coupon store: a list of coupons that the service reads,
 * appends to, overwrites in place and splices.
 */
module CouponService {
  import opened Wrappers
  import opened Types
  import opened ArrayOps
  import opened CouponExpiry

  /** The one error the store raises: "Discount not found". */
  datatype StoreError = DiscountNotFound

  /** The `coupon.id === couponId` test that lookups pass to `find`/`findIndex`. */
  function IdIs(id: string): Coupon -> bool
  {
    (c: Coupon) => c.id == id
  }

  /** The `!checkIsCouponExpired(d)` test that `listCoupons` filters on. */
  function Unexpired(now: int): Coupon -> bool
  {
    (c: Coupon) => !CheckIsCouponExpired(c, now)
  }

  /** The position of the first coupon with this id, or none. */
  function IndexOf(cs: seq<Coupon>, id: string): (r: Option<nat>)
    ensures r.None? <==> forall i :: 0 <= i < |cs| ==> cs[i].id != id
    ensures r.Some? ==> r.value < |cs| && cs[r.value].id == id &&
                        forall j :: 0 <= j < r.value ==> cs[j].id != id
  {
    FindIndex(cs, IdIs(id))
  }

  /** Every id in the store names one coupon only. */
  ghost predicate UniqueIds(cs: seq<Coupon>)
  {
    forall i, j :: 0 <= i < j < |cs| ==> cs[i].id != cs[j].id
  }

  /** The coupons that `listCoupons` returns, as a value. */
  function Listed(cs: seq<Coupon>, showExpired: bool, now: int): (r: seq<Coupon>)
    ensures showExpired ==> r == cs
    ensures !showExpired ==> |r| <= |cs|
    ensures !showExpired ==> forall i :: 0 <= i < |r| ==> r[i] in cs && !CheckIsCouponExpired(r[i], now)
    ensures !showExpired ==> forall i :: 0 <= i < |cs| && !CheckIsCouponExpired(cs[i], now) ==> cs[i] in r
  {
    if showExpired then cs else Filter(cs, Unexpired(now))
  }

  class CouponStore {
    var coupons: seq<Coupon>

    /** A store seeded with the given coupons. */
    constructor (initial: seq<Coupon>)
      ensures coupons == initial
    {
      coupons := initial;
    }

    /** `listCoupons`: the whole store, or only the coupons not expired at `now`. */
    function ListCoupons(showExpired: bool, now: int): (r: seq<Coupon>)
      reads this
      ensures showExpired ==> r == coupons
      ensures !showExpired ==> forall i :: 0 <= i < |r| ==> r[i] in coupons && !CheckIsCouponExpired(r[i], now)
      ensures !showExpired ==> forall i :: 0 <= i < |coupons| && !CheckIsCouponExpired(coupons[i], now) ==> coupons[i] in r
    {
      Listed(coupons, showExpired, now)
    }

    /** `getCouponById`: the first coupon with this id, or none. */
    function GetCouponById(id: string): (r: Option<Coupon>)
      reads this
      ensures r.None? <==> forall i :: 0 <= i < |coupons| ==> coupons[i].id != id
      ensures r.Some? ==> exists i :: 0 <= i < |coupons| && coupons[i] == r.value && r.value.id == id &&
                                      forall j :: 0 <= j < i ==> coupons[j].id != id
    {
      match IndexOf(coupons, id)
      case None => None
      case Some(i) => Some(coupons[i])
    }

    /**
     * `createCoupon`: the supplied data under the id the caller generated,
     * appended at the end. The id must not be in use yet.
     */
    method CreateCoupon(data: Coupon, newId: string) returns (c: Coupon)
      requires forall i :: 0 <= i < |coupons| ==> coupons[i].id != newId
      modifies this
      ensures c == data.(id := newId)
      ensures coupons == old(coupons) + [c]
      ensures UniqueIds(old(coupons)) ==> UniqueIds(coupons)
    {
      c := data.(id := newId);
      coupons := coupons + [c];
    }

    /**
     * `updateCoupon`: overwrites the first coupon with this id by the supplied
     * data, keeping the id; fails with the store untouched when there is none.
     */
    method UpdateCoupon(id: string, data: Coupon) returns (r: Result<Coupon, StoreError>)
      modifies this
      ensures IndexOf(old(coupons), id).None? ==> r == Failure(DiscountNotFound) && coupons == old(coupons)
      ensures IndexOf(old(coupons), id).Some? ==>
                r == Success(data.(id := id)) &&
                coupons == old(coupons)[IndexOf(old(coupons), id).value := data.(id := id)]
      ensures UniqueIds(old(coupons)) ==> UniqueIds(coupons)
    {
      var index := IndexOf(coupons, id);
      if index.None? {
        return Failure(DiscountNotFound);
      }
      var updated := data.(id := id);
      coupons := coupons[index.value := updated];
      r := Success(updated);
    }

    /**
     * `deleteCoupon`: removes the first coupon with this id, keeping the order
     * of the rest; fails with the store untouched when there is none.
     */
    method DeleteCoupon(id: string) returns (r: Result<(), StoreError>)
      modifies this
      ensures IndexOf(old(coupons), id).None? ==> r == Failure(DiscountNotFound) && coupons == old(coupons)
      ensures IndexOf(old(coupons), id).Some? ==>
                r == Success(()) &&
                coupons == old(coupons)[..IndexOf(old(coupons), id).value] +
                           old(coupons)[IndexOf(old(coupons), id).value + 1..]
      ensures UniqueIds(old(coupons)) ==> UniqueIds(coupons)
    {
      var index := IndexOf(coupons, id);
      if index.None? {
        return Failure(DiscountNotFound);
      }
      var i := index.value;
      coupons := coupons[..i] + coupons[i + 1..];
      r := Success(());
    }
  }
}
