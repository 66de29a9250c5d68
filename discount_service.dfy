/**
 * The discount engine: the applicability check, the three discount
 * strategies, and the aggregation into a discount result. Every operation is
 * a pure function of a coupon and a cart; expiry needs the current time,
 * which is the parameter `now`.
 */
module DiscountService {
  import opened Wrappers
  import opened Types
  import opened ArrayOps
  import opened CartTotal
  import opened CouponExpiry

  /** `k` is the first cart item whose product id is `pid`. */
  ghost predicate IsFirstItem(items: seq<CartItem>, pid: string, k: int)
  {
    0 <= k < |items| && SameProduct(items[k].productId, pid) &&
    forall j :: 0 <= j < k ==> !SameProduct(items[j].productId, pid)
  }

  /** `k` is the first entry of `ps` naming the product `id`. */
  ghost predicate IsFirstEntry(ps: seq<Product>, id: ProductId, k: int)
  {
    0 <= k < |ps| && SameProduct(id, ps[k].productId) &&
    forall j :: 0 <= j < k ==> !SameProduct(id, ps[j].productId)
  }

  /** No entry of `ps` names the product `id`. */
  ghost predicate NotListed(ps: seq<Product>, id: ProductId)
  {
    forall k :: 0 <= k < |ps| ==> !SameProduct(id, ps[k].productId)
  }

  /** A threshold counts only when it is present and non-zero (JavaScript truthiness). */
  predicate ThresholdSet(t: Option<real>)
  {
    t.Some? && t.value != 0.0
  }

  // The callbacks handed to `find`, `every` and `some`, named so that proofs
  // can refer to the same function value as the definitions.

  /** Cart items with product id `pid`. */
  function HasId(pid: string): CartItem -> bool
  {
    (it: CartItem) => SameProduct(it.productId, pid)
  }

  /** Cart items that meet the entry `d`: same id, at least its quantity. */
  function Satisfies(d: Product): CartItem -> bool
  {
    (it: CartItem) => SameProduct(it.productId, d.productId) && it.quantity >= d.quantity
  }

  /** Entries that the cart item `item` meets. */
  function SatisfiedBy(item: CartItem): Product -> bool
  {
    (a: Product) => SameProduct(item.productId, a.productId) && a.quantity <= item.quantity
  }

  /**
   * The BXGY test for one buy entry: the FIRST cart item with that product id
   * must carry at least the required quantity; later items with the same id
   * are not looked at.
   */
  function BuyEntryMet(items: seq<CartItem>, b: Product): (r: bool)
    ensures r <==> exists k :: IsFirstItem(items, b.productId, k) && items[k].quantity >= b.quantity
  {
    var cartItem := Find(items, HasId(b.productId));
    match cartItem
    case None => false
    case Some(it) =>
      var k := FindIndex(items, HasId(b.productId)).value;
      assert IsFirstItem(items, b.productId, k) && items[k] == it;
      it.quantity >= b.quantity
  }

  /** The PRODUCT_WISE test for one entry: ANY cart item with that id and enough quantity. */
  function ProductEntryMet(items: seq<CartItem>, d: Product): (r: bool)
    ensures r <==> exists k :: 0 <= k < |items| && SameProduct(items[k].productId, d.productId) &&
                              items[k].quantity >= d.quantity
  {
    Find(items, Satisfies(d)).Some?
  }

  function BuyCheck(items: seq<CartItem>): Product -> bool
  {
    (b: Product) => BuyEntryMet(items, b)
  }

  function ProductCheck(items: seq<CartItem>): Product -> bool
  {
    (d: Product) => ProductEntryMet(items, d)
  }

  /** The `every` over the buy list of a BXGY coupon. */
  function AllBuyEntriesMet(items: seq<CartItem>, buy: seq<Product>): (r: bool)
    ensures r <==> forall i :: 0 <= i < |buy| ==> BuyEntryMet(items, buy[i])
  {
    Every(buy, BuyCheck(items))
  }

  /** The `some` over the product list of a PRODUCT_WISE coupon. */
  function SomeProductEntryMet(items: seq<CartItem>, ps: seq<Product>): (r: bool)
    ensures r <==> exists i :: 0 <= i < |ps| && ProductEntryMet(items, ps[i])
  {
    Any(ps, ProductCheck(items))
  }

  /**
   * `checkIsCouponApplicable`: expiry first, then the threshold against the
   * cart subtotal, then the check for the coupon's type.
   */
  function CheckIsCouponApplicable(c: Coupon, cart: Cart, now: int): bool
  {
    if CheckIsCouponExpired(c, now) then false
    else if ThresholdSet(c.threshold) && CalculateCartTotal(cart.items) < c.threshold.value then false
    else
      match c
      case CartWiseCoupon(_, _, _, _) => true
      case BxgyCoupon(_, _, _, buy, _) => AllBuyEntriesMet(cart.items, buy)
      case ProductWiseCoupon(_, _, _, _, ps) => SomeProductEntryMet(cart.items, ps)
  }

  /** `Math.min`. */
  /** `Math.min`: the smaller of the two, and one of them. */
  function Min(a: real, b: real): (r: real)
    ensures r <= a && r <= b
    ensures r == a || r == b
  {
    if a <= b then a else b
  }

  /** CART_WISE: every item is discounted by `pct` percent of its UNIT price. */
  function CalculateCartWideDiscount(pct: real, items: seq<CartItem>): (r: seq<DiscountedItem>)
    ensures |r| == |items|
    ensures forall i :: 0 <= i < |items| ==> r[i].item == items[i]
    ensures forall i :: 0 <= i < |items| ==> r[i].discount == PercentOf(items[i].price, pct)
  {
    seq(|items|, i requires 0 <= i < |items| => DiscountedItem(items[i], PercentOf(items[i].price, pct)))
  }

  /** The PRODUCT_WISE `find`: some entry names the item with a quantity the item meets. */
  predicate IsDiscounted(ps: seq<Product>, item: CartItem)
    ensures IsDiscounted(ps, item) <==>
            exists k :: 0 <= k < |ps| && SameProduct(item.productId, ps[k].productId) &&
                        ps[k].quantity <= item.quantity
  {
    Find(ps, SatisfiedBy(item)).Some?
  }

  /** The discount of one item under PRODUCT_WISE: a percentage of its whole subtotal. */
  function ProductItemDiscount(pct: real, ps: seq<Product>, item: CartItem): real
  {
    var subtotal := Subtotal(item);
    if IsDiscounted(ps, item) then PercentOf(subtotal, pct) else 0.0
  }

  /**
   * PRODUCT_WISE: an item listed with a required quantity it meets gets `pct`
   * percent of its whole subtotal; every other item gets nothing.
   */
  function CalculateProductDiscount(pct: real, ps: seq<Product>, items: seq<CartItem>)
    : (r: seq<DiscountedItem>)
    ensures |r| == |items|
    ensures forall i :: 0 <= i < |items| ==> r[i].item == items[i]
    ensures forall i :: 0 <= i < |items| ==> r[i].discount == ProductItemDiscount(pct, ps, items[i])
  {
    seq(|items|, i requires 0 <= i < |items| =>
      DiscountedItem(items[i], ProductItemDiscount(pct, ps, items[i])))
  }

  /** The `find` callback that picks the entries naming product `id`. */
  function Names(id: ProductId): Product -> bool
  {
    (p: Product) => SameProduct(id, p.productId)
  }

  /**
   * How many units of `item` BXGY gives away: as many as the item's quantity,
   * capped by the quantity of the FIRST get entry naming it; none when no get
   * entry names it.
   */
  function FreeUnits(get: seq<Product>, item: CartItem): (u: real)
    ensures NotListed(get, item.productId) ==> u == 0.0
    ensures !NotListed(get, item.productId) ==>
              exists k :: IsFirstEntry(get, item.productId, k) && u == Min(item.quantity, get[k].quantity)
  {
    var freeProduct := FindIndex(get, Names(item.productId));
    if freeProduct.Some? then
      assert IsFirstEntry(get, item.productId, freeProduct.value);
      Min(item.quantity, get[freeProduct.value].quantity)
    else 0.0
  }

  /** The discount of one item under BXGY: the price of its free units. */
  function BxgyItemDiscount(get: seq<Product>, item: CartItem): real
  {
    PriceOf(item.price, FreeUnits(get, item))
  }

  /**
   * BXGY: each item is discounted by the price of its free units, so items
   * named only in the buy list, or nowhere, get nothing. The buy list is not
   * consulted here.
   */
  function CalculateBxgyDiscount(get: seq<Product>, items: seq<CartItem>): (r: seq<DiscountedItem>)
    ensures |r| == |items|
    ensures forall i :: 0 <= i < |items| ==> r[i].item == items[i]
    ensures forall i :: 0 <= i < |items| ==> r[i].discount == BxgyItemDiscount(get, items[i])
  {
    seq(|items|, i requires 0 <= i < |items| => DiscountedItem(items[i], BxgyItemDiscount(get, items[i])))
  }

  /** The `switch` on the discount type shared by `applyCoupon` and `calculateDiscountAmount`. */
  function DiscountedItems(c: Coupon, items: seq<CartItem>): (r: seq<DiscountedItem>)
    ensures |r| == |items|
    ensures forall i :: 0 <= i < |items| ==> r[i].item == items[i]
  {
    match c
    case CartWiseCoupon(_, _, _, pct) => CalculateCartWideDiscount(pct, items)
    case ProductWiseCoupon(_, _, _, pct, ps) => CalculateProductDiscount(pct, ps, items)
    case BxgyCoupon(_, _, _, _, get) => CalculateBxgyDiscount(get, items)
  }

  /** The sum of the item discounts, folded from the left. */
  function TotalDiscount(ds: seq<DiscountedItem>): real
  {
    if ds == [] then 0.0 else TotalDiscount(ds[..|ds| - 1]) + ds[|ds| - 1].discount
  }

  /**
   * `applyCoupon`: the per-item breakdown, the cart total, the discount total
   * and the final price. It does not check applicability; its callers do.
   */
  function ApplyCoupon(cart: Cart, c: Coupon): (r: DiscountResult)
    ensures |r.items| == |cart.items|
    ensures forall i :: 0 <= i < |cart.items| ==> r.items[i].item == cart.items[i]
    ensures r.totalPrice == CalculateCartTotal(cart.items)
    ensures r.totalDiscount == TotalDiscount(r.items)
    ensures r.finalPrice == r.totalPrice - r.totalDiscount
  {
    var cartTotal := CalculateCartTotal(cart.items);
    var discounted := DiscountedItems(c, cart.items);
    var totalDiscount := TotalDiscount(discounted);
    DiscountResult(discounted, cartTotal, totalDiscount, cartTotal - totalDiscount)
  }

  /** `calculateDiscountAmount`: the total discount alone, as `applyCoupon` computes it. */
  function CalculateDiscountAmount(c: Coupon, cart: Cart): (r: real)
    ensures r == ApplyCoupon(cart, c).totalDiscount
  {
    TotalDiscount(DiscountedItems(c, cart.items))
  }

  function Summarize(c: Coupon, cart: Cart): (s: CouponSummary)
    ensures s.id == c.id && s.discountType == TypeOf(c)
    ensures s.discount == ApplyCoupon(cart, c).totalDiscount
  {
    CouponSummary(c.id, TypeOf(c), CalculateDiscountAmount(c, cart))
  }

  /** The filter callback of `getApplicableCoupons`. */
  function ApplicableTo(cart: Cart, now: int): Coupon -> bool
  {
    (c: Coupon) => CheckIsCouponApplicable(c, cart, now)
  }

  /** The map callback of `getApplicableCoupons`. */
  function SummaryFor(cart: Cart): Coupon -> CouponSummary
  {
    (c: Coupon) => Summarize(c, cart)
  }

  /**
   * `getApplicableCoupons`, over the coupon list it is given: the applicable
   * coupons, in list order, each projected to its id, type and total discount.
   */
  function GetApplicableCoupons(cart: Cart, coupons: seq<Coupon>, now: int): (r: seq<CouponSummary>)
    ensures |r| <= |coupons|
    ensures forall s :: s in r ==>
              exists c :: c in coupons && CheckIsCouponApplicable(c, cart, now) && s == Summarize(c, cart)
    ensures forall c :: c in coupons && CheckIsCouponApplicable(c, cart, now) ==> Summarize(c, cart) in r
  {
    var kept := Filter(coupons, ApplicableTo(cart, now));
    var summaries := Map(kept, SummaryFor(cart));
    assert forall i :: 0 <= i < |kept| ==> summaries[i] == Summarize(kept[i], cart);
    summaries
  }
}
