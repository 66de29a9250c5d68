/**
 * The cart and coupon records the engine works on, and the constraints the
 * request validators establish before the engine sees them.
 */
module Types {
  import opened Wrappers

  /**
   * A cart item's product id may be a string or a number; a coupon's product
   * ids are strings. The engine compares them with `===`, so a numeric cart id
   * never equals a coupon's product id.
   */
  datatype ProductId = StrId(s: string) | NumId(n: real)

  datatype CartItem = CartItem(productId: ProductId, quantity: real, price: real)

  datatype Cart = Cart(items: seq<CartItem>)

  /** A `{productId, quantity}` entry of a coupon's product list. */
  datatype Product = Product(productId: string, quantity: real)

  /**
   * A coupon, one constructor per discount type. `threshold` is the optional
   * minimum cart subtotal; `endDate` the optional expiry instant in
   * milliseconds since the epoch.
   */
  datatype Coupon =
    | CartWiseCoupon(id: string, threshold: Option<real>, endDate: Option<int>,
                     discountPercentage: real)
    | ProductWiseCoupon(id: string, threshold: Option<real>, endDate: Option<int>,
                        discountPercentage: real, productWiseProducts: seq<Product>)
    | BxgyCoupon(id: string, threshold: Option<real>, endDate: Option<int>,
                 buyProducts: seq<Product>, getProducts: seq<Product>)

  datatype DiscountType = CartWise | ProductWise | Bxgy

  function TypeOf(c: Coupon): DiscountType
  {
    match c
    case CartWiseCoupon(_, _, _, _) => CartWise
    case ProductWiseCoupon(_, _, _, _, _) => ProductWise
    case BxgyCoupon(_, _, _, _, _) => Bxgy
  }

  /** A cart item with the discount computed for it. */
  datatype DiscountedItem = DiscountedItem(item: CartItem, discount: real)

  datatype DiscountResult = DiscountResult(items: seq<DiscountedItem>, totalPrice: real,
                                           totalDiscount: real, finalPrice: real)

  /** One entry of the applicable-coupons listing. */
  datatype CouponSummary = CouponSummary(id: string, discountType: DiscountType, discount: real)

  /** Whether a cart item's id is the coupon product id `pid` (JavaScript `===`). */
  predicate SameProduct(id: ProductId, pid: string)
  {
    id == StrId(pid)
  }

  /** What `units` units cost at `price` each. */
  function PriceOf(price: real, units: real): real
  {
    price * units
  }

  /** `price * quantity` of one cart line. */
  function Subtotal(item: CartItem): real
  {
    PriceOf(item.price, item.quantity)
  }

  /** `pct` percent of `amount`. */
  function PercentOf(amount: real, pct: real): real
  {
    amount * pct / 100.0
  }

  // What the cart and coupon schemas guarantee upstream.

  predicate ValidItem(item: CartItem)
  {
    item.quantity > 0.0 && item.price > 0.0
  }

  predicate ValidCart(cart: Cart)
  {
    |cart.items| > 0 && forall i :: 0 <= i < |cart.items| ==> ValidItem(cart.items[i])
  }

  predicate ValidProducts(ps: seq<Product>)
  {
    |ps| > 0 && forall i :: 0 <= i < |ps| ==> ps[i].quantity > 0.0
  }

  predicate ValidPercentage(pct: real)
  {
    0.0 < pct <= 100.0
  }

  predicate ValidCoupon(c: Coupon)
  {
    (c.threshold.Some? ==> c.threshold.value > 0.0) &&
    match c
    case CartWiseCoupon(_, _, _, pct) => ValidPercentage(pct)
    case ProductWiseCoupon(_, _, _, pct, ps) => ValidPercentage(pct) && ValidProducts(ps)
    case BxgyCoupon(_, _, _, buy, get) => ValidProducts(buy) && ValidProducts(get)
  }
}
