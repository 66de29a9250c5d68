# Coupon discount engine, modelled in Dafny

This project models the core of a small e-commerce coupon service. It has
three parts:

- **The discount engine.** It decides whether a coupon applies to a cart and
  computes the per-item discounts for the three coupon kinds: CART_WISE,
  PRODUCT_WISE and BXGY (buy X, get Y).
- **Applying a coupon.** It aggregates the item discounts into a total
  discount and a final price.
- **The in-memory coupon store.** It lists, looks up, creates, updates and
  deletes coupons.

Modules:

- `Wrappers`: Option and Result.
- `ArrayOps`: the JavaScript array methods the source relies on:
  `findIndex`, `find`, `every`, `some`, `filter` and `map`.
- `Types`: carts, coupons, discount results and the well-formedness rules
  the request schemas impose.
- `CartTotal`: `calculateCartTotal`.
- `CouponExpiry`: `checkIsCouponExpired`.
- `DiscountService`: `checkIsCouponApplicable`, the three strategies,
  `applyCoupon`, `calculateDiscountAmount` and `getApplicableCoupons`.
- `DiscountProperties` and `DiscountScenarios`: lemmas and worked examples
  for the engine.
- `CouponService`: the store, as the class `CouponStore` over a
  `seq<Coupon>`.
- `StoreProperties`: lemmas about lookups after each store change.

Modelling choices:

- Numbers (prices, quantities, thresholds, percentages) are exact `real`s.
  Time is an `int` count of milliseconds.
- The current time is the parameter `now`.
- `getApplicableCoupons` receives the coupon list as a parameter, in place
  of the module-level array.
- A cart product id is either a string or a number (`ProductId`). Strict
  equality never matches a numeric cart id against a coupon's string id, so
  such an item never matches any coupon entry.
- A threshold is tested for truthiness: a threshold of 0 behaves exactly like
  no threshold.
- BXGY applicability looks at the first cart line with each buy product. A
  later line with the same product is never consulted. PRODUCT_WISE accepts
  any matching line.
- The CART_WISE strategy discounts the unit price once per line, and quantity
  is not multiplied in. PRODUCT_WISE discounts the whole line subtotal. The
  model keeps this asymmetry as the code has it.

## Model

| member | source | states |
|---|---|---|
| ArrayOps.FindIndex | src/services/couponService.ts:35 | the index of the first element satisfying the test, or none exactly when no element does |
| ArrayOps.Find | src/services/discountService.ts:75-77 | the first element satisfying the test, or none exactly when no element does |
| ArrayOps.Every | src/services/discountService.ts:74 | true exactly when every element passes |
| ArrayOps.Any | src/services/discountService.ts:95 | true exactly when some element passes |
| ArrayOps.Filter | src/services/couponService.ts:13 | the kept elements are from the input, pass the test, and every passing input element is kept |
| ArrayOps.Map | src/services/discountService.ts:39-43 | same length, and each output is the callback applied to the input at that position |
| ArrayOps.MapConcat | src/services/discountService.ts:39-43 | mapping distributes over concatenation |
| ArrayOps.FilterConcat | src/services/couponService.ts:13 | filtering distributes over concatenation, so order is kept |
| ArrayOps.FilterSingleton | src/services/couponService.ts:13 | a one-element list keeps its element exactly when it passes |
| ArrayOps.FilterAll | src/services/couponService.ts:13 | a filter that every element passes returns the list unchanged |
| CartTotal.CalculateCartTotal | src/utils/calculateCartTotal.ts:3-9 | no contract of its own; the CartTotal lemmas state its value on empty, appended, prepended and joined item lists and its sign |
| CartTotal.CartTotalEmpty | src/utils/calculateCartTotal.ts:4-6 | an empty cart totals 0 |
| CartTotal.CartTotalAppend | src/utils/calculateCartTotal.ts:4-6 | appending an item adds exactly its price times quantity |
| CartTotal.CartTotalConcat | src/utils/calculateCartTotal.ts:4-6 | the total of two joined item lists is the sum of their totals |
| CartTotal.CartTotalPrepend | src/utils/calculateCartTotal.ts:4-6 | prepending an item adds exactly its price times quantity |
| CartTotal.CartTotalPositive | src/utils/calculateCartTotal.ts:4-6 | a non-empty cart of items with positive price and quantity has a positive total |
| CartTotal.CartTotalNonNegative | src/utils/calculateCartTotal.ts:4-6 | a cart of valid items never totals below 0 |
| CouponExpiry.CheckIsCouponExpired | src/utils/checkIsCouponExpired.ts:3-8 | no contract of its own; the CouponExpiry lemmas state exactly when it holds and that it is monotone in time |
| CouponExpiry.NoEndDateNeverExpired | src/utils/checkIsCouponExpired.ts:4 | a coupon without an end date is never expired |
| CouponExpiry.ExpiredIff | src/utils/checkIsCouponExpired.ts:4-7 | expired exactly when an end date exists and lies strictly before now |
| CouponExpiry.EndDateAtNowNotExpired | src/utils/checkIsCouponExpired.ts:7 | a coupon ending exactly now is not yet expired |
| CouponExpiry.ExpiredMonotone | src/utils/checkIsCouponExpired.ts:7 | once expired, a coupon stays expired at every later time |
| DiscountService.ThresholdSet | src/services/discountService.ts:58 | no contract of its own: a threshold counts only when present and non-zero; ZeroThresholdActsAsAbsent and BelowThresholdNotApplicable state its effect |
| DiscountService.BuyEntryMet | src/services/discountService.ts:74-84 | a buy entry is met exactly when the first cart line with its product has at least the required quantity |
| DiscountService.ProductEntryMet | src/services/discountService.ts:95-101 | a product entry is met exactly when some cart line has its product with at least the required quantity |
| DiscountService.AllBuyEntriesMet | src/services/discountService.ts:74-84 | true exactly when every buy entry is met |
| DiscountService.SomeProductEntryMet | src/services/discountService.ts:95-101 | true exactly when at least one product entry is met |
| DiscountService.CheckIsCouponApplicable | src/services/discountService.ts:46-103 | no contract of its own; ExpiredNeverApplicable, BelowThresholdNotApplicable and the three ApplicableIff lemmas state exactly when it holds |
| DiscountService.Min | src/services/discountService.ts:158 | `Math.min`: the result is no larger than either argument and equals one of them |
| DiscountService.CalculateCartWideDiscount | src/services/discountService.ts:105-114 | items are kept in order, and each discount is the percentage of the unit price |
| DiscountService.IsDiscounted | src/services/discountService.ts:122-124 | true exactly when some entry names the item's product with a quantity at most the item's |
| DiscountService.ProductItemDiscount | src/services/discountService.ts:120-136 | no contract of its own; ProductDiscountCases gives its value and ProductItemBounded its bounds |
| DiscountService.CalculateProductDiscount | src/services/discountService.ts:117-142 | items are kept in order, and each discount is the item's product-wise discount |
| DiscountService.FreeUnits | src/services/discountService.ts:152-158 | 0 when no get entry names the product; otherwise the smaller of the line quantity and the first naming entry's quantity |
| DiscountService.BxgyItemDiscount | src/services/discountService.ts:145-165 | no contract of its own; BxgyDiscountCases gives its value and BxgyItemBounded its bounds |
| DiscountService.CalculateBxgyDiscount | src/services/discountService.ts:144-171 | items are kept in order, and each discount is the price of the item's free units |
| DiscountService.DiscountedItems | src/services/discountService.ts:11-21 | the selected strategy keeps the cart's items, length and order |
| DiscountService.TotalDiscount | src/services/discountService.ts:23-26 | no contract of its own: the sum of the item discounts; TotalDiscountBounded bounds it by the cart total |
| DiscountService.ApplyCoupon | src/services/discountService.ts:7-34 | items unchanged in length and order; total price is the cart total; total discount is the sum of item discounts; final price is their difference |
| DiscountService.CalculateDiscountAmount | src/services/discountService.ts:173-195 | equals the total discount that applyCoupon reports for the same coupon and cart |
| DiscountService.Summarize | src/services/discountService.ts:39-43 | the summary carries the coupon's id and type and applyCoupon's total discount |
| DiscountService.GetApplicableCoupons | src/services/discountService.ts:36-44 | every summary comes from an applicable coupon; every applicable coupon is summarised; no more summaries than coupons |
| DiscountProperties.ExpiredNeverApplicable | src/services/discountService.ts:49-51 | an expired coupon is not applicable to any cart |
| DiscountProperties.BelowThresholdNotApplicable | src/services/discountService.ts:53-60 | a set threshold above the cart subtotal makes any coupon not applicable |
| DiscountProperties.ZeroThresholdActsAsAbsent | src/services/discountService.ts:58 | a zero threshold decides applicability exactly as no threshold |
| DiscountProperties.CartWiseApplicableIff | src/services/discountService.ts:49-65 | CART_WISE applies exactly when unexpired and not below a set threshold |
| DiscountProperties.BxgyApplicableIff | src/services/discountService.ts:49-84 | BXGY applies exactly when unexpired, not below the threshold, and for every buy entry the first line with that product has enough quantity |
| DiscountProperties.ProductWiseApplicableIff | src/services/discountService.ts:49-101 | PRODUCT_WISE applies exactly when unexpired, not below the threshold, and some entry and some line agree on product with enough quantity |
| DiscountProperties.FirstItemOnlyForBxgy | src/services/discountService.ts:74-101 | with two lines of one product, only the first counts for BXGY while PRODUCT_WISE accepts the second |
| DiscountProperties.NumericIdNeverMatches | src/services/discountService.ts:74-154 | a line with a numeric product id gets no product-wise or free-unit discount and meets no buy entry |
| DiscountProperties.CartWideDiscountPerUnit | src/services/discountService.ts:110-113 | two lines with the same unit price get the same CART_WISE discount, whatever their quantities |
| DiscountProperties.ProductDiscountCases | src/services/discountService.ts:120-136 | the discount is the percentage of the line subtotal when an entry matches, and 0 otherwise |
| DiscountProperties.BxgyDiscountCases | src/services/discountService.ts:145-165 | 0 for a product no get entry names; otherwise price times the smaller of line quantity and first entry's quantity |
| DiscountProperties.PercentBounded | src/services/discountService.ts:112-129 | a valid percentage of a non-negative amount lies between 0 and the amount |
| DiscountProperties.PriceMonotone | src/services/discountService.ts:158 | the price of fewer units is no larger, and not negative |
| DiscountProperties.CartWideItemBounded | src/services/discountService.ts:110-113 | for a line of at least one unit, the CART_WISE discount lies between 0 and the line subtotal |
| DiscountProperties.ProductItemBounded | src/services/discountService.ts:120-136 | the PRODUCT_WISE discount lies between 0 and the line subtotal |
| DiscountProperties.FreeUnitsBounded | src/services/discountService.ts:152-158 | free units lie between 0 and the line quantity |
| DiscountProperties.BxgyItemBounded | src/services/discountService.ts:145-165 | the BXGY discount lies between 0 and the line subtotal |
| DiscountProperties.ItemDiscountBounded | src/services/discountService.ts:11-21 | for a valid coupon and a valid item (of at least one unit when the coupon is CART_WISE), the item discount lies between 0 and the line subtotal |
| DiscountProperties.TotalDiscountBounded | src/services/discountService.ts:23-26 | item discounts within their subtotals sum to between 0 and the cart total |
| DiscountProperties.ApplyCouponFinalPriceNonNegative | src/services/discountService.ts:7-34 | for a valid coupon and cart (lines of at least one unit for CART_WISE), the total discount lies between 0 and the total price, so the final price is not negative |
| DiscountProperties.CartWideFractionalQuantityGoesNegative | src/services/discountService.ts:105-114 | half a unit at 10 under 100 % CART_WISE gives discount 10 on a total of 5, a final price of -5 |
| DiscountProperties.GetApplicableCouponsConcat | src/services/discountService.ts:36-44 | the summaries of two joined coupon lists are the two lists' summaries joined, so input order is kept |
| DiscountProperties.GetApplicableCouponsSingleton | src/services/discountService.ts:36-44 | one coupon yields its summary exactly when it is applicable, and nothing otherwise |
| DiscountScenarios.CartWideScenario | src/services/discountService.ts:105-114 | two units at 10 under 10 % CART_WISE: discount 1, total 20, final 19 |
| DiscountScenarios.ProductWiseScenario | src/services/discountService.ts:117-142 | 50 % PRODUCT_WISE on A: A's subtotal 30 gets 15 off, B gets 0, final 20 |
| DiscountScenarios.BxgyScenario | src/services/discountService.ts:66-171 | buy 2 A get 1 B: applicable with five A, and the B costing 20 is free |
| DiscountScenarios.ThresholdScenario | src/services/discountService.ts:53-60 | a threshold of 100 rejects a cart worth 90, for every coupon kind |
| DiscountScenarios.ApplyCouponDoesNotCheckApplicability | src/services/discountService.ts:7-34 | a BXGY coupon that is not applicable still yields its discount when applied |
| CouponService.IndexOf | src/services/couponService.ts:35-37 | the position of the first coupon with the id, or none exactly when no coupon has it |
| CouponService.Listed | src/services/couponService.ts:8-14 | everything when expired coupons are shown; otherwise exactly the unexpired coupons |
| CouponService.CouponStore.constructor | src/services/couponService.ts:3 | the store starts with the given coupons |
| CouponService.CouponStore.ListCoupons | src/services/couponService.ts:8-14 | the whole store when expired coupons are shown; otherwise its unexpired coupons, each of them |
| CouponService.CouponStore.GetCouponById | src/services/couponService.ts:16-18 | the first coupon with the id, or none exactly when the store has no such id |
| CouponService.CouponStore.CreateCoupon | src/services/couponService.ts:20-31 | returns the data under the fresh id and appends it at the end; unique ids stay unique |
| CouponService.CouponStore.UpdateCoupon | src/services/couponService.ts:33-46 | on a missing id fails with the store unchanged; otherwise replaces only the first coupon with that id by the data, keeping the id |
| CouponService.CouponStore.DeleteCoupon | src/services/couponService.ts:48-57 | on a missing id fails with the store unchanged; otherwise removes only the first coupon with that id, keeping the order of the rest |
| StoreProperties.IndexOfAgree | src/services/couponService.ts:35-37 | stores that agree on which positions carry an id find it at the same position |
| StoreProperties.LookupAfterCreate | src/services/couponService.ts:16-28 | after an append the fresh id finds the new coupon, and other ids find what they found before |
| StoreProperties.LookupAfterUpdate | src/services/couponService.ts:35-43 | after an update the id is found at the same position, and other ids are unaffected |
| StoreProperties.LookupAfterDelete | src/services/couponService.ts:49-56 | with unique ids, after a delete no coupon has that id |
| StoreProperties.DeleteRemovesFirstOnly | src/services/couponService.ts:49-56 | with a duplicated id, a delete removes only the first copy |
| StoreProperties.ListedAppend | src/services/couponService.ts:13 | appending a coupon appends it to the unexpired listing exactly when it is unexpired, so store order is kept |
| StoreProperties.NothingExpiredListsAll | src/services/couponService.ts:13 | when no coupon has expired, hiding expired coupons still lists the whole store, in order |
| StoreProperties.ExpiredNotListed | src/services/couponService.ts:13 | an expired coupon never appears when expired coupons are hidden |

## Left out

- HTTP handling is not part of this model: the controllers, routes, server
  start-up, response helpers and exception masking. These only parse
  requests and map errors to status codes.
- The request schemas are not run. Their constraints are the predicates
  `ValidItem`, `ValidCart`, `ValidProducts`, `ValidPercentage` and
  `ValidCoupon`. The engine itself does not demand them, so they appear only
  as preconditions of the bound lemmas.
- Generating a coupon id is left out, because it reads the clock and retries
  by recursion. `CreateCoupon` takes the new id as a parameter and requires
  that no coupon in the store has it.
- The clock read in the expiry check becomes the parameter `now`. Both
  `GetApplicableCoupons` and `Listed` judge every coupon at that one instant.
  The code's filters read the clock afresh for each coupon, so a coupon could
  expire partway through a listing; the model does not capture that.
- The `console.log` in the BXGY strategy is left out.
- Floating-point rounding, NaN, and the `|| 0` fallbacks for a missing
  percentage or a missing item discount are left out. Numbers are exact
  reals, and every coupon of the datatype carries its fields.
- An unknown discount type cannot be written, because the coupon datatype
  has exactly three kinds. The code's fall-through for it has no
  counterpart.
- The engine's own "should not happen" guards for a missing buy or product
  list cannot be reached, for the same reason.
- `applyCoupon` does not fail fast on an inapplicable coupon. It applies
  whatever it is given, and the model follows the code here (see
  `ApplyCouponDoesNotCheckApplicability`). A stricter engine would refuse
  such a coupon. Here, the controller checks applicability before applying
  (src/controllers/discountController.ts:28-34), and the controller is not
  part of this model.
- The store's array is shared by reference: `listCoupons(true)` returns the
  live array, and a caller holding it could mutate the store through it. The model
  returns the sequence as a value, so this aliasing is not captured.
- The applicability check computes the cart subtotal inline. The model uses
  `CalculateCartTotal` for it, which is the same fold.
- ApplyCouponFinalPriceNonNegative: requires lines of at least one unit for CART_WISE,
  because the code discounts a CART_WISE line by a percentage of one unit's
  price. A line of fewer than one unit can be discounted below zero
  (`CartWideFractionalQuantityGoesNegative`).
- ItemDiscountBounded, CartWideItemBounded: require a CART_WISE line of at
  least one unit, for the same reason. Half a unit at 10 under a 60 %
  CART_WISE coupon is discounted 6 on a subtotal of 5.
