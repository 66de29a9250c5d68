/** The cart subtotal: a left fold of price times quantity over the items. */
module CartTotal {
  import opened Types

  /** `calculateCartTotal`: `reduce((total, item) => total + item.price * item.quantity, 0)`. */
  function CalculateCartTotal(items: seq<CartItem>): real
  {
    if items == [] then 0.0
    else CalculateCartTotal(items[..|items| - 1]) + Subtotal(items[|items| - 1])
  }

  lemma CartTotalEmpty()
    ensures CalculateCartTotal([]) == 0.0
  {
  }

  /** Adding an item at the end raises the total by exactly that item's subtotal. */
  lemma CartTotalAppend(items: seq<CartItem>, x: CartItem)
    ensures CalculateCartTotal(items + [x]) == CalculateCartTotal(items) + x.price * x.quantity
  {
  }

  /** The fold does not depend on how the items are grouped. */
  lemma {:induction false} CartTotalConcat(a: seq<CartItem>, b: seq<CartItem>)
    ensures CalculateCartTotal(a + b) == CalculateCartTotal(a) + CalculateCartTotal(b)
  {
    if b == [] {
      assert a + b == a;
    } else {
      var b' := b[..|b| - 1];
      assert a + b == (a + b') + [b[|b| - 1]];
      CartTotalAppend(a + b', b[|b| - 1]);
      CartTotalConcat(a, b');
    }
  }

  /** Adding an item at the front raises the total by that item's subtotal, too. */
  lemma CartTotalPrepend(x: CartItem, items: seq<CartItem>)
    ensures CalculateCartTotal([x] + items) == x.price * x.quantity + CalculateCartTotal(items)
  {
    CartTotalConcat([x], items);
    assert [x] == [] + [x];
    CartTotalAppend([], x);
  }

  /** Positive prices and quantities make the total of a non-empty cart positive. */
  lemma {:induction false} CartTotalPositive(items: seq<CartItem>)
    requires |items| > 0
    requires forall i :: 0 <= i < |items| ==> ValidItem(items[i])
    ensures CalculateCartTotal(items) > 0.0
  {
    var last := items[|items| - 1];
    assert ValidItem(last);
    assert Subtotal(last) > 0.0;
    if |items| > 1 {
      CartTotalPositive(items[..|items| - 1]);
    }
  }

  /** With non-negative subtotals the total never goes below zero. */
  lemma {:induction false} CartTotalNonNegative(items: seq<CartItem>)
    requires forall i :: 0 <= i < |items| ==> ValidItem(items[i])
    ensures CalculateCartTotal(items) >= 0.0
  {
    if items != [] {
      assert ValidItem(items[|items| - 1]);
      CartTotalNonNegative(items[..|items| - 1]);
    }
  }
}
