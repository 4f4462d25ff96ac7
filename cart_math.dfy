/** The cart page's arithmetic: a line's total and the cart subtotal, and how the
    reducer's cart actions move the subtotal. */
module CartMath {
  import opened Types
  import opened AppContext

  /** `addons.reduce((s, a) => s + a.price * a.quantity, 0)` */
  function AddonSum(addons: seq<CartAddon>): int
  {
    if addons == [] then 0
    else AddonSum(addons[..|addons| - 1]) + addons[|addons| - 1].price * addons[|addons| - 1].quantity
  }

  /** `getLineTotal`: unit price times quantity, plus each addon's price times
      its own quantity (addons are per line, not per unit); absent addons add 0. */
  function LineTotal(line: CartItem): int
  {
    line.unitPrice * line.quantity + (if line.addons.Some? then AddonSum(line.addons.value) else 0)
  }

  /** `cart.reduce((sum, i) => sum + getLineTotal(i), 0)` */
  function Subtotal(cart: seq<CartItem>): int
  {
    if cart == [] then 0 else Subtotal(cart[..|cart| - 1]) + LineTotal(cart[|cart| - 1])
  }

  /** The subtotal of a cart is additive over splitting it in two. */
  lemma {:induction false} SubtotalConcat(a: seq<CartItem>, b: seq<CartItem>)
    ensures Subtotal(a + b) == Subtotal(a) + Subtotal(b)
    decreases |b|
  {
    if b == [] {
      assert a + b == a;
    } else {
      assert (a + b)[..|a + b| - 1] == a + b[..|b| - 1];
      assert (a + b)[|a + b| - 1] == b[|b| - 1];
      SubtotalConcat(a, b[..|b| - 1]);
    }
  }

  /** Replacing one line changes the subtotal by the difference of the two line totals. */
  lemma {:induction false} SubtotalReplace(cart: seq<CartItem>, k: nat, line: CartItem)
    requires k < |cart|
    ensures Subtotal(cart[k := line]) == Subtotal(cart) - LineTotal(cart[k]) + LineTotal(line)
  {
    assert cart == cart[..k] + [cart[k]] + cart[k + 1..];
    assert cart[k := line] == cart[..k] + [line] + cart[k + 1..];
    SubtotalConcat(cart[..k] + [cart[k]], cart[k + 1..]);
    SubtotalConcat(cart[..k] + [line], cart[k + 1..]);
    SubtotalConcat(cart[..k], [cart[k]]);
    SubtotalConcat(cart[..k], [line]);
    assert Subtotal([cart[k]]) == LineTotal(cart[k]) by { assert [cart[k]][..0] == []; }
    assert Subtotal([line]) == LineTotal(line) by { assert [line][..0] == []; }
  }

  /** Removing line `k` takes exactly its line total off the subtotal. */
  lemma {:induction false} SubtotalRemove(cart: seq<CartItem>, k: nat)
    requires k < |cart|
    ensures Subtotal(RemoveAt(cart, k)) == Subtotal(cart) - LineTotal(cart[k])
  {
    assert cart == cart[..k] + [cart[k]] + cart[k + 1..];
    SubtotalConcat(cart[..k] + [cart[k]], cart[k + 1..]);
    SubtotalConcat(cart[..k], [cart[k]]);
    SubtotalConcat(cart[..k], cart[k + 1..]);
    assert Subtotal([cart[k]]) == LineTotal(cart[k]) by { assert [cart[k]][..0] == []; }
  }

  /** ADD_TO_CART raises the subtotal by the payload's own line total when it is
      appended, but by the MATCHED line's unit price times the added quantity
      when it merges: the payload's addons and price are not counted again. */
  lemma AddToCartSubtotal(s: AppState, p: CartItem)
    ensures var k := FindMatch(s.cart, p);
      Subtotal(Reduce(s, AddToCart(p)).cart)
        == Subtotal(s.cart) + (if k >= 0 then s.cart[k].unitPrice * p.quantity else LineTotal(p))
  {
    assert Reduce(s, AddToCart(p)).cart == AddLine(s.cart, p);
    SubtotalAddLine(s.cart, p);
  }

  lemma SubtotalAddLine(c: seq<CartItem>, p: CartItem)
    ensures var k := FindMatch(c, p);
      Subtotal(AddLine(c, p)) == Subtotal(c) + (if k >= 0 then c[k].unitPrice * p.quantity else LineTotal(p))
  {
    var k := FindMatch(c, p);
    if k >= 0 {
      var line := c[k].(quantity := c[k].quantity + p.quantity);
      assert AddLine(c, p) == c[k := line];
      SubtotalReplace(c, k, line);
      LineTotalAddQuantity(c[k], p.quantity);
    } else {
      assert AddLine(c, p) == c + [p];
      assert (c + [p])[..|c|] == c;
    }
  }

  /** Adding `d` to a line's quantity adds its unit price times `d` to its total. */
  lemma LineTotalAddQuantity(line: CartItem, d: int)
    ensures LineTotal(line.(quantity := line.quantity + d)) == LineTotal(line) + line.unitPrice * d
  {
    assert line.unitPrice * (line.quantity + d) == line.unitPrice * line.quantity + line.unitPrice * d;
  }

  /** An illustration only, on one concrete cart, of the general facts in
      `AddToCartSubtotal` and `AddToCartMerges`: merging loses money. The
      cart holds one burger with one cheese addon; adding the same burger
      with two cheese addons merges into one line that still carries one
      cheese addon, so the new subtotal is below the old subtotal plus the
      added line's total. */
  lemma MergeKeepsFirstLineAddons()
    ensures var cheese1 := CartAddon("cheese", "Cheese", 1, 30);
      var cheese2 := CartAddon("cheese", "Cheese", 2, 30);
      var first := CartItem("burger", "Burger", 1, 200, None, None, None, Some([cheese1]));
      var again := first.(addons := Some([cheese2]));
      var s := InitialState.(cart := [first]);
      && Reduce(s, AddToCart(again)).cart == [first.(quantity := 2)]
      && Subtotal(Reduce(s, AddToCart(again)).cart) == 430
      && Subtotal(s.cart) + LineTotal(again) == 490
  {
    var cheese1 := CartAddon("cheese", "Cheese", 1, 30);
    var cheese2 := CartAddon("cheese", "Cheese", 2, 30);
    var first := CartItem("burger", "Burger", 1, 200, None, None, None, Some([cheese1]));
    var again := first.(addons := Some([cheese2]));
    assert |AddonIds(first).value| == 1 && AddonIds(first).value[0] == "cheese";
    assert |AddonIds(again).value| == 1 && AddonIds(again).value[0] == "cheese";
    assert AddonIds(first).value == ["cheese"] == AddonIds(again).value;
    assert FindMatch([first], again) == 0;
    var merged := [first.(quantity := 2)];
    assert merged[..0] == [];
    assert [cheese1][..0] == [] && [cheese2][..0] == [];
    assert [first][..0] == [];
  }

  /** With non-negative prices, a line's total never falls when its quantity grows. */
  lemma LineTotalMonotoneInQuantity(line: CartItem, q: int)
    requires line.unitPrice >= 0 && q >= line.quantity
    ensures LineTotal(line.(quantity := q)) >= LineTotal(line)
  {
    assert line.unitPrice * q >= line.unitPrice * line.quantity by {
      assert line.unitPrice * (q - line.quantity) >= 0;
    }
  }

  /** Raising one addon's count by `d` adds that addon's price times `d`. */
  lemma {:induction false} AddonSumRaise(addons: seq<CartAddon>, k: nat, d: int)
    requires k < |addons|
    ensures AddonSum(addons[k := addons[k].(quantity := addons[k].quantity + d)])
         == AddonSum(addons) + addons[k].price * d
    decreases |addons|
  {
    var a' := addons[k := addons[k].(quantity := addons[k].quantity + d)];
    var n := |addons| - 1;
    assert a'[..n] == if k < n then addons[..n][k := addons[k].(quantity := addons[k].quantity + d)] else addons[..n];
    if k < n {
      AddonSumRaise(addons[..n], k, d);
    } else {
      var x := addons[k];
      assert x.price * (x.quantity + d) == x.price * x.quantity + x.price * d;
    }
  }

  /** With non-negative addon prices, a line's total never falls when one of its
      addon counts grows. */
  lemma LineTotalMonotoneInAddon(line: CartItem, k: nat, d: nat)
    requires line.addons.Some? && k < |line.addons.value| && line.addons.value[k].price >= 0
    ensures var addons := line.addons.value;
      LineTotal(line.(addons := Some(addons[k := addons[k].(quantity := addons[k].quantity + d)]))) >= LineTotal(line)
  {
    AddonSumRaise(line.addons.value, k, d);
  }
}
