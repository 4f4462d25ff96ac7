/** Read-only selectors over the session state (the hooks of useApp.ts). */
module AppSelectors {
  import opened Types
  import opened AppContext

  const DefaultCurrency := "INR"

  /** `useCartCount`: the sum of the line quantities. When every line holds at
      least one unit, the count is at least the number of lines. */
  function CartCount(cart: seq<CartItem>): (r: int)
    ensures cart == [] ==> r == 0
    ensures (forall i :: 0 <= i < |cart| ==> cart[i].quantity >= 1) ==> r >= |cart|
  {
    if cart == [] then 0 else CartCount(cart[..|cart| - 1]) + cart[|cart| - 1].quantity
  }

  /** The count is additive over splitting the cart in two. */
  lemma {:induction false} CartCountConcat(a: seq<CartItem>, b: seq<CartItem>)
    ensures CartCount(a + b) == CartCount(a) + CartCount(b)
    decreases |b|
  {
    if b == [] {
      assert a + b == a;
    } else {
      assert (a + b)[..|a + b| - 1] == a + b[..|b| - 1];
      assert (a + b)[|a + b| - 1] == b[|b| - 1];
      CartCountConcat(a, b[..|b| - 1]);
    }
  }

  /** Replacing one line changes the count by the difference of the two quantities. */
  lemma {:induction false} CartCountReplace(c: seq<CartItem>, k: nat, line: CartItem)
    requires k < |c|
    ensures CartCount(c[k := line]) == CartCount(c) - c[k].quantity + line.quantity
  {
    assert c == c[..k] + [c[k]] + c[k + 1..];
    assert c[k := line] == c[..k] + [line] + c[k + 1..];
    CartCountConcat(c[..k] + [c[k]], c[k + 1..]);
    CartCountConcat(c[..k] + [line], c[k + 1..]);
    CartCountConcat(c[..k], [c[k]]);
    CartCountConcat(c[..k], [line]);
    assert CartCount([c[k]]) == c[k].quantity by { assert [c[k]][..0] == []; }
    assert CartCount([line]) == line.quantity by { assert [line][..0] == []; }
  }

  /** ADD_TO_CART raises the count by the payload quantity whether it merges
      into an existing line or is appended. */
  lemma AddToCartCount(s: AppState, p: CartItem)
    ensures CartCount(Reduce(s, AddToCart(p)).cart) == CartCount(s.cart) + p.quantity
  {
    assert Reduce(s, AddToCart(p)).cart == AddLine(s.cart, p);
    CartCountAddLine(s.cart, p);
  }

  lemma CartCountAddLine(c: seq<CartItem>, p: CartItem)
    ensures CartCount(AddLine(c, p)) == CartCount(c) + p.quantity
  {
    var k := FindMatch(c, p);
    if k >= 0 {
      var line := c[k].(quantity := c[k].quantity + p.quantity);
      assert AddLine(c, p) == c[k := line];
      CartCountReplace(c, k, line);
    } else {
      assert AddLine(c, p) == c + [p];
      assert (c + [p])[..|c|] == c;
    }
  }

  /** REMOVE_FROM_CART of an index in the cart lowers the count by that line's quantity. */
  lemma RemoveFromCartCount(s: AppState, index: nat)
    requires index < |s.cart|
    ensures CartCount(Reduce(s, RemoveFromCart(index)).cart) == CartCount(s.cart) - s.cart[index].quantity
  {
    assert Reduce(s, RemoveFromCart(index)).cart == RemoveAt(s.cart, index);
    CartCountRemoveAt(s.cart, index);
  }

  lemma CartCountRemoveAt(c: seq<CartItem>, index: nat)
    requires index < |c|
    ensures CartCount(RemoveAt(c, index)) == CartCount(c) - c[index].quantity
  {
    assert c == c[..index] + [c[index]] + c[index + 1..];
    CartCountConcat(c[..index] + [c[index]], c[index + 1..]);
    CartCountConcat(c[..index], [c[index]]);
    CartCountConcat(c[..index], c[index + 1..]);
    assert CartCount([c[index]]) == c[index].quantity by { assert [c[index]][..0] == []; }
  }

  /** `useOutletId`: the outlet's id, else the scan context's outlet id (which
      may be a short code), else null. */
  function OutletId(s: AppState): Option<string> {
    if s.outlet.Some? then Some(s.outlet.value.id)
    else if s.qrContext.Some? && s.qrContext.value.qrContext.Some? then Some(s.qrContext.value.qrContext.value.outletId)
    else None
  }

  /** `useOutletIdForOrder`: the outlet's id or null, with no fallback. */
  function OutletIdForOrder(s: AppState): Option<string> {
    if s.outlet.Some? then Some(s.outlet.value.id) else None
  }

  /** `useCurrency`: the scan context's currency, else "INR". */
  function Currency(s: AppState): string {
    if s.qrContext.Some? && s.qrContext.value.qrContext.Some? then s.qrContext.value.qrContext.value.currency
    else DefaultCurrency
  }

  /** The order id never falls back to the scan context's outlet id; the
      display id agrees with it whenever it is set, is the scan context's
      outlet id when only that is known, and is null when neither is. */
  lemma OutletIdForOrderNeverFallsBack(s: AppState)
    ensures OutletIdForOrder(s).Some? <==> s.outlet.Some?
    ensures s.outlet.Some? ==> OutletId(s) == OutletIdForOrder(s) == Some(s.outlet.value.id)
    ensures s.outlet.None? && s.qrContext.Some? && s.qrContext.value.qrContext.Some? ==>
      OutletId(s) == Some(s.qrContext.value.qrContext.value.outletId) && OutletIdForOrder(s).None?
    ensures s.outlet.None? && (s.qrContext.None? || s.qrContext.value.qrContext.None?) ==>
      OutletId(s).None? && OutletIdForOrder(s).None?
  {
  }

  /** After SET_QR the currency is the new context's, or "INR" without one;
      after RESET_SESSION it is "INR". */
  lemma CurrencyAfterActions(s: AppState, p: QRContextResponse)
    ensures Currency(Reduce(s, SetQr(p))) == if p.qrContext.Some? then p.qrContext.value.currency else DefaultCurrency
    ensures Currency(Reduce(s, ResetSession)) == DefaultCurrency
  {
  }

  /** SET_QR without an outlet keeps the previous order outlet id: a scan that
      lacks an outlet never clears it, and is never checked for a UUID. */
  lemma OutletIdForOrderAfterSetQr(s: AppState, p: QRContextResponse)
    ensures OutletIdForOrder(Reduce(s, SetQr(p)))
         == if p.outlet.Some? then Some(p.outlet.value.id) else OutletIdForOrder(s)
  {
  }
}
