/** The session/cart store: one state record changed only through a closed set
    of actions by a pure, total reducer, and the provider that owns it. */
module AppContext {
  import opened Types

  /** Notifications are kept newest first and capped at this many. */
  const NotificationCap := 50

  datatype Notification = Notification(id: string, message: string, orderId: Option<string>, read: bool)

  datatype AppState = AppState(
    qrContext: Option<QRContextResponse>,
    outlet: Option<OutletInfo>,
    tableId: Option<string>,
    tableNumber: Option<string>,
    sessionId: Option<string>,
    orderType: OrderType,
    cart: seq<CartItem>,
    currentOrderId: Option<string>,
    currentOrder: Option<Order>,
    orderStatusPopup: Option<OrderStatus>,
    notifications: seq<Notification>)

  /** `Partial<CartItem>`: a field that is `None` is not in the patch. For the
      optional fields, `Some(None)` is a key present with value `undefined`,
      which the object spread copies over the old value. */
  datatype CartItemPatch = CartItemPatch(
    menuItemId: Option<string>,
    menuItemName: Option<string>,
    quantity: Option<int>,
    unitPrice: Option<int>,
    variantId: Option<Option<string>>,
    variantName: Option<Option<string>>,
    specialInstructions: Option<Option<string>>,
    addons: Option<Option<seq<CartAddon>>>)

  datatype Action =
    | SetQr(response: QRContextResponse)
    | SetOutlet(outlet: Option<OutletInfo>)
    | SetOrder(order: Option<Order>)
    | SetCurrentOrderId(orderId: Option<string>)
    | OrderStatusPopup(status: Option<OrderStatus>)
    | AddToCart(item: CartItem)
    | UpdateCartItem(index: int, patch: CartItemPatch)
    | RemoveFromCart(index: int)
    | ClearCart
    | AddNotification(id: string, message: string, orderId: Option<string>)
    | MarkNotificationRead(id: string)
    | MarkAllNotificationsRead
    | ClearNotifications
    | ResetSession

  const InitialState := AppState(None, None, None, None, None, DineIn, [], None, None, None, [])

  /** `c.addons?.map(a => a.addon_id)`: absent stays absent, so it never equals `[]`. */
  function AddonIds(line: CartItem): (r: Option<seq<string>>)
    ensures r.None? <==> line.addons.None?
    ensures r.Some? ==>
      (|r.value| == |line.addons.value| && forall i :: 0 <= i < |r.value| ==> r.value[i] == line.addons.value[i].addonId)
  {
    match line.addons
    case None => None
    case Some(addons) => Some(seq(|addons|, i requires 0 <= i < |addons| => addons[i].addonId))
  }

  /** The merge key of ADD_TO_CART: same menu item, same variant (both absent
      counts as the same), and the same addon ids in the same order. Special
      instructions and addon quantities are not part of it. */
  predicate SameKey(a: CartItem, b: CartItem) {
    a.menuItemId == b.menuItemId && a.variantId == b.variantId && AddonIds(a) == AddonIds(b)
  }

  /** `cart.findIndex(c => SameKey(c, p))`: the first matching line, or -1. */
  function FindMatch(cart: seq<CartItem>, p: CartItem): (k: int)
    ensures -1 <= k < |cart|
    ensures k >= 0 ==> SameKey(cart[k], p)
    ensures forall j :: 0 <= j < |cart| && (k < 0 || j < k) ==> !SameKey(cart[j], p)
  {
    if cart == [] then -1
    else if SameKey(cart[0], p) then 0
    else
      var k := FindMatch(cart[1..], p);
      if k < 0 then -1 else k + 1
  }

  /** The cart after ADD_TO_CART. */
  function AddLine(cart: seq<CartItem>, p: CartItem): seq<CartItem> {
    var k := FindMatch(cart, p);
    if k >= 0 then cart[k := cart[k].(quantity := cart[k].quantity + p.quantity)]
    else cart + [p]
  }

  /** `{ ...item, ...patch }` */
  function ApplyPatch(item: CartItem, patch: CartItemPatch): CartItem {
    CartItem(
      patch.menuItemId.GetOr(item.menuItemId),
      patch.menuItemName.GetOr(item.menuItemName),
      patch.quantity.GetOr(item.quantity),
      patch.unitPrice.GetOr(item.unitPrice),
      patch.variantId.GetOr(item.variantId),
      patch.variantName.GetOr(item.variantName),
      patch.specialInstructions.GetOr(item.specialInstructions),
      patch.addons.GetOr(item.addons))
  }

  /** `cart.map((item, i) => i === index ? { ...item, ...patch } : item)` */
  function PatchAt(cart: seq<CartItem>, index: int, patch: CartItemPatch): seq<CartItem> {
    seq(|cart|, i requires 0 <= i < |cart| => if i == index then ApplyPatch(cart[i], patch) else cart[i])
  }

  /** `cart.filter((_, i) => i !== index)` */
  function RemoveAt(cart: seq<CartItem>, index: int): seq<CartItem> {
    if 0 <= index < |cart| then cart[..index] + cart[index + 1..] else cart
  }

  /** `[{ ...n, read: false }, ...ns].slice(0, 50)` */
  function PushNotification(ns: seq<Notification>, n: Notification): seq<Notification> {
    var all := [n] + ns;
    if |all| <= NotificationCap then all else all[..NotificationCap]
  }

  /** `ns.map(n => n.id === id ? { ...n, read: true } : n)` */
  function MarkRead(ns: seq<Notification>, id: string): seq<Notification> {
    seq(|ns|, i requires 0 <= i < |ns| => if ns[i].id == id then ns[i].(read := true) else ns[i])
  }

  /** `ns.map(n => ({ ...n, read: true }))` */
  function MarkAllRead(ns: seq<Notification>): seq<Notification> {
    seq(|ns|, i requires 0 <= i < |ns| => ns[i].(read := true))
  }

  /** SET_QR: the scan response becomes the session's context; its outlet
      replaces the current one only when present; the table, session id and
      order type are taken from its session context. */
  function ApplySetQr(state: AppState, p: QRContextResponse): AppState {
    state.(
      qrContext := Some(p),
      outlet := if p.outlet.Some? then p.outlet else state.outlet,
      tableId := if p.qrContext.Some? then p.qrContext.value.tableId else None,
      tableNumber :=
        if p.qrContext.Some? && p.qrContext.value.tableNumber.Some? then p.qrContext.value.tableNumber
        else if p.table.Some? then Some(p.table.value.tableNumber)
        else None,
      sessionId := if p.qrContext.Some? then Some(p.qrContext.value.sessionId) else None,
      orderType := if p.qrContext.Some? && p.qrContext.value.scanMode == "takeaway" then Takeaway else DineIn)
  }

  /** The reducer. Whatever the action, a notification list within the cap
      stays within it. */
  function Reduce(state: AppState, action: Action): (r: AppState)
    ensures |state.notifications| <= NotificationCap ==> |r.notifications| <= NotificationCap
  {
    match action
    case SetQr(p) => ApplySetQr(state, p)
    case SetOutlet(o) => state.(outlet := o)
    case SetOrder(o) => state.(currentOrder := o)
    case SetCurrentOrderId(id) => state.(currentOrderId := id)
    case OrderStatusPopup(s) => state.(orderStatusPopup := s)
    case AddToCart(p) => state.(cart := AddLine(state.cart, p))
    case UpdateCartItem(index, patch) => state.(cart := PatchAt(state.cart, index, patch))
    case RemoveFromCart(index) => state.(cart := RemoveAt(state.cart, index))
    case ClearCart => state.(cart := [])
    case AddNotification(id, message, orderId) =>
      state.(notifications := PushNotification(state.notifications, Notification(id, message, orderId, false)))
    case MarkNotificationRead(id) => state.(notifications := MarkRead(state.notifications, id))
    case MarkAllNotificationsRead => state.(notifications := MarkAllRead(state.notifications))
    case ClearNotifications => state.(notifications := [])
    case ResetSession => InitialState
  }

  // ---------------------------------------------------------------- the cart

  /** ADD_TO_CART onto a cart whose first line with the payload's key is `k`
      adds the payload quantity to that line alone: the cart keeps its length,
      the other lines, and that line's instructions, addons and price. */
  lemma {:induction false} AddToCartMerges(s: AppState, p: CartItem, k: nat)
    requires k < |s.cart| && SameKey(s.cart[k], p)
    requires forall j :: 0 <= j < k ==> !SameKey(s.cart[j], p)
    ensures var c := Reduce(s, AddToCart(p)).cart;
      && |c| == |s.cart|
      && c[k] == s.cart[k].(quantity := s.cart[k].quantity + p.quantity)
      && (forall j :: 0 <= j < |c| && j != k ==> c[j] == s.cart[j])
    ensures Reduce(s, AddToCart(p)) == s.(cart := Reduce(s, AddToCart(p)).cart)
  {
    assert FindMatch(s.cart, p) == k;
  }

  /** ADD_TO_CART with a payload matching no line appends it at the end. */
  lemma AddToCartAppends(s: AppState, p: CartItem)
    requires forall j :: 0 <= j < |s.cart| ==> !SameKey(s.cart[j], p)
    ensures Reduce(s, AddToCart(p)) == s.(cart := s.cart + [p])
  {
  }

  /** No two lines of the cart share a merge key. */
  predicate DistinctKeys(cart: seq<CartItem>) {
    forall i, j :: 0 <= i < j < |cart| ==> !SameKey(cart[i], cart[j])
  }

  /** ADD_TO_CART keeps merge keys distinct. */
  lemma {:induction false} AddToCartKeepsKeysDistinct(cart: seq<CartItem>, p: CartItem)
    requires DistinctKeys(cart)
    ensures DistinctKeys(AddLine(cart, p))
  {
    var k := FindMatch(cart, p);
    var c := AddLine(cart, p);
    if k >= 0 {
      forall i, j | 0 <= i < j < |c| ensures !SameKey(c[i], c[j]) {
        assert SameKey(c[i], cart[i]) && SameKey(c[j], cart[j]);
      }
    } else {
      forall i, j | 0 <= i < j < |c| ensures !SameKey(c[i], c[j]) {
        if j == |cart| {
          assert c[j] == p && c[i] == cart[i];
        }
      }
    }
  }

  /** A patch that leaves the merge-key fields alone (such as the quantity-only
      patch of the cart page). */
  predicate KeepsKey(patch: CartItemPatch) {
    patch.menuItemId.None? && patch.variantId.None? && patch.addons.None?
  }

  /** Every action keeps the cart's merge keys distinct, except an
      UPDATE_CART_ITEM whose patch rewrites a key field. */
  lemma {:induction false} ReduceKeepsKeysDistinct(s: AppState, a: Action)
    requires DistinctKeys(s.cart)
    requires a.UpdateCartItem? ==> KeepsKey(a.patch)
    ensures DistinctKeys(Reduce(s, a).cart)
  {
    match a
    case AddToCart(p) => AddToCartKeepsKeysDistinct(s.cart, p);
    case UpdateCartItem(index, patch) =>
      var c := Reduce(s, a).cart;
      forall i, j | 0 <= i < j < |c| ensures !SameKey(c[i], c[j]) {
        assert SameKey(c[i], s.cart[i]) && SameKey(c[j], s.cart[j]);
      }
    case RemoveFromCart(index) =>
      var c := Reduce(s, a).cart;
      if 0 <= index < |s.cart| {
        forall i, j | 0 <= i < j < |c| ensures !SameKey(c[i], c[j]) {
          var i', j' := if i < index then i else i + 1, if j < index then j else j + 1;
          assert c[i] == s.cart[i'] && c[j] == s.cart[j'];
        }
      }
    case _ =>
  }

  /** Adding the same line twice is adding it once with the summed quantity:
      the second add always merges into the line the first one touched. */
  lemma {:induction false} AddTwiceIsAddSum(s: AppState, p: CartItem, q1: int, q2: int)
    ensures Reduce(Reduce(s, AddToCart(p.(quantity := q1))), AddToCart(p.(quantity := q2)))
         == Reduce(s, AddToCart(p.(quantity := q1 + q2)))
  {
    var p1, p2, p12 := p.(quantity := q1), p.(quantity := q2), p.(quantity := q1 + q2);
    var k := FindMatch(s.cart, p);
    assert FindMatch(s.cart, p1) == k && FindMatch(s.cart, p12) == k by {
      SameKeyIgnoresQuantity(s.cart, p, p1);
      SameKeyIgnoresQuantity(s.cart, p, p12);
    }
    var c1 := AddLine(s.cart, p1);
    if k >= 0 {
      AddToCartMerges(s.(cart := c1), p2, k);
    } else {
      AddToCartMerges(s.(cart := c1), p2, |s.cart|);
    }
  }

  /** Lines that differ only in quantity match the same cart lines. */
  lemma {:induction false} SameKeyIgnoresQuantity(cart: seq<CartItem>, p: CartItem, p': CartItem)
    requires p' == p.(quantity := p'.quantity)
    ensures FindMatch(cart, p') == FindMatch(cart, p)
    decreases |cart|
  {
    if cart != [] {
      SameKeyIgnoresQuantity(cart[1..], p, p');
    }
  }

  /** UPDATE_CART_ITEM overwrites the patched fields of line `index` only; an
      index outside the cart leaves it unchanged; the length never changes. */
  lemma UpdateCartItemEffect(s: AppState, index: int, patch: CartItemPatch)
    ensures var c := Reduce(s, UpdateCartItem(index, patch)).cart;
      && |c| == |s.cart|
      && (0 <= index < |s.cart| ==> c == s.cart[index := ApplyPatch(s.cart[index], patch)])
      && (!(0 <= index < |s.cart|) ==> c == s.cart)
    ensures Reduce(s, UpdateCartItem(index, patch)).(cart := s.cart) == s
  {
  }

  /** The fields a patch does not name keep their values. */
  lemma ApplyPatchKeeps(item: CartItem, patch: CartItemPatch)
    ensures var r := ApplyPatch(item, patch);
      && (patch.quantity.Some? ==> r.quantity == patch.quantity.value)
      && (patch.quantity.None? ==> r.quantity == item.quantity)
      && (KeepsKey(patch) ==> SameKey(r, item))
      && (patch.specialInstructions.None? ==> r.specialInstructions == item.specialInstructions)
      && (patch == CartItemPatch(None, None, None, None, None, None, None, None) ==> r == item)
  {
  }

  /** REMOVE_FROM_CART with an index in the cart drops exactly that line and
      keeps the others in order; any other index changes nothing. */
  lemma RemoveFromCartEffect(s: AppState, index: int)
    ensures var c := Reduce(s, RemoveFromCart(index)).cart;
      && (0 <= index < |s.cart| ==>
            |c| == |s.cart| - 1
            && (forall j :: 0 <= j < index ==> c[j] == s.cart[j])
            && (forall j :: index <= j < |c| ==> c[j] == s.cart[j + 1]))
      && (!(0 <= index < |s.cart|) ==> c == s.cart)
    ensures Reduce(s, RemoveFromCart(index)).(cart := s.cart) == s
  {
  }

  // ------------------------------------------------------- notifications

  /** ADD_NOTIFICATION puts the entry, unread, in front; the list grows by one
      up to the cap, and at the cap the oldest entry is the one dropped. */
  lemma {:induction false} AddNotificationEffect(s: AppState, id: string, message: string, orderId: Option<string>)
    ensures var ns := Reduce(s, AddNotification(id, message, orderId)).notifications;
      && |ns| == (if |s.notifications| + 1 <= NotificationCap then |s.notifications| + 1 else NotificationCap)
      && ns[0] == Notification(id, message, orderId, false)
      && ns[1..] == s.notifications[..|ns| - 1]
    ensures Reduce(s, AddNotification(id, message, orderId)).(notifications := s.notifications) == s
  {
    var all := [Notification(id, message, orderId, false)] + s.notifications;
    var ns := Reduce(s, AddNotification(id, message, orderId)).notifications;
    assert all[1..] == s.notifications;
    if |all| > NotificationCap {
      assert ns[1..] == all[1..NotificationCap];
    }
  }

  /** MARK_ALL_NOTIFICATIONS_READ marks every entry read and keeps the count,
      order, ids, messages and order ids. */
  lemma MarkAllReadEffect(s: AppState)
    ensures var ns := Reduce(s, MarkAllNotificationsRead).notifications;
      && |ns| == |s.notifications|
      && forall i :: 0 <= i < |ns| ==>
           ns[i].read && ns[i] == s.notifications[i].(read := true)
    ensures Reduce(s, MarkAllNotificationsRead).(notifications := s.notifications) == s
  {
  }

  /** MARK_NOTIFICATION_READ marks read the entries with that id and leaves
      every other entry as it was. */
  lemma MarkReadEffect(s: AppState, id: string)
    ensures var ns := Reduce(s, MarkNotificationRead(id)).notifications;
      && |ns| == |s.notifications|
      && (forall i :: 0 <= i < |ns| && s.notifications[i].id == id ==> ns[i] == s.notifications[i].(read := true))
      && (forall i :: 0 <= i < |ns| && s.notifications[i].id != id ==> ns[i] == s.notifications[i])
    ensures Reduce(s, MarkNotificationRead(id)).(notifications := s.notifications) == s
  {
  }

  // ------------------------------------------------------------- session

  /** SET_QR: the outlet falls back to the previous one (it is never checked);
      the table number prefers the context's, then the table's; the order
      type is takeaway exactly for scan mode 'takeaway' and never delivery;
      cart, notifications and the current order are untouched. */
  lemma SetQrEffect(s: AppState, p: QRContextResponse)
    ensures var r := Reduce(s, SetQr(p));
      && r.qrContext == Some(p)
      && (p.outlet.Some? ==> r.outlet == p.outlet)
      && (p.outlet.None? ==> r.outlet == s.outlet)
      && (p.qrContext.Some? && p.qrContext.value.tableNumber.Some? ==> r.tableNumber == p.qrContext.value.tableNumber)
      && (p.qrContext.None? || p.qrContext.value.tableNumber.None? ==>
            r.tableNumber == if p.table.Some? then Some(p.table.value.tableNumber) else None)
      && (r.orderType == Takeaway <==> p.qrContext.Some? && p.qrContext.value.scanMode == "takeaway")
      && r.orderType != Delivery
      && r.cart == s.cart && r.notifications == s.notifications
      && r.currentOrder == s.currentOrder && r.currentOrderId == s.currentOrderId
  {
  }

  /** CLEAR_CART empties the cart and nothing else; RESET_SESSION yields the
      initial state whatever the state was. */
  lemma ClearAndResetEffect(s: AppState)
    ensures Reduce(s, ClearCart) == s.(cart := [])
    ensures Reduce(s, ResetSession) == InitialState
    ensures Reduce(s, ResetSession).cart == [] && Reduce(s, ResetSession).outlet.None?
  {
  }

  /** Only the five cart actions and RESET_SESSION touch the cart. */
  lemma CartOnlyChangedByCartActions(s: AppState, a: Action)
    requires !(a.AddToCart? || a.UpdateCartItem? || a.RemoveFromCart? || a.ClearCart? || a.ResetSession?)
    ensures Reduce(s, a).cart == s.cart
  {
  }

  /** The provider: owns the state and applies every dispatched action with the
      reducer; its callbacks are single dispatches. */
  class Store {
    var state: AppState

    constructor ()
      ensures state == InitialState
    {
      state := InitialState;
    }

    method Dispatch(action: Action)
      modifies this
      ensures state == Reduce(old(state), action)
    {
      state := Reduce(state, action);
    }

    /** `addNotification(message, orderId)`; `freshId` stands for `crypto.randomUUID()`. */
    method AddNotificationWithId(message: string, orderId: Option<string>, freshId: string)
      modifies this
      ensures state == Reduce(old(state), AddNotification(freshId, message, orderId))
      ensures state.notifications[0] == Notification(freshId, message, orderId, false)
    {
      Dispatch(AddNotification(freshId, message, orderId));
      AddNotificationEffect(old(state), freshId, message, orderId);
    }

    /** `dispatch({ type: 'SET_QR', payload })`. */
    method DispatchSetQr(p: QRContextResponse)
      modifies this
      ensures state == ApplySetQr(old(state), p) && state == Reduce(old(state), SetQr(p))
    {
      Dispatch(SetQr(p));
    }

    method MarkAllNotificationsReadNow()
      modifies this
      ensures state == Reduce(old(state), MarkAllNotificationsRead)
    {
      Dispatch(MarkAllNotificationsRead);
    }

    method ShowOrderStatusPopup(status: OrderStatus)
      modifies this
      ensures state == old(state).(orderStatusPopup := Some(status))
    {
      Dispatch(OrderStatusPopup(Some(status)));
    }

    method CloseOrderStatusPopup()
      modifies this
      ensures state == old(state).(orderStatusPopup := None)
    {
      Dispatch(OrderStatusPopup(None));
    }
  }
}
