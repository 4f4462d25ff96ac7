/** The cart page: the quantity buttons, the place-order form with its
    takeaway phone check, and the confirmation that builds the order request,
    sends it, and on success moves the session from the cart to the new order. */
module CartPage {
  import opened Types
  import opened Text
  import opened AppContext
  import opened CartMath
  import opened Validation

  /** An error the page shows: a translation key, or the message of what the
      order call threw. */
  datatype UiError = Key(key: string) | Raw(message: string)

  const PhoneRequired := Key("cart.phoneRequired")
  const NoOutlet := Key("scan.noOutlet")
  const GenericError := Key("common.error")

  /** A patch that sets the quantity alone. */
  function QuantityPatch(q: int): (p: CartItemPatch)
    ensures KeepsKey(p) && p.quantity == Some(q)
  {
    CartItemPatch(None, None, Some(q), None, None, None, None, None)
  }

  /** The action `updateQty(index, delta)` dispatches: removal when the new
      quantity would fall below 1, else the new quantity. */
  function QtyAction(cart: seq<CartItem>, index: nat, delta: int): (a: Action)
    requires index < |cart|
    ensures a.RemoveFromCart? <==> cart[index].quantity + delta < 1
  {
    var q := cart[index].quantity + delta;
    if q < 1 then RemoveFromCart(index) else UpdateCartItem(index, QuantityPatch(q))
  }

  /** `updateQty(i, d)`: with quantity + d below 1 line i is removed and the
      others keep their order; otherwise line i's quantity becomes exactly
      quantity + d and every other line and field is unchanged. Nothing but
      the cart changes. */
  lemma UpdateQtyEffect(s: AppState, index: nat, delta: int)
    requires index < |s.cart|
    ensures var c := Reduce(s, QtyAction(s.cart, index, delta)).cart;
      var q := s.cart[index].quantity + delta;
      && (q < 1 ==> c == s.cart[..index] + s.cart[index + 1..])
      && (q >= 1 ==> c == s.cart[index := s.cart[index].(quantity := q)])
    ensures Reduce(s, QtyAction(s.cart, index, delta)).(cart := s.cart) == s
  {
    var q := s.cart[index].quantity + delta;
    if q >= 1 {
      assert ApplyPatch(s.cart[index], QuantityPatch(q)) == s.cart[index].(quantity := q);
    }
  }

  /** The subtotal after `updateQty(i, d)`: d units of line i's unit price more,
      or line i's whole total less when it is removed. */
  lemma UpdateQtySubtotal(s: AppState, index: nat, delta: int)
    requires index < |s.cart|
    ensures var q := s.cart[index].quantity + delta;
      Subtotal(Reduce(s, QtyAction(s.cart, index, delta)).cart)
        == if q < 1 then Subtotal(s.cart) - LineTotal(s.cart[index])
           else Subtotal(s.cart) + s.cart[index].unitPrice * delta
  {
    var q := s.cart[index].quantity + delta;
    UpdateQtyEffect(s, index, delta);
    if q < 1 {
      SubtotalRemove(s.cart, index);
    } else {
      SubtotalReplace(s.cart, index, s.cart[index].(quantity := q));
      LineTotalAddQuantity(s.cart[index], delta);
    }
  }

  /** `state.outlet?.id` */
  function OutletId(s: AppState): Option<string> {
    if s.outlet.Some? then Some(s.outlet.value.id) else None
  }

  /** What a click on "place order" leads to. */
  datatype ClickOutcome = Ignored | NeedsPhone | Confirm

  /** `handlePlaceOrderClick`: ignored without an outlet id (an empty id counts
      as none) or with an empty cart; for takeaway alone a blank phone stops
      it; otherwise the confirmation opens. */
  function PlaceOrderClick(s: AppState, phone: string): (r: ClickOutcome)
    ensures r == Ignored <==> !Truthy(OutletId(s)) || s.cart == []
    ensures r == NeedsPhone <==> Truthy(OutletId(s)) && s.cart != [] && s.orderType == Takeaway && Blank(phone)
  {
    if !Truthy(OutletId(s)) || |s.cart| == 0 then Ignored
    else if s.orderType == Takeaway && Trim(phone) == [] then NeedsPhone
    else Confirm
  }

  /** Dine-in and delivery orders open the confirmation without looking at the
      phone; a takeaway order needs a phone that is not blank. */
  lemma PhoneCheckOnlyForTakeaway(s: AppState, phone: string)
    requires Truthy(OutletId(s)) && s.cart != []
    ensures s.orderType != Takeaway ==> PlaceOrderClick(s, phone) == Confirm
    ensures s.orderType == Takeaway ==> (PlaceOrderClick(s, phone) == Confirm <==> !Blank(phone))
  {
  }

  /** `s.trim() || undefined` */
  function NonBlank(text: string): (r: Option<string>)
    ensures r.None? <==> Blank(text)
    ensures r.Some? ==> r.value == Trim(text) && !IsSpace(r.value[0]) && !IsSpace(r.value[|r.value| - 1])
  {
    var t := Trim(text);
    if t == [] then None else Some(t)
  }

  /** One cart line as an order item: id, quantity, variant, instructions, and
      each addon's id and count (prices are not sent). */
  function ItemRequest(line: CartItem): OrderItemRequest {
    OrderItemRequest(
      line.menuItemId, line.quantity, line.variantId, line.specialInstructions,
      match line.addons
      case None => None
      case Some(addons) => Some(seq(|addons|, k requires 0 <= k < |addons| => OrderAddonRequest(addons[k].addonId, addons[k].quantity))))
  }

  /** The order type sent: dine-in stays dine-in, anything else is takeaway. */
  function ApiOrderType(t: OrderType): OrderType {
    if t == DineIn then DineIn else Takeaway
  }

  /** The request body `handleConfirmOrder` builds. */
  function BuildOrderRequest(s: AppState, outletId: string, name: string, phone: string, email: string, instructions: string): CreateOrderRequest {
    var orderType := ApiOrderType(s.orderType);
    var sendContact := orderType != DineIn;
    CreateOrderRequest(
      outletId,
      orderType,
      seq(|s.cart|, i requires 0 <= i < |s.cart| => ItemRequest(s.cart[i])),
      s.tableId,
      s.tableNumber,
      s.sessionId,
      if Truthy(s.tableId) || Truthy(s.tableNumber) then Some(TableRef(s.tableId, s.tableNumber)) else None,
      if sendContact then NonBlank(name) else None,
      if sendContact then NonBlank(phone) else None,
      if sendContact then NonBlank(email) else None,
      NonBlank(instructions))
  }

  /** The order type is dine-in exactly for a dine-in session and is never
      delivery: a delivery session is sent as takeaway. Contact fields are
      sent only when the order is not dine-in, each trimmed or absent when
      blank; the instructions likewise, whatever the order type. */
  lemma RequestTypeAndContact(s: AppState, outletId: string, name: string, phone: string, email: string, instructions: string)
    ensures var r := BuildOrderRequest(s, outletId, name, phone, email, instructions);
      && (r.orderType == DineIn <==> s.orderType == DineIn)
      && r.orderType != Delivery
      && (s.orderType == Delivery ==> r.orderType == Takeaway)
      && (s.orderType == DineIn ==> r.customerName.None? && r.customerPhone.None? && r.customerEmail.None?)
      && (s.orderType != DineIn ==> r.customerName == NonBlank(name) && r.customerPhone == NonBlank(phone) && r.customerEmail == NonBlank(email))
      && r.specialInstructions == NonBlank(instructions)
      && r.outletId == outletId
  {
  }

  /** The items are the cart's lines one to one, in cart order, with the same
      menu item, quantity, variant and instructions, and each addon's id and
      count in order. */
  lemma RequestItemsMatchCart(s: AppState, outletId: string, name: string, phone: string, email: string, instructions: string)
    ensures var items := BuildOrderRequest(s, outletId, name, phone, email, instructions).items;
      && |items| == |s.cart|
      && forall i :: 0 <= i < |s.cart| ==>
           && items[i].menuItemId == s.cart[i].menuItemId
           && items[i].quantity == s.cart[i].quantity
           && items[i].variantId == s.cart[i].variantId
           && items[i].specialInstructions == s.cart[i].specialInstructions
           && (items[i].addons.Some? <==> s.cart[i].addons.Some?)
           && (items[i].addons.Some? ==>
                 |items[i].addons.value| == |s.cart[i].addons.value|
                 && forall k :: 0 <= k < |items[i].addons.value| ==>
                      items[i].addons.value[k] == OrderAddonRequest(s.cart[i].addons.value[k].addonId, s.cart[i].addons.value[k].quantity))
  {
  }

  /** The table reference is sent when the session has a non-empty table id
      or table number, and then carries both. */
  lemma RequestTableRef(s: AppState, outletId: string, name: string, phone: string, email: string, instructions: string)
    ensures var r := BuildOrderRequest(s, outletId, name, phone, email, instructions);
      && r.tableId == s.tableId && r.tableNumber == s.tableNumber && r.sessionId == s.sessionId
      && (r.qrContext.Some? <==> Truthy(s.tableId) || Truthy(s.tableNumber))
      && (r.qrContext.Some? ==> r.qrContext.value == TableRef(s.tableId, s.tableNumber))
  {
  }

  /** The current order recorded right after placing: its fields from the
      response, `updatedAt` equal to `createdAt`, and no items, outlet, table or
      contact details. */
  function MinimalOrder(o: CreatedOrder): (r: Order)
    ensures r.id == o.id && r.orderNumber == o.orderNumber && r.status == o.status && r.totalAmount == o.totalAmount
    ensures r.updatedAt == r.createdAt == o.createdAt && r.items == []
  {
    Order(o.id, o.orderNumber, o.status, o.totalAmount, o.orderType, None, None, None, [], None, None, o.createdAt, o.createdAt)
  }

  /** The actions a successful order dispatches, in order; `placedLabel` is
      the translated "order placed" text and `notificationId` the fresh id. */
  function OrderPlacedActions(o: CreatedOrder, placedLabel: string, notificationId: string): seq<Action> {
    [ ClearCart,
      SetCurrentOrderId(Some(o.id)),
      SetOrder(Some(MinimalOrder(o))),
      AddNotification(notificationId, placedLabel + " #" + o.orderNumber, Some(o.id)),
      OrderStatusPopup(Some(o.status)) ]
  }

  /** The state after dispatching `actions` in order. */
  function ReduceAll(s: AppState, actions: seq<Action>): AppState
    decreases |actions|
  {
    if actions == [] then s else ReduceAll(Reduce(s, actions[0]), actions[1..])
  }

  /** Dispatching five actions one after another. */
  lemma ReduceAllFive(s: AppState, acts: seq<Action>)
    requires |acts| == 5
    ensures ReduceAll(s, acts) == Reduce(Reduce(Reduce(Reduce(Reduce(s, acts[0]), acts[1]), acts[2]), acts[3]), acts[4])
  {
    var t1 := acts[1..];
    var t2 := t1[1..];
    var t3 := t2[1..];
    var t4 := t3[1..];
    assert t1[0] == acts[1] && t2[0] == acts[2] && t3[0] == acts[3] && t4[0] == acts[4] && t4[1..] == [];
    var s1 := Reduce(s, acts[0]);
    var s2 := Reduce(s1, acts[1]);
    var s3 := Reduce(s2, acts[2]);
    var s4 := Reduce(s3, acts[3]);
    assert ReduceAll(s4, t4) == Reduce(s4, acts[4]);
    assert ReduceAll(s3, t3) == ReduceAll(s4, t4);
    assert ReduceAll(s2, t2) == ReduceAll(s3, t3);
    assert ReduceAll(s1, t1) == ReduceAll(s2, t2);
  }

  /** After a successful order: the cart is empty, the current order id is the
      new order's, the current order is its minimal record, exactly one
      notification (unread, about this order) is added in front, the status
      popup shows its status, and the session (scan context, outlet, table,
      order type) is unchanged. */
  lemma OrderPlacedEffect(s: AppState, o: CreatedOrder, placedLabel: string, notificationId: string)
    ensures var r := ReduceAll(s, OrderPlacedActions(o, placedLabel, notificationId));
      && r.cart == []
      && r.currentOrderId == Some(o.id)
      && r.currentOrder == Some(MinimalOrder(o))
      && r.orderStatusPopup == Some(o.status)
      && r.notifications == PushNotification(s.notifications, Notification(notificationId, placedLabel + " #" + o.orderNumber, Some(o.id), false))
      && |r.notifications| == (if |s.notifications| < NotificationCap then |s.notifications| + 1 else NotificationCap)
      && r.notifications[0] == Notification(notificationId, placedLabel + " #" + o.orderNumber, Some(o.id), false)
      && r.qrContext == s.qrContext && r.outlet == s.outlet && r.tableId == s.tableId
      && r.tableNumber == s.tableNumber && r.sessionId == s.sessionId && r.orderType == s.orderType
  {
    var acts := OrderPlacedActions(o, placedLabel, notificationId);
    var s3 := Reduce(Reduce(Reduce(s, acts[0]), acts[1]), acts[2]);
    ReduceAllFive(s, acts);
    AddNotificationEffect(s3, notificationId, placedLabel + " #" + o.orderNumber, Some(o.id));
  }

  /** The page's state cells, over the session store. `requests` lists the
      order requests sent. */
  class Page {
    const store: Store
    var customerName: string
    var customerPhone: string
    var customerEmail: string
    var specialInstructions: string
    var error: Option<UiError>
    var showConfirm: bool
    var requests: seq<CreateOrderRequest>

    constructor (store: Store)
      ensures this.store == store && error.None? && !showConfirm && requests == []
      ensures customerName == "" && customerPhone == "" && customerEmail == "" && specialInstructions == ""
    {
      this.store := store;
      customerName, customerPhone, customerEmail, specialInstructions := "", "", "", "";
      error := None;
      showConfirm := false;
      requests := [];
    }

    /** The minus and plus buttons of line `index`. */
    method UpdateQty(index: nat, delta: int)
      requires index < |store.state.cart|
      modifies store
      ensures store.state == Reduce(old(store.state), QtyAction(old(store.state.cart), index, delta))
    {
      var item := store.state.cart[index];
      var newQty := item.quantity + delta;
      if newQty < 1 {
        store.Dispatch(RemoveFromCart(index));
        return;
      }
      store.Dispatch(UpdateCartItem(index, QuantityPatch(newQty)));
    }

    method RemoveItem(index: nat)
      modifies store
      ensures store.state == Reduce(old(store.state), RemoveFromCart(index))
    {
      store.Dispatch(RemoveFromCart(index));
    }

    /** `handlePlaceOrderClick`. */
    method PlaceOrderClicked()
      modifies this
      ensures var outcome := PlaceOrderClick(store.state, customerPhone);
        && (outcome == Ignored ==> error == old(error) && showConfirm == old(showConfirm))
        && (outcome == NeedsPhone ==> error == Some(PhoneRequired) && showConfirm == old(showConfirm))
        && (outcome == Confirm ==> error.None? && showConfirm)
      ensures requests == old(requests) && customerPhone == old(customerPhone)
      ensures customerName == old(customerName) && customerEmail == old(customerEmail)
      ensures specialInstructions == old(specialInstructions)
    {
      var outletId := OutletId(store.state);
      if !Truthy(outletId) || |store.state.cart| == 0 {
        return;
      }
      error := None;
      if store.state.orderType == Takeaway {
        var phone := Trim(customerPhone);
        if phone == [] {
          error := Some(PhoneRequired);
          return;
        }
      }
      showConfirm := true;
    }

    /** The dispatches of a successful order, in the page's order. */
    method OrderPlaced(o: CreatedOrder, placedLabel: string, notificationId: string)
      modifies store
      ensures store.state == ReduceAll(old(store.state), OrderPlacedActions(o, placedLabel, notificationId))
    {
      store.Dispatch(ClearCart);
      store.Dispatch(SetCurrentOrderId(Some(o.id)));
      store.Dispatch(SetOrder(Some(MinimalOrder(o))));
      store.AddNotificationWithId(placedLabel + " #" + o.orderNumber, Some(o.id), notificationId);
      store.ShowOrderStatusPopup(o.status);
      ReduceAllFive(old(store.state), OrderPlacedActions(o, placedLabel, notificationId));
    }

    /** The request is sent and its outcome applied: on success the order is
        placed, on failure the thrown message (or the generic error) is shown;
        the confirmation closes either way. */
    method Submit(payload: CreateOrderRequest, result: Remote<CreateOrderResponse>, placedLabel: string, notificationId: string)
      modifies this, store
      ensures requests == old(requests) + [payload] && !showConfirm
      ensures result.Ok? ==>
        store.state == ReduceAll(old(store.state), OrderPlacedActions(result.value.order, placedLabel, notificationId))
        && error.None?
      ensures result.Thrown? ==>
        store.state == old(store.state)
        && error == Some(if result.message.Some? then Raw(result.message.value) else GenericError)
      ensures customerName == old(customerName) && customerPhone == old(customerPhone)
      ensures customerEmail == old(customerEmail) && specialInstructions == old(specialInstructions)
    {
      error := None;
      requests := requests + [payload];
      match result
      case Ok(res) =>
        OrderPlaced(res.order, placedLabel, notificationId);
        showConfirm := false;
      case Thrown(message) =>
        error := Some(if message.Some? then Raw(message.value) else GenericError);
        showConfirm := false;
    }

    /** `handleConfirmOrder`, with `result` the order call's outcome,
        `placedLabel` the translated "order placed" text and `notificationId`
        the fresh notification id: nothing without an outlet id or with an
        empty cart; the no-outlet error when the outlet id is not a UUID;
        otherwise the request built from the form and the cart is sent.
        Returns the request sent, if any. */
    method ConfirmOrder(result: Remote<CreateOrderResponse>, placedLabel: string, notificationId: string)
      returns (sent: Option<CreateOrderRequest>)
      modifies this, store
      ensures var s := old(store.state);
        !Truthy(OutletId(s)) || s.cart == [] ==>
          sent.None? && store.state == s && error == old(error) && showConfirm == old(showConfirm)
      ensures var s := old(store.state);
        Truthy(OutletId(s)) && s.cart != [] && !IsUuid(OutletId(s)) ==>
          sent.None? && store.state == s && error == Some(NoOutlet) && showConfirm == old(showConfirm)
      ensures var s := old(store.state);
        Truthy(OutletId(s)) && s.cart != [] && IsUuid(OutletId(s)) ==>
          && sent == Some(BuildOrderRequest(s, OutletId(s).value, customerName, customerPhone, customerEmail, specialInstructions))
          && !showConfirm
          && (result.Ok? ==>
                store.state == ReduceAll(s, OrderPlacedActions(result.value.order, placedLabel, notificationId))
                && error.None?)
          && (result.Thrown? ==>
                store.state == s
                && error == Some(if result.message.Some? then Raw(result.message.value) else GenericError))
      ensures requests == old(requests) + (if sent.Some? then [sent.value] else [])
      ensures customerName == old(customerName) && customerPhone == old(customerPhone)
      ensures customerEmail == old(customerEmail) && specialInstructions == old(specialInstructions)
    {
      var outletId := OutletId(store.state);
      if !Truthy(outletId) || |store.state.cart| == 0 {
        return None;
      }
      var valid := IsUuid(outletId);
      if !valid {
        error := Some(NoOutlet);
        return None;
      }
      var payload := BuildOrderRequest(store.state, outletId.value, customerName, customerPhone, customerEmail, specialInstructions);
      Submit(payload, result, placedLabel, notificationId);
      sent := Some(payload);
    }
  }
}
