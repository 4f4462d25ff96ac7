/** The records of the public customer API and of the local cart, as the client
    sees them. Prices and amounts are integers in minor currency units; a field
    that may be absent (`?:`) or `null` is an `Option`. */
module Types {

  datatype Option<+T> = None | Some(value: T) {
    /** `x ?? d` */
    function GetOr(d: T): T {
      match this
      case Some(v) => v
      case None => d
    }
  }

  /** The outcome of a call into the remote API: its value, or the thrown
      exception's message (`None` when what was thrown is not an `Error`). */
  datatype Remote<+T> = Ok(value: T) | Thrown(message: Option<string>)

  /** JavaScript truthiness of an optional string: absent and `""` are falsy. */
  predicate Truthy(s: Option<string>) {
    s.Some? && s.value != ""
  }

  datatype OrderType = DineIn | Takeaway | Delivery

  datatype OrderStatus = Pending | Confirmed | Preparing | Ready | Served | Completed | Cancelled

  /** The session context inside a scan response. `scanMode` is declared as
      'dine-in' | 'takeaway'; the client only ever compares it with 'takeaway'. */
  datatype QRContext = QRContext(
    outletId: string,
    outletType: string,
    tableNumber: Option<string>,
    tableId: Option<string>,
    scanMode: string,
    sessionId: string,
    currency: string,
    country: string,
    language: string)

  datatype TableInfo = TableInfo(id: string, tableNumber: string, tableName: Option<string>)

  datatype OutletInfo = OutletInfo(id: string, name: string, address: Option<string>, phone: Option<string>)

  /** Result of `GET /scan/{code}`. */
  datatype QRContextResponse = QRContextResponse(
    status: string,
    qrContext: Option<QRContext>,
    table: Option<TableInfo>,
    outlet: Option<OutletInfo>)

  datatype MenuVariant = MenuVariant(id: string, name: string, price: Option<int>)

  datatype MenuAddon = MenuAddon(id: string, name: string, price: Option<int>)

  datatype MenuItemSummary = MenuItemSummary(
    id: string,
    name: string,
    description: Option<string>,
    price: Option<int>,
    imageUrl: Option<string>,
    isVeg: Option<bool>,
    variants: Option<seq<MenuVariant>>,
    addons: Option<seq<MenuAddon>>)

  datatype MenuCategory = MenuCategory(id: string, name: string, items: Option<seq<MenuItemSummary>>)

  /** A menu as the menu page receives it: categories, or a flat item list. */
  datatype MenuInfo = MenuInfo(categories: Option<seq<MenuCategory>>, items: Option<seq<MenuItemSummary>>)

  /** `c.items ?? []` */
  function CategoryItems(c: MenuCategory): seq<MenuItemSummary> {
    c.items.GetOr([])
  }

  /** `categories.flatMap(c => c.items ?? [])` */
  function FlatItems(cats: seq<MenuCategory>): (r: seq<MenuItemSummary>)
  {
    if cats == [] then [] else CategoryItems(cats[0]) + FlatItems(cats[1..])
  }

  /** Flattening distributes over concatenation of category lists, so the items
      of earlier categories come first, in order. */
  lemma {:induction false} FlatItemsAppend(a: seq<MenuCategory>, b: seq<MenuCategory>)
    ensures FlatItems(a + b) == FlatItems(a) + FlatItems(b)
    decreases |a|
  {
    if a == [] {
      assert a + b == b;
    } else {
      assert (a + b)[1..] == a[1..] + b;
      FlatItemsAppend(a[1..], b);
    }
  }

  /** An addon chosen for a cart line. */
  datatype CartAddon = CartAddon(addonId: string, name: string, quantity: int, price: int)

  /** A cart line (local state). */
  datatype CartItem = CartItem(
    menuItemId: string,
    menuItemName: string,
    quantity: int,
    unitPrice: int,
    variantId: Option<string>,
    variantName: Option<string>,
    specialInstructions: Option<string>,
    addons: Option<seq<CartAddon>>)

  datatype OrderAddonRequest = OrderAddonRequest(addonId: string, quantity: int)

  datatype OrderItemRequest = OrderItemRequest(
    menuItemId: string,
    quantity: int,
    variantId: Option<string>,
    specialInstructions: Option<string>,
    addons: Option<seq<OrderAddonRequest>>)

  datatype TableRef = TableRef(tableId: Option<string>, tableNumber: Option<string>)

  /** Body of `POST /orders`; absent fields are the ones `JSON.stringify` drops. */
  datatype CreateOrderRequest = CreateOrderRequest(
    outletId: string,
    orderType: OrderType,
    items: seq<OrderItemRequest>,
    tableId: Option<string>,
    tableNumber: Option<string>,
    sessionId: Option<string>,
    qrContext: Option<TableRef>,
    customerName: Option<string>,
    customerPhone: Option<string>,
    customerEmail: Option<string>,
    specialInstructions: Option<string>)

  datatype CreatedOrder = CreatedOrder(
    id: string,
    orderNumber: string,
    status: OrderStatus,
    totalAmount: int,
    orderType: string,
    tableNumber: Option<string>,
    tableId: Option<string>,
    createdAt: string,
    estimatedTime: Option<int>)

  datatype CreateOrderResponse = CreateOrderResponse(success: bool, message: Option<string>, order: CreatedOrder)

  datatype OrderItemDetail = OrderItemDetail(
    id: string,
    quantity: int,
    unitPrice: int,
    totalPrice: int,
    specialInstructions: Option<string>)

  datatype OrderOutlet = OrderOutlet(name: string, address: string)

  datatype OrderTable = OrderTable(tableNumber: string, tableName: string)

  /** An order as `GET /orders/{id}` returns it; the session keeps one as its current order. */
  datatype Order = Order(
    id: string,
    orderNumber: string,
    status: OrderStatus,
    totalAmount: int,
    orderType: string,
    customerName: Option<string>,
    customerPhone: Option<string>,
    specialInstructions: Option<string>,
    items: seq<OrderItemDetail>,
    outlet: Option<OrderOutlet>,
    table: Option<OrderTable>,
    createdAt: string,
    updatedAt: string)
}
