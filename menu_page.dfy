/** The menu page: the list of items it shows, and the cart line its add
    button puts in the cart. */
module MenuPage {
  import opened Types
  import opened AppContext
  import NormalizeScanMenu

  /** `addToCart(item, quantity)`: the item's price, or 0 without one, as the
      unit price; no variant, no addons and no instructions. The page's add
      buttons pass no quantity, which defaults to 1. */
  function MenuLine(item: MenuItemSummary, quantity: int): (r: CartItem)
    ensures r.menuItemId == item.id && r.menuItemName == item.name
    ensures r.quantity == quantity && r.unitPrice == item.price.GetOr(0)
    ensures r.variantId.None? && r.addons.None? && r.specialInstructions.None?
  {
    CartItem(item.id, item.name, quantity, item.price.GetOr(0), None, None, None, None)
  }

  /** Menu lines for the same item always share a merge key, and lines for
      different items never do. */
  lemma MenuLinesMergeByItem(a: MenuItemSummary, b: MenuItemSummary, q1: int, q2: int)
    ensures SameKey(MenuLine(a, q1), MenuLine(b, q2)) <==> a.id == b.id
  {
  }

  /** Adding the same item twice from the menu is adding it once with the
      summed quantity; on a cart without that item the result is one line. */
  lemma AddSameItemTwice(s: AppState, item: MenuItemSummary, q1: int, q2: int)
    ensures Reduce(Reduce(s, AddToCart(MenuLine(item, q1))), AddToCart(MenuLine(item, q2)))
         == Reduce(s, AddToCart(MenuLine(item, q1 + q2)))
    ensures s.cart == [] ==>
      Reduce(Reduce(s, AddToCart(MenuLine(item, q1))), AddToCart(MenuLine(item, q2))).cart == [MenuLine(item, q1 + q2)]
  {
    AddTwiceIsAddSum(s, MenuLine(item, 0), q1, q2);
    assert MenuLine(item, 0).(quantity := q1) == MenuLine(item, q1);
    assert MenuLine(item, 0).(quantity := q2) == MenuLine(item, q2);
    assert MenuLine(item, 0).(quantity := q1 + q2) == MenuLine(item, q1 + q2);
  }

  /** The page's `list`: the items of every category, in order, when there are
      categories; otherwise the top-level items; either defaults to []. */
  function DisplayedItems(menu: MenuInfo): (r: seq<MenuItemSummary>)
    ensures menu.categories.GetOr([]) == [] ==> r == menu.items.GetOr([])
  {
    var categories := menu.categories.GetOr([]);
    if |categories| > 0 then FlatItems(categories) else menu.items.GetOr([])
  }

  /** The number of items shown over a list of categories. */
  function Offset(cats: seq<MenuCategory>, k: nat): nat
    requires k <= |cats|
  {
    |FlatItems(cats[..k])|
  }

  /** Item `j` of category `k` is shown at position Offset(k) + j: the list is
      the categories' items laid end to end in category order, a category
      without an items list contributing nothing. */
  lemma DisplayedItemAt(menu: MenuInfo, k: nat, j: nat)
    requires menu.categories.Some? && k < |menu.categories.value|
    requires j < |CategoryItems(menu.categories.value[k])|
    ensures var cats := menu.categories.value;
      && Offset(cats, k) + j < |DisplayedItems(menu)|
      && DisplayedItems(menu)[Offset(cats, k) + j] == CategoryItems(cats[k])[j]
  {
    var cats := menu.categories.value;
    assert cats == cats[..k] + cats[k..];
    FlatItemsAppend(cats[..k], cats[k..]);
  }

  /** A category list split in two shows the first part's items, then the second's. */
  lemma DisplayedItemsSplit(menu: MenuInfo, k: nat)
    requires menu.categories.Some? && 0 < k <= |menu.categories.value|
    ensures var cats := menu.categories.value;
      DisplayedItems(menu) == FlatItems(cats[..k]) + FlatItems(cats[k..])
  {
    var cats := menu.categories.value;
    assert cats == cats[..k] + cats[k..];
    FlatItemsAppend(cats[..k], cats[k..]);
  }

  /** A menu produced by the scan-menu normaliser shows exactly its flat item list. */
  lemma NormalizedMenuShowsItsItems(scanMenu: Option<NormalizeScanMenu.ScanMenu>)
    requires NormalizeScanMenu.Normalize(scanMenu).Some?
    ensures var n := NormalizeScanMenu.Normalize(scanMenu).value;
      DisplayedItems(MenuInfo(Some(n.categories), Some(n.items))) == n.items
  {
  }
}
