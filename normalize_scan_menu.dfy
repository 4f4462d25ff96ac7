/** The scan API's menu, whose categories and items carry `categoryId` and
    `itemId` and may lack any field, turned into the menu shape the pages use:
    every id and name present, descriptions and images null when absent,
    variant and addon lists always present, and the items of all categories
    also given as one flat list. */
module NormalizeScanMenu {
  import opened Types

  /** An item as the scan API sends it. `available`, `tax` and `tags` are not
      read by the normaliser and are not modelled. */
  datatype ScanMenuItem = ScanMenuItem(
    itemId: Option<string>,
    name: Option<string>,
    description: Option<string>,
    imageUrl: Option<string>,
    isVeg: Option<bool>,
    price: Option<int>,
    variants: Option<seq<MenuVariant>>,
    addons: Option<seq<MenuAddon>>)

  /** A category as the scan API sends it; `priority` is not read. */
  datatype ScanCategory = ScanCategory(categoryId: Option<string>, name: Option<string>, items: Option<seq<ScanMenuItem>>)

  /** `lastUpdated` is not read. */
  datatype ScanMenu = ScanMenu(categories: Option<seq<ScanCategory>>)

  datatype NormalizedMenu = NormalizedMenu(categories: seq<MenuCategory>, items: seq<MenuItemSummary>)

  /** One item: id and name default to '', description and image to null,
      variants and addons to []; price and the veg flag pass through. */
  function NormalizeItem(i: ScanMenuItem): (r: MenuItemSummary)
    ensures r.id == i.itemId.GetOr("") && r.name == i.name.GetOr("")
    ensures r.variants.Some? && r.addons.Some?
    ensures r.variants.value == i.variants.GetOr([]) && r.addons.value == i.addons.GetOr([])
    ensures r.price == i.price && r.isVeg == i.isVeg && r.description == i.description
  {
    MenuItemSummary(
      i.itemId.GetOr(""), i.name.GetOr(""), i.description, i.price, i.imageUrl, i.isVeg,
      Some(i.variants.GetOr([])), Some(i.addons.GetOr([])))
  }

  /** `(c.items ?? []).map(...)` */
  function NormalizeItems(items: seq<ScanMenuItem>): (r: seq<MenuItemSummary>)
    ensures |r| == |items| && forall j :: 0 <= j < |items| ==> r[j] == NormalizeItem(items[j])
  {
    seq(|items|, j requires 0 <= j < |items| => NormalizeItem(items[j]))
  }

  /** One category: id and name default to '', its items list is always present. */
  function NormalizeCategory(c: ScanCategory): (r: MenuCategory)
    ensures r.id == c.categoryId.GetOr("") && r.name == c.name.GetOr("")
    ensures r.items.Some? && |r.items.value| == |c.items.GetOr([])|
  {
    MenuCategory(c.categoryId.GetOr(""), c.name.GetOr(""), Some(NormalizeItems(c.items.GetOr([]))))
  }

  function NormalizeCategories(cats: seq<ScanCategory>): (r: seq<MenuCategory>)
    ensures |r| == |cats| && forall k :: 0 <= k < |cats| ==> r[k] == NormalizeCategory(cats[k])
  {
    seq(|cats|, k requires 0 <= k < |cats| => NormalizeCategory(cats[k]))
  }

  /** `normalizeScanMenu`: null exactly when the menu or its categories are
      missing or the category list is empty; otherwise one output category per
      input category, in order, and the flat item list. */
  function Normalize(scanMenu: Option<ScanMenu>): (r: Option<NormalizedMenu>)
    ensures r.None? <==> scanMenu.None? || scanMenu.value.categories.None? || scanMenu.value.categories.value == []
    ensures r.Some? ==> |r.value.categories| == |scanMenu.value.categories.value|
    ensures r.Some? ==> r.value.items == FlatItems(r.value.categories)
  {
    if scanMenu.None? || scanMenu.value.categories.None? || scanMenu.value.categories.value == [] then None
    else
      var categories := NormalizeCategories(scanMenu.value.categories.value);
      Some(NormalizedMenu(categories, FlatItems(categories)))
  }

  /** The items of the input categories, in order, as they arrive. */
  function ScanItems(cats: seq<ScanCategory>): seq<ScanMenuItem> {
    if cats == [] then [] else cats[0].items.GetOr([]) + ScanItems(cats[1..])
  }

  /** The number of items over all input categories, missing lists counting 0. */
  function ItemCount(cats: seq<ScanCategory>): nat {
    if cats == [] then 0 else |cats[0].items.GetOr([])| + ItemCount(cats[1..])
  }

  lemma NormalizeItemsAppend(a: seq<ScanMenuItem>, b: seq<ScanMenuItem>)
    ensures NormalizeItems(a + b) == NormalizeItems(a) + NormalizeItems(b)
  {
  }

  /** Normalising and then flattening is flattening and then normalising each
      item: the flat list holds every input item, once, in category order. */
  lemma {:induction false} FlattenThenNormalize(cats: seq<ScanCategory>)
    ensures FlatItems(NormalizeCategories(cats)) == NormalizeItems(ScanItems(cats))
    decreases |cats|
  {
    if cats != [] {
      var n := NormalizeCategories(cats);
      assert n[1..] == NormalizeCategories(cats[1..]);
      FlattenThenNormalize(cats[1..]);
      NormalizeItemsAppend(cats[0].items.GetOr([]), ScanItems(cats[1..]));
    }
  }

  lemma {:induction false} ScanItemsCount(cats: seq<ScanCategory>)
    ensures |ScanItems(cats)| == ItemCount(cats)
    decreases |cats|
  {
    if cats != [] {
      ScanItemsCount(cats[1..]);
    }
  }

  /** The flat list of a normalised menu is the input items, each normalised,
      in order, and its length is the sum of the category sizes. */
  lemma NormalizedItems(scanMenu: ScanMenu)
    requires scanMenu.categories.Some? && scanMenu.categories.value != []
    ensures var r := Normalize(Some(scanMenu));
      && r.Some?
      && r.value.items == NormalizeItems(ScanItems(scanMenu.categories.value))
      && |r.value.items| == ItemCount(scanMenu.categories.value)
  {
    FlattenThenNormalize(scanMenu.categories.value);
    ScanItemsCount(scanMenu.categories.value);
  }
}
