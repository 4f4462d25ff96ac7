/** The add-to-cart sheet for one menu item: a quantity, a variant choice, a
    count per addon and free-text instructions, from which it builds one cart
    line and shows its total. */
module AddToCartModal {
  import opened Types
  import opened Text
  import opened AppContext
  import CartMath

  /** `qtys[id] ?? 0` */
  function Qty(qtys: map<string, int>, id: string): int {
    if id in qtys then qtys[id] else 0
  }

  /** The cart addon for menu addon `a`: its price defaults to 0. */
  function AddonEntry(a: MenuAddon, qtys: map<string, int>): CartAddon {
    CartAddon(a.id, a.name, Qty(qtys, a.id), a.price.GetOr(0))
  }

  /** `addonList`: the item's addons in menu order, keeping only those whose
      count is positive. It is empty exactly when no count is positive. */
  function SelectedAddons(addons: seq<MenuAddon>, qtys: map<string, int>): (r: seq<CartAddon>)
    ensures |r| <= |addons|
    ensures forall i :: 0 <= i < |r| ==> r[i].quantity > 0
    ensures r == [] <==> forall j :: 0 <= j < |addons| ==> Qty(qtys, addons[j].id) <= 0
  {
    if addons == [] then []
    else
      var rest := SelectedAddons(addons[1..], qtys);
      if Qty(qtys, addons[0].id) > 0 then [AddonEntry(addons[0], qtys)] + rest
      else
        assert forall j :: 1 <= j < |addons| ==> addons[j] == addons[1..][j - 1];
        rest
  }

  /** The selection keeps menu order: selecting over two runs of addons is
      selecting over each and joining the results. */
  lemma {:induction false} SelectedAddonsAppend(a: seq<MenuAddon>, b: seq<MenuAddon>, qtys: map<string, int>)
    ensures SelectedAddons(a + b, qtys) == SelectedAddons(a, qtys) + SelectedAddons(b, qtys)
    decreases |a|
  {
    if a == [] {
      assert a + b == b;
    } else {
      assert (a + b)[0] == a[0] && (a + b)[1..] == a[1..] + b;
      SelectedAddonsAppend(a[1..], b, qtys);
    }
  }

  /** The positions, from `from` on, of the addons whose count is positive,
      in increasing order. */
  function PositiveIndices(addons: seq<MenuAddon>, qtys: map<string, int>, from: nat): (idx: seq<nat>)
    requires from <= |addons|
    ensures forall i :: 0 <= i < |idx| ==> from <= idx[i] < |addons|
    decreases |addons| - from
  {
    if from == |addons| then []
    else
      var rest := PositiveIndices(addons, qtys, from + 1);
      if Qty(qtys, addons[from].id) > 0 then [from] + rest else rest
  }

  /** `PositiveIndices` lists, in strictly increasing order, exactly the
      positions from `from` on whose count is positive. */
  lemma {:induction false} PositiveIndicesExact(addons: seq<MenuAddon>, qtys: map<string, int>, from: nat)
    requires from <= |addons|
    ensures var idx := PositiveIndices(addons, qtys, from);
      && (forall i, k :: 0 <= i < k < |idx| ==> idx[i] < idx[k])
      && (forall j :: from <= j < |addons| ==> (j in idx <==> Qty(qtys, addons[j].id) > 0))
    decreases |addons| - from
  {
    if from < |addons| {
      PositiveIndicesExact(addons, qtys, from + 1);
    }
  }

  /** The selection from position `from` on is the addon entry of each
      positive position, in order. */
  lemma {:induction false} SelectedAddonsFrom(addons: seq<MenuAddon>, qtys: map<string, int>, from: nat)
    requires from <= |addons|
    ensures var r, idx := SelectedAddons(addons[from..], qtys), PositiveIndices(addons, qtys, from);
      && |r| == |idx|
      && forall i :: 0 <= i < |r| ==> r[i] == AddonEntry(addons[idx[i]], qtys)
    decreases |addons| - from
  {
    if from < |addons| {
      SelectedAddonsFrom(addons, qtys, from + 1);
      assert addons[from..][0] == addons[from] && addons[from..][1..] == addons[from + 1..];
    }
  }

  /** `addonList` element by element: the i-th selected addon is the entry of
      the i-th addon (in menu order) whose count is positive, and every such
      addon is selected. */
  lemma SelectedAddonsContents(addons: seq<MenuAddon>, qtys: map<string, int>)
    ensures var r, idx := SelectedAddons(addons, qtys), PositiveIndices(addons, qtys, 0);
      && |r| == |idx|
      && (forall i :: 0 <= i < |r| ==> r[i] == AddonEntry(addons[idx[i]], qtys))
      && (forall i, k :: 0 <= i < k < |idx| ==> idx[i] < idx[k])
      && (forall j :: 0 <= j < |addons| ==> (j in idx <==> Qty(qtys, addons[j].id) > 0))
  {
    SelectedAddonsFrom(addons, qtys, 0);
    PositiveIndicesExact(addons, qtys, 0);
    assert addons[0..] == addons;
  }

  /** The addon ids of a selection. */
  function SelectedIds(list: seq<CartAddon>): seq<string> {
    seq(|list|, i requires 0 <= i < |list| => list[i].addonId)
  }

  /** Two count maps that agree on which addons are positive select the same
      addon ids in the same order, whatever the counts: lines built from them
      share a merge key. */
  lemma {:induction false} SameChoiceSameIds(addons: seq<MenuAddon>, q1: map<string, int>, q2: map<string, int>)
    requires forall j :: 0 <= j < |addons| ==> (Qty(q1, addons[j].id) > 0 <==> Qty(q2, addons[j].id) > 0)
    ensures SelectedIds(SelectedAddons(addons, q1)) == SelectedIds(SelectedAddons(addons, q2))
    decreases |addons|
  {
    if addons != [] {
      SameChoiceSameIds(addons[1..], q1, q2);
      var a := addons[0];
      var r1, r2 := SelectedAddons(addons[1..], q1), SelectedAddons(addons[1..], q2);
      if Qty(q1, a.id) > 0 {
        assert SelectedIds([AddonEntry(a, q1)] + r1) == [a.id] + SelectedIds(r1);
        assert SelectedIds([AddonEntry(a, q2)] + r2) == [a.id] + SelectedIds(r2);
      }
    }
  }

  function AddonIdSet(addons: seq<MenuAddon>): set<string> {
    set j | 0 <= j < |addons| :: addons[j].id
  }

  /** The initial counts: 0 for every addon of the item. */
  function InitialCounts(addons: seq<MenuAddon>): (r: map<string, int>)
    ensures forall j :: 0 <= j < |addons| ==> addons[j].id in r
    ensures forall id :: id in r ==> r[id] == 0
  {
    map id | id in AddonIdSet(addons) :: 0
  }

  /** With the initial counts no addon is selected. */
  lemma NothingSelectedInitially(addons: seq<MenuAddon>)
    ensures SelectedAddons(addons, InitialCounts(addons)) == []
  {
  }

  /** The price a variant choice sets: the variant's own, else the item's, else 0. */
  function VariantPrice(v: MenuVariant, item: MenuItemSummary): int {
    v.price.GetOr(item.price.GetOr(0))
  }

  /** `basePrice`: the chosen variant's price when one is set, else the item's
      price, else 0. */
  function BasePriceOf(variantPrice: Option<int>, item: MenuItemSummary): int {
    variantPrice.GetOr(item.price.GetOr(0))
  }

  /** Choosing a variant makes the base price follow the same rule as the
      preselection: variant price, else item price, else 0. */
  lemma ChosenVariantPrice(v: MenuVariant, item: MenuItemSummary)
    ensures BasePriceOf(Some(VariantPrice(v, item)), item)
         == if v.price.Some? then v.price.value else if item.price.Some? then item.price.value else 0
  {
  }

  /** `lineTotal`: base price times quantity plus each selected addon's price
      times its count. */
  function ModalLineTotal(basePrice: int, quantity: int, selected: seq<CartAddon>): int {
    basePrice * quantity + CartMath.AddonSum(selected)
  }

  /** `handleAdd`'s record: no addons field when none is selected, and the
      trimmed instructions, or none when they are blank. */
  function ModalLine(item: MenuItemSummary, quantity: int, variantId: Option<string>, variantName: Option<string>,
                     basePrice: int, instructions: string, selected: seq<CartAddon>): (r: CartItem)
    ensures r.addons.None? <==> selected == []
    ensures r.addons.Some? ==> r.addons.value == selected
    ensures r.specialInstructions.None? <==> Blank(instructions)
    ensures r.specialInstructions.Some? ==>
      (r.specialInstructions.value == Trim(instructions)
       && !IsSpace(r.specialInstructions.value[0]) && !IsSpace(r.specialInstructions.value[|r.specialInstructions.value| - 1]))
  {
    CartItem(
      item.id, item.name, quantity, basePrice, variantId, variantName,
      if Trim(instructions) == [] then None else Some(Trim(instructions)),
      if |selected| > 0 then Some(selected) else None)
  }

  /** The total the sheet shows is the total the cart page computes for the
      line it adds. */
  lemma ModalTotalIsCartTotal(item: MenuItemSummary, quantity: int, variantId: Option<string>, variantName: Option<string>,
                              basePrice: int, instructions: string, selected: seq<CartAddon>)
    ensures ModalLineTotal(basePrice, quantity, selected)
         == CartMath.LineTotal(ModalLine(item, quantity, variantId, variantName, basePrice, instructions, selected))
  {
  }

  /** Add is enabled unless the item has variants and no variant id is set;
      an empty variant id counts as none. */
  predicate AddAllowed(item: MenuItemSummary, variantId: Option<string>) {
    !(|item.variants.GetOr([])| > 0 && !Truthy(variantId))
  }

  /** The sheet's state cells. */
  class Modal {
    const item: MenuItemSummary
    var quantity: int
    var variantId: Option<string>
    var variantName: Option<string>
    var variantPrice: Option<int>
    var addonQtys: map<string, int>
    var specialInstructions: string

    /** The quantity is at least 1 and no addon count is negative. */
    predicate Valid()
      reads this
    {
      quantity >= 1 && forall id :: id in addonQtys ==> addonQtys[id] >= 0
    }

    function BasePrice(): int
      reads this
    {
      BasePriceOf(variantPrice, item)
    }

    function AddonList(): seq<CartAddon>
      reads this
    {
      SelectedAddons(item.addons.GetOr([]), addonQtys)
    }

    function LineTotal(): int
      reads this
    {
      ModalLineTotal(BasePrice(), quantity, AddonList())
    }

    predicate AddEnabled()
      reads this
    {
      AddAllowed(item, variantId)
    }

    /** The sheet as it first shows: one unit, every addon at 0, no
        instructions, and the first variant (if any) selected with its price. */
    constructor (item: MenuItemSummary)
      ensures this.item == item && Valid()
      ensures quantity == 1 && specialInstructions == ""
      ensures addonQtys == InitialCounts(item.addons.GetOr([])) && AddonList() == []
      ensures var vs := item.variants.GetOr([]);
        if |vs| > 0 then
          variantId == Some(vs[0].id) && variantName == Some(vs[0].name) && variantPrice == Some(VariantPrice(vs[0], item))
        else
          variantId.None? && variantName.None? && variantPrice.None?
      ensures AddEnabled() <==> |item.variants.GetOr([])| == 0 || item.variants.value[0].id != ""
    {
      this.item := item;
      quantity := 1;
      addonQtys := InitialCounts(item.addons.GetOr([]));
      specialInstructions := "";
      var vs := item.variants.GetOr([]);
      if |vs| > 0 {
        variantId := Some(vs[0].id);
        variantName := Some(vs[0].name);
        variantPrice := Some(VariantPrice(vs[0], item));
      } else {
        variantId := None;
        variantName := None;
        variantPrice := None;
      }
      NothingSelectedInitially(item.addons.GetOr([]));
    }

    /** Choosing variant `v`. */
    method SelectVariant(v: MenuVariant)
      modifies this
      ensures variantId == Some(v.id) && variantName == Some(v.name) && variantPrice == Some(VariantPrice(v, item))
      ensures quantity == old(quantity) && addonQtys == old(addonQtys) && specialInstructions == old(specialInstructions)
      ensures BasePrice() == VariantPrice(v, item)
    {
      variantId := Some(v.id);
      variantName := Some(v.name);
      variantPrice := Some(VariantPrice(v, item));
    }

    /** `setAddonQty(id, delta)`: the count becomes max(0, count + delta); no
        other count changes. */
    method SetAddonQty(addonId: string, delta: int)
      requires Valid()
      modifies this
      ensures Valid()
      ensures addonQtys == old(addonQtys)[addonId := if Qty(old(addonQtys), addonId) + delta < 0 then 0 else Qty(old(addonQtys), addonId) + delta]
      ensures forall id :: id != addonId ==> Qty(addonQtys, id) == Qty(old(addonQtys), id)
      ensures quantity == old(quantity) && variantId == old(variantId) && variantPrice == old(variantPrice)
      ensures variantName == old(variantName) && specialInstructions == old(specialInstructions)
    {
      var current := Qty(addonQtys, addonId);
      var next := if current + delta < 0 then 0 else current + delta;
      addonQtys := addonQtys[addonId := next];
    }

    /** The minus button: the quantity never goes below 1. */
    method DecrementQuantity()
      requires Valid()
      modifies this
      ensures Valid()
      ensures quantity == if old(quantity) - 1 < 1 then 1 else old(quantity) - 1
      ensures addonQtys == old(addonQtys) && variantId == old(variantId) && variantPrice == old(variantPrice)
      ensures variantName == old(variantName) && specialInstructions == old(specialInstructions)
    {
      quantity := if quantity - 1 < 1 then 1 else quantity - 1;
    }

    method IncrementQuantity()
      requires Valid()
      modifies this
      ensures Valid() && quantity == old(quantity) + 1
      ensures addonQtys == old(addonQtys) && variantId == old(variantId) && variantPrice == old(variantPrice)
      ensures variantName == old(variantName) && specialInstructions == old(specialInstructions)
    {
      quantity := quantity + 1;
    }

    method SetSpecialInstructions(text: string)
      modifies this
      ensures specialInstructions == text
      ensures quantity == old(quantity) && addonQtys == old(addonQtys) && variantId == old(variantId) && variantPrice == old(variantPrice)
      ensures variantName == old(variantName)
    {
      specialInstructions := text;
    }

    /** `handleAdd`: the line handed to the page, whose total on the cart page
        is the total the sheet shows. */
    method HandleAdd() returns (line: CartItem)
      ensures line == ModalLine(item, quantity, variantId, variantName, BasePrice(), specialInstructions, AddonList())
      ensures line.quantity == quantity && line.unitPrice == BasePrice() && line.variantId == variantId
      ensures CartMath.LineTotal(line) == LineTotal()
    {
      var selected := AddonList();
      line := CartItem(
        item.id, item.name, quantity, BasePrice(), variantId, variantName,
        if Trim(specialInstructions) == [] then None else Some(Trim(specialInstructions)),
        if |selected| > 0 then Some(selected) else None);
      ModalTotalIsCartTotal(item, quantity, variantId, variantName, BasePrice(), specialInstructions, selected);
    }
  }
}
