# hotel_ui ordering client — a Dafny model of its core

hotel_ui is a browser client for ordering food in a restaurant. A guest scans or
types a table or outlet code. The client resolves it, from a local cache first
and then from the scan API, into a session: an outlet, a table, an order type
and a currency. The guest then browses the menu and fills a cart, possibly
through an add-to-cart sheet with variants, addons and instructions. From the
cart page the guest places an order.

This project models the logic under those screens:

- **`AppContext`** (`app_context.dfy`): the session store. `Reduce` is the
  reducer over all 14 actions, and the `Store` class is the provider that
  applies dispatched actions. Lemmas cover the effect of every action on the
  cart and the notifications, the merge key of ADD_TO_CART, and the invariant
  that no two cart lines share a merge key.
- **`CartMath`** and **`CartPage`** (`cart_math.dfy`, `cart_page.dfy`):
  - line totals and the subtotal, and how each cart action moves them;
  - `updateQty` and the place-order click;
  - the confirmation: the UUID check, the request body it builds, and the
    dispatches on success and on failure.
- **`AddToCartModal`** (`add_to_cart_modal.dfy`): the sheet's state cells,
  the selected-addon list, the base price rule, the line total and the line
  it hands to the page.
- **`MenuPage`** (`menu_page.dfy`): the line the menu's add button builds,
  and the list of items the page shows.
- **`AppSelectors`** (`app_selectors.dfy`): the read-only hooks of `useApp.ts`.
- **`ScanCache`** (`scan_cache.dfy`): the scan-context cache, a time-to-live
  key-value store over browser storage, with the clock as a parameter.
- **`ResolveCode`** (`resolve_code.dfy`): `resolveCode` and the retry loop for
  a code that arrives in the URL. The loop makes at most two attempts and
  carries a cancellation flag. The methods of the `CodeResolver` class are
  proved equal to the pure functions `Resolve`, `TurnAt` and `RunFrom`, and
  the lemmas are stated about those functions.
- **`NormalizeScanMenu`** (`normalize_scan_menu.dfy`): the scan API menu
  turned into the menu shape the pages use.
- **`Validation`** (`validation.dfy`): `isUuid`.
- **`Text`** (`text.dfy`): JavaScript's `trim`, which all of the above apply
  to user input.
- **`Types`** (`types.dfy`): the records of the customer API and the cart.

Prices and amounts are integers in minor currency units. Fields that are
optional or nullable are `Option`s. The outcome of each remote call is a
parameter, `Remote<T>`: either `Ok(value)` or `Thrown(message)`, where the
message is absent when what was thrown is not an `Error`. The clock, fresh
notification ids and the storage's refusal to write are parameters too.

Behaviours of the code that the model keeps and a reader may not expect:

- The merge key of ADD_TO_CART compares the addon-id LIST in order, not a
  sorted set. An absent addon list differs from an empty one
  (`src/contexts/AppContext.tsx:85-91`).
- SET_QR does not validate the outlet id. Any outlet in the response replaces
  the current one, and only an absent outlet keeps it
  (`src/contexts/AppContext.tsx:67`). The UUID check happens only when an
  order is confirmed.
- The place-order click requires a phone for takeaway only. Delivery requires
  neither a phone nor a name, and is sent to the API as takeaway
  (`src/pages/Cart.tsx:68-74`, `src/pages/Cart.tsx:85`).
- `resolveCode` itself does not look at the cancellation flag. An attempt
  that is under way when the page goes away still sets `error` and `loading`,
  caches and dispatches. Only the loop around it stops
  (`src/hooks/useResolveCode.ts:82-99`).
- A blank code makes `resolveCode` return false without setting any error
  (`src/hooks/useResolveCode.ts:43-44`).

## Model

Functions that only transcribe a source expression and carry no contract of
their own are named, in backquotes, in the row of the member whose contract
states their properties.

| member | source | states |
|---|---|---|
| Text.Trim | src/utils/validation.ts:5 | a non-empty trim has no space at either end; the trim is empty exactly when the input is all whitespace |
| Text.TrimIdempotent | src/utils/scanCache.ts:7 | trimming twice is trimming once |
| Text.TrimPadding | src/utils/scanCache.ts:7 | whitespace added around a string does not change its trim |
| Types.FlatItemsAppend | src/pages/Menu.tsx:106-108 | `FlatItems` (the flatMap over categories): flattening category lists distributes over their concatenation, so earlier categories' items come first |
| AppContext.AddonIds | src/contexts/AppContext.tsx:89-90 | the addon-id list is absent exactly when the addons are, and otherwise lists their ids in order |
| AppContext.FindMatch | src/contexts/AppContext.tsx:85-91 | the index found is the first line with the payload's merge key, or -1 when no line has it |
| AppContext.Reduce | src/contexts/AppContext.tsx:61-143 | whatever the action, a notification list within the cap of 50 stays within it |
| AppContext.AddToCartMerges | src/contexts/AppContext.tsx:85-98 | `AddLine` (the ADD_TO_CART case): when line k is the first with the payload's key, only line k changes: its quantity grows by the payload's, and its instructions, addons and price stay; the cart keeps its length and the rest of the state is unchanged |
| AppContext.AddToCartAppends | src/contexts/AppContext.tsx:100 | with no matching line, the payload is appended and nothing else changes |
| AppContext.AddToCartKeepsKeysDistinct | src/contexts/AppContext.tsx:85-100 | if no two lines share a merge key before ADD_TO_CART, none share one after it |
| AppContext.ReduceKeepsKeysDistinct | src/contexts/AppContext.tsx:61-143 | every action keeps merge keys distinct, except an UPDATE_CART_ITEM whose patch rewrites a key field |
| AppContext.AddTwiceIsAddSum | src/contexts/AppContext.tsx:85-100 | adding a line with quantity q1 and then the same line with q2 equals adding it once with q1 + q2 |
| AppContext.SameKeyIgnoresQuantity | src/contexts/AppContext.tsx:85-91 | `SameKey` (the merge key: item, variant and addon-id list): lines that differ only in quantity match the same cart line |
| AppContext.UpdateCartItemEffect | src/contexts/AppContext.tsx:102-108 | `PatchAt` (the UPDATE_CART_ITEM case): UPDATE_CART_ITEM patches only line `index`; an out-of-range index leaves the cart unchanged; the length and the rest of the state never change |
| AppContext.ApplyPatchKeeps | src/contexts/AppContext.tsx:106 | `ApplyPatch` (the object spread of the patch): fields the patch does not name keep their values; a patch without key fields keeps the merge key; an empty patch changes nothing |
| AppContext.RemoveFromCartEffect | src/contexts/AppContext.tsx:109-113 | `RemoveAt` (the index filter): REMOVE_FROM_CART with an in-range index drops exactly that line and keeps the others in order; any other index changes nothing |
| AppContext.AddNotificationEffect | src/contexts/AppContext.tsx:116-123 | `PushNotification` (prepend, then slice to 50): the entry goes in front, unread; the new length is min(old + 1, 50); at the cap the oldest entry is the one dropped |
| AppContext.MarkAllReadEffect | src/contexts/AppContext.tsx:131-135 | `MarkAllRead`: every entry becomes read; the count, order, ids, messages and order ids are kept |
| AppContext.MarkReadEffect | src/contexts/AppContext.tsx:124-130 | `MarkRead`: only the entries with the given id change, and they become read |
| AppContext.SetQrEffect | src/contexts/AppContext.tsx:63-75 | `ApplySetQr` (the SET_QR case): the outlet is the payload's, else the previous one; the table number is the context's, else the table's, else none; the order type is takeaway exactly for scan mode 'takeaway' and never delivery; cart, notifications and current order are untouched |
| AppContext.ClearAndResetEffect | src/contexts/AppContext.tsx:114-139 | CLEAR_CART empties the cart and changes nothing else; RESET_SESSION yields the initial state |
| AppContext.CartOnlyChangedByCartActions | src/contexts/AppContext.tsx:61-143 | only the cart actions and RESET_SESSION change the cart |
| AppContext.Store.constructor | src/contexts/AppContext.tsx:155 | the store starts from the initial state |
| AppContext.Store.Dispatch | src/contexts/AppContext.tsx:155 | a dispatch applies the reducer to the current state |
| AppContext.Store.AddNotificationWithId | src/contexts/AppContext.tsx:157-162 | `addNotification` puts an unread entry with the fresh id in front |
| AppContext.Store.DispatchSetQr | src/hooks/useResolveCode.ts:50 | dispatching SET_QR installs the response as `ApplySetQr` describes |
| AppContext.Store.MarkAllNotificationsReadNow | src/contexts/AppContext.tsx:164-166 | one MARK_ALL_NOTIFICATIONS_READ dispatch |
| AppContext.Store.ShowOrderStatusPopup | src/contexts/AppContext.tsx:168-170 | the popup shows the status and nothing else changes |
| AppContext.Store.CloseOrderStatusPopup | src/contexts/AppContext.tsx:172-174 | the popup closes and nothing else changes |
| CartMath.SubtotalConcat | src/pages/Cart.tsx:40-46 | `Subtotal` (the reduce over `LineTotal`, itself unit price with `AddonSum` times quantity): the subtotal, a sum of line totals, is additive over splitting the cart |
| CartMath.SubtotalReplace | src/pages/Cart.tsx:40-46 | replacing a line changes the subtotal by the difference of the two line totals |
| CartMath.SubtotalRemove | src/pages/Cart.tsx:40-46 | removing a line takes exactly its line total off the subtotal |
| CartMath.AddToCartSubtotal | src/pages/Cart.tsx:46 | ADD_TO_CART raises the subtotal by the payload's line total when it appends, but only by the matched line's unit price times the added quantity when it merges |
| CartMath.SubtotalAddLine | src/contexts/AppContext.tsx:85-100 | the same, stated on the cart after ADD_TO_CART |
| CartMath.LineTotalAddQuantity | src/pages/Cart.tsx:40-44 | adding d to a line's quantity adds unit price times d to its total |
| CartMath.LineTotalMonotoneInQuantity | src/pages/Cart.tsx:40-44 | with a non-negative price, a line's total does not fall when its quantity grows |
| CartMath.AddonSumRaise | src/pages/Cart.tsx:42 | raising one addon's count by d adds that addon's price times d |
| CartMath.LineTotalMonotoneInAddon | src/pages/Cart.tsx:40-44 | with a non-negative addon price, a line's total does not fall when that addon's count grows |
| CartPage.QuantityPatch | src/pages/Cart.tsx:56 | the patch sets the quantity alone and leaves the merge key alone |
| CartPage.QtyAction | src/pages/Cart.tsx:49-57 | `updateQty` removes the line exactly when quantity + delta is below 1 |
| CartPage.UpdateQtyEffect | src/pages/Cart.tsx:49-57 | below 1 the line is removed and the others keep their order; otherwise only that line's quantity changes, to quantity + delta; nothing but the cart changes |
| CartPage.UpdateQtySubtotal | src/pages/Cart.tsx:40-57 | after `updateQty` the subtotal grows by unit price times delta, or loses the whole line total when the line is removed |
| CartPage.PlaceOrderClick | src/pages/Cart.tsx:63-76 | with `OutletId` the page's `state.outlet?.id` (Cart.tsx:32), which has no scan-context fallback, the click is ignored exactly without an outlet id or with an empty cart; it stops for a phone exactly for takeaway with a blank phone |
| CartPage.PhoneCheckOnlyForTakeaway | src/pages/Cart.tsx:67-75 | dine-in and delivery open the confirmation whatever the phone; takeaway opens it exactly when the phone is not blank |
| CartPage.NonBlank | src/pages/Cart.tsx:102-106 | `s.trim() \|\| undefined` is absent exactly for blank text, and otherwise is the trimmed text |
| CartPage.RequestTypeAndContact | src/pages/Cart.tsx:84-107 | `BuildOrderRequest` (the request body, with `ApiOrderType` mapping the session's order type): the order type is dine-in exactly for a dine-in session and never delivery; contact fields are sent only when not dine-in, each trimmed or absent when blank; the same holds for the instructions, whatever the type |
| CartPage.RequestItemsMatchCart | src/pages/Cart.tsx:90-96 | `ItemRequest` (one line's request item): the items match the cart's lines one to one, in order, with the same item, quantity, variant, instructions and addon ids and counts |
| CartPage.RequestTableRef | src/pages/Cart.tsx:97-100 | the table reference is sent exactly when the table id or number is non-empty, and then carries both |
| CartPage.MinimalOrder | src/pages/Cart.tsx:112-126 | the recorded order has the response's id, number, status and total, `updated_at` equal to `created_at`, and no items |
| CartPage.OrderPlacedEffect | src/pages/Cart.tsx:108-129 | `OrderPlacedActions` (the five success dispatches) applied by `ReduceAll`: after success the cart is empty, the current order id and order are the new order's, exactly one unread notification about it is added in front, the popup shows its status, and the session is unchanged |
| CartPage.Page.constructor | src/pages/Cart.tsx:22-47 | the form starts empty, with no error and the confirmation closed |
| CartPage.Page.UpdateQty | src/pages/Cart.tsx:49-57 | the store applies the action `QtyAction` chooses |
| CartPage.Page.RemoveItem | src/pages/Cart.tsx:59-61 | one REMOVE_FROM_CART dispatch |
| CartPage.Page.PlaceOrderClicked | src/pages/Cart.tsx:63-76 | ignored: nothing changes; blank takeaway phone: the phone-required error; otherwise: the error cleared and the confirmation opened; the form fields and the requests sent never change |
| CartPage.Page.OrderPlaced | src/pages/Cart.tsx:110-129 | the success dispatches in the page's order |
| CartPage.Page.Submit | src/pages/Cart.tsx:108-136 | the request is sent once; success applies the order-placed actions; failure leaves the store unchanged and shows the thrown message or the generic error; the confirmation closes either way |
| CartPage.Page.ConfirmOrder | src/pages/Cart.tsx:78-137 | nothing without an outlet id or with an empty cart; a non-UUID outlet id gives the no-outlet error and sends nothing; otherwise exactly the built request is sent, with the outcomes of `Submit` |
| AddToCartModal.SelectedAddons | src/components/AddToCartModal.tsx:48-57 | the selection keeps only addons with a positive count, is no longer than the addon list, and is empty exactly when no count is positive |
| AddToCartModal.PositiveIndices | src/components/AddToCartModal.tsx:48-57 | the positions listed lie within the addon list |
| AddToCartModal.PositiveIndicesExact | src/components/AddToCartModal.tsx:48-57 | the positions are strictly increasing and are exactly those whose count is positive |
| AddToCartModal.SelectedAddonsFrom | src/components/AddToCartModal.tsx:48-57 | from any position on, the selection is the addon entry of each positive position, in order |
| AddToCartModal.SelectedAddonsContents | src/components/AddToCartModal.tsx:48-57 | the i-th selected addon is the entry (id, name, count, price or 0) of the i-th addon in menu order whose count is positive, and every addon with a positive count is selected |
| AddToCartModal.SelectedAddonsAppend | src/components/AddToCartModal.tsx:48-57 | the selection keeps menu order: selecting over two runs of addons is joining the two selections |
| AddToCartModal.SameChoiceSameIds | src/components/AddToCartModal.tsx:48-57 | counts that agree on which addons are positive select the same ids in the same order, so the lines share a merge key |
| AddToCartModal.InitialCounts | src/components/AddToCartModal.tsx:24-28 | every addon of the item starts at 0 |
| AddToCartModal.NothingSelectedInitially | src/components/AddToCartModal.tsx:24-57 | with the initial counts nothing is selected |
| AddToCartModal.ChosenVariantPrice | src/components/AddToCartModal.tsx:180-184 | `BasePriceOf` (`variantPrice ?? item.price ?? 0`, line 47, with `VariantPrice` the price stored on a choice): after a variant is chosen the base price is the variant's price, else the item's, else 0 |
| AddToCartModal.ModalLine | src/components/AddToCartModal.tsx:61-71 | addons are absent exactly when none are selected; instructions are absent exactly when blank, and otherwise trimmed |
| AddToCartModal.ModalTotalIsCartTotal | src/components/AddToCartModal.tsx:59 | `ModalLineTotal` (the sheet's total): the total the sheet shows is the cart page's line total of the line it adds |
| AddToCartModal.Modal.constructor | src/components/AddToCartModal.tsx:20-47 | with `AddAllowed` the Add button's enabled rule: quantity 1, every addon at 0 and nothing selected, no instructions; the first variant, if any, preselected with its price; Add is enabled exactly when the item has no variants or the first variant's id is non-empty |
| AddToCartModal.Modal.SelectVariant | src/components/AddToCartModal.tsx:180-184 | the chosen variant's id, name and price are set, and the base price follows them |
| AddToCartModal.Modal.SetAddonQty | src/components/AddToCartModal.tsx:76-83 | the addon's count becomes max(0, count + delta); no other count, the quantity, the variant or the instructions change |
| AddToCartModal.Modal.DecrementQuantity | src/components/AddToCartModal.tsx:248 | the quantity drops by 1 but never below 1; counts, variant and instructions are kept |
| AddToCartModal.Modal.IncrementQuantity | src/components/AddToCartModal.tsx:258 | the quantity grows by 1; counts, variant and instructions are kept |
| AddToCartModal.Modal.SetSpecialInstructions | src/components/AddToCartModal.tsx:239 | only the instructions change |
| AddToCartModal.Modal.HandleAdd | src/components/AddToCartModal.tsx:61-74 | the line handed to the page is built from the sheet's state, and its cart-page total is the sheet's total |
| MenuPage.MenuLine | src/pages/Menu.tsx:46-53 | the line has the item's id and name, the given quantity, the item's price or 0, and no variant, addons or instructions |
| MenuPage.MenuLinesMergeByItem | src/pages/Menu.tsx:46-54 | two menu lines share a merge key exactly when they are for the same item |
| MenuPage.AddSameItemTwice | src/pages/Menu.tsx:46-54 | adding the same item twice is adding it once with the summed quantity, which on a cart without it is one line |
| MenuPage.DisplayedItems | src/pages/Menu.tsx:104-108 | without categories the page shows the top-level items |
| MenuPage.DisplayedItemAt | src/pages/Menu.tsx:103-108 | item j of category k is shown right after the items of the categories before k, so categories come in order and a missing items list counts as empty |
| MenuPage.DisplayedItemsSplit | src/pages/Menu.tsx:106-108 | the shown list over split categories is the first part's items followed by the second's |
| MenuPage.NormalizedMenuShowsItsItems | src/pages/Menu.tsx:103-108 | a menu from the scan normaliser shows exactly its flat item list |
| AppSelectors.CartCount | src/hooks/useApp.ts:25-32 | the count is 0 for an empty cart and at least the number of lines when each line holds a unit |
| AppSelectors.CartCountConcat | src/hooks/useApp.ts:29 | the count, a sum of quantities, is additive over splitting the cart |
| AppSelectors.CartCountReplace | src/hooks/useApp.ts:29 | replacing a line changes the count by the difference of the quantities |
| AppSelectors.AddToCartCount | src/hooks/useApp.ts:25-32 | ADD_TO_CART raises the count by the payload quantity, whether it merges or appends |
| AppSelectors.CartCountAddLine | src/hooks/useApp.ts:29 | the same, stated on the cart after ADD_TO_CART |
| AppSelectors.RemoveFromCartCount | src/hooks/useApp.ts:25-32 | REMOVE_FROM_CART lowers the count by the removed line's quantity |
| AppSelectors.CartCountRemoveAt | src/hooks/useApp.ts:29 | the same, stated on the cart after removal |
| AppSelectors.OutletIdForOrderNeverFallsBack | src/hooks/useApp.ts:10-23 | for `OutletId` (`useOutletId`) and `OutletIdForOrder` (`useOutletIdForOrder`): with an outlet both are its id; without one the display id is the scan context's outlet id when there is a context and null otherwise, while the order id is null and never falls back |
| AppSelectors.CurrencyAfterActions | src/hooks/useApp.ts:34-38 | `Currency` (`useCurrency`): after SET_QR the currency is the new context's, or "INR" without one; after RESET_SESSION it is "INR" |
| AppSelectors.OutletIdForOrderAfterSetQr | src/hooks/useApp.ts:19-23 | SET_QR without an outlet keeps the previous order outlet id |
| ScanCache.CacheKey | src/utils/scanCache.ts:3-8 | the key is the prefix followed by the trimmed code |
| ScanCache.CacheKeySameIffSameTrim | src/utils/scanCache.ts:6-8 | two codes share a key exactly when they trim to the same text |
| ScanCache.PaddedCodesShareKey | src/utils/scanCache.ts:6-8 | codes that differ only by surrounding whitespace share one entry |
| ScanCache.CachedContext | src/utils/scanCache.ts:28-39 | a hit has a session context, and a hit happens exactly for a parsed, unexpired entry with data, a session context and a non-zero expiry |
| ScanCache.StorageAfterGet | src/utils/scanCache.ts:34-37 | a get either leaves the storage alone or removes its own key |
| ScanCache.StorageAfterSet | src/utils/scanCache.ts:45-60 | a set stores the data with expiry now + ttl under its key; a refused write changes nothing; no other key appears |
| ScanCache.SetThenGetHit | src/utils/scanCache.ts:28-55 | a get before the expiry, with any code that trims the same, returns the stored data and removes nothing |
| ScanCache.SetThenGetExpired | src/utils/scanCache.ts:34-37 | a get at or after the expiry returns nothing and removes the key |
| ScanCache.UnservableEntryMisses | src/utils/scanCache.ts:15-33 | a missing, unparseable, data-less or context-less entry, or one with a zero expiry, is a miss that changes nothing |
| ScanCache.OtherKeysUntouched | src/utils/scanCache.ts:28-60 | get and set touch only their own key |
| ScanCache.ForeignKeysUntouched | src/utils/scanCache.ts:3-8 | keys without the prefix are never touched |
| ScanCache.MissStaysMiss | src/utils/scanCache.ts:33-37 | a miss stays a miss at any other time when nothing is written in between |
| ScanCache.ScanCache.constructor | src/utils/scanCache.ts:29 | the cache wraps the given storage, which may be absent |
| ScanCache.ScanCache.Get | src/utils/scanCache.ts:28-39 | returns `CachedContext` and leaves `StorageAfterGet`; without storage returns nothing |
| ScanCache.ScanCache.Set | src/utils/scanCache.ts:45-61 | leaves `StorageAfterSet`; without storage does nothing |
| ScanCache.ScanCache.SetWithDefaultTtl | src/utils/scanCache.ts:4-55 | the default time to live is 15 minutes: the entry expires at now + 900000 |
| NormalizeScanMenu.NormalizeItem | src/utils/normalizeScanMenu.ts:39-48 | id and name default to '', variants and addons to []; price, the veg flag and the description pass through |
| NormalizeScanMenu.NormalizeItems | src/utils/normalizeScanMenu.ts:39 | one normalised item per input item, in order |
| NormalizeScanMenu.NormalizeCategory | src/utils/normalizeScanMenu.ts:36-49 | id and name default to ''; the items list is present and as long as the input's |
| NormalizeScanMenu.NormalizeCategories | src/utils/normalizeScanMenu.ts:36 | one output category per input category, in order |
| NormalizeScanMenu.Normalize | src/utils/normalizeScanMenu.ts:30-54 | null exactly when the menu or its categories are missing or empty; otherwise as many categories as the input and the flat item list |
| NormalizeScanMenu.NormalizeItemsAppend | src/utils/normalizeScanMenu.ts:39 | normalising distributes over concatenation |
| NormalizeScanMenu.FlattenThenNormalize | src/utils/normalizeScanMenu.ts:51 | flattening the normalised categories equals normalising the input items in category order |
| NormalizeScanMenu.ScanItemsCount | src/utils/normalizeScanMenu.ts:51 | the input items number the sum of the category sizes |
| NormalizeScanMenu.NormalizedItems | src/utils/normalizeScanMenu.ts:51-53 | the flat list is every input item normalised, in order, and its length is the sum of the category sizes |
| Validation.IsUuid | src/utils/validation.ts:4-6 | null and undefined are rejected; an accepted string trims to 36 characters |
| Validation.UuidLength | src/utils/validation.ts:2 | every string the pattern matches is 36 characters long |
| Validation.MatchUuidIsShape | src/utils/validation.ts:2 | `MatchGroups` (the pattern's five hex groups) against `UuidShape` (the positional description): the group pattern matches exactly the 36-character strings with '-' at 8, 13, 18 and 23 and hex digits elsewhere |
| Validation.IsUuidIffShape | src/utils/validation.ts:2-6 | `isUuid` accepts exactly the strings whose trim has that shape |
| Validation.IsUuidIgnoresPadding | src/utils/validation.ts:5 | surrounding whitespace does not change the verdict |
| Validation.Upper | src/utils/validation.ts:2 | upper-casing keeps the length and maps each character |
| Validation.IsUuidCaseInsensitive | src/utils/validation.ts:2 | upper-casing a trimmed string does not change the verdict |
| Validation.AllZeroUuidAccepted | src/utils/validation.ts:1-2 | the all-zero UUID is accepted: no version or variant digit is checked |
| Validation.ShortCodeRejected | src/utils/validation.ts:2-6 | a short table code is rejected |
| ResolveCode.Resolve | src/hooks/useResolveCode.ts:41-68 | a blank code changes nothing; otherwise `loading` ends false; the call succeeds exactly when the cache serves the trimmed code or the API answers; a failure dispatches nothing; a success clears the error and installs a context |
| ResolveCode.Lookup | src/hooks/useResolveCode.ts:47-65 | `loading` ends false and the error is set exactly on failure |
| ResolveCode.Scan | src/hooks/useResolveCode.ts:54-65 | the code is sent once; success exactly when the API answers, installing its response; failure sets the thrown message or the fallback and changes nothing else |
| ResolveCode.ResolveCacheHit | src/hooks/useResolveCode.ts:48-53 | a cache hit installs the cached response without an API call or a storage change |
| ResolveCode.ResolveRemoteSuccess | src/hooks/useResolveCode.ts:54-58 | on a miss an answer is cached under the trimmed code with the default lifetime, installed, and the call succeeds |
| ResolveCode.ResolveRemoteFailure | src/hooks/useResolveCode.ts:59-62 | on a miss a failure sets the message or the fallback, caches nothing and dispatches nothing |
| ResolveCode.RetryNeverHitsCache | src/hooks/useResolveCode.ts:48-62 | after a failure the cache cannot serve the code, so a retry goes to the API and succeeds exactly when it answers |
| ResolveCode.ResolveFailed | src/hooks/useResolveCode.ts:59-65 | a failure means a miss and an API error, and leaves exactly the error, `loading` false and one more API call |
| ResolveCode.ResolveMiss | src/hooks/useResolveCode.ts:54-62 | a code the cache cannot serve calls the API once and succeeds exactly when it answers |
| ResolveCode.ResolveScans | src/hooks/useResolveCode.ts:43-54 | a resolution calls the API once, unless the code is blank or the cache serves it |
| ResolveCode.SecondResolveServedByCache | src/hooks/useResolveCode.ts:48-58 | after an answered call whose cache write went through, the same code is served by the cache before the entry expires, with no second API call |
| ResolveCode.TurnAt | src/hooks/useResolveCode.ts:83-93 | a turn returns exactly when the flag was set during the attempt, the attempt succeeded, or the flag was set during the delay after a non-final attempt; otherwise, before another attempt, the error is cleared and `loading` set |
| ResolveCode.RunFrom | src/hooks/useResolveCode.ts:82-99 | the loop makes at most 2 attempts, at least one more when any are left; `loading` ends false; failure is reported only after 2 attempts |
| ResolveCode.RunStopsAtFirstSuccess | src/hooks/useResolveCode.ts:83-87 | a first success is the only attempt and reports no failure |
| ResolveCode.RunFailsIffEveryAttemptFails | src/hooks/useResolveCode.ts:83-98 | failure is reported exactly when both attempts failed and the flag was not set while the loop was running |
| ResolveCode.RunCancelledEarly | src/hooks/useResolveCode.ts:83-103 | cancelled during the first attempt or the delay after it, the loop stops with that attempt's outcome and reports nothing |
| ResolveCode.RunCancelledLate | src/hooks/useResolveCode.ts:85-95 | cancelled during the second attempt, the loop reports nothing |
| ResolveCode.RunScanCount | src/hooks/useResolveCode.ts:83-85 | each attempt calls the API once, except a first attempt served by the cache |
| ResolveCode.CodeResolver.constructor | src/hooks/useResolveCode.ts:34-39 | `loading` starts true for a non-empty URL code; no error; the fallback message defaults to "Something went wrong" |
| ResolveCode.CodeResolver.SetError | src/hooks/useResolveCode.ts:38 | only the error changes |
| ResolveCode.CodeResolver.ResolveCode | src/hooks/useResolveCode.ts:41-68 | the new storage, session, error, `loading` and API calls, and the result, are those of `Resolve` |
| ResolveCode.CodeResolver.LookupCode | src/hooks/useResolveCode.ts:47-65 | the effect and the result are those of `Lookup` |
| ResolveCode.CodeResolver.ScanCode | src/hooks/useResolveCode.ts:54-65 | the effect and the result are those of `Scan` |
| ResolveCode.CodeResolver.ResolveUrlCode | src/hooks/useResolveCode.ts:73-104 | a blank URL code only clears `loading`; otherwise the effect is that of `RunFrom` on the trimmed code |
| ResolveCode.CodeResolver.Attempt | src/hooks/useResolveCode.ts:84-93 | the effect and the return are those of `TurnAt` |
| ResolveCode.CodeResolver.Run | src/hooks/useResolveCode.ts:82-99 | the world and the attempt count are those of `RunFrom`; the failure flag is set and the trimmed code reported exactly when `RunFrom` fails |

## Left out

- Navigation (`navigate('/menu')`, `navigate('/history')`) is not modelled; it changes no state of the model.
- Price formatting with `toFixed` is not modelled. Prices are integers in minor units, so floating-point rounding is not modelled either.
- Translation is not modelled. An error the page shows is its translation key (`UiError.Key`). The translated "order placed" text is a parameter (`placedLabel`).
- The JSON text of a cache entry is not modelled. A stored entry is kept as a value, and text that does not parse is the value `Unparseable`. `JSON.parse` yielding a non-object, or a non-numeric `expiresAt`, are not modelled separately.
- `crypto.randomUUID()` and `Date.now()` are parameters. The 1.5 s retry delay is a step of the loop, not a timer.
- The order mutation's `isPending` flag (`placing`), which only disables buttons, is not modelled.
- The sheet's swipe-to-close, keyboard and body-overflow effects are not modelled; they are UI gestures.
- The remote API, react-query, order polling, and the order-tracking, history, scan and order-entry pages are not modelled. Remote outcomes are parameters.
- CartPage.Page.UpdateQty: requires the index to be in the cart. The source reads `cart[index].quantity` and would throw on any other index, and its buttons only pass indices of shown lines.
- Types.CreatedOrder: the status of a created order is the `OrderStatus` enumeration. The API types it as a string (`src/api/types.ts:95`) and the page casts it unchecked (`src/pages/Cart.tsx:115`, `src/pages/Cart.tsx:129`), so a status outside the seven values is not represented.
- The `success` field of the order response is not read by the code, so it is not modelled.
- ResolveCode.CodeResolver.Run: the cancellation flag is a parameter (`Cancel`) that names the await at which the page's cleanup runs. Within one run no other interleaving can occur on the single event-loop thread.
- ResolveCode.CodeResolver.ResolveUrlCode: runs are composed only in sequence. When `initialCode` or `onUrlResolveFail` changes during a run (`src/hooks/useResolveCode.ts:104`), the old run is cancelled and a new one starts at once, while the old run's `resolveCode` may still be waiting on the API. Its `finally` can then clear `loading` while the new run is still waiting (`src/hooks/useResolveCode.ts:63-64`), and one code can get more than two API calls in total. This overlap of a restarted run with the cancelled run's in-flight attempt is not modelled.
- An attempt that is under way when the flag is set has its full effect, as in the code; only the loop stops.
- The `onUrlResolveFail` callback is recorded as the list `failReports` of codes handed to it.
- Scan API calls are recorded as the list `scanRequests` of codes sent.
