# Inventory dashboard, product form and product card — a Dafny model

This project models the client-side logic of a small inventory manager: the dashboard that
lists a signed-in user's products, filters them by a search term and a category, and shows
three aggregates (number of products, inventory value, low-stock count); the handlers that
fetch, add, update and delete products through a hosted store and keep the dashboard's
state (`products`, `loading`, `formLoading`, `editingProduct`, the pending
`deleteProductId`); the product form's edit buffer; and the product card's stock badges.

Modules, one per source file plus shared helpers:

- `Results` (results.dfy): `Option` and the store outcome `Outcome = Ok(data) | Err(message)`.
- `Catalog` (catalog.dfy): the `Product` record, the editable `ProductFields`, the
  threshold 10, the category list and the `"all"` filter value.
- `Strings` (strings.dfy): `toLowerCase` as ASCII lowering, `includes`, and `parseInt`,
  with the lemmas that `includes` means "occurs at some position" and that `parseInt`
  reads back the decimal text of any integer.
- `Seqs` (seqs.dfy): `filter`, proved to keep exactly the positions whose element passes,
  in order (an order-preserving subsequence).
- `ProductCard` (product_card.dfy): pure functions for the stock flags, colour, warning
  icon, picture, and the events the Edit and Delete buttons send.
- `ProductForm` (product_form.dfy): the suggestion lookup and input conversions as
  functions, and the mounted form as class `Form`. Each field editor changes exactly one
  field of the buffer; the contracts of the other methods give the whole new buffer.
- `InventoryDashboard` (inventory_dashboard.dfy): the filter and aggregates as functions
  with their lemmas, the component state as class `Dashboard`, and four methods that
  wire a card, the dashboard and the form together as the dashboard renders them.

Store calls are not performed: each handler takes the outcome its store call gets, as an
argument, and returns the list of calls it issued (`Select`, `Insert`, `Update`,
`Delete`). Prices are integers in minor currency units. The current user is passed in as
an optional user id.

Behaviour worth noting:

- Cancelling the form in create mode keeps the buffer as typed. `onClose` only clears
  `editingProduct`, and the form's initialisation effect reruns only when its `product`
  prop changes. An undefined prop staying undefined is no change, so the typed text stays
  (`CancelPressed`, `AddPressed`). Cancelling an edit does reset the buffer.
- After an add or update, the list is refetched only when the write succeeded; a
  failed write leaves the list as it was.
- The form's own submit handler checks no field. The non-empty name, non-negative price and quantity,
  and chosen category come from the browser's `required`/`min` attributes. These are
  modelled as the guard of `SubmitPressed`, not of `Form.HandleSubmit`.
- The delete dialog is open iff `deleteProductId` is truthy. That means present and
  non-empty, because `!!""` is false.
- The update handler on its own leaves `editingProduct` set after a failed write. The
  submit flow still ends with it cleared, because the form's `onClose` runs right after
  `onSubmit`.
- Submitting resets the buffer but does not reset `showImageSuggestions`.

## Model

| member | source | states |
|---|---|---|
| Strings.LowerChar | src/components/inventory/InventoryDashboard.tsx:152-153 | ASCII lowering of one character: its result is never an upper-case letter; upper-case letters map to the lower-case letter at the same alphabet position; everything else is unchanged |
| Strings.Lower | src/components/inventory/InventoryDashboard.tsx:152-153 | lowering a string keeps its length and lowers each character in place |
| Strings.LowerIdempotent | src/components/inventory/InventoryDashboard.tsx:152-153 | lowering twice is the same as lowering once |
| Strings.Includes | src/components/inventory/InventoryDashboard.tsx:152-153 | `includes` holds for the empty term on any string, and only for a term no longer than the string |
| Strings.OccursIncludes | src/components/inventory/InventoryDashboard.tsx:152-153 | an occurrence of the term at any position makes `includes` true |
| Strings.IncludesOccurs | src/components/inventory/InventoryDashboard.tsx:152-153 | when `includes` is true, it returns a position where the term occurs |
| Strings.IncludesIffOccurs | src/components/inventory/InventoryDashboard.tsx:152-153 | `includes` holds iff the term occurs in the text at some position (both directions) |
| Strings.LeadingDigits | src/components/inventory/ProductForm.tsx:182 | the digit run `parseInt` reads is a prefix of its input, all digits, and maximal (the next character is not a digit) |
| Strings.ParseInt | src/components/inventory/ProductForm.tsx:182 | `parseInt` gives NaN exactly when no digit follows the optional sign; without a minus sign the value is non-negative |
| Strings.ParseIntReadsShowInt | src/components/inventory/ProductForm.tsx:181-182 | for every integer n, `parseInt` of n's decimal text, followed by anything that does not start with a digit, is n |
| Seqs.Filter | src/components/inventory/InventoryDashboard.tsx:151-156 | `filter` keeps exactly the elements that satisfy the predicate, and never lengthens the list |
| Seqs.FilterSelects | src/components/inventory/InventoryDashboard.tsx:151-156 | `filter` reads its result off the input at strictly increasing positions, and a position is read iff its element passes |
| Seqs.FilterIsSubsequence | src/components/inventory/InventoryDashboard.tsx:151-156 | the filtered list is an order-preserving subsequence of the input |
| Seqs.FilterKeepsAll | src/components/inventory/InventoryDashboard.tsx:151-156 | when every element passes, `filter` returns its input unchanged |
| Seqs.FilterAppend | src/components/inventory/InventoryDashboard.tsx:160 | filtering a concatenation is the concatenation of the filtered parts |
| InventoryDashboard.MatchesSearch | src/components/inventory/InventoryDashboard.tsx:152-153 | the empty search term matches every product |
| InventoryDashboard.MatchesCategory | src/components/inventory/InventoryDashboard.tsx:154 | the category "all" lets every product through; any other choice lets through exactly the products of that category |
| InventoryDashboard.FilteredProducts | src/components/inventory/InventoryDashboard.tsx:151-156 | a product is listed iff it is in the list and (its lowered name or lowered category includes the lowered term) and (the filter is "all" or it has that category) |
| InventoryDashboard.FilteredIsOrderedSelection | src/components/inventory/InventoryDashboard.tsx:151-156 | the listing is the matching positions of the product list, all of them, in order: an order-preserving subsequence |
| InventoryDashboard.UnfilteredShowsAll | src/components/inventory/InventoryDashboard.tsx:32-33 | with an empty search and category "all", the initial controls, the listing equals the product list |
| InventoryDashboard.SearchIgnoresTermCase | src/components/inventory/InventoryDashboard.tsx:152-153 | searching for the lowered term matches the same products as the term itself |
| InventoryDashboard.WidgetScenario | src/components/inventory/InventoryDashboard.tsx:151-156 | a list of one "Widget" in "Electronics": "wid" finds it, "xyz" finds nothing, the "Clothing" filter finds nothing |
| InventoryDashboard.SumFromIsSigma | src/components/inventory/InventoryDashboard.tsx:159 | the left-to-right reduce from any start value equals that start value plus the sum of price × quantity |
| InventoryDashboard.TotalValue | src/components/inventory/InventoryDashboard.tsx:159 | `totalValue` equals the sum of price × quantity over the whole list; it is 0 for the empty list and price × quantity for one product |
| InventoryDashboard.TotalValueAppend | src/components/inventory/InventoryDashboard.tsx:159 | the value of two lists together is the sum of their values |
| InventoryDashboard.TotalValueNonNegative | src/components/inventory/InventoryDashboard.tsx:159 | with no negative price or quantity the value is not negative |
| InventoryDashboard.LowStockCount | src/components/inventory/InventoryDashboard.tsx:160 | `lowStockCount` never exceeds the number of products |
| InventoryDashboard.LowStockCountAppend | src/components/inventory/InventoryDashboard.tsx:160 | the low-stock count adds up over concatenated lists |
| InventoryDashboard.LowStockCountOne | src/components/inventory/InventoryDashboard.tsx:160 | one product counts iff its quantity is below 10: quantity 9 counts, quantity 10 does not |
| InventoryDashboard.ListingOf | src/components/inventory/InventoryDashboard.tsx:308-351 | output is the empty-inventory message iff there are no products; the no-match message iff there are products but none matches; otherwise the cards of the filtered list, which is non-empty |
| InventoryDashboard.Dashboard.constructor | src/components/inventory/InventoryDashboard.tsx:30-38 | initial state: no products, loading, empty search, category "all", grid view, form closed, nothing being edited or deleted |
| InventoryDashboard.Dashboard.TotalProducts | src/components/inventory/InventoryDashboard.tsx:158 | the product count is never below the low-stock count |
| InventoryDashboard.Dashboard.DeleteDialogOpen | src/components/inventory/InventoryDashboard.tsx:367 | the dialog is open only with a pending id, and an empty pending id keeps it closed |
| InventoryDashboard.Dashboard.FetchProducts | src/components/inventory/InventoryDashboard.tsx:48-66 | a successful fetch replaces the list with the rows, or with an empty list for null rows; a failed fetch keeps the old list; `loading` is false after both; nothing else changes |
| InventoryDashboard.Dashboard.UserChanged | src/components/inventory/InventoryDashboard.tsx:42-46 | the mount effect fetches iff there is a user; with no user nothing happens |
| InventoryDashboard.Dashboard.HandleAddProduct | src/components/inventory/InventoryDashboard.tsx:68-94 | with no user: no store call, no state change. Otherwise: an insert with the user as owner; a refetch only on success; `formLoading` false at the end; nothing else changes |
| InventoryDashboard.Dashboard.HandleUpdateProduct | src/components/inventory/InventoryDashboard.tsx:96-124 | with no product being edited: a no-op. Otherwise: an update of that product's id. On success: refetch and clear `editingProduct`. On failure: `editingProduct` stays set. `formLoading` is false afterwards |
| InventoryDashboard.Dashboard.HandleDeleteProduct | src/components/inventory/InventoryDashboard.tsx:126-149 | one delete call for the id; a refetch only on success; the pending id is cleared and the dialog closed whatever the outcome |
| InventoryDashboard.Dashboard.HandleCardEvent | src/components/inventory/InventoryDashboard.tsx:339-348 | Edit sets `editingProduct` to the card's product and opens the form; Delete makes its id pending, which opens the dialog iff the id is non-empty |
| InventoryDashboard.Dashboard.ConfirmDelete | src/components/inventory/InventoryDashboard.tsx:377-378 | with the dialog open, exactly one delete of the pending id is issued, followed by a refetch only when it succeeded; the new state is the old one with the dialog closed and, after a success, the refetched list and loading off; with the dialog closed nothing is issued and nothing changes |
| InventoryDashboard.Dashboard.DismissDeleteDialog | src/components/inventory/InventoryDashboard.tsx:367 | dismissing clears the pending id, so the dialog is closed |
| InventoryDashboard.Dashboard.OpenAddForm | src/components/inventory/InventoryDashboard.tsx:295-304 | "Add Product" opens the form with nothing being edited; nothing else changes |
| InventoryDashboard.Dashboard.CloseForm | src/components/inventory/InventoryDashboard.tsx:358-361 | `onClose` closes the form and clears `editingProduct`; nothing else changes |
| InventoryDashboard.Dashboard.SubmitFields | src/components/inventory/InventoryDashboard.tsx:362 | `onSubmit` routes to update iff a product is being edited, and otherwise to add. For each of the five cases (editing with success or failure; adding with a user and success or failure; adding with no user) it gives the exact calls and the whole new state: a success refetches, turns loading and form loading off, and (for an update) stops editing; a failure only turns form loading off; no user changes nothing |
| InventoryDashboard.Dashboard.SetSearchTerm | src/components/inventory/InventoryDashboard.tsx:253-258 | only the search term changes; the three aggregates stay the same |
| InventoryDashboard.Dashboard.SetSelectedCategory | src/components/inventory/InventoryDashboard.tsx:261 | only the category filter changes; the three aggregates stay the same |
| InventoryDashboard.Dashboard.SetViewMode | src/components/inventory/InventoryDashboard.tsx:275-292 | only the view mode changes |
| InventoryDashboard.CardButtonPressed | src/components/inventory/InventoryDashboard.tsx:339-348 | Edit on a card changes only `editingProduct` (to that product) and `isFormOpen` (to true) and loads that product into the buffer (unchanged if it was already loaded). Delete changes only the pending id and leaves the buffer alone. The suggestion flag is untouched and the form's prop stays in sync with `editingProduct` |
| InventoryDashboard.AddPressed | src/components/inventory/InventoryDashboard.tsx:295-304 | "Add Product" opens the form in create mode. The buffer is reset to the defaults only if a product had been loaded; otherwise the earlier draft stays. Nothing else of the dashboard changes and the suggestion flag is untouched |
| InventoryDashboard.SubmitPressed | src/components/inventory/InventoryDashboard.tsx:355-364 | a buffer the browser's constraints reject changes nothing. Otherwise: the buffer as it was is sent to update (while editing) or to add, with a refetch only after a success; the form closes; editing stops; the buffer returns to the defaults. The whole new dashboard state is given per case (a success also refetches and turns loading and form loading off, a failure turns form loading off, no call issued changes nothing else); the suggestion flag is untouched |
| InventoryDashboard.CancelPressed | src/components/inventory/InventoryDashboard.tsx:358-361 | cancel closes the form and stops editing. An edit buffer is reset to the defaults; a create-mode buffer is kept as typed. Nothing else of the dashboard changes and the suggestion flag is untouched |
| InventoryDashboard.Mount | src/components/inventory/InventoryDashboard.tsx:30-64 | mounting for a signed-in user issues exactly one fetch; the dashboard then holds the fetched list (empty for no rows or an error) with `loading` off and every other field at its initial value, and only then renders the form, with no product, so both are new objects that start in sync, with an empty buffer and the suggestion panel off |
| InventoryDashboard.DeleteAfterMount | src/components/inventory/InventoryDashboard.tsx:339-378 | after mounting, Delete on a card and confirming issue exactly one delete of that card's id, followed by a refetch only after a success; an empty id opens no dialog and issues nothing |
| ProductForm.OrEmpty | src/components/inventory/ProductForm.tsx:95-96 | an absent text becomes "", a present one is kept |
| ProductForm.FromProduct | src/components/inventory/ProductForm.tsx:89-97 | the edit buffer copies name, price, quantity and category. Description and image URL are copied when present, and are "" exactly when absent or empty |
| ProductForm.Initial | src/components/inventory/ProductForm.tsx:88-108 | the buffer is the defaults (empty texts, 0 and 0) without a product, and the product's fields with one |
| ProductForm.SuggestionsFor | src/components/inventory/ProductForm.tsx:129-134 | the suggestions are always three pictures: the category's own list when it has one, else the Electronics list |
| ProductForm.FallbackCategories | src/components/inventory/ProductForm.tsx:29-68 | of the ten offered categories exactly the first five have pictures of their own, and the other five all get the Electronics pictures |
| ProductForm.QuantityFromInput | src/components/inventory/ProductForm.tsx:182 | the quantity is the parsed value, or 0 when the text does not parse |
| ProductForm.QuantityInputRoundTrip | src/components/inventory/ProductForm.tsx:181-182 | reading back the text the quantity field shows gives the same quantity |
| ProductForm.PriceFromInput | src/components/inventory/ProductForm.tsx:168 | the price is the parsed number, or 0 for `NaN` |
| ProductForm.PassesConstraintValidation | src/components/inventory/ProductForm.tsx:154-195 | the browser accepts a buffer only with a non-empty name and category and non-negative price and quantity, so the default buffer is never accepted |
| ProductForm.Form.constructor | src/components/inventory/ProductForm.tsx:77-108 | a mounted form holds the buffer for its `product` prop, with the suggestion panel off |
| ProductForm.Form.ReceiveProduct | src/components/inventory/ProductForm.tsx:88-108 | the effect rewrites the buffer iff the `product` prop changed; the suggestion flag is untouched |
| ProductForm.Form.HandleSubmit | src/components/inventory/ProductForm.tsx:110-122 | submit emits the buffer unchanged and then resets it to the defaults, in both modes |
| ProductForm.Form.HandleImageSelect | src/components/inventory/ProductForm.tsx:124-127 | picking a picture sets only the image URL and closes the suggestion panel; the preview then shows exactly when the chosen URL is non-empty |
| ProductForm.Form.SetName | src/components/inventory/ProductForm.tsx:152 | only the name changes |
| ProductForm.Form.SetPrice | src/components/inventory/ProductForm.tsx:168 | only the price changes, to the parsed value or 0 |
| ProductForm.Form.SetQuantity | src/components/inventory/ProductForm.tsx:182 | only the quantity changes, to the parsed value or 0 |
| ProductForm.Form.SetCategory | src/components/inventory/ProductForm.tsx:194 | only the category changes, and the suggestions become those of the new category |
| ProductForm.Form.SetDescription | src/components/inventory/ProductForm.tsx:215 | only the description changes |
| ProductForm.Form.SetImageUrl | src/components/inventory/ProductForm.tsx:239 | only the image URL changes; the preview (line 273) shows exactly when the new URL is non-empty, and the suggestion panel is unaffected |
| ProductForm.Form.ImageLoadFailed | src/components/inventory/ProductForm.tsx:281-284 | a failed preview clears only the image URL, which hides the preview |
| ProductForm.Form.ToggleImageSuggestions | src/components/inventory/ProductForm.tsx:229 | "Browse Images" flips the flag; the panel is then shown iff the flag is on and a category is chosen |
| ProductForm.Form.PanelShown | src/components/inventory/ProductForm.tsx:245 | the suggestion panel shows only while the flag is on, and then with exactly three images |
| ProductCard.IsLowStock | src/components/inventory/ProductCard.tsx:26 | low stock means below the threshold 10: quantity 9 is low, quantity 10 is not |
| ProductCard.IsOutOfStock | src/components/inventory/ProductCard.tsx:26-27 | out of stock means exactly zero, and out of stock always implies low stock |
| ProductCard.ShowsOutOfStockOverlay | src/components/inventory/ProductCard.tsx:53-57 | the overlay appears exactly when the stock count is coloured destructive, and never together with the warning icon |
| ProductCard.ShowsWarningIcon | src/components/inventory/ProductCard.tsx:87-89 | the warning icon shows iff the quantity is below 10 and not 0: shown for 5, hidden for 0 and 10 |
| ProductCard.StockColourOf | src/components/inventory/ProductCard.tsx:90-96 | the stock colour is destructive iff the quantity is 0, orange iff it is below 10 and not 0 (exactly when the icon shows), muted iff it is 10 or more |
| ProductCard.PictureOf | src/components/inventory/ProductCard.tsx:42-50 | the product's image is shown iff its URL is present and non-empty, with that URL; otherwise the placeholder |
| ProductCard.Press | src/components/inventory/ProductCard.tsx:104-121 | Edit hands over the whole product; Delete hands over the product's id |

## Left out

- The store itself (select, insert, update, delete). Only each call's outcome is modelled. Row order by `created_at`, ownership checks and id assignment happen in the store.
- The un-awaited `fetchProducts()` inside the add, update and delete handlers is modelled as finishing before the handler returns. Overlapping fetches, last-writer-wins between them and React's batching of state updates are concurrency and are not modelled.
- `formLoading` is true while a write is in flight. Handlers are atomic in the model, so that intermediate state is not observable; only its final value (false) is stated.
- The loading screen: while `loading` is true the dashboard renders neither the cards, the buttons nor the form (lines 171-180 of src/components/inventory/InventoryDashboard.tsx), and with no user it stays that way. `Mount` only mounts the form after the first fetch, but `CardButtonPressed`, `AddPressed`, `SubmitPressed`, `CancelPressed` and the class methods accept a dashboard whose `loading` is still true, which the source never puts on screen.
- Toast notifications and their texts, currency formatting with `Intl.NumberFormat`, JSX layout, styling, view-mode classes, and dialog primitives. This includes the confirm button also closing the dialog through the dialog primitive.
- ProductForm.PriceFromInput: `parseFloat` on the price text is not modelled. The price arrives already parsed (None for `NaN`), in minor units, because floating point is out of scope.
- Strings.ParseInt: leading whitespace and the `0x` hexadecimal prefix that `parseInt` accepts are not modelled. A number input never produces them. Very large values are exact integers here, not floats.
- Strings.Lower: only ASCII letters are lowered. The Unicode case mappings of `toLowerCase` are not modelled.
- InventoryDashboard.Dashboard.UserChanged: the authentication provider is not modelled. The user is an optional id passed in, and Index.tsx, which shows the dashboard only to a signed-in user, is not part of this model.
- ProductForm.Form.ReceiveProduct: React compares the `product` prop by object identity; the model compares it by value.
- ProductForm.SuggestionsFor: looking up a category such as `"constructor"`, which names an inherited property of a JavaScript object, would not fall back to Electronics in the source. The model treats the table as a plain map. Categories come from a fixed selection list, so such a category cannot occur.
