/** The inventory dashboard: the filtered view and the aggregates derived from the fetched
    product list, the state its handlers change, and how it drives the product form. */
module InventoryDashboard {
  import opened Results
  import opened Catalog
  import opened Strings
  import opened Seqs
  import ProductCard
  import ProductForm

  /** The search box matches the lowered term inside the lowered name or category. */
  predicate MatchesSearch(p: Product, term: string)
    ensures term == "" ==> MatchesSearch(p, term)
  {
    Includes(Lower(p.name), Lower(term)) || Includes(Lower(p.category), Lower(term))
  }

  /** The category filter lets every product through on "all", else only its own category. */
  predicate MatchesCategory(p: Product, selected: string)
    ensures selected == AllCategories ==> MatchesCategory(p, selected)
    ensures selected != AllCategories ==> (MatchesCategory(p, selected) <==> p.category == selected)
  {
    selected == AllCategories || p.category == selected
  }

  predicate Matches(p: Product, term: string, selected: string)
  {
    MatchesSearch(p, term) && MatchesCategory(p, selected)
  }

  /** `filteredProducts`. */
  function FilteredProducts(products: seq<Product>, term: string, selected: string): (r: seq<Product>)
    ensures |r| <= |products|
    ensures forall p :: p in r <==>
      p in products &&
      (Includes(Lower(p.name), Lower(term)) || Includes(Lower(p.category), Lower(term))) &&
      (selected == AllCategories || p.category == selected)
  {
    Filter((p: Product) => Matches(p, term, selected), products)
  }

  /** The filtered list keeps exactly the matching positions of the product list, in order. */
  lemma FilteredIsOrderedSelection(products: seq<Product>, term: string, selected: string)
    returns (idx: seq<int>)
    ensures Selects(FilteredProducts(products, term, selected), products, idx)
    ensures forall i :: 0 <= i < |products| ==> (i in idx <==> Matches(products[i], term, selected))
    ensures IsSubsequence(FilteredProducts(products, term, selected), products)
  {
    idx := FilterSelects((p: Product) => Matches(p, term, selected), products);
  }

  /** With an empty search and the "all" category nothing is filtered out. */
  lemma UnfilteredShowsAll(products: seq<Product>)
    ensures FilteredProducts(products, "", AllCategories) == products
  {
    assert Lower("") == "";
    FilterKeepsAll((p: Product) => Matches(p, "", AllCategories), products);
  }

  /** The search ignores the case of the term. */
  lemma SearchIgnoresTermCase(p: Product, term: string)
    ensures MatchesSearch(p, Lower(term)) == MatchesSearch(p, term)
  {
    LowerIdempotent(term);
  }

  /** The example of a single widget: "wid" finds it, "xyz" does not, nor does "Clothing". */
  lemma WidgetScenario(widget: Product)
    requires widget.name == "Widget" && widget.category == "Electronics"
    ensures FilteredProducts([widget], "wid", AllCategories) == [widget]
    ensures FilteredProducts([widget], "xyz", AllCategories) == []
    ensures FilteredProducts([widget], "", "Clothing") == []
  {
    WidgetMatches(widget);
    assert FilteredProducts([widget], "wid", AllCategories) == [widget] by {
      FilterKeepsAll((p: Product) => Matches(p, "wid", AllCategories), [widget]);
    }
    assert !MatchesCategory(widget, "Clothing");
  }

  /** How the widget fares against the searches "wid" and "xyz". */
  lemma WidgetMatches(widget: Product)
    requires widget.name == "Widget" && widget.category == "Electronics"
    ensures MatchesSearch(widget, "wid")
    ensures !MatchesSearch(widget, "xyz")
  {
    var name, category := Lower(widget.name), Lower(widget.category);
    LowersTo(widget.name, "widget");
    LowersTo(widget.category, "electronics");
    LowersTo("wid", "wid");
    LowersTo("xyz", "xyz");
    assert "wid" <= name;
    NoLetterX(name);
    NoLetterX(category);
    NotIncludesXyz(name);
    NotIncludesXyz(category);
  }

  /** The lowering of s is t when t lowers s character by character. */
  lemma LowersTo(s: string, t: string)
    requires |s| == |t| && forall i :: 0 <= i < |s| ==> LowerChar(s[i]) == t[i]
    ensures Lower(s) == t
  {
  }

  lemma NoLetterX(s: string)
    requires s == "widget" || s == "electronics"
    ensures forall i :: 0 <= i < |s| ==> s[i] != 'x'
  {
  }

  /** A word without the letter x does not contain "xyz". */
  lemma {:induction false} NotIncludesXyz(s: string)
    requires forall i :: 0 <= i < |s| ==> s[i] != 'x'
    ensures !Includes(s, "xyz")
    decreases |s|
  {
    if |s| >= 3 {
      assert s[..3][0] != 'x';
    }
    if s != [] {
      NotIncludesXyz(s[1..]);
    }
  }

  /** One product's contribution to the inventory value. */
  function Worth(p: Product): int { p.price * p.quantity }

  /** The reduce of `totalValue`: the running sum, from the left. */
  function SumFrom(acc: int, products: seq<Product>): int
    decreases products
  {
    if products == [] then acc else SumFrom(acc + Worth(products[0]), products[1..])
  }

  /** Σ price × quantity over the list. */
  function Sigma(products: seq<Product>): int
  {
    if products == [] then 0 else Worth(products[0]) + Sigma(products[1..])
  }

  lemma {:induction false} SumFromIsSigma(acc: int, products: seq<Product>)
    ensures SumFrom(acc, products) == acc + Sigma(products)
    decreases products
  {
    if products != [] {
      SumFromIsSigma(acc + Worth(products[0]), products[1..]);
    }
  }

  /** `totalValue`: the reduce starting from 0 is the sum of price × quantity. */
  function TotalValue(products: seq<Product>): (v: int)
    ensures v == Sigma(products)
    ensures products == [] ==> v == 0
    ensures |products| == 1 ==> v == products[0].price * products[0].quantity
  {
    SumFromIsSigma(0, products);
    SumFrom(0, products)
  }

  lemma {:induction false} SigmaAppend(a: seq<Product>, b: seq<Product>)
    ensures Sigma(a + b) == Sigma(a) + Sigma(b)
  {
    if a == [] {
      assert a + b == b;
    } else {
      assert (a + b)[1..] == a[1..] + b;
      SigmaAppend(a[1..], b);
    }
  }

  /** The value of two lists together is the sum of their values. */
  lemma TotalValueAppend(a: seq<Product>, b: seq<Product>)
    ensures TotalValue(a + b) == TotalValue(a) + TotalValue(b)
  {
    SigmaAppend(a, b);
  }

  /** With no negative price or quantity, the value is not negative. */
  lemma {:induction false} TotalValueNonNegative(products: seq<Product>)
    requires forall i :: 0 <= i < |products| ==> products[i].price >= 0 && products[i].quantity >= 0
    ensures TotalValue(products) >= 0
  {
    if products != [] {
      TotalValueNonNegative(products[1..]);
    }
  }

  /** `lowStockCount`: how many products the product card flags as low stock. */
  function LowStockCount(products: seq<Product>): (n: nat)
    ensures n <= |products|
  {
    |Filter((p: Product) => ProductCard.IsLowStock(p), products)|
  }

  /** The count adds up over concatenation, and one product counts iff it is below 10. */
  lemma LowStockCountAppend(a: seq<Product>, b: seq<Product>)
    ensures LowStockCount(a + b) == LowStockCount(a) + LowStockCount(b)
  {
    FilterAppend((p: Product) => ProductCard.IsLowStock(p), a, b);
  }

  /** Quantity 9 is counted, quantity 10 is not. */
  lemma LowStockCountOne(p: Product)
    ensures LowStockCount([p]) == (if p.quantity < 10 then 1 else 0)
    ensures p.quantity == 9 ==> LowStockCount([p]) == 1
    ensures p.quantity == 10 ==> LowStockCount([p]) == 0
  {
  }

  /** What the product area shows. */
  datatype Listing = EmptyInventory | NoMatches | Cards(shown: seq<Product>)

  /** An empty inventory, a list with no match, or the cards of the matching products. */
  function ListingOf(products: seq<Product>, term: string, selected: string): (l: Listing)
    ensures l == EmptyInventory <==> products == []
    ensures l == NoMatches <==> products != [] && forall p :: p in products ==> !Matches(p, term, selected)
    ensures l.Cards? ==> l.shown == FilteredProducts(products, term, selected) && l.shown != []
  {
    var shown := FilteredProducts(products, term, selected);
    if shown == [] then (if products == [] then EmptyInventory else NoMatches)
    else
      assert shown[0] in shown;
      Cards(shown)
  }

  datatype ViewMode = Grid | List

  /** A call issued to the hosted store, in the order issued. */
  datatype StoreCall =
    | Select
    | Insert(fields: ProductFields, owner: string)
    | Update(id: string, fields: ProductFields)
    | Delete(id: string)

  /** A fetch returns rows, or null, or an error. */
  type FetchOutcome = Outcome<Option<seq<Product>>>

  /** A write returns nothing but may fail. */
  type WriteOutcome = Outcome<()>

  /** The list after a fetch: the rows (none for null) on success, the old list on error. */
  function Fetched(products: seq<Product>, o: FetchOutcome): seq<Product>
  {
    match o
    case Ok(Some(rows)) => rows
    case Ok(None) => []
    case Err(_) => products
  }

  /** Every piece of dashboard state, for saying what a handler leaves alone. */
  datatype State = State(
    products: seq<Product>,
    loading: bool,
    searchTerm: string,
    selectedCategory: string,
    viewMode: ViewMode,
    isFormOpen: bool,
    editingProduct: Option<Product>,
    deleteProductId: Option<string>,
    formLoading: bool)

  /** The dashboard component's state and handlers. Store calls resolve to the outcomes
      passed in; the refetch a handler starts completes before the handler returns. */
  class Dashboard {
    var products: seq<Product>
    var loading: bool
    var searchTerm: string
    var selectedCategory: string
    var viewMode: ViewMode
    var isFormOpen: bool
    var editingProduct: Option<Product>
    var deleteProductId: Option<string>
    var formLoading: bool

    function Snapshot(): State
      reads this
    {
      State(products, loading, searchTerm, selectedCategory, viewMode, isFormOpen,
            editingProduct, deleteProductId, formLoading)
    }

    constructor ()
      ensures Snapshot() == State([], true, "", AllCategories, Grid, false, None, None, false)
    {
      products := [];
      loading := true;
      searchTerm := "";
      selectedCategory := AllCategories;
      viewMode := Grid;
      isFormOpen := false;
      editingProduct := None;
      deleteProductId := None;
      formLoading := false;
    }

    function TotalProducts(): nat
      reads this
      ensures LowStockItems() <= TotalProducts()
    {
      |products|
    }

    function InventoryValue(): int
      reads this
    {
      TotalValue(products)
    }

    function LowStockItems(): nat
      reads this
    {
      LowStockCount(products)
    }

    /** `!!deleteProductId`: the confirmation dialog is open for a non-empty pending id. */
    predicate DeleteDialogOpen()
      reads this
      ensures DeleteDialogOpen() ==> deleteProductId.Some?
      ensures deleteProductId == Some("") ==> !DeleteDialogOpen()
    {
      deleteProductId.Some? && deleteProductId.value != ""
    }

    /** `fetchProducts`: replaces the list on success (null rows as empty), keeps it on
        error, and always ends the loading state. */
    method FetchProducts(o: FetchOutcome) returns (calls: seq<StoreCall>)
      modifies this
      ensures calls == [Select]
      ensures o.Ok? && o.data.Some? ==> products == o.data.value
      ensures o.Ok? && o.data.None? ==> products == []
      ensures o.Err? ==> products == old(products)
      ensures Snapshot() == old(Snapshot()).(products := Fetched(old(products), o), loading := false)
    {
      calls := [Select];
      products := Fetched(products, o);
      loading := false;
    }

    /** The mount effect: fetch when there is a signed-in user. */
    method UserChanged(user: Option<string>, o: FetchOutcome) returns (calls: seq<StoreCall>)
      modifies this
      ensures user.None? ==> calls == [] && Snapshot() == old(Snapshot())
      ensures user.Some? ==> (calls == [Select] &&
        Snapshot() == old(Snapshot()).(products := Fetched(old(products), o), loading := false))
    {
      calls := [];
      if user.Some? {
        calls := FetchProducts(o);
      }
    }

    /** `handleAddProduct`: nothing without a user; else insert with the user as owner,
        refetch only on success, and end with the form no longer loading. */
    method HandleAddProduct(user: Option<string>, fields: ProductFields, insert: WriteOutcome, refetch: FetchOutcome)
      returns (calls: seq<StoreCall>)
      modifies this
      ensures user.None? ==> calls == [] && Snapshot() == old(Snapshot())
      ensures user.Some? && insert.Ok? ==> (calls == [Insert(fields, user.value), Select] &&
        Snapshot() == old(Snapshot()).(products := Fetched(old(products), refetch), loading := false, formLoading := false))
      ensures user.Some? && insert.Err? ==> (calls == [Insert(fields, user.value)] &&
        Snapshot() == old(Snapshot()).(formLoading := false))
    {
      if user.None? {
        return [];
      }
      formLoading := true;
      calls := [Insert(fields, user.value)];
      if insert.Ok? {
        var fetch := FetchProducts(refetch);
        calls := calls + fetch;
      }
      formLoading := false;
    }

    /** `handleUpdateProduct`: nothing without a product being edited; else update that
        product's row; on success refetch and stop editing; the form stops loading. */
    method HandleUpdateProduct(fields: ProductFields, update: WriteOutcome, refetch: FetchOutcome)
      returns (calls: seq<StoreCall>)
      modifies this
      ensures old(editingProduct).None? ==> calls == [] && Snapshot() == old(Snapshot())
      ensures old(editingProduct).Some? && update.Ok? ==>
        calls == [Update(old(editingProduct).value.id, fields), Select] &&
        Snapshot() == old(Snapshot()).(products := Fetched(old(products), refetch), loading := false,
                                       editingProduct := None, formLoading := false)
      ensures old(editingProduct).Some? && update.Err? ==>
        calls == [Update(old(editingProduct).value.id, fields)] &&
        Snapshot() == old(Snapshot()).(formLoading := false)
    {
      if editingProduct.None? {
        return [];
      }
      formLoading := true;
      calls := [Update(editingProduct.value.id, fields)];
      if update.Ok? {
        var fetch := FetchProducts(refetch);
        calls := calls + fetch;
        editingProduct := None;
      }
      formLoading := false;
    }

    /** `handleDeleteProduct`: delete the row, refetch only on success, and clear the
        pending id whatever the outcome. */
    method HandleDeleteProduct(id: string, delete: WriteOutcome, refetch: FetchOutcome)
      returns (calls: seq<StoreCall>)
      modifies this
      ensures deleteProductId == None && !DeleteDialogOpen()
      ensures delete.Ok? ==> (calls == [Delete(id), Select] &&
        Snapshot() == old(Snapshot()).(products := Fetched(old(products), refetch), loading := false,
                                       deleteProductId := None))
      ensures delete.Err? ==> (calls == [Delete(id)] &&
        Snapshot() == old(Snapshot()).(deleteProductId := None))
    {
      calls := [Delete(id)];
      if delete.Ok? {
        var fetch := FetchProducts(refetch);
        calls := calls + fetch;
      }
      deleteProductId := None;
    }

    /** A card's Edit or Delete button: edit opens the form on that product, delete makes
        its id the pending one. */
    method HandleCardEvent(e: ProductCard.CardEvent)
      modifies this
      ensures e.EditRequested? ==>
        Snapshot() == old(Snapshot()).(editingProduct := Some(e.product), isFormOpen := true)
      ensures e.DeleteRequested? ==>
        Snapshot() == old(Snapshot()).(deleteProductId := Some(e.id)) &&
        (DeleteDialogOpen() <==> e.id != "")
    {
      match e
      case EditRequested(p) =>
        editingProduct := Some(p);
        isFormOpen := true;
      case DeleteRequested(id) =>
        deleteProductId := Some(id);
    }

    /** The dialog's confirm button: deletes the pending product when there is one. */
    method ConfirmDelete(delete: WriteOutcome, refetch: FetchOutcome) returns (calls: seq<StoreCall>)
      modifies this
      ensures old(DeleteDialogOpen()) && delete.Ok? ==> (
        calls == [Delete(old(deleteProductId).value), Select] &&
        Snapshot() == old(Snapshot()).(products := Fetched(old(products), refetch), loading := false,
                                       deleteProductId := None))
      ensures old(DeleteDialogOpen()) && delete.Err? ==> (
        calls == [Delete(old(deleteProductId).value)] &&
        Snapshot() == old(Snapshot()).(deleteProductId := None))
      ensures !old(DeleteDialogOpen()) ==> calls == [] && Snapshot() == old(Snapshot())
      ensures old(DeleteDialogOpen()) ==> !DeleteDialogOpen()
    {
      calls := [];
      if DeleteDialogOpen() {
        calls := HandleDeleteProduct(deleteProductId.value, delete, refetch);
      }
    }

    /** Dismissing the dialog drops the pending id. */
    method DismissDeleteDialog()
      modifies this
      ensures Snapshot() == old(Snapshot()).(deleteProductId := None) && !DeleteDialogOpen()
    {
      deleteProductId := None;
    }

    /** "Add Product": open the form in create mode. */
    method OpenAddForm()
      modifies this
      ensures Snapshot() == old(Snapshot()).(editingProduct := None, isFormOpen := true)
    {
      editingProduct := None;
      isFormOpen := true;
    }

    /** The form's `onClose`: close it and stop editing. */
    method CloseForm()
      modifies this
      ensures Snapshot() == old(Snapshot()).(isFormOpen := false, editingProduct := None)
    {
      isFormOpen := false;
      editingProduct := None;
    }

    /** The form's `onSubmit`: updating while a product is being edited, adding otherwise. */
    method SubmitFields(user: Option<string>, fields: ProductFields, write: WriteOutcome, refetch: FetchOutcome)
      returns (calls: seq<StoreCall>)
      modifies this
      ensures old(editingProduct).Some? && write.Ok? ==> (
        calls == [Update(old(editingProduct).value.id, fields), Select] &&
        Snapshot() == old(Snapshot()).(products := Fetched(old(products), refetch), loading := false,
                                       editingProduct := None, formLoading := false))
      ensures old(editingProduct).Some? && write.Err? ==> (
        calls == [Update(old(editingProduct).value.id, fields)] &&
        Snapshot() == old(Snapshot()).(formLoading := false))
      ensures old(editingProduct).None? && user.Some? && write.Ok? ==> (
        calls == [Insert(fields, user.value), Select] &&
        Snapshot() == old(Snapshot()).(products := Fetched(old(products), refetch), loading := false,
                                       formLoading := false))
      ensures old(editingProduct).None? && user.Some? && write.Err? ==> (
        calls == [Insert(fields, user.value)] &&
        Snapshot() == old(Snapshot()).(formLoading := false))
      ensures old(editingProduct).None? && user.None? ==> calls == [] && Snapshot() == old(Snapshot())
    {
      if editingProduct.Some? {
        calls := HandleUpdateProduct(fields, write, refetch);
      } else {
        calls := HandleAddProduct(user, fields, write, refetch);
      }
    }

    /** Typing in the search box or choosing a category filter changes what is listed,
        not the aggregates, which are taken over the whole list. */
    method SetSearchTerm(term: string)
      modifies this
      ensures Snapshot() == old(Snapshot()).(searchTerm := term)
      ensures TotalProducts() == old(TotalProducts()) && InventoryValue() == old(InventoryValue())
      ensures LowStockItems() == old(LowStockItems())
    {
      searchTerm := term;
    }

    method SetSelectedCategory(category: string)
      modifies this
      ensures Snapshot() == old(Snapshot()).(selectedCategory := category)
      ensures TotalProducts() == old(TotalProducts()) && InventoryValue() == old(InventoryValue())
      ensures LowStockItems() == old(LowStockItems())
    {
      selectedCategory := category;
    }

    method SetViewMode(mode: ViewMode)
      modifies this
      ensures Snapshot() == old(Snapshot()).(viewMode := mode)
    {
      viewMode := mode;
    }
  }

  /** The form was last rendered with the dashboard's current `editingProduct` as its prop. */
  predicate InSync(dash: Dashboard, form: ProductForm.Form)
    reads dash, form
  {
    form.product == dash.editingProduct
  }

  /** Mounting the dashboard for a signed-in user: the user effect fetches the list, and only
      once that fetch has turned `loading` off does the dashboard render, mounting the form
      with no product. The two start in sync, with an empty buffer and the panel off. */
  method Mount(user: string, o: FetchOutcome) returns (dash: Dashboard, form: ProductForm.Form, calls: seq<StoreCall>)
    ensures fresh(dash) && fresh(form)
    ensures calls == [Select]
    ensures InSync(dash, form)
    ensures dash.Snapshot() == State(Fetched([], o), false, "", AllCategories, Grid, false, None, None, false)
    ensures form.data == ProductForm.Defaults && !form.showImageSuggestions
  {
    dash := new Dashboard();
    calls := dash.UserChanged(Some(user), o);
    form := new ProductForm.Form(dash.editingProduct);
  }

  /** A card button pressed: the dashboard takes the event and the form sees the new
      `product` prop on the next render. */
  method CardButtonPressed(dash: Dashboard, form: ProductForm.Form, p: Product, b: ProductCard.Button)
    requires InSync(dash, form)
    modifies dash, form
    ensures InSync(dash, form)
    ensures form.showImageSuggestions == old(form.showImageSuggestions)
    ensures b == ProductCard.EditButton ==> (
      dash.Snapshot() == old(dash.Snapshot()).(editingProduct := Some(p), isFormOpen := true) &&
      form.data == (if old(dash.editingProduct) == Some(p) then old(form.data) else ProductForm.FromProduct(p)))
    ensures b == ProductCard.DeleteButton ==> (
      dash.Snapshot() == old(dash.Snapshot()).(deleteProductId := Some(p.id)) &&
      form.data == old(form.data))
  {
    dash.HandleCardEvent(ProductCard.Press(p, b));
    form.ReceiveProduct(dash.editingProduct);
  }

  /** "Add Product": the form opens in create mode; its buffer returns to the defaults only
      if it was showing a product before. */
  method AddPressed(dash: Dashboard, form: ProductForm.Form)
    requires InSync(dash, form)
    modifies dash, form
    ensures InSync(dash, form)
    ensures dash.Snapshot() == old(dash.Snapshot()).(editingProduct := None, isFormOpen := true)
    ensures form.data == (if old(dash.editingProduct).None? then old(form.data) else ProductForm.Defaults)
    ensures form.showImageSuggestions == old(form.showImageSuggestions)
  {
    dash.OpenAddForm();
    form.ReceiveProduct(dash.editingProduct);
  }

  /** The form's submit button. The browser refuses a form that breaks its `required` or
      `min` constraints; otherwise the buffer goes to update or add (update exactly when a
      product is being edited), the form closes, editing stops and the buffer is reset. */
  method SubmitPressed(dash: Dashboard, form: ProductForm.Form, user: Option<string>,
                       write: WriteOutcome, refetch: FetchOutcome)
    returns (calls: seq<StoreCall>)
    requires InSync(dash, form)
    modifies dash, form
    ensures InSync(dash, form)
    ensures form.showImageSuggestions == old(form.showImageSuggestions)
    ensures !ProductForm.PassesConstraintValidation(old(form.data)) ==> (
      calls == [] && dash.Snapshot() == old(dash.Snapshot()) && form.data == old(form.data))
    ensures ProductForm.PassesConstraintValidation(old(form.data)) ==> form.data == ProductForm.Defaults
    ensures ProductForm.PassesConstraintValidation(old(form.data)) && old(dash.editingProduct).Some? ==>
      calls == [Update(old(dash.editingProduct).value.id, old(form.data))] + (if write.Ok? then [Select] else [])
    ensures ProductForm.PassesConstraintValidation(old(form.data)) && old(dash.editingProduct).None? ==>
      calls == (if user.None? then [] else [Insert(old(form.data), user.value)] + (if write.Ok? then [Select] else []))
    ensures ProductForm.PassesConstraintValidation(old(form.data)) && calls != [] && write.Ok? ==>
      dash.Snapshot() == old(dash.Snapshot()).(products := Fetched(old(dash.products), refetch), loading := false,
                                               formLoading := false, isFormOpen := false, editingProduct := None)
    ensures ProductForm.PassesConstraintValidation(old(form.data)) && calls != [] && write.Err? ==>
      dash.Snapshot() == old(dash.Snapshot()).(formLoading := false, isFormOpen := false, editingProduct := None)
    ensures ProductForm.PassesConstraintValidation(old(form.data)) && calls == [] ==>
      dash.Snapshot() == old(dash.Snapshot()).(isFormOpen := false, editingProduct := None)
  {
    if !ProductForm.PassesConstraintValidation(form.data) {
      return [];
    }
    var emitted := form.HandleSubmit();
    calls := dash.SubmitFields(user, emitted, write, refetch);
    dash.CloseForm();
    form.ReceiveProduct(dash.editingProduct);
  }

  /** The form's Cancel button (or the dialog closing): the form closes and editing stops.
      An edit buffer is replaced by the defaults, but a create buffer is kept as typed. */
  method CancelPressed(dash: Dashboard, form: ProductForm.Form)
    requires InSync(dash, form)
    modifies dash, form
    ensures InSync(dash, form)
    ensures dash.Snapshot() == old(dash.Snapshot()).(isFormOpen := false, editingProduct := None)
    ensures old(dash.editingProduct).None? ==> form.data == old(form.data)
    ensures old(dash.editingProduct).Some? ==> form.data == ProductForm.Defaults
    ensures form.showImageSuggestions == old(form.showImageSuggestions)
  {
    dash.CloseForm();
    form.ReceiveProduct(dash.editingProduct);
  }

  /** A whole session: mount, press Delete on a card, confirm. A non-empty id is deleted and
      the list refetched after a success; the search, filter and view mode are untouched. */
  method DeleteAfterMount(user: string, o: FetchOutcome, p: Product, delete: WriteOutcome, refetch: FetchOutcome)
    returns (calls: seq<StoreCall>)
    ensures p.id != "" ==> calls == [Delete(p.id)] + (if delete.Ok? then [Select] else [])
    ensures p.id == "" ==> calls == []
  {
    var dash, form, fetch := Mount(user, o);
    CardButtonPressed(dash, form, p, ProductCard.DeleteButton);
    calls := dash.ConfirmDelete(delete, refetch);
    assert !dash.DeleteDialogOpen();
    assert dash.searchTerm == "" && dash.selectedCategory == AllCategories && dash.viewMode == Grid;
  }
}
