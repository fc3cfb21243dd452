/** The product form: an edit buffer for one product, filled from defaults in create mode
    or from the supplied product in edit mode, edited field by field, emitted on submit. */
module ProductForm {
  import opened Results
  import opened Catalog
  import Strings

  /** The buffer of an empty form: empty text and zero price and quantity. */
  const Defaults: ProductFields := ProductFields("", 0, 0, "", "", "")

  /** `value || ''`: an absent text becomes the empty string. */
  function OrEmpty(o: Option<string>): (s: string)
    ensures o.Some? ==> s == o.value
    ensures o.None? ==> s == ""
  {
    match o
    case Some(v) => v
    case None => ""
  }

  /** The buffer of the edit form for p: its editable fields, absent texts as "". */
  function FromProduct(p: Product): (f: ProductFields)
    ensures f.name == p.name && f.price == p.price && f.quantity == p.quantity
    ensures f.category == p.category
    ensures f.description == "" <==> p.description.None? || p.description.value == ""
    ensures f.imageUrl == "" <==> p.imageUrl.None? || p.imageUrl.value == ""
    ensures p.description.Some? ==> f.description == p.description.value
    ensures p.imageUrl.Some? ==> f.imageUrl == p.imageUrl.value
  {
    ProductFields(p.name, p.price, p.quantity, p.category, OrEmpty(p.description), OrEmpty(p.imageUrl))
  }

  /** What the initialisation effect writes into the buffer for the `product` prop. */
  function Initial(product: Option<Product>): (f: ProductFields)
    ensures product.None? ==> f == Defaults
    ensures product.Some? ==> f == FromProduct(product.value)
  {
    match product
    case Some(p) => FromProduct(p)
    case None => Defaults
  }

  const ElectronicsImages: seq<string> := [
    "https://images.unsplash.com/photo-1498049794561-7780e7231661?w=400",
    "https://images.unsplash.com/photo-1560472354-b33ff0c44a43?w=400",
    "https://images.unsplash.com/photo-1511707171634-5f897ff02aa9?w=400"]

  /** The suggested pictures, by category. Only five categories have their own. */
  const SuggestedImages: map<string, seq<string>> := map[
    "Electronics" := ElectronicsImages,
    "Clothing" := [
      "https://images.unsplash.com/photo-1441986300917-64674bd600d8?w=400",
      "https://images.unsplash.com/photo-1445205170230-053b83016050?w=400",
      "https://images.unsplash.com/photo-1434389677669-e08b4cac3105?w=400"],
    "Food & Beverages" := [
      "https://images.unsplash.com/photo-1504674900247-0877df9cc836?w=400",
      "https://images.unsplash.com/photo-1567620905732-2d1ec7ab7445?w=400",
      "https://images.unsplash.com/photo-1482049016688-2d3e1b311543?w=400"],
    "Home & Garden" := [
      "https://images.unsplash.com/photo-1586023492125-27b2c045efd7?w=400",
      "https://images.unsplash.com/photo-1513475382585-d06e58bcb0e0?w=400",
      "https://images.unsplash.com/photo-1484101403633-562f891dc89a?w=400"],
    "Sports & Fitness" := [
      "https://images.unsplash.com/photo-1571019613454-1cb2f99b2d8b?w=400",
      "https://images.unsplash.com/photo-1517836357463-d25dfeac3438?w=400",
      "https://images.unsplash.com/photo-1538805060514-97d9cc17730c?w=400"]]

  /** `getSuggestedImages`: the category's own list when it has one, the Electronics list
      otherwise (also for an empty category). */
  function SuggestionsFor(category: string): (r: seq<string>)
    ensures |r| == 3
    ensures category in SuggestedImages ==> r == SuggestedImages[category]
    ensures category !in SuggestedImages ==> r == ElectronicsImages
  {
    if category == "" || category !in SuggestedImages then ElectronicsImages
    else SuggestedImages[category]
  }

  /** Of the ten offered categories, the first five have pictures of their own; the other
      five all fall back to the Electronics pictures. */
  lemma FallbackCategories()
    ensures forall i :: 0 <= i < |Categories| ==> (Categories[i] in SuggestedImages <==> i < 5)
    ensures forall i :: 5 <= i < |Categories| ==> SuggestionsFor(Categories[i]) == ElectronicsImages
  {
    assert SuggestedImages.Keys == {Categories[0], Categories[1], Categories[2], Categories[3], Categories[4]};
  }

  /** `parseInt(value) || 0`: the quantity an input text stands for; unparsable text is 0. */
  function QuantityFromInput(text: string): (q: int)
    ensures Strings.ParseInt(text).None? ==> q == 0
    ensures Strings.ParseInt(text).Some? ==> q == Strings.ParseInt(text).value
  {
    match Strings.ParseInt(text)
    case Some(v) => v
    case None => 0
  }

  /** Reading back the text the quantity field shows leaves the quantity as it was. */
  lemma QuantityInputRoundTrip(q: int)
    ensures QuantityFromInput(Strings.ShowInt(q)) == q
  {
    Strings.ParseIntReadsShowInt(q, "");
    assert Strings.ShowInt(q) + "" == Strings.ShowInt(q);
  }

  /** `parseFloat(value) || 0`: the price an input stands for, given the number the browser
      parsed from it (None for `NaN`), in minor units. */
  function PriceFromInput(parsed: Option<int>): (price: int)
    ensures parsed.None? ==> price == 0
    ensures parsed.Some? ==> price == parsed.value
  {
    match parsed
    case Some(v) => v
    case None => 0
  }

  /** The browser's constraint validation, from the `required` and `min="0"` attributes:
      the form is submitted only when it holds. */
  predicate PassesConstraintValidation(f: ProductFields)
    ensures PassesConstraintValidation(f) ==> f != Defaults
  {
    f.name != "" && f.price >= 0 && f.quantity >= 0 && f.category != ""
  }

  /** The mounted form component: its `product` prop as last seen by the initialisation
      effect, the edit buffer, and the suggested-images flag. */
  class Form {
    var product: Option<Product>
    var data: ProductFields
    var showImageSuggestions: bool

    /** Mounting: the buffer starts as the defaults, then the effect fills it from the prop. */
    constructor (product: Option<Product>)
      ensures this.product == product && data == Initial(product) && !showImageSuggestions
    {
      this.product := product;
      data := Initial(product);
      showImageSuggestions := false;
    }

    /** A render with a `product` prop: the effect reruns, and rewrites the buffer, only
        when the prop changed. */
    method ReceiveProduct(p: Option<Product>)
      modifies this
      ensures product == p && showImageSuggestions == old(showImageSuggestions)
      ensures p != old(product) ==> data == Initial(p)
      ensures p == old(product) ==> data == old(data)
    {
      if p != product {
        product := p;
        data := Initial(p);
      }
    }

    /** `handleSubmit`: hands the buffer as it is to the submit handler, then resets it. */
    method HandleSubmit() returns (emitted: ProductFields)
      modifies this
      ensures emitted == old(data) && data == Defaults
      ensures product == old(product) && showImageSuggestions == old(showImageSuggestions)
    {
      emitted := data;
      data := Defaults;
    }

    /** Picking a suggested picture writes its URL and closes the suggestion panel. */
    method HandleImageSelect(url: string)
      modifies this
      ensures data == old(data).(imageUrl := url) && !showImageSuggestions
      ensures product == old(product)
      ensures PreviewShown() <==> url != ""
      ensures !PanelShown()
    {
      data := data.(imageUrl := url);
      showImageSuggestions := false;
    }

    method SetName(value: string)
      modifies this
      ensures data == old(data).(name := value)
      ensures product == old(product) && showImageSuggestions == old(showImageSuggestions)
    {
      data := data.(name := value);
    }

    method SetPrice(parsed: Option<int>)
      modifies this
      ensures data == old(data).(price := PriceFromInput(parsed))
      ensures product == old(product) && showImageSuggestions == old(showImageSuggestions)
    {
      data := data.(price := PriceFromInput(parsed));
    }

    method SetQuantity(text: string)
      modifies this
      ensures data == old(data).(quantity := QuantityFromInput(text))
      ensures product == old(product) && showImageSuggestions == old(showImageSuggestions)
    {
      data := data.(quantity := QuantityFromInput(text));
    }

    /** Choosing a category also re-scopes the suggestions, which are read from the buffer. */
    method SetCategory(value: string)
      modifies this
      ensures data == old(data).(category := value)
      ensures product == old(product) && showImageSuggestions == old(showImageSuggestions)
      ensures SuggestedImagesShown() == SuggestionsFor(value)
    {
      data := data.(category := value);
    }

    method SetDescription(value: string)
      modifies this
      ensures data == old(data).(description := value)
      ensures product == old(product) && showImageSuggestions == old(showImageSuggestions)
    {
      data := data.(description := value);
    }

    method SetImageUrl(value: string)
      modifies this
      ensures data == old(data).(imageUrl := value)
      ensures product == old(product) && showImageSuggestions == old(showImageSuggestions)
      ensures PreviewShown() <==> value != ""
      ensures PanelShown() == old(PanelShown())
    {
      data := data.(imageUrl := value);
    }

    /** The preview picture failed to load: its URL is cleared. */
    method ImageLoadFailed()
      modifies this
      ensures data == old(data).(imageUrl := "") && !PreviewShown()
      ensures product == old(product) && showImageSuggestions == old(showImageSuggestions)
    {
      data := data.(imageUrl := "");
    }

    /** "Browse Images" flips the suggestion flag. */
    method ToggleImageSuggestions()
      modifies this
      ensures showImageSuggestions == !old(showImageSuggestions)
      ensures data == old(data) && product == old(product)
      ensures PanelShown() <==> !old(showImageSuggestions) && data.category != ""
    {
      showImageSuggestions := !showImageSuggestions;
    }

    /** The suggestion panel is on screen only with the flag set and a category chosen. */
    predicate PanelShown()
      reads this
      ensures PanelShown() ==> showImageSuggestions
      ensures PanelShown() ==> |SuggestedImagesShown()| == 3
    {
      showImageSuggestions && data.category != ""
    }

    /** The pictures the panel offers. */
    function SuggestedImagesShown(): seq<string>
      reads this
    {
      SuggestionsFor(data.category)
    }

    /** The preview appears only for a non-empty URL. */
    predicate PreviewShown()
      reads this
    {
      data.imageUrl != ""
    }
  }
}
