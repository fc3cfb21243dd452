/** The display decisions of one product card: stock flags, the stock colour, the warning
    icon, the picture, and what the Edit and Delete buttons hand to the dashboard. */
module ProductCard {
  import opened Results
  import opened Catalog

  /** `isLowStock`: below the fixed threshold. */
  predicate IsLowStock(p: Product)
    ensures p.quantity == LowStockThreshold - 1 ==> IsLowStock(p)
    ensures p.quantity == LowStockThreshold ==> !IsLowStock(p)
  {
    p.quantity < LowStockThreshold
  }

  /** `isOutOfStock`: exactly zero in stock. */
  predicate IsOutOfStock(p: Product)
    ensures IsOutOfStock(p) ==> IsLowStock(p)
  {
    p.quantity == 0
  }

  /** The "OUT OF STOCK" overlay over the picture. */
  predicate ShowsOutOfStockOverlay(p: Product)
    ensures ShowsOutOfStockOverlay(p) <==> StockColourOf(p) == Destructive
    ensures ShowsOutOfStockOverlay(p) ==> !ShowsWarningIcon(p)
  {
    IsOutOfStock(p)
  }

  /** The warning icon beside the stock count: low stock that is not yet out of stock. */
  function ShowsWarningIcon(p: Product): (shown: bool)
    ensures shown <==> p.quantity < 10 && p.quantity != 0
    ensures p.quantity == 5 ==> shown
    ensures p.quantity == 0 || p.quantity == 10 ==> !shown
  {
    IsLowStock(p) && !IsOutOfStock(p)
  }

  datatype StockColour = Destructive | Orange | Muted

  /** The colour of the stock count. */
  function StockColourOf(p: Product): (c: StockColour)
    ensures c == Destructive <==> p.quantity == 0
    ensures c == Orange <==> p.quantity < 10 && p.quantity != 0
    ensures c == Muted <==> p.quantity >= 10
    ensures c == Orange <==> ShowsWarningIcon(p)
  {
    if IsOutOfStock(p) then Destructive
    else if IsLowStock(p) then Orange
    else Muted
  }

  /** The picture area: the product's own image, or the package placeholder icon. */
  datatype Picture = Photo(src: string) | Placeholder

  /** `product.image_url ? <img> : <Package>`: an absent or empty URL shows the placeholder. */
  function PictureOf(p: Product): (pic: Picture)
    ensures pic.Photo? <==> p.imageUrl.Some? && p.imageUrl.value != ""
    ensures pic.Photo? ==> pic.src == p.imageUrl.value
  {
    match p.imageUrl
    case Some(url) => if url != "" then Photo(url) else Placeholder
    case None => Placeholder
  }

  datatype Button = EditButton | DeleteButton

  /** What a card hands to its parent when one of its buttons is pressed. */
  datatype CardEvent = EditRequested(product: Product) | DeleteRequested(id: string)

  /** Edit hands over the whole product; Delete hands over only its id. */
  function Press(p: Product, b: Button): (e: CardEvent)
    ensures e.EditRequested? <==> b == EditButton
    ensures e.EditRequested? ==> e.product == p
    ensures e.DeleteRequested? ==> e.id == p.id
  {
    match b
    case EditButton => EditRequested(p)
    case DeleteButton => DeleteRequested(p.id)
  }
}
