/** The product record shared by the dashboard, the product card and the product form. */
module Catalog {
  import opened Results

  /** A stored product. `price` is held in minor currency units (paise) instead of a float. */
  datatype Product = Product(
    id: string,
    name: string,
    price: int,
    quantity: int,
    category: string,
    description: Option<string>,
    imageUrl: Option<string>,
    createdAt: string,
    updatedAt: string)

  /** The editable fields of a product: what the form emits and what the store receives
      on insert and update (no id, no timestamps). */
  datatype ProductFields = ProductFields(
    name: string,
    price: int,
    quantity: int,
    category: string,
    description: string,
    imageUrl: string)

  /** Quantities strictly below this are low stock. */
  const LowStockThreshold: int := 10

  /** The category-filter value that lets every product through. */
  const AllCategories: string := "all"

  /** The categories the form offers. */
  const Categories: seq<string> := [
    "Electronics", "Clothing", "Food & Beverages", "Home & Garden", "Sports & Fitness",
    "Books & Media", "Health & Beauty", "Toys & Games", "Automotive", "Office Supplies"]
}
