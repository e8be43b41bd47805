/**
 * The rows the menu and the dashboard read from the store: products,
 * categories and restaurant tables. Prices are integers in minor currency units.
 */
module Catalog {
  import opened Wrappers

  datatype Product = Product(
    id: string,
    name: string,
    description: Option<string>,
    price: int,
    categoryId: Option<string>,
    available: bool,
    imageUrl: Option<string>)

  datatype Category = Category(id: string, name: string, sortOrder: int)

  /** A table row as the menu page loads it by its QR token. */
  datatype RestaurantTable = RestaurantTable(id: string, tableNumber: int, userId: string)
}
