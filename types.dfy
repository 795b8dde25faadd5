/** Shared record types of the inventory app (a product of the catalog and a
    line of an in-progress sale). Money is a `real`; counts are `int`. */
module Types {

  datatype Option<+T> = None | Some(value: T)

  /** A catalog entry. `id` is the key of its document in the store. */
  datatype Product = Product(
    id: string,
    barcode: string,
    ean: string,
    name: string,
    description: string,
    mrp: real,
    costPriceCode: string,
    stock: int,
    lowInventoryFactor: int)

  /** One row of the sale cart: a snapshot of the product taken when the row
      was created, the quantity to sell and the unit price charged. */
  datatype CartItem = CartItem(product: Product, quantity: int, salePrice: real)
}
