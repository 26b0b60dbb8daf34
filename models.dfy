/** The records shared by the catalog, the cart and the listing page. */
module Models {

  /** A catalog product. Money is kept in integer cents (129.99 is 12999) so that sums
      of prices are exact; the rating is kept in tenths (4.8 is 48). */
  datatype Product = Product(
    id: int,
    name: string,
    description: string,
    price: int,
    image: string,
    category: string,
    featured: bool,
    inStock: bool,
    rating: int)

  /** One line of the cart: a product and how many of it. */
  datatype CartItem = CartItem(product: Product, quantity: int)

  /** The extended price of one cart line, in cents. */
  function LineTotal(item: CartItem): int
  {
    item.product.price * item.quantity
  }
}

/** The usual optional value: `None` stands for TypeScript's `undefined`. */
module Wrappers {
  datatype Option<T> = None | Some(value: T)
}
