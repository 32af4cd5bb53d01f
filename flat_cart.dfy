/** The flat cart that screens/CartScreen.js and components/CartIcon.js read
    from context/CartContext.js. That provider is not part of this model: the
    screens only ISSUE its operations, and what the provider does with them is
    left open. */
module FlatCart {
  import opened Catalog

  /** A flat cart item: a product with a `quantity` beside it. */
  datatype FlatItem = FlatItem(id: string, nombre: string, precio: real, quantity: int)

  /** A call into the provider, recorded with its arguments only. */
  datatype CartRequest =
    | AddToCart(product: Product)
    | UpdateQuantity(id: string, quantity: int)
    | RemoveFromCart(id: string)
    | ClearCart
}
