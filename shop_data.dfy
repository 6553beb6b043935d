/** The records the storefront receives from the REST service, as the React
    components read them. Prices are integers. */
module ShopData {
  import opened Wrappers

  datatype Category = Category(id: int, name: string)

  datatype Product = Product(
    id: int,
    name: string,
    description: Option<string>,  // None: null or missing
    price: int,
    category: Option<Category>)

  /** One entry of `cart.cartItems`. */
  datatype CartLine = CartLine(product: Product, quantity: int)

  /** A JavaScript string value in a truthiness test: null and '' are false. */
  predicate Truthy(s: Option<string>) {
    s.Some? && s.value != ""
  }
}
