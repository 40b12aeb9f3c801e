/**
 * The shapes shared by the browser client and the product service:
 * a product, a basket line, the product payload the form submits,
 * and the value a rejected promise carries.
 */
module Types {
  import opened Wrappers

  /** A stored product. Prices are exact reals, not floating point. */
  datatype Product = Product(id: int, name: string, price: real, description: Option<string>, stock: int)

  /** One basket line; `product` is the product as embedded in the last basket read. */
  datatype BasketItem = BasketItem(id: int, productId: int, quantity: int, product: Product)

  /** The product payload the client sends; prices and stock are JavaScript numbers. */
  datatype ProductCreate = ProductCreate(name: string, price: real, description: string, stock: real)

  /**
   * What a rejected promise carries: an `Error` object with its message,
   * another object (which may have a `message` property of its own), or
   * `null`/`undefined`.
   */
  datatype Thrown = ErrorValue(message: string) | OtherValue(ownMessage: Option<string>) | Nullish

  /**
   * The text a basket handler reports for a rejection: the message of an
   * `Error`, and the handler's own fallback text for anything else, even an
   * object that carries a `message` property.
   */
  function MessageOr(err: Thrown, fallback: string): string
  {
    match err
    case ErrorValue(msg) => msg
    case _ => fallback
  }
}
