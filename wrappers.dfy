/** Values shared by every handler: optional request fields and HTTP outcomes. */
module Wrappers {

  /** A request field that may be absent from the JSON body. */
  datatype Option<+T> = None | Some(value: T)

  /** The outcome of a handler: a 200 body, a 400 or a 404 with its error text. */
  datatype Response<+T> = Ok(body: T) | BadRequest(error: string) | NotFound(error: string)

  /** JavaScript truthiness of a string field: absent and "" are falsy. */
  predicate PresentString(s: Option<string>)
  {
    s.Some? && s.value != ""
  }

  /** JavaScript truthiness of a numeric field: absent and 0 are falsy. */
  predicate PresentNumber(n: Option<int>)
  {
    n.Some? && n.value != 0
  }

  const NeedProductAndQuantity := "Need product and quantity"
  const ProductNotFound := "Product not found"
  const CartUpdated := "Cart updated"
  const ItemAdded := "Item added to cart"
  const ItemRemoved := "Item removed"
  const CartEmpty := "Cart empty"
  const NeedNameAndEmail := "Need name and email"
}
