/** Identifiers and failure-carrying wrappers shared by the storefront modules. */
module Common {

  /** Primary keys of the `users`, `products`, `carts`, `cart_items`, `orders`
      and `order_items` tables (auto-increment, so natural numbers). */
  type UserId = nat
  type ProductId = nat
  type CartId = nat
  type ItemId = nat
  type OrderId = nat

  datatype Option<+T> = None | Some(value: T)

  /** The outcome of a request handler: a value, or the error response it sends. */
  datatype Result<+T, +E> = Ok(value: T) | Err(error: E)

  /** `max` on reals, as `Math.max` / PHP `max` on two numbers. */
  function Max(a: real, b: real): (r: real)
    ensures r >= a && r >= b
    ensures r == a || r == b
  {
    if a >= b then a else b
  }

  /** `Math.max` on two integers. */
  function MaxInt(a: int, b: int): (r: int)
    ensures r >= a && r >= b
    ensures r == a || r == b
  {
    if a >= b then a else b
  }

  /** `min` on two integers. */
  function MinInt(a: int, b: int): (r: int)
    ensures r <= a && r <= b
    ensures r == a || r == b
  {
    if a <= b then a else b
  }
}
