/**
 * The cart store as the screens see it. Its reducer is not part of this model:
 * the screens' handlers are modelled by the action each one dispatches, and the
 * only effect given to the store is that of `clearCart`, which empties it.
 */
module CartActions {
  import opened Orders

  /** The cart actions the screens dispatch, with their payloads. */
  datatype CartAction =
    | AddToCart(item: OrderItem)
    | UpdateQuantity(id: int, quantity: int)
    | RemoveFromCart(id: int)
    | ClearCart

  /** The cart's line items, in display order. */
  class CartStore {
    var items: seq<OrderItem>

    /** A cart holding the given lines (whatever earlier actions produced). */
    constructor (lines: seq<OrderItem>)
      ensures items == lines
    {
      items := lines;
    }

    /** `clearCart`: the cart is emptied. */
    method ClearCart()
      modifies this
      ensures items == []
    {
      items := [];
    }
  }
}
