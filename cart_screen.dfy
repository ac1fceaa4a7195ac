/**
 * The cart screen: each line's colour label and quantity stepper, and the
 * summary under the list (product price, free shipping, total).
 */
module CartScreen {
  import opened Wrappers
  import opened Orders
  import opened CartActions
  import opened Payment

  const CreamColor := "#E5C1B2"

  /** The colour shown for a line: 'Cream' for the cream swatch, 'Other' for anything else or no colour. */
  function ColorLabel(color: Option<string>): (name: string)
    ensures name == "Cream" <==> color == Some(CreamColor)
    ensures name == "Cream" || name == "Other"
  {
    if color == Some(CreamColor) then "Cream" else "Other"
  }

  /** The minus button: one less while more than one is left, otherwise the line is removed. */
  function MinusPressed(item: OrderItem): (a: CartAction)
    ensures a.UpdateQuantity? <==> item.quantity > 1
    ensures a.RemoveFromCart? <==> item.quantity <= 1
    ensures a.UpdateQuantity? ==> a.id == item.id && a.quantity == item.quantity - 1
    ensures a.UpdateQuantity? ==> a.quantity >= 1
    ensures a.RemoveFromCart? ==> a.id == item.id
  {
    if item.quantity > 1 then UpdateQuantity(item.id, item.quantity - 1) else RemoveFromCart(item.id)
  }

  /** The plus button: always one more. */
  function PlusPressed(item: OrderItem): (a: CartAction)
    ensures a.UpdateQuantity? && a.id == item.id && a.quantity == item.quantity + 1
  {
    UpdateQuantity(item.id, item.quantity + 1)
  }

  /** Minus right after plus brings the line back to the quantity it had (for a line of at least one). */
  lemma MinusUndoesPlus(item: OrderItem)
    requires item.quantity >= 1
    ensures MinusPressed(item.(quantity := PlusPressed(item).quantity)) == UpdateQuantity(item.id, item.quantity)
  {
  }

  /** What the screen shows below the header: the empty message, or the summary with the checkout button. */
  datatype CartView =
    | EmptyMessage
    | Summary(productPrice: int, shippingLabel: string, total: int)

  function ViewCart(items: seq<OrderItem>): (v: CartView)
    ensures v.EmptyMessage? <==> items == []
    ensures v.Summary? ==> v.productPrice == Subtotal(items) && v.total == v.productPrice
    ensures v.Summary? ==> v.shippingLabel == "Freeship"
  {
    if items == [] then EmptyMessage else Summary(Subtotal(items), "Freeship", Subtotal(items))
  }

  /**
   * The cart's total is what the payment step charges when shipping is free:
   * both screens sum price × quantity the same way.
   */
  lemma CartTotalIsPaymentTotalWithFreeShipping(items: seq<OrderItem>, free: ShippingMethod)
    requires items != [] && free.price == 0
    ensures ViewCart(items).total == Total(items, Some(free))
  {
  }
}
