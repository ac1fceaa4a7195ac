/**
 * The payment step of checkout: the amounts it shows (product price, shipping,
 * total) and placing the order, which records that total and then empties the
 * cart. Amounts are integer cents.
 */
module Payment {
  import opened Wrappers
  import opened Orders
  import opened CartActions

  function LineTotal(item: OrderItem): int {
    item.price * item.quantity
  }

  /** The `reduce` over the cart: price × quantity summed from the first line to the last. */
  function Subtotal(items: seq<OrderItem>): (s: int)
    ensures |items| == 1 ==> s == LineTotal(items[0])
    ensures (forall i :: 0 <= i < |items| ==> LineTotal(items[i]) == 0) ==> s == 0
  {
    if items == [] then 0 else Subtotal(items[..|items| - 1]) + LineTotal(items[|items| - 1])
  }

  /** The subtotal of two carts laid end to end is the sum of their subtotals. */
  lemma {:induction false} SubtotalAppend(a: seq<OrderItem>, b: seq<OrderItem>)
    ensures Subtotal(a + b) == Subtotal(a) + Subtotal(b)
    decreases |b|
  {
    if b != [] {
      var b' := b[..|b| - 1];
      assert (a + b)[..|a + b| - 1] == a + b';
      SubtotalAppend(a, b');
    } else {
      assert a + b == a;
    }
  }

  /** The subtotal counts each line once: the first line plus the subtotal of the rest. */
  lemma SubtotalFirstLine(items: seq<OrderItem>)
    requires items != []
    ensures Subtotal(items) == LineTotal(items[0]) + Subtotal(items[1..])
  {
    assert items == [items[0]] + items[1..];
    SubtotalAppend([items[0]], items[1..]);
    assert [items[0]][..0] == [];
  }

  /** With no negative prices or quantities the subtotal is not negative. */
  lemma {:induction false} SubtotalNonNegative(items: seq<OrderItem>)
    requires forall i :: 0 <= i < |items| ==> items[i].price >= 0 && items[i].quantity >= 0
    ensures Subtotal(items) >= 0
  {
    if items != [] {
      SubtotalNonNegative(items[..|items| - 1]);
      assert LineTotal(items[|items| - 1]) >= 0;
    }
  }

  /** `shippingMethod?.price || 0`: the method's price, or 0 when no method was passed. */
  function ShippingCost(m: Option<ShippingMethod>): (c: int)
    ensures m.None? ==> c == 0
    ensures m.Some? ==> c == m.value.price
  {
    match m
    case None => 0
    case Some(sm) => if sm.price != 0 then sm.price else 0
  }

  /** The total shown: the subtotal, plus the method's price when a method was passed. */
  function Total(items: seq<OrderItem>, m: Option<ShippingMethod>): (t: int)
    ensures m.None? ==> t == Subtotal(items)
    ensures m.Some? ==> t == Subtotal(items) + m.value.price
  {
    Subtotal(items) + ShippingCost(m)
  }

  /** How the shipping row reads: 'Freeship', or an amount. */
  datatype ShippingDisplay = Freeship | Charged(cents: int)

  function ShowShipping(cost: int): (d: ShippingDisplay)
    ensures d == Freeship <==> cost == 0
    ensures d.Charged? ==> d.cents == cost
  {
    if cost == 0 then Freeship else Charged(cost)
  }

  /** The payload the screen hands to `createOrder`: the cart as it is, the route's address and method, the total shown. */
  function PlacedPayload(items: seq<OrderItem>, address: ShippingAddress, m: ShippingMethod): (p: OrderPayload)
    ensures p.items == items && p.shippingAddress == address && p.shippingMethod == m
    ensures p.total == Subtotal(items) + m.price
  {
    OrderPayload(items, address, m, Total(items, Some(m)))
  }

  /**
   * `handlePlaceOrder`: `createOrder` first, then `clearCart`. The order holds
   * the items as they were before the cart was cleared and the total the screen
   * showed; the payment method and card chosen on the screen are not recorded.
   */
  method PlaceOrder(cart: CartStore, store: OrderStore, address: ShippingAddress, m: ShippingMethod,
                    paymentMethod: string, selectedCard: string, id: string, date: string)
    modifies cart, store
    ensures store.orders == old(store.orders) + [Stamp(PlacedPayload(old(cart.items), address, m), id, date)]
    ensures cart.items == []
  {
    store.CreateOrder(PlacedPayload(cart.items, address, m), id, date);
    cart.ClearCart();
  }

  /** Two shirts at 10.00 and one at 5.00 cost 25.00; with 9.90 shipping the order total is 34.90. */
  lemma TotalExample(a: OrderItem, b: OrderItem, m: ShippingMethod)
    requires a.price == 1000 && a.quantity == 2 && b.price == 500 && b.quantity == 1
    requires m.price == 990
    ensures Subtotal([a, b]) == 2500
    ensures Total([a, b], Some(m)) == 3490
  {
    assert [a, b][..1] == [a];
    assert [a][..0] == [];
    assert Subtotal([a]) == 2000;
  }
}
