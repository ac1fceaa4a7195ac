/**
 * The order store: an append-only list of orders. Placing an order copies the
 * caller's items, address, shipping method and total, and stamps an id, a date
 * and the status `pending`. Prices and totals are integer cents.
 */
module Orders {
  import opened Wrappers

  /** A cart line as it is copied into an order; `image` is None when the product had no image. */
  datatype OrderItem = OrderItem(
    id: int,
    title: string,
    price: int,
    image: Option<string>,
    quantity: int,
    size: Option<string>,
    color: Option<string>)

  datatype ShippingAddress = ShippingAddress(
    firstName: string,
    lastName: string,
    country: string,
    street: string,
    city: string,
    state: string,
    zipCode: string,
    phone: string)

  datatype ShippingMethod = ShippingMethod(id: string, name: string, price: int, deliveryTime: string)

  datatype OrderStatus = Pending | Processing | Shipped | Delivered

  /** What the caller of `createOrder` supplies: an order without id, date and status. */
  datatype OrderPayload = OrderPayload(
    items: seq<OrderItem>,
    shippingAddress: ShippingAddress,
    shippingMethod: ShippingMethod,
    total: int)

  datatype Order = Order(
    id: string,
    items: seq<OrderItem>,
    shippingAddress: ShippingAddress,
    shippingMethod: ShippingMethod,
    total: int,
    date: string,
    status: OrderStatus)

  /** The part of an order that the caller controls. */
  function PayloadOf(o: Order): OrderPayload {
    OrderPayload(o.items, o.shippingAddress, o.shippingMethod, o.total)
  }

  /**
   * The order `createOrder` builds: the payload's fields as given, the id and
   * date the store generates, and status pending whatever the payload holds.
   */
  function Stamp(p: OrderPayload, id: string, date: string): (o: Order)
    ensures PayloadOf(o) == p
    ensures o.id == id && o.date == date && o.status == Pending
  {
    Order(id, p.items, p.shippingAddress, p.shippingMethod, p.total, date, Pending)
  }

  /** The actions the order store reacts to: there is only one, and it adds an order. */
  datatype OrderAction = CreateOrder(payload: OrderPayload, id: string, date: string)

  /** The store's reducer on a plain list of orders. */
  function Reduce(orders: seq<Order>, a: OrderAction): seq<Order> {
    orders + [Stamp(a.payload, a.id, a.date)]
  }

  /** The orders after a whole log of actions, applied in order. */
  function ReduceAll(orders: seq<Order>, log: seq<OrderAction>): seq<Order>
    decreases |log|
  {
    if log == [] then orders else ReduceAll(Reduce(orders, log[0]), log[1..])
  }

  /**
   * No action removes or edits an order: after any log the earlier orders are
   * still there, in place, and each action has added exactly one pending order
   * that carries its payload.
   */
  lemma {:induction false} ReduceAllOnlyAppends(orders: seq<Order>, log: seq<OrderAction>)
    ensures |ReduceAll(orders, log)| == |orders| + |log|
    ensures ReduceAll(orders, log)[..|orders|] == orders
    ensures forall j :: |orders| <= j < |ReduceAll(orders, log)| ==>
      ReduceAll(orders, log)[j].status == Pending &&
      PayloadOf(ReduceAll(orders, log)[j]) == log[j - |orders|].payload
    decreases |log|
  {
    if log != [] {
      var next := Reduce(orders, log[0]);
      ReduceAllOnlyAppends(next, log[1..]);
      var r := ReduceAll(orders, log);
      assert r == ReduceAll(next, log[1..]);
      assert r[..|orders|] == r[..|next|][..|orders|] == next[..|orders|] == orders;
      forall j | |orders| <= j < |r|
        ensures r[j].status == Pending && PayloadOf(r[j]) == log[j - |orders|].payload
      {
        if j == |orders| {
          assert r[j] == r[..|next|][j] == next[j] == Stamp(log[0].payload, log[0].id, log[0].date);
        } else {
          assert log[j - |orders|] == log[1..][j - |next|];
        }
      }
    }
  }

  /** The order store of the app. */
  class OrderStore {
    var orders: seq<Order>

    /** The initial state: no orders. */
    constructor ()
      ensures orders == []
    {
      orders := [];
    }

    /** `createOrder`: push the stamped order; nothing else changes. */
    method CreateOrder(payload: OrderPayload, id: string, date: string)
      modifies this
      ensures orders == Reduce(old(orders), OrderAction.CreateOrder(payload, id, date))
      ensures |orders| == |old(orders)| + 1 && orders[..|old(orders)|] == old(orders)
      ensures orders[|orders| - 1] == Stamp(payload, id, date)
    {
      orders := orders + [Stamp(payload, id, date)];
    }
  }
}
