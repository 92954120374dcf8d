/** The orders store: the history of placed orders, newest first. Orders are
    only ever added (at the front); none is changed or removed. */
module OrdersContext {
  import opened Types

  /** The estimate shown for an order wanted as soon as possible. */
  const AsapEstimate: string := "30-40 мин"

  /** The record `addOrder` builds. The id and the creation timestamp come
      from the clock in the source and are parameters here. */
  function NewOrder(id: string, items: seq<CartItem>, total: int, address: Address,
                    paymentMethod: PaymentMethod, deliveryTime: string,
                    comment: Option<string>, createdAt: string): (o: Order)
    ensures o.status == Confirmed
    ensures deliveryTime == "asap" ==> o.estimatedDeliveryTime == Some(AsapEstimate)
    ensures deliveryTime != "asap" ==> o.estimatedDeliveryTime == Some(deliveryTime)
    ensures o.id == id && o.createdAt == createdAt
    ensures o.items == items && o.total == total && o.address == address
    ensures o.paymentMethod == paymentMethod && o.deliveryTime == deliveryTime
    ensures o.comment == comment
  {
    Order(id, items, total, address, paymentMethod, deliveryTime, comment, Confirmed,
          Some(if deliveryTime == "asap" then AsapEstimate else deliveryTime), createdAt)
  }

  /** An order with the id, or None when no order has it; which one is
      settled by FindOrderIsFirst. */
  function FindOrder(orders: seq<Order>, id: string): (r: Option<Order>)
    ensures r.None? <==> forall i :: 0 <= i < |orders| ==> orders[i].id != id
    ensures r.Some? ==> r.value.id == id && r.value in orders
  {
    if orders == [] then None
    else if orders[0].id == id then Some(orders[0])
    else FindOrder(orders[1..], id)
  }

  /** The lookup returns the first order with the id: since the history is
      newest first, the most recent of the orders that share it. */
  lemma {:induction false} FindOrderIsFirst(orders: seq<Order>, id: string, k: nat)
    requires k < |orders| && orders[k].id == id
    requires forall j :: 0 <= j < k ==> orders[j].id != id
    ensures FindOrder(orders, id) == Some(orders[k])
  {
    if k > 0 {
      FindOrderIsFirst(orders[1..], id, k - 1);
    }
  }

  class OrdersStore {
    var orders: seq<Order>

    constructor ()
      ensures orders == []
    {
      orders := [];
    }

    /** Builds the order, puts it in front of the history and returns it. */
    method AddOrder(id: string, items: seq<CartItem>, total: int, address: Address,
                    paymentMethod: PaymentMethod, deliveryTime: string,
                    comment: Option<string>, createdAt: string) returns (o: Order)
      modifies this
      ensures o == NewOrder(id, items, total, address, paymentMethod, deliveryTime, comment, createdAt)
      ensures orders == [o] + old(orders)
      ensures GetOrderById(o.id) == Some(o)
      ensures forall other :: other != id ==> GetOrderById(other) == old(GetOrderById(other))
    {
      o := NewOrder(id, items, total, address, paymentMethod, deliveryTime, comment, createdAt);
      FindAfterPrepend(o, orders, id);
      forall other | other != id
        ensures FindOrder([o] + orders, other) == FindOrder(orders, other)
      {
        FindAfterPrepend(o, orders, other);
      }
      orders := [o] + orders;
    }

    /** The stored order with the id (the most recent one, by
        FindOrderIsFirst), or None when the history has none. */
    function GetOrderById(orderId: string): (r: Option<Order>)
      reads this
      ensures r.None? <==> forall i :: 0 <= i < |orders| ==> orders[i].id != orderId
      ensures r.Some? ==> r.value.id == orderId && r.value in orders
    {
      FindOrder(orders, orderId)
    }
  }

  /** A lookup in a history with a new order in front finds that order for
      its id and sees the older history unchanged for every other id. */
  lemma FindAfterPrepend(o: Order, orders: seq<Order>, id: string)
    ensures FindOrder([o] + orders, id) == if o.id == id then Some(o) else FindOrder(orders, id)
  {
  }
}
