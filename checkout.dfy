/** The checkout screen: the customer's choices (address, payment method,
    delivery time, comment), the amount due, and placing the order, which
    records the cart in the order history and then empties the cart. */
module Checkout {
  import opened Types
  import opened CartContext
  import opened OrdersContext
  import MockData

  /** Flat delivery fee added to every order. */
  const DeliveryFee: int := 150

  datatype DeliveryChoice = Asap | Scheduled

  /** The delivery time as the orders store receives it. */
  function DeliveryTimeValue(choice: DeliveryChoice): (s: string)
    ensures s == "asap" <==> choice == Asap
  {
    match choice
    case Asap => "asap"
    case Scheduled => "scheduled"
  }

  /** An empty comment is passed on as absent, any other verbatim. */
  function CommentArgument(comment: string): (c: Option<string>)
    ensures c.None? <==> comment == ""
    ensures c.Some? ==> c.value == comment
  {
    if comment == "" then None else Some(comment)
  }

  /** The amount shown and charged: the cart total plus the delivery fee. */
  function AmountDue(items: seq<CartItem>): (r: int)
    ensures AllPriceConsistent(items) ==> r == RecomputedTotal(items) + DeliveryFee
    ensures items == [] ==> r == DeliveryFee
  {
    Total(items) + DeliveryFee
  }

  /** The example checkout: one line of two medium Margheritas with extra
      cheese (1700) plus the fee. */
  lemma CheckoutExample(id: string)
    ensures var line := NewItem(id, MockData.Margherita, 2, Some(MockData.Medium), Some([MockData.ExtraCheese]));
            AmountDue([line]) == 1850
  {
    var line := NewItem(id, MockData.Margherita, 2, Some(MockData.Medium), Some([MockData.ExtraCheese]));
    MockData.MargheritaLineExample(id);
    TotalSnoc([], line);
    assert [] + [line] == [line];
  }

  /** Adding a line raises the amount due by exactly that line's price. */
  lemma AmountDueAfterAdd(items: seq<CartItem>, line: CartItem)
    ensures AmountDue(items + [line]) == AmountDue(items) + line.totalPrice
  {
  }

  class CheckoutScreen {
    var selectedAddress: Address
    var deliveryTime: DeliveryChoice
    var selectedPayment: PaymentMethod
    var comment: string

    /** First saved address, first payment method, as soon as possible,
        no comment. */
    constructor ()
      ensures selectedAddress == MockData.Addresses[0]
      ensures selectedPayment == MockData.PaymentMethods[0]
      ensures deliveryTime == Asap && comment == ""
    {
      selectedAddress := MockData.Addresses[0];
      selectedPayment := MockData.PaymentMethods[0];
      deliveryTime := Asap;
      comment := "";
    }

    /** Records the cart as a new order (total = cart total + fee), then
        empties the cart; returns the order so its id can be shown. */
    method PlaceOrder(cart: CartStore, orders: OrdersStore, orderId: string, createdAt: string)
      returns (order: Order)
      requires cart.Valid()
      modifies cart, orders
      ensures order == NewOrder(orderId, old(cart.items), old(cart.GetTotal()) + DeliveryFee,
                                selectedAddress, selectedPayment, DeliveryTimeValue(deliveryTime),
                                CommentArgument(comment), createdAt)
      ensures order.total == AmountDue(old(cart.items))
      ensures orders.orders == [order] + old(orders.orders)
      ensures orders.GetOrderById(orderId) == Some(order)
      ensures cart.Valid() && cart.items == []
      ensures cart.GetTotal() == 0 && cart.GetItemsCount() == 0
    {
      var subtotal := cart.GetTotal();
      var total := subtotal + DeliveryFee;
      order := orders.AddOrder(orderId, cart.items, total, selectedAddress, selectedPayment,
                               DeliveryTimeValue(deliveryTime), CommentArgument(comment), createdAt);
      cart.ClearCart();
    }
  }
}
