/** The records shared by the stores and the screens: dishes with their size
    variants and add-ons, cart lines, addresses, payment methods and orders.
    Catalogue fields that no logic reads (images, ratings) are kept only where
    they are part of a record the stores copy verbatim. */
module Types {

  datatype Option<+T> = None | Some(value: T)

  /** A size variant of a dish; `price` is added to the dish's base price. */
  datatype DishSize = DishSize(id: string, name: string, price: int)

  /** An add-on (sauce, topping); `price` is added once per unit. */
  datatype DishOption = DishOption(id: string, name: string, price: int)

  datatype Dish = Dish(
    id: string,
    restaurantId: string,
    name: string,
    description: string,
    ingredients: string,
    image: string,
    price: int,
    category: string,
    sizes: Option<seq<DishSize>>,
    options: Option<seq<DishOption>>,
    popular: Option<bool>)

  /** One configured line of the cart. `totalPrice` is derived from the other
      fields (see Pricing.PriceConsistent). */
  datatype CartItem = CartItem(
    id: string,
    dish: Dish,
    quantity: int,
    selectedSize: Option<DishSize>,
    selectedOptions: Option<seq<DishOption>>,
    totalPrice: int)

  datatype Address = Address(
    id: string,
    caption: string,  // `label` in the source (a reserved word here)
    street: string,
    building: string,
    apartment: Option<string>,
    floor: Option<string>,
    instructions: Option<string>)

  datatype PaymentKind = Card | Cash | ApplePay | GooglePay

  datatype PaymentMethod = PaymentMethod(
    id: string,
    kind: PaymentKind,
    caption: string,  // `label` in the source (a reserved word here)
    last4: Option<string>,
    icon: string)

  datatype OrderStatus = Pending | Confirmed | Preparing | Delivering | Delivered

  /** An order as the orders store creates it: only the fields it sets. */
  datatype Order = Order(
    id: string,
    items: seq<CartItem>,
    total: int,
    address: Address,
    paymentMethod: PaymentMethod,
    deliveryTime: string,
    comment: Option<string>,
    status: OrderStatus,
    estimatedDeliveryTime: Option<string>,
    createdAt: string)
}
