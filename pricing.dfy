/** The price of a configured dish, shared by the cart (when a line is added
    or its quantity changes) and by the dish configurator (the price shown
    before adding): base price, plus the chosen size's price, plus every
    chosen add-on's price, times the quantity. A missing size or a missing
    option list contributes nothing. */
module Pricing {
  import opened Types

  /** Sum of the add-on prices, accumulated left to right as a `reduce`
      starting from 0 does. */
  function OptionsSum(opts: seq<DishOption>): (r: int)
    ensures (forall i :: 0 <= i < |opts| ==> opts[i].price >= 0) ==>
              r >= 0 && forall i :: 0 <= i < |opts| ==> r >= opts[i].price
  {
    if opts == [] then 0 else OptionsSum(opts[..|opts| - 1]) + opts[|opts| - 1].price
  }

  function SizePrice(size: Option<DishSize>): int
  {
    match size
    case None => 0
    case Some(s) => s.price
  }

  function OptionsPrice(opts: Option<seq<DishOption>>): int
  {
    match opts
    case None => 0
    case Some(s) => OptionsSum(s)
  }

  /** Price of one unit of a dish in the given configuration. */
  function UnitPrice(dish: Dish, size: Option<DishSize>, opts: Option<seq<DishOption>>): int
  {
    dish.price + SizePrice(size) + OptionsPrice(opts)
  }

  /** Price of `quantity` units of a dish in the given configuration: one
      unit costs the unit price and no units cost nothing. */
  function LinePrice(dish: Dish, size: Option<DishSize>, opts: Option<seq<DishOption>>, quantity: int): (r: int)
    ensures quantity == 0 ==> r == 0
    ensures quantity == 1 ==> r == dish.price + SizePrice(size) + OptionsPrice(opts)
  {
    UnitPrice(dish, size, opts) * quantity
  }

  /** Each further unit adds exactly one unit price, so the configurator's
      plus and minus buttons move the shown total by one unit price. */
  lemma LinePriceStep(dish: Dish, size: Option<DishSize>, opts: Option<seq<DishOption>>, quantity: int)
    ensures LinePrice(dish, size, opts, quantity + 1)
            == LinePrice(dish, size, opts, quantity) + UnitPrice(dish, size, opts)
  {
  }

  /** The cart's line invariant: the stored total is never stale. */
  predicate PriceConsistent(item: CartItem)
  {
    item.totalPrice == LinePrice(item.dish, item.selectedSize, item.selectedOptions, item.quantity)
  }

  /** The add-on sum splits over concatenation, so the order in which
      add-ons were chosen does not matter to the price of a prefix and its
      continuation. */
  lemma {:induction false} OptionsSumAppend(a: seq<DishOption>, b: seq<DishOption>)
    ensures OptionsSum(a + b) == OptionsSum(a) + OptionsSum(b)
    decreases |b|
  {
    if b == [] {
      assert a + b == a;
    } else {
      var b' := b[..|b| - 1];
      assert (a + b)[..|a + b| - 1] == a + b';
      OptionsSumAppend(a, b');
    }
  }

  /** Summing add-ons from the front gives the same as the left fold: the
      first add-on's price plus the sum of the rest. */
  lemma OptionsSumCons(o: DishOption, rest: seq<DishOption>)
    ensures OptionsSum([o] + rest) == o.price + OptionsSum(rest)
  {
    OptionsSumAppend([o], rest);
    assert [o][..0] == [];
  }
}
