/** The dish configurator shown before a dish goes into the cart: a
    quantity counter that never goes below 1, an optional size (the first
    one preselected when the dish has sizes), a list of add-ons toggled by
    id, and the price of the current configuration. */
module DishDetailsModal {
  import opened Types
  import opened Pricing
  import CartContext

  predicate HasOptionId(opts: seq<DishOption>, id: string)
  {
    exists i :: 0 <= i < |opts| && opts[i].id == id
  }

  function OptionIds(opts: seq<DishOption>): set<string>
  {
    set o | o in opts :: o.id
  }

  /** No two chosen add-ons share an id. */
  predicate DistinctIds(opts: seq<DishOption>)
  {
    forall i, j :: 0 <= i < j < |opts| ==> opts[i].id != opts[j].id
  }

  /** The add-ons whose id differs from `id`, in their original order. */
  function WithoutOptionId(opts: seq<DishOption>, id: string): (r: seq<DishOption>)
    ensures forall o :: o in r <==> o in opts && o.id != id
  {
    if opts == [] then []
    else if opts[0].id == id then WithoutOptionId(opts[1..], id)
    else [opts[0]] + WithoutOptionId(opts[1..], id)
  }

  /** The list after tapping an add-on: every chosen add-on with its id is
      dropped if there is one, otherwise the add-on is appended. */
  function ToggledOptions(opts: seq<DishOption>, option: DishOption): (r: seq<DishOption>)
    ensures HasOptionId(opts, option.id) ==> forall o :: o in r <==> o in opts && o.id != option.id
    ensures HasOptionId(opts, option.id) ==> OptionIds(r) == OptionIds(opts) - {option.id}
    ensures !HasOptionId(opts, option.id) ==> r == opts + [option]
  {
    if HasOptionId(opts, option.id) then
      var r := WithoutOptionId(opts, option.id);
      assert OptionIds(r) == OptionIds(opts) - {option.id} by {
        forall x | x in OptionIds(opts) - {option.id} ensures x in OptionIds(r) {
          var o :| o in opts && o.id == x;
          assert o in r;
        }
      }
      r
    else
      opts + [option]
  }

  /** A list distinct by id stays so after its first add-on is dropped, and
      no later add-on shares the first one's id. */
  lemma DistinctUncons(opts: seq<DishOption>)
    requires opts != [] && DistinctIds(opts)
    ensures DistinctIds(opts[1..])
    ensures forall o :: o in opts[1..] ==> o.id != opts[0].id
  {
    var rest := opts[1..];
    forall i, j | 0 <= i < j < |rest| ensures rest[i].id != rest[j].id {
      assert rest[i] == opts[i + 1] && rest[j] == opts[j + 1];
    }
    forall o | o in rest ensures o.id != opts[0].id {
      var m :| 0 <= m < |rest| && rest[m] == o;
      assert opts[m + 1] == o;
    }
  }

  /** Putting an add-on with a fresh id in front keeps a list distinct. */
  lemma DistinctCons(x: DishOption, tail: seq<DishOption>)
    requires DistinctIds(tail)
    requires forall o :: o in tail ==> o.id != x.id
    ensures DistinctIds([x] + tail)
  {
    var r := [x] + tail;
    forall i, j | 0 <= i < j < |r| ensures r[i].id != r[j].id {
      assert r[j] == tail[j - 1];
      if i > 0 {
        assert r[i] == tail[i - 1];
      } else {
        assert r[j] in tail;
      }
    }
  }

  /** Filtering keeps add-on ids distinct. */
  lemma {:induction false} WithoutOptionIdKeepsDistinct(opts: seq<DishOption>, id: string)
    requires DistinctIds(opts)
    ensures DistinctIds(WithoutOptionId(opts, id))
  {
    if opts != [] {
      DistinctUncons(opts);
      WithoutOptionIdKeepsDistinct(opts[1..], id);
      if opts[0].id != id {
        DistinctCons(opts[0], WithoutOptionId(opts[1..], id));
      }
    }
  }

  /** Every toggle keeps the chosen add-ons distinct by id. */
  lemma ToggledOptionsKeepsDistinct(opts: seq<DishOption>, option: DishOption)
    requires DistinctIds(opts)
    ensures DistinctIds(ToggledOptions(opts, option))
  {
    if HasOptionId(opts, option.id) {
      WithoutOptionIdKeepsDistinct(opts, option.id);
    } else {
      var r := opts + [option];
      forall i, j | 0 <= i < j < |r| ensures r[i].id != r[j].id {
        if j == |opts| {
          assert r[i] == opts[i];
        }
      }
    }
  }

  /** Filtering out an id nothing carries changes nothing. */
  lemma {:induction false} WithoutAbsentOptionId(opts: seq<DishOption>, id: string)
    requires !HasOptionId(opts, id)
    ensures WithoutOptionId(opts, id) == opts
  {
    if opts != [] {
      assert !HasOptionId(opts[1..], id) by {
        forall i | 0 <= i < |opts[1..]| ensures opts[1..][i].id != id {
          assert opts[1..][i] == opts[i + 1];
        }
      }
      WithoutAbsentOptionId(opts[1..], id);
      assert [opts[0]] + opts[1..] == opts;
    }
  }

  /** Tapping an add-on that was not chosen, then tapping it again, leaves
      exactly the list there was before. */
  lemma ToggleAbsentTwiceRestores(opts: seq<DishOption>, option: DishOption)
    requires !HasOptionId(opts, option.id)
    ensures ToggledOptions(ToggledOptions(opts, option), option) == opts
  {
    var once := opts + [option];
    assert once[|opts|].id == option.id;
    assert HasOptionId(once, option.id);
    WithoutOptionIdAppend(opts, [option], option.id);
    WithoutAbsentOptionId(opts, option.id);
  }

  /** Tapping any add-on twice leaves the same set of chosen ids. */
  lemma ToggleTwiceSameIds(opts: seq<DishOption>, option: DishOption)
    ensures OptionIds(ToggledOptions(ToggledOptions(opts, option), option)) == OptionIds(opts)
  {
    if HasOptionId(opts, option.id) {
      var once := ToggledOptions(opts, option);
      assert !HasOptionId(once, option.id) by {
        forall i | 0 <= i < |once| ensures once[i].id != option.id {
          assert once[i].id in OptionIds(once);
        }
      }
      var twice := once + [option];
      assert OptionIds(twice) == OptionIds(once) + {option.id};
      var o :| o in opts && o.id == option.id;
      assert option.id in OptionIds(opts);
    } else {
      ToggleAbsentTwiceRestores(opts, option);
    }
  }

  /** Filtering distributes over concatenation (order is kept). */
  lemma {:induction false} WithoutOptionIdAppend(a: seq<DishOption>, b: seq<DishOption>, id: string)
    ensures WithoutOptionId(a + b, id) == WithoutOptionId(a, id) + WithoutOptionId(b, id)
  {
    if a == [] {
      assert a + b == b;
    } else {
      assert (a + b)[0] == a[0];
      assert (a + b)[1..] == a[1..] + b;
      WithoutOptionIdAppend(a[1..], b, id);
    }
  }

  /** The list after a whole sequence of taps, applied in order. */
  function ApplyOptionToggles(opts: seq<DishOption>, taps: seq<DishOption>): seq<DishOption>
    decreases |taps|
  {
    if taps == [] then opts else ApplyOptionToggles(ToggledOptions(opts, taps[0]), taps[1..])
  }

  /** Any sequence of taps, from a list distinct by id (the empty list the
      configurator starts with, say), leaves the list distinct by id. */
  lemma {:induction false} TogglesKeepDistinct(opts: seq<DishOption>, taps: seq<DishOption>)
    requires DistinctIds(opts)
    ensures DistinctIds(ApplyOptionToggles(opts, taps))
    decreases |taps|
  {
    if taps != [] {
      ToggledOptionsKeepsDistinct(opts, taps[0]);
      TogglesKeepDistinct(ToggledOptions(opts, taps[0]), taps[1..]);
    }
  }

  /** The configurator is shown for a dish that has at least one size. */
  predicate PreselectsSize(visible: bool, dish: Option<Dish>)
  {
    visible && dish.Some? && dish.value.sizes.Some? && |dish.value.sizes.value| > 0
  }

  /** What the configurator hands to its `onAdd` callback. */
  datatype AddRequest = AddRequest(
    dish: Dish,
    quantity: int,
    selectedSize: Option<DishSize>,
    selectedOptions: Option<seq<DishOption>>)

  /** The configurator's state; the dish and visibility are inputs to its
      handlers. */
  class DishConfigurator {
    var quantity: int
    var selectedSize: Option<DishSize>
    var selectedOptions: seq<DishOption>

    ghost predicate Valid()
      reads this
    {
      quantity >= 1 && DistinctIds(selectedOptions)
    }

    constructor ()
      ensures Valid()
      ensures quantity == 1 && selectedSize == None && selectedOptions == []
    {
      quantity := 1;
      selectedSize := None;
      selectedOptions := [];
    }

    /** The effect run when the dish or visibility changes: preselects the
        first size of a shown dish that has sizes. */
    method OnShow(visible: bool, dish: Option<Dish>)
      requires Valid()
      modifies this
      ensures Valid()
      ensures PreselectsSize(visible, dish) ==> selectedSize == Some(dish.value.sizes.value[0])
      ensures !PreselectsSize(visible, dish) ==> selectedSize == old(selectedSize)
      ensures quantity == old(quantity) && selectedOptions == old(selectedOptions)
    {
      if visible && dish.Some? && dish.value.sizes.Some? && |dish.value.sizes.value| > 0 {
        selectedSize := Some(dish.value.sizes.value[0]);
      }
    }

    method HandleIncrement()
      requires Valid()
      modifies this
      ensures Valid()
      ensures quantity == old(quantity) + 1
      ensures selectedSize == old(selectedSize) && selectedOptions == old(selectedOptions)
    {
      quantity := quantity + 1;
    }

    /** Steps down by one but never below 1. */
    method HandleDecrement()
      requires Valid()
      modifies this
      ensures Valid()
      ensures old(quantity) > 1 ==> quantity == old(quantity) - 1
      ensures old(quantity) <= 1 ==> quantity == 1
      ensures selectedSize == old(selectedSize) && selectedOptions == old(selectedOptions)
    {
      quantity := if quantity > 1 then quantity - 1 else 1;
    }

    method HandleSizeSelect(size: DishSize)
      requires Valid()
      modifies this
      ensures Valid()
      ensures selectedSize == Some(size)
      ensures quantity == old(quantity) && selectedOptions == old(selectedOptions)
    {
      selectedSize := Some(size);
    }

    method ToggleOption(option: DishOption)
      requires Valid()
      modifies this
      ensures Valid()
      ensures selectedOptions == ToggledOptions(old(selectedOptions), option)
      ensures quantity == old(quantity) && selectedSize == old(selectedSize)
    {
      ToggledOptionsKeepsDistinct(selectedOptions, option);
      selectedOptions := ToggledOptions(selectedOptions, option);
    }

    /** The price shown on the add button: accumulated step by step, and
        always equal to the price the cart gives the same configuration. */
    method CalculateTotal(dish: Dish) returns (total: int)
      ensures total == LinePrice(dish, selectedSize, Some(selectedOptions), quantity)
    {
      total := dish.price;
      if selectedSize.Some? {
        total := total + selectedSize.value.price;
      }
      var i := 0;
      while i < |selectedOptions|
        invariant 0 <= i <= |selectedOptions|
        invariant total == dish.price + SizePrice(selectedSize) + OptionsSum(selectedOptions[..i])
      {
        assert selectedOptions[..i + 1][..i] == selectedOptions[..i];
        total := total + selectedOptions[i].price;
        i := i + 1;
      }
      assert selectedOptions[..i] == selectedOptions;
      total := total * quantity;
    }

    /** Hands the current configuration to the callback, then resets. */
    method HandleAdd(dish: Dish) returns (request: AddRequest)
      requires Valid()
      modifies this
      ensures Valid()
      ensures request == AddRequest(dish, old(quantity), old(selectedSize), Some(old(selectedOptions)))
      ensures request.quantity >= 1
      ensures quantity == 1 && selectedSize == None && selectedOptions == []
    {
      request := AddRequest(dish, quantity, selectedSize, Some(selectedOptions));
      quantity := 1;
      selectedSize := None;
      selectedOptions := [];
    }
  }

  /** The restaurant screen's add-to-cart: the configurator's request goes
      straight to the cart, whose new last line is priced at exactly the
      total the configurator showed. */
  method AddFromConfigurator(modal: DishConfigurator, cart: CartContext.CartStore,
                             dish: Dish, itemId: string) returns (shown: int)
    requires modal.Valid() && cart.Valid()
    modifies modal, cart
    ensures modal.Valid() && cart.Valid()
    ensures cart.items == old(cart.items) + [CartContext.NewItem(itemId, dish, old(modal.quantity),
                                                                 old(modal.selectedSize),
                                                                 Some(old(modal.selectedOptions)))]
    ensures cart.items[|cart.items| - 1].totalPrice == shown
    ensures CartContext.AllPositive(old(cart.items)) ==> CartContext.AllPositive(cart.items)
    ensures modal.quantity == 1 && modal.selectedSize == None && modal.selectedOptions == []
  {
    shown := modal.CalculateTotal(dish);
    var request := modal.HandleAdd(dish);
    cart.AddItem(itemId, request.dish, request.quantity, request.selectedSize, request.selectedOptions);
  }
}
