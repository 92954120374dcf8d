/** The cart store: an ordered list of configured lines. Lines are only ever
    appended (never merged), removed by id, re-priced when their quantity
    changes, or all dropped at once. Every line's stored total is kept equal
    to its unit price times its quantity. */
module CartContext {
  import opened Types
  import opened Pricing

  /** The line `addItem` creates for a dish in a given configuration. The
      id is supplied by the caller (the source derives it from the dish id
      and the clock, so two adds in the same millisecond share one). */
  function NewItem(id: string, dish: Dish, quantity: int, size: Option<DishSize>,
                   opts: Option<seq<DishOption>>): (item: CartItem)
    ensures item.id == id && item.dish == dish && item.quantity == quantity
    ensures item.selectedSize == size && item.selectedOptions == opts
    ensures item.totalPrice == (dish.price + SizePrice(size) + OptionsPrice(opts)) * quantity
    ensures PriceConsistent(item)
  {
    var basePrice := dish.price + SizePrice(size);
    var optionsPrice := OptionsPrice(opts);
    CartItem(id, dish, quantity, size, opts, (basePrice + optionsPrice) * quantity)
  }

  /** Sum of the lines' stored totals (a left-to-right `reduce` from 0).
      While every line is price-consistent it equals the total recomputed
      from dishes, sizes, add-ons and quantities: the aggregate is never
      stale. */
  function Total(items: seq<CartItem>): (r: int)
    ensures AllPriceConsistent(items) ==> r == RecomputedTotal(items)
  {
    if items == [] then 0 else Total(items[..|items| - 1]) + items[|items| - 1].totalPrice
  }

  /** Sum of the lines' quantities, not the number of lines; when every line
      holds at least one unit it is at least the number of lines. */
  function ItemsCount(items: seq<CartItem>): (r: int)
    ensures AllPositive(items) ==> r >= |items|
  {
    if items == [] then 0 else ItemsCount(items[..|items| - 1]) + items[|items| - 1].quantity
  }

  /** The lines whose id differs from `id`, in their original order. */
  function RemoveById(items: seq<CartItem>, id: string): (r: seq<CartItem>)
    ensures forall x :: x in r <==> x in items && x.id != id
    ensures |r| <= |items|
  {
    if items == [] then []
    else if items[0].id == id then RemoveById(items[1..], id)
    else [items[0]] + RemoveById(items[1..], id)
  }

  /** A line with a new quantity and its total recomputed for it. */
  function Requantified(item: CartItem, quantity: int): (r: CartItem)
    ensures r.id == item.id && r.dish == item.dish
    ensures r.selectedSize == item.selectedSize && r.selectedOptions == item.selectedOptions
    ensures r.quantity == quantity && PriceConsistent(r)
  {
    var basePrice := item.dish.price + SizePrice(item.selectedSize);
    var optionsPrice := OptionsPrice(item.selectedOptions);
    item.(quantity := quantity, totalPrice := (basePrice + optionsPrice) * quantity)
  }

  /** The list `updateQuantity` builds for a positive quantity: every line
      with the id gets the new quantity and a recomputed total; its id, dish,
      size and options are kept; every other line is left as it was. */
  function WithQuantity(items: seq<CartItem>, id: string, quantity: int): (r: seq<CartItem>)
    ensures |r| == |items|
    ensures forall i :: 0 <= i < |items| && items[i].id != id ==> r[i] == items[i]
    ensures forall i :: 0 <= i < |items| && items[i].id == id ==>
              && r[i].id == id
              && r[i].dish == items[i].dish
              && r[i].selectedSize == items[i].selectedSize
              && r[i].selectedOptions == items[i].selectedOptions
              && r[i].quantity == quantity
              && PriceConsistent(r[i])
  {
    if items == [] then []
    else
      var first := if items[0].id == id then Requantified(items[0], quantity) else items[0];
      [first] + WithQuantity(items[1..], id, quantity)
  }

  /** Number of lines holding exactly this dish configuration. */
  function CountConfig(items: seq<CartItem>, dish: Dish, size: Option<DishSize>,
                       opts: Option<seq<DishOption>>): nat
  {
    if items == [] then 0
    else
      var last := items[|items| - 1];
      var here := if last.dish == dish && last.selectedSize == size && last.selectedOptions == opts then 1 else 0;
      CountConfig(items[..|items| - 1], dish, size, opts) + here
  }

  ghost predicate AllPriceConsistent(items: seq<CartItem>)
  {
    forall i :: 0 <= i < |items| ==> PriceConsistent(items[i])
  }

  /** Every line holds at least one unit. */
  ghost predicate AllPositive(items: seq<CartItem>)
  {
    forall i :: 0 <= i < |items| ==> items[i].quantity >= 1
  }

  /** Reference definition of the cart total, recomputed from the dishes,
      sizes, options and quantities instead of the stored totals. */
  function RecomputedTotal(items: seq<CartItem>): int
  {
    if items == [] then 0
    else
      var it := items[|items| - 1];
      RecomputedTotal(items[..|items| - 1]) + LinePrice(it.dish, it.selectedSize, it.selectedOptions, it.quantity)
  }

  /** The cart as the provider holds it. */
  class CartStore {
    var items: seq<CartItem>

    /** Every line's total is its unit price times its quantity. */
    ghost predicate Valid()
      reads this
    {
      AllPriceConsistent(items)
    }

    constructor ()
      ensures Valid() && items == []
    {
      items := [];
    }

    /** Appends one new line; never merges with an equal configuration. */
    method AddItem(id: string, dish: Dish, quantity: int, size: Option<DishSize>,
                   opts: Option<seq<DishOption>>)
      requires Valid()
      modifies this
      ensures Valid()
      ensures items == old(items) + [NewItem(id, dish, quantity, size, opts)]
      ensures AllPositive(old(items)) && quantity >= 1 ==> AllPositive(items)
      ensures GetTotal() == old(GetTotal()) + LinePrice(dish, size, opts, quantity)
      ensures GetItemsCount() == old(GetItemsCount()) + quantity
    {
      var newItem := NewItem(id, dish, quantity, size, opts);
      TotalSnoc(items, newItem);
      ItemsCountSnoc(items, newItem);
      items := items + [newItem];
    }

    /** Drops every line with the id (all of them if several share it). */
    method RemoveItem(id: string)
      requires Valid()
      modifies this
      ensures Valid()
      ensures items == RemoveById(old(items), id)
      ensures AllPositive(old(items)) ==> AllPositive(items)
    {
      items := RemoveById(items, id);
    }

    /** A quantity of 0 or less removes the line; otherwise re-prices it. */
    method UpdateQuantity(id: string, quantity: int)
      requires Valid()
      modifies this
      ensures Valid()
      ensures quantity <= 0 ==> items == RemoveById(old(items), id)
      ensures quantity > 0 ==> items == WithQuantity(old(items), id, quantity)
      ensures AllPositive(old(items)) ==> AllPositive(items)
    {
      if quantity <= 0 {
        RemoveItem(id);
        return;
      }
      items := WithQuantity(items, id, quantity);
    }

    method ClearCart()
      modifies this
      ensures Valid()
      ensures items == [] && AllPositive(items)
      ensures GetTotal() == 0 && GetItemsCount() == 0
    {
      items := [];
    }

    /** The amount the cart shows: while the store is Valid, the total
        recomputed from the lines' configurations. */
    function GetTotal(): (t: int)
      reads this
      ensures Valid() ==> t == RecomputedTotal(items)
    {
      Total(items)
    }

    /** The badge count: units, not lines, so never below the number of
        lines while every line holds at least one unit. */
    function GetItemsCount(): (c: int)
      reads this
      ensures AllPositive(items) ==> c >= |items|
    {
      ItemsCount(items)
    }
  }

  // ---------------------------------------------------------------------
  // Aggregates

  lemma TotalSnoc(items: seq<CartItem>, x: CartItem)
    ensures Total(items + [x]) == Total(items) + x.totalPrice
  {
  }

  lemma ItemsCountSnoc(items: seq<CartItem>, x: CartItem)
    ensures ItemsCount(items + [x]) == ItemsCount(items) + x.quantity
  {
  }

  /** The cart total splits over any division of the lines. */
  lemma {:induction false} TotalAppend(a: seq<CartItem>, b: seq<CartItem>)
    ensures Total(a + b) == Total(a) + Total(b)
    decreases |b|
  {
    if b == [] {
      assert a + b == a;
    } else {
      var b' := b[..|b| - 1];
      assert (a + b)[..|a + b| - 1] == a + b';
      TotalAppend(a, b');
    }
  }

  /** The item count splits over any division of the lines. */
  lemma {:induction false} ItemsCountAppend(a: seq<CartItem>, b: seq<CartItem>)
    ensures ItemsCount(a + b) == ItemsCount(a) + ItemsCount(b)
    decreases |b|
  {
    if b == [] {
      assert a + b == a;
    } else {
      var b' := b[..|b| - 1];
      assert (a + b)[..|a + b| - 1] == a + b';
      ItemsCountAppend(a, b');
    }
  }

  // ---------------------------------------------------------------------
  // Adding

  /** Adding the same configuration twice yields two separate lines: the
      count of lines with that configuration grows by two. */
  lemma AddNeverMerges(items: seq<CartItem>, id1: string, id2: string, dish: Dish,
                       quantity: int, size: Option<DishSize>, opts: Option<seq<DishOption>>)
    ensures var after := items + [NewItem(id1, dish, quantity, size, opts)]
                               + [NewItem(id2, dish, quantity, size, opts)];
            && |after| == |items| + 2
            && CountConfig(after, dish, size, opts) == CountConfig(items, dish, size, opts) + 2
  {
  }

  // ---------------------------------------------------------------------
  // Removing

  /** Removal preserves the order of the kept lines: it distributes over
      concatenation. */
  lemma {:induction false} RemoveByIdAppend(a: seq<CartItem>, b: seq<CartItem>, id: string)
    ensures RemoveById(a + b, id) == RemoveById(a, id) + RemoveById(b, id)
  {
    if a == [] {
      assert a + b == b;
    } else {
      assert (a + b)[0] == a[0];
      assert (a + b)[1..] == a[1..] + b;
      RemoveByIdAppend(a[1..], b, id);
    }
  }

  /** Removing an id no line carries leaves the cart as it was. */
  lemma {:induction false} RemoveAbsentIsNoop(items: seq<CartItem>, id: string)
    requires forall i :: 0 <= i < |items| ==> items[i].id != id
    ensures RemoveById(items, id) == items
  {
    if items != [] {
      RemoveAbsentIsNoop(items[1..], id);
      assert [items[0]] + items[1..] == items;
    }
  }

  /** Removing the same id twice is the same as removing it once. */
  lemma RemoveIdempotent(items: seq<CartItem>, id: string)
    ensures RemoveById(RemoveById(items, id), id) == RemoveById(items, id)
  {
  }

  /** Removal keeps every line price-consistent. */
  lemma RemovePreservesPrices(items: seq<CartItem>, id: string)
    requires AllPriceConsistent(items)
    ensures AllPriceConsistent(RemoveById(items, id))
  {
  }

  // ---------------------------------------------------------------------
  // Changing a quantity

  /** Re-pricing keeps every line price-consistent. */
  lemma WithQuantityPreservesPrices(items: seq<CartItem>, id: string, quantity: int)
    requires AllPriceConsistent(items)
    ensures AllPriceConsistent(WithQuantity(items, id, quantity))
  {
  }

  /** Changing an id no line carries leaves the cart as it was. */
  lemma WithQuantityAbsentIsNoop(items: seq<CartItem>, id: string, quantity: int)
    requires forall i :: 0 <= i < |items| ==> items[i].id != id
    ensures WithQuantity(items, id, quantity) == items
  {
  }

  lemma ItemsCountCons(x: CartItem, rest: seq<CartItem>)
    ensures ItemsCount([x] + rest) == x.quantity + ItemsCount(rest)
  {
    ItemsCountAppend([x], rest);
    assert [x][..0] == [];
  }

  /** Number of lines that carry the id. */
  function MatchCount(items: seq<CartItem>, id: string): nat
  {
    if items == [] then 0 else (if items[0].id == id then 1 else 0) + MatchCount(items[1..], id)
  }

  lemma MulStep(q: int, n: int)
    ensures q * (n + 1) == q * n + q
  {
  }

  /** The item count after an update: the lines that were not touched, plus
      the new quantity once per line that carries the id. */
  lemma {:induction false} ItemsCountAfterUpdate(items: seq<CartItem>, id: string, quantity: int)
    ensures ItemsCount(WithQuantity(items, id, quantity))
         == ItemsCount(RemoveById(items, id)) + quantity * MatchCount(items, id)
  {
    if items != [] {
      var rest := items[1..];
      var updatedRest := WithQuantity(rest, id, quantity);
      var keptRest := RemoveById(rest, id);
      ItemsCountAfterUpdate(rest, id, quantity);
      var n := MatchCount(rest, id);
      if items[0].id == id {
        var first := Requantified(items[0], quantity);
        assert WithQuantity(items, id, quantity) == [first] + updatedRest;
        ItemsCountCons(first, updatedRest);
        MulStep(quantity, n);
      } else {
        assert WithQuantity(items, id, quantity) == [items[0]] + updatedRest;
        ItemsCountCons(items[0], updatedRest);
        ItemsCountCons(items[0], keptRest);
      }
    }
  }
}
