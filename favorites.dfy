/** The favourites store: two independent sets of ids, one for restaurants
    and one for dishes, each changed one id at a time by a toggle. */
module FavoritesContext {

  /** The set after toggling one id: present ids are removed, absent ones
      added, and no other id changes membership. */
  function Toggled(s: set<string>, id: string): (r: set<string>)
    ensures id in s ==> id !in r
    ensures id !in s ==> id in r
    ensures forall x :: x != id ==> (x in r <==> x in s)
  {
    if id in s then s - {id} else s + {id}
  }

  /** Toggling the same id twice restores the original set. */
  lemma ToggledTwice(s: set<string>, id: string)
    ensures Toggled(Toggled(s, id), id) == s
  {
  }

  /** The set after a whole sequence of toggles, applied in order. */
  function ApplyToggles(s: set<string>, ids: seq<string>): set<string>
    decreases |ids|
  {
    if ids == [] then s else ApplyToggles(Toggled(s, ids[0]), ids[1..])
  }

  /** How many times `x` occurs in `ids`. */
  function Occurrences(ids: seq<string>, x: string): nat
  {
    if ids == [] then 0 else (if ids[0] == x then 1 else 0) + Occurrences(ids[1..], x)
  }

  /** After any sequence of toggles an id is a favourite exactly when it was
      one before and was toggled an even number of times, or was not one
      and was toggled an odd number of times. */
  lemma {:induction false} ApplyTogglesParity(s: set<string>, ids: seq<string>, x: string)
    ensures x in ApplyToggles(s, ids) <==> ((x in s) != (Occurrences(ids, x) % 2 == 1))
    decreases |ids|
  {
    if ids != [] {
      ApplyTogglesParity(Toggled(s, ids[0]), ids[1..], x);
    }
  }

  class Favorites {
    var favoriteRestaurants: set<string>
    var favoriteDishes: set<string>

    constructor ()
      ensures favoriteRestaurants == {} && favoriteDishes == {}
    {
      favoriteRestaurants := {};
      favoriteDishes := {};
    }

    /** Flips one restaurant's membership; the dish set is untouched. */
    method ToggleRestaurantFavorite(restaurantId: string)
      modifies this
      ensures favoriteRestaurants == Toggled(old(favoriteRestaurants), restaurantId)
      ensures IsRestaurantFavorite(restaurantId) == !old(IsRestaurantFavorite(restaurantId))
      ensures favoriteDishes == old(favoriteDishes)
    {
      var newSet := favoriteRestaurants;
      if restaurantId in newSet {
        newSet := newSet - {restaurantId};
      } else {
        newSet := newSet + {restaurantId};
      }
      favoriteRestaurants := newSet;
    }

    /** Flips one dish's membership; the restaurant set is untouched. */
    method ToggleDishFavorite(dishId: string)
      modifies this
      ensures favoriteDishes == Toggled(old(favoriteDishes), dishId)
      ensures IsDishFavorite(dishId) == !old(IsDishFavorite(dishId))
      ensures favoriteRestaurants == old(favoriteRestaurants)
    {
      var newSet := favoriteDishes;
      if dishId in newSet {
        newSet := newSet - {dishId};
      } else {
        newSet := newSet + {dishId};
      }
      favoriteDishes := newSet;
    }

    /** Membership in the restaurant set alone; the dish set is not consulted. */
    predicate IsRestaurantFavorite(restaurantId: string): (b: bool)
      reads this
      ensures b <==> restaurantId in favoriteRestaurants
    {
      restaurantId in favoriteRestaurants
    }

    /** Membership in the dish set alone; the restaurant set is not consulted. */
    predicate IsDishFavorite(dishId: string): (b: bool)
      reads this
      ensures b <==> dishId in favoriteDishes
    {
      dishId in favoriteDishes
    }
  }
}
