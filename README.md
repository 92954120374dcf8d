# Food-delivery app: the in-memory stores, modelled in Dafny

The app keeps all of its logic in a few in-memory stores behind the
screens. This project models them and proves what they promise:

- **Cart store** (`CartContext`): an ordered list of configured lines. Lines are
  appended and never merged. They are removed by id, re-priced when their
  quantity changes, and dropped all at once when the cart is cleared. Every
  line's stored total equals (dish price + size price + add-on prices) ×
  quantity, and every operation keeps it that way. The cart total and the
  item count are left-to-right sums.
- **Orders store** (`OrdersContext`): the order history, newest first. A new
  order is always `confirmed`. Its estimate is "30-40 мин" for `asap` and the
  given delivery time otherwise. Lookup by id finds the newest order with
  that id.
- **Favourites store** (`FavoritesContext`): two independent sets of ids
  (restaurants, dishes), each changed one id at a time by a toggle.
- **Dish configurator** (`DishDetailsModal`): a quantity counter clamped at 1,
  a size preselected when a dish with sizes is shown, add-ons toggled by
  id, and the price of the current configuration. This price is computed by
  a loop and proved equal to the cart's line price.
- **Checkout** (`Checkout`): the amount due is the cart total plus a fixed
  delivery fee of 150. Placing an order records the cart in the order
  history and then empties the cart.
- **Catalogue** (`MockData`): the Margherita, the saved addresses and the
  payment methods, used for the defaults and for worked price examples.

Prices and quantities are unbounded integers. Ids and timestamps come from
the clock in the app, so here they are parameters. The model does not assume
they are unique: two lines added in the same millisecond share an id, and
removing that id removes both.

Points where the code's behaviour is easy to misread:
- No discount is applied anywhere in the stores or at checkout. Checkout
  charges cart total + 150, whatever promo the cart screen displayed.
- A cart line's id is built from the dish id and the clock, so it is not
  guaranteed to be unique.
- Checkout passes its delivery choice as the string `asap` or `scheduled`.
  A scheduled order therefore gets the estimate `scheduled`, because the
  store copies any value other than `asap` verbatim.

## Model

| member | source | states |
|---|---|---|
| `Pricing.OptionsSum` | context/CartContext.tsx:31 | the add-on sum, accumulated left to right from 0; with non-negative prices it is never negative and never below any single chosen add-on's price |
| `Pricing.LinePrice` | context/CartContext.tsx:30-32 | the shared line price; one unit costs dish price + size price (or 0) + add-on sum (or 0), and zero units cost nothing |
| `Pricing.LinePriceStep` | components/ui/DishDetailsModal.tsx:72-81 | each further unit adds exactly one unit price to the line price |
| `Pricing.OptionsSumAppend` | context/CartContext.tsx:31 | the add-on sum of a concatenation is the sum of the parts' sums |
| `CartContext.NewItem` | context/CartContext.tsx:30-41 | a new line keeps the given id, dish, quantity, size and options; its total is (dish price + size price or 0 + sum of option prices or 0) × quantity, so the line is price-consistent |
| `CartContext.CartStore.constructor` | context/CartContext.tsx:22 | the cart starts empty (and price-consistent) |
| `CartContext.CartStore.AddItem` | context/CartContext.tsx:24-44 | exactly one new line is appended at the end, earlier lines unchanged and in order; the invariant is kept; adding at least one unit to a cart whose lines all hold at least one unit keeps that so; the total grows by the line price and the item count by the quantity |
| `CartContext.AddNeverMerges` | context/CartContext.tsx:34-43 | adding the same configuration twice gives two more lines with that configuration, not one merged line |
| `CartContext.RemoveById` | context/CartContext.tsx:46-48 | a line is kept exactly when it was in the cart and its id differs |
| `CartContext.CartStore.RemoveItem` | context/CartContext.tsx:46-48 | the new list is the filtered old list; the invariant is kept; if every line held at least one unit, every remaining line still does |
| `CartContext.RemoveByIdAppend` | context/CartContext.tsx:47 | removal distributes over concatenation, so the kept lines stay in their original order |
| `CartContext.RemoveAbsentIsNoop` | context/CartContext.tsx:47 | removing an id no line carries leaves the cart unchanged |
| `CartContext.RemoveIdempotent` | context/CartContext.tsx:46-48 | removing the same id twice equals removing it once |
| `CartContext.RemovePreservesPrices` | context/CartContext.tsx:46-48 | removal keeps every line price-consistent |
| `CartContext.Requantified` | context/CartContext.tsx:58-68 | a re-priced line keeps its id, dish, size and options, takes the new quantity and is price-consistent |
| `CartContext.WithQuantity` | context/CartContext.tsx:56-72 | same length; lines with another id unchanged; lines with the id keep id, dish, size and options, take the new quantity and are price-consistent |
| `CartContext.CartStore.UpdateQuantity` | context/CartContext.tsx:50-73 | quantity ≤ 0 has exactly the effect of removing the id; a positive quantity re-prices only the matching lines; the invariant is kept; if every line held at least one unit, every line still does, so no line is ever left with quantity 0 or less |
| `CartContext.WithQuantityPreservesPrices` | context/CartContext.tsx:56-72 | re-pricing keeps every line price-consistent |
| `CartContext.WithQuantityAbsentIsNoop` | context/CartContext.tsx:56-72 | updating an id no line carries leaves the cart unchanged |
| `CartContext.ItemsCountAfterUpdate` | context/CartContext.tsx:56-85 | after an update the item count is the untouched lines' count plus the new quantity times the number of lines that carry the id |
| `CartContext.CartStore.ClearCart` | context/CartContext.tsx:75-77 | from any state the cart becomes empty and both aggregates are 0 (so clearing is idempotent) |
| `CartContext.TotalAppend` | context/CartContext.tsx:79-81 | the cart total of a concatenation is the sum of the parts' totals |
| `CartContext.Total` | context/CartContext.tsx:79-81 | the sum of the stored line totals; while every line is price-consistent it equals the total recomputed independently from dishes, sizes, options and quantities |
| `CartContext.CartStore.GetTotal` | context/CartContext.tsx:79-81 | the total the store reports; in any valid store state it equals the independently recomputed total |
| `CartContext.ItemsCountAppend` | context/CartContext.tsx:83-85 | the item count of a concatenation is the sum of the parts' counts |
| `CartContext.ItemsCount` | context/CartContext.tsx:83-85 | the sum of the quantities; with every quantity at least 1 it is at least the number of lines |
| `CartContext.CartStore.GetItemsCount` | context/CartContext.tsx:83-85 | the count the store reports; with every quantity at least 1 it is at least the number of lines |
| `OrdersContext.NewOrder` | context/OrdersContext.tsx:30-41 | status is `confirmed`; the estimate is "30-40 мин" exactly when the delivery time is `asap` and the delivery time itself otherwise; items, total, address, payment method, delivery time and comment are stored verbatim |
| `OrdersContext.OrdersStore.constructor` | context/OrdersContext.tsx:20 | the history starts empty |
| `OrdersContext.OrdersStore.AddOrder` | context/OrdersContext.tsx:22-45 | the returned order is the one stored; it goes in front and the earlier orders follow unchanged and in order; a lookup of its id finds it; lookups of every other id are unchanged |
| `OrdersContext.FindOrder` | context/OrdersContext.tsx:47-49 | none exactly when no order has the id; otherwise an order of the history with that id |
| `OrdersContext.OrdersStore.GetOrderById` | context/OrdersContext.tsx:47-49 | none exactly when no stored order has the id; otherwise a stored order with that id |
| `OrdersContext.FindOrderIsFirst` | context/OrdersContext.tsx:47-49 | the lookup returns the first order with the id, which is the newest one |
| `OrdersContext.FindAfterPrepend` | context/OrdersContext.tsx:43-49 | with a new order in front, a lookup finds it for its id and sees the older history for every other id |
| `FavoritesContext.Toggled` | context/FavoritesContext.tsx:21-27 | a present id is removed, an absent id added, and no other id changes membership |
| `FavoritesContext.ToggledTwice` | context/FavoritesContext.tsx:19-41 | toggling the same id twice restores the set |
| `FavoritesContext.ApplyTogglesParity` | context/FavoritesContext.tsx:19-41 | after any sequence of toggles an id is a favourite exactly when it started as one and was toggled an even number of times, or did not and was toggled an odd number of times |
| `FavoritesContext.Favorites.constructor` | context/FavoritesContext.tsx:16-17 | both sets start empty |
| `FavoritesContext.Favorites.ToggleRestaurantFavorite` | context/FavoritesContext.tsx:19-29 | the restaurant set is toggled at the id, membership of the id flips, the dish set is unchanged |
| `FavoritesContext.Favorites.IsRestaurantFavorite` | context/FavoritesContext.tsx:43-45 | true exactly when the id is in the restaurant set; the dish set is not consulted |
| `FavoritesContext.Favorites.IsDishFavorite` | context/FavoritesContext.tsx:47-49 | true exactly when the id is in the dish set; the restaurant set is not consulted |
| `FavoritesContext.Favorites.ToggleDishFavorite` | context/FavoritesContext.tsx:31-41 | the dish set is toggled at the id, membership of the id flips, the restaurant set is unchanged |
| `DishDetailsModal.WithoutOptionId` | components/ui/DishDetailsModal.tsx:67 | an add-on is kept exactly when it was chosen and its id differs |
| `DishDetailsModal.ToggledOptions` | components/ui/DishDetailsModal.tsx:63-70 | with the id chosen, every add-on with that id goes and the rest stay; without it, the add-on is appended at the end |
| `DishDetailsModal.WithoutOptionIdAppend` | components/ui/DishDetailsModal.tsx:67 | filtering distributes over concatenation (order kept) |
| `DishDetailsModal.WithoutOptionIdKeepsDistinct` | components/ui/DishDetailsModal.tsx:67 | filtering keeps the add-ons distinct by id |
| `DishDetailsModal.WithoutAbsentOptionId` | components/ui/DishDetailsModal.tsx:67 | filtering an id nothing carries changes nothing |
| `DishDetailsModal.ToggledOptionsKeepsDistinct` | components/ui/DishDetailsModal.tsx:63-70 | one toggle keeps the chosen add-ons distinct by id |
| `DishDetailsModal.TogglesKeepDistinct` | components/ui/DishDetailsModal.tsx:63-70 | any sequence of toggles keeps the chosen add-ons distinct by id |
| `DishDetailsModal.ToggleAbsentTwiceRestores` | components/ui/DishDetailsModal.tsx:63-70 | toggling an unchosen add-on twice gives back exactly the same list |
| `DishDetailsModal.ToggleTwiceSameIds` | components/ui/DishDetailsModal.tsx:63-70 | toggling any add-on twice gives back the same set of chosen ids |
| `DishDetailsModal.DishConfigurator.constructor` | components/ui/DishDetailsModal.tsx:35-37 | quantity 1, no size, no add-ons |
| `DishDetailsModal.DishConfigurator.OnShow` | components/ui/DishDetailsModal.tsx:40-44 | when shown for a dish with a non-empty size list the first size is selected; otherwise the size is unchanged |
| `DishDetailsModal.DishConfigurator.HandleIncrement` | components/ui/DishDetailsModal.tsx:48-51 | the quantity grows by exactly 1 |
| `DishDetailsModal.DishConfigurator.HandleDecrement` | components/ui/DishDetailsModal.tsx:53-56 | the quantity drops by 1 but never below 1 |
| `DishDetailsModal.DishConfigurator.HandleSizeSelect` | components/ui/DishDetailsModal.tsx:58-61 | the chosen size becomes selected |
| `DishDetailsModal.DishConfigurator.ToggleOption` | components/ui/DishDetailsModal.tsx:63-70 | the add-on list becomes the toggled list and stays distinct by id |
| `DishDetailsModal.DishConfigurator.CalculateTotal` | components/ui/DishDetailsModal.tsx:72-81 | the loop's result equals the cart's line price for the same dish, size, add-ons and quantity |
| `DishDetailsModal.DishConfigurator.HandleAdd` | components/ui/DishDetailsModal.tsx:83-91 | the callback gets the current dish, quantity (at least 1), size and add-ons; then quantity 1, no size, no add-ons |
| `DishDetailsModal.AddFromConfigurator` | components/ui/DishDetailsModal.tsx:72-90 | the cart gains exactly one line at the end: the given id with the configured dish, quantity, size and add-ons, priced at exactly the total the configurator showed; every earlier line is unchanged; if every line held at least one unit, every line still does |
| `Checkout.DeliveryTimeValue` | app/checkout.tsx:30 | the delivery time passed on is `asap` exactly for the as-soon-as-possible choice |
| `Checkout.CommentArgument` | app/checkout.tsx:50 | an empty comment is passed as absent, any other verbatim |
| `Checkout.AmountDue` | app/checkout.tsx:37-38 | the amount due is the independently recomputed cart total plus the fee of 150 for a price-consistent cart, and the fee alone for an empty cart |
| `Checkout.AmountDueAfterAdd` | app/checkout.tsx:37-38 | adding a line raises the amount due by exactly that line's price |
| `Checkout.CheckoutExample` | app/checkout.tsx:22-38 | two medium Margheritas with extra cheese (1700) plus the fee of 150 come to 1850 |
| `Checkout.CheckoutScreen.constructor` | app/checkout.tsx:29-35 | first saved address, first payment method, `asap`, empty comment |
| `Checkout.CheckoutScreen.PlaceOrder` | app/checkout.tsx:40-53 | the order gets the cart's lines and cart total + 150 plus the screen's choices; the history grows by exactly that order at the front and finds it by id; then the cart is empty with both aggregates 0 |
| `MockData.MargheritaLineExample` | data/mockData.ts:70-91 | (550 + 200 + 100) × 2 = 1700 for a line of two medium Margheritas with extra cheese |
| `MockData.MargheritaPlainExample` | data/mockData.ts:70-91 | with no size and no add-ons a line costs the base price per unit |
| `MockData.MargheritaEverythingExample` | data/mockData.ts:70-91 | a large Margherita with all three add-ons costs 1150 per unit |

## Left out

- Rendering, styles, navigation, haptics, the clipboard and fonts: none of these carries state the stores depend on.
- Ids and timestamps: `Date.now()` ids and `toISOString()` creation times are method parameters instead of clock reads.
- The navigation to the success screen and its random fallback order number are left out. They are a foreign call and randomness.
- Toast and "copied" timers and the animations are left out. They are timers and floating-point animation, not store state.
- React state semantics are left out: asynchronous and batched `setState`, and lookups that read the current render's snapshot. Each store is modelled as synchronous state.
- Promo codes are left out. The cart screen shows a discount, but no core code applies one, and checkout charges cart total + 150 whatever promo the cart screen showed.
- The `Order` fields `subtotal`, `deliveryFee`, `discount` and `restaurantId` are left out because the orders store never sets them.
- The checkout screen's "leave at door" flag is left out because it never reaches the order.
- The checkout selection handlers (address, payment, delivery time, comment) are left out because they are plain field assignments.
- Catalogue entries other than the Margherita, the addresses and the payment methods are left out. Restaurant ratings (floating point) are also left out. No logic reads them.
- Prices and quantities are JavaScript numbers. The model treats them as unbounded integers; non-integer and non-finite values are not modelled.
