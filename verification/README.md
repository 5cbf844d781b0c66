# Cart store of the checkout template

This project models the in-memory shopping cart of a small React Native
storefront: the `CartProvider` component of `App.js`. The cart is an ordered
list of lines `{id, name, price, qty}`. Three mutators replace that list by a
new one (`addItem`, `removeItem`, `setQty`), and two totals are recomputed from
it (`totalCount`, `totalPrice`).

- `cart.dfy`, module `Cart`: the lines as a datatype and every updater as a
  function from the old line sequence to the new one, as the `setItems`
  updaters are. `findIndex`, `filter`, `map` and `reduce` become recursive
  functions. The store invariant (`WellFormed`: unique ids, every quantity at
  least one) is proved to be kept by each operation. The totals are left folds
  (`FoldLeft`, as `reduce` with initial value 0). They are proved equal to an
  independent reference sum (`Sum`), and their change under each operation is
  proved too.
- `store.dfy`, module `CartStore`: the store itself, a class with one `items`
  field. It starts empty. Its methods reassign `items` to the result of the
  matching function and keep `Valid()`. Its totals are functions read from the
  current lines.
- `catalog.dfy`, module `Catalog`: the four sample products, with prices in
  cents. It also holds two shopping sessions over them.

Prices are integers (cents: 19.99 becomes 1999), so `totalPrice` is exact.

### setQty never removes a line

`setQty(id, q)` sets the line's quantity to `Math.max(1, q)` and then filters
out lines whose quantity is not positive (App.js:31-37). Because of the clamp,
the line being set always ends up with quantity at least 1. So the filter never
removes it, and in a well-formed cart the filter removes nothing at all. As a
result, the "-" button (App.js:116) stops at 1: pressing it on a line with
quantity 1 leaves the cart unchanged (`DecrementAtOneKeepsLine`,
`Catalog.DecrementSession`). One could read the code as "setting the quantity
to 0 removes the line", but that is not what it does. The model follows the
code.

## Model

| member | source | states |
|---|---|---|
| Cart.FindIndex | App.js:19 | the result is -1 exactly when no line has the id; otherwise it is the first index whose line has the id |
| Cart.FindIndexUnique | App.js:19 | with unique ids, the index found is the one line carrying the id |
| Cart.AddItem | App.js:17-27 | the length stays the same when the id is present and grows by one otherwise; every old line keeps its id, name and price at its position; only the first line with the id gains one unit; an absent product is appended last with qty 1; the result has the id |
| Cart.AddItemPresent | App.js:19-23 | with unique ids, adding a present product replaces exactly that line by a copy with qty + 1 |
| Cart.AddItemWellFormed | App.js:17-27 | adding keeps ids unique and every qty at least 1 |
| Cart.AddItemCount | App.js:17-27 | after any addItem, totalCount is exactly one more |
| Cart.AddTimes | App.js:17-27 | after at least one add of a product, some line carries its id |
| Cart.AddTimesFromEmpty | App.js:15-26 | n >= 1 adds of one product to the empty cart give exactly one line, with that product's fields and qty n |
| Cart.RemoveItem | App.js:29 | no line with the id is left; a line is kept exactly when it was there and has a different id; an absent id leaves the cart unchanged |
| Cart.RemoveItemConcat | App.js:29 | the filter distributes over concatenation, so the kept lines stay in their relative order |
| Cart.RemoveItemPresent | App.js:29 | with unique ids, removing a present id gives the cart with exactly that line cut out, the rest in order |
| Cart.RemoveItemWellFormed | App.js:29 | removing keeps ids unique and every qty at least 1 |
| Cart.RemoveItemTotals | App.js:29-43 | with unique ids, removing a present line lowers totalCount by its qty and totalPrice by its price times qty |
| Cart.AtLeastOne | App.js:34 | Math.max(1, q): at least 1 and at least q, and equal to one of them |
| Cart.WithQty | App.js:34 | the map step: same length; lines with the id get the new qty, every other line is unchanged |
| Cart.DropNonPositive | App.js:35 | the filter step: keeps exactly the lines with positive qty; a cart of positive quantities is returned unchanged |
| Cart.SetQty | App.js:31-37 | every resulting line has qty >= 1; a present id is never removed; on a cart of positive quantities the length is kept, the lines with the id get max(1, q) and all others are untouched |
| Cart.SetQtyAbsent | App.js:31-37 | on a cart of positive quantities an unknown id leaves the cart unchanged |
| Cart.SetQtyPresent | App.js:31-37 | in a well-formed cart, setQty on a present id replaces exactly that line by a copy with qty max(1, q) |
| Cart.SetQtyWellFormed | App.js:31-37 | setQty keeps ids unique and every qty at least 1 |
| Cart.SetQtyTotals | App.js:31-43 | in a well-formed cart, setQty on a present line changes totalCount by max(1, q) - qty and totalPrice by price times that difference |
| Cart.DecrementAtOneKeepsLine | App.js:116 | pressing "-" on a line with qty 1 in a well-formed cart leaves the cart unchanged |
| Cart.FoldLeftIsSum | App.js:39-43 | a reduce from accumulator acc equals acc plus the sum of the folded values |
| Cart.TotalCount | App.js:39 | the reduce of quantities from 0 equals the sum of qty over all lines |
| Cart.TotalPrice | App.js:40-43 | the reduce of price * qty from 0 equals the sum of price * qty over all lines |
| Cart.EmptyTotals | App.js:39-43 | the empty cart has totalCount 0 and totalPrice 0 |
| Cart.TotalCountAtLeastLines | App.js:39 | with every qty >= 1, totalCount is at least the number of lines, and it is 0 exactly for the empty cart |
| Cart.TotalPriceNonNegative | App.js:40-43 | with every qty >= 1 and every price >= 0, totalPrice is non-negative |
| CartStore.Store.constructor | App.js:15 | the store starts with no lines, and the invariant holds |
| CartStore.Store.AddItem | App.js:17-27 | keeps the invariant; the new lines are addItem of the old ones |
| CartStore.Store.RemoveItem | App.js:29 | keeps the invariant; the new lines are removeItem of the old ones |
| CartStore.Store.SetQty | App.js:31-37 | keeps the invariant; the new lines are setQty of the old ones |
| CartStore.Store.TotalCount | App.js:39 | the sum of qty over the current lines; at least the number of lines; 0 exactly when the cart is empty |
| CartStore.Store.TotalPrice | App.js:40-43 | the sum of price * qty over the current lines; non-negative when every price is |
| Catalog.MouseTwice | App.js:52-57 | adding the mouse twice gives one line with qty 2, totalCount 2 and totalPrice 3998 cents |
| Catalog.DecrementSession | App.js:110-122 | mouse and hub added, then "-" pressed on the mouse: both lines stay with qty 1, totalCount 2, totalPrice 4949 cents |

## Left out

- React machinery (`createContext`, `useContext`, `useState`, `useMemo`): the state cell is the `items` field of `CartStore.Store`. The memoised totals are functions recomputed from the lines.
- Screens, navigation, widgets and styles (`ProductsScreen`, `CheckoutScreen`, `CartButton`, `App`, the style sheet): UI rendering whose only logic is calling the store. The "-" button and the decrement session are modelled as calls to `SetQty`.
- The `placeOrder` stub: it only shows a platform alert. Disabling the order button on an empty cart is UI.
- Floating-point prices and `toFixed(2)` display: prices are integer cents, because float rounding is not modelled.
- A non-numeric quantity (`NaN`, strings) passed to `setQty`: quantities are `int`, and the UI only passes `qty - 1` and `qty + 1`.
- Re-entrancy and batching of React state updates: every mutator is one atomic replacement of the line sequence.
- The change of totalPrice under addItem is not stated. Only the change of totalCount is, as `Cart.AddItemCount`.
