# Shopping-cart store, verified model

This project models the cart store of `hooks/use-cart-store.ts`: a
client-side container holding an ordered list of cart lines (`id`, `name`,
`price`, `quantity`, optional `image`). The store offers four mutations and
two totals:

- `addItem(item, quantity)` merges by id. When a line with `item.id` exists,
  its quantity grows by `quantity` and its name, price and image stay as they
  were. Otherwise a new line is appended at the end. It returns `item.id`.
- `removeItem(id)` drops every line with that id.
- `updateQuantity(id, quantity)` behaves as `removeItem(id)` when
  `quantity <= 0`. Otherwise it overwrites the quantity of the lines with that id.
- `clearCart()` empties the list.
- `getTotalPrice()` is the sum of `price * quantity` over the lines.
- `getTotalItems()` is the sum of the quantities.

Everything is in one module, `UseCartStore` (`use_cart_store.dfy`). The
store is the class `CartStore`, whose field `items: seq<CartItem>` is the
store's state. Each mutation is a method with `modifies this` that replaces
`items`, as the source replaces the state through `set`. The new sequence
each mutation computes is a pure function: `Find` for `find`,
`MergeQuantity` and `SetQuantity` for the two `map`s, `RemoveLines` for
`filter`, and `AddLine` for the merge-or-append decision. The contracts of
`MergeQuantity`, `SetQuantity` and `AddLine` characterise their results line
by line. `Find` returns a single line, the first one with the id. The
contract of `RemoveLines` gives only its bounds and the no-match case; the
line-by-line account of the `filter` is `RemoveLinesKeepsOrder`, which says
the result is exactly the lines at the positions `KeptIndices` lists, in
their original order.
The totals are the left fold `Reduce`, which mirrors `reduce` with initial
value 0. It is proved equal to the reference sum `Sum`. Lemmas then say how
each mutation moves both totals, that ids stay unique (`UniqueIds`), and
when quantities stay positive (`AllPositive`).

Prices are integers (minor currency units), so `getTotalPrice` is an exact
sum. Quantities are unbounded integers of either sign, because the source
does not check their sign in `addItem`.

A line can hold a quantity below 1. `addItem` does not check the sign of its
quantity, so adding 0 or less of a new product stores a line with a
non-positive quantity (`AddNonPositiveKeepsLine`), and adding a negative
quantity to an existing line can make that line non-positive. The model
therefore proves positivity for `addItem` only under `quantity >= 1`. For
whole-number quantities, `removeItem` and `updateQuantity` keep every
quantity at least 1: `updateQuantity` removes the line when the new quantity
is 0 or less. A fractional or NaN quantity, which `updateQuantity` would
store, is outside the model (see "Left out").

## Model

| member | source | states |
|---|---|---|
| `UseCartStore.Find` | hooks/use-cart-store.ts:29-31 | None exactly when no line has the id; otherwise a line with that id. No earlier line has the id, so it is the first match. |
| `UseCartStore.MergeQuantity` | hooks/use-cart-store.ts:35-39 | Same length. Each line with the id has `quantity` added to its quantity and its other fields unchanged. Every other line is unchanged, in the same position. |
| `UseCartStore.AddLine` | hooks/use-cart-store.ts:28-52 | Id present: same length, and only the quantities of the matching lines change, by `quantity`. Id absent: the old list with one new line appended at the end. The new line takes id, name, price and image from the product and has the given quantity. |
| `UseCartStore.CartStore.AddItem` | hooks/use-cart-store.ts:28-55 | Returns `item.id`. The new state is `AddLine` of the old state. Unique ids stay unique. Positive quantities stay positive when `quantity >= 1`. |
| `UseCartStore.AddLinePreservesUniqueIds` | hooks/use-cart-store.ts:29-51 | If ids were unique before addItem, they are unique after, because a present id is merged and never duplicated. |
| `UseCartStore.AddExistingAt` | hooks/use-cart-store.ts:33-40 | With unique ids and the id at position k, addItem changes exactly line k, raising its quantity by `quantity`. |
| `UseCartStore.MergeQuantityAt` | hooks/use-cart-store.ts:35-39 | With unique ids, the merge `map` is a single-position update at the matching line. |
| `UseCartStore.AddExistingTotals` | hooks/use-cart-store.ts:80-88 | Adding q of a present id raises getTotalItems by exactly q. It raises getTotalPrice by the stored price times q. |
| `UseCartStore.AddNewTotals` | hooks/use-cart-store.ts:80-88 | Adding q of a new id raises getTotalItems by q. It raises getTotalPrice by the product's price times q. |
| `UseCartStore.AddLineTotalItems` | hooks/use-cart-store.ts:87-88 | With unique ids, addItem raises getTotalItems by exactly the added quantity, whether it merges or appends. |
| `UseCartStore.BumpTotals` | hooks/use-cart-store.ts:80-88 | Raising one line's quantity by q raises the item total by q. It raises the price total by that line's price times q. |
| `UseCartStore.AddLinePreservesPositive` | hooks/use-cart-store.ts:42-51 | With all quantities at least 1 and `quantity >= 1`, all quantities stay at least 1 after addItem. |
| `UseCartStore.AddNonPositiveKeepsLine` | hooks/use-cart-store.ts:42-51 | addItem does not validate its quantity. Adding 0 or less of a new id leaves a line with a non-positive quantity. |
| `UseCartStore.RepeatedAddsMerge` | hooks/use-cart-store.ts:28-55 | Any run of addItem calls with one id not yet in the cart leaves one new line at the end. Its quantity is the sum of the calls' quantities. Its name, price and image come from the first call. |
| `UseCartStore.ReAddKeepsOrder` | hooks/use-cart-store.ts:28-55 | Adding a, then b, then a again (even with a different name or price) leaves the store as [a, b]. a has the summed quantity and its first name, price and image. |
| `UseCartStore.RemoveLines` | hooks/use-cart-store.ts:59 | No kept line has the id. The result is no longer than the input. With no match the list is unchanged. |
| `UseCartStore.KeptIndices` | hooks/use-cart-store.ts:59 | The positions whose id differs from the removed one: strictly increasing, in range, and containing every such position. |
| `UseCartStore.RemoveLinesKeepsOrder` | hooks/use-cart-store.ts:57-61 | removeItem's result is exactly the lines at the kept positions, in their original order. |
| `UseCartStore.RemoveLinesMembers` | hooks/use-cart-store.ts:59 | A line is in the result if and only if it was in the cart and its id differs from the removed id. |
| `UseCartStore.RemoveLinesPreservesUniqueIds` | hooks/use-cart-store.ts:57-61 | removeItem keeps ids unique. |
| `UseCartStore.RemoveLinesPreservesPositive` | hooks/use-cart-store.ts:57-61 | removeItem keeps all quantities at least 1. |
| `UseCartStore.RemoveLinesAt` | hooks/use-cart-store.ts:57-61 | With unique ids and the id at position k, removeItem deletes exactly line k. |
| `UseCartStore.RemoveTotals` | hooks/use-cart-store.ts:80-88 | Removing a present id lowers any total (price or items) by exactly that line's term. |
| `UseCartStore.CartStore.RemoveItem` | hooks/use-cart-store.ts:57-61 | The new state is `RemoveLines` of the old state. Unique ids and positive quantities are preserved. |
| `UseCartStore.SetQuantity` | hooks/use-cart-store.ts:70-72 | Same length. Each line with the id gets exactly `quantity` and keeps its other fields. Every other line is unchanged. With no match the list is unchanged. |
| `UseCartStore.SetQuantityAt` | hooks/use-cart-store.ts:69-73 | With unique ids, the update `map` changes only the matching line. |
| `UseCartStore.SetQuantityPreservesUniqueIds` | hooks/use-cart-store.ts:69-73 | updateQuantity's `map` keeps ids unique. |
| `UseCartStore.SetQuantityTotals` | hooks/use-cart-store.ts:80-88 | Setting a present id's quantity to q replaces that line's old quantity by q in getTotalItems. In getTotalPrice it replaces the line's old term by price times q. |
| `UseCartStore.CartStore.UpdateQuantity` | hooks/use-cart-store.ts:63-74 | quantity <= 0: the new state is exactly removeItem's. quantity > 0: the new state is `SetQuantity` of the old. Unique ids are preserved. Quantities of at least 1 stay at least 1 (for the whole-number quantities the model covers). |
| `UseCartStore.CartStore.ClearCart` | hooks/use-cart-store.ts:76-78 | The cart is empty whatever it held, so clearing twice equals clearing once. Both totals are 0 afterwards. |
| `UseCartStore.Reduce` | hooks/use-cart-store.ts:81-84 | The left fold from `acc` equals `acc` plus the reference sum of the terms. |
| `UseCartStore.CartStore.GetTotalPrice` | hooks/use-cart-store.ts:80-85 | Equals the sum of price * quantity over the lines; 0 for an empty cart. |
| `UseCartStore.CartStore.GetTotalItems` | hooks/use-cart-store.ts:87-89 | Equals the sum of the quantities over the lines; 0 for an empty cart. |
| `UseCartStore.CartStore.constructor` | hooks/use-cart-store.ts:26 | The store starts with an empty cart. |

## Left out

- The zustand plumbing (`create`, the `set`/`get` closures): the state is the plain field `items` of `CartStore`, and each `set` is an assignment to it.
- The `persist` middleware and its `'cart-storage'` key: the browser storage it reads at start-up and writes after every mutation is I/O inside a foreign library. So the save-and-restore round trip of the cart is not modelled.
- Floating-point prices: JavaScript numbers are modelled as unbounded integers (minor currency units), so totals are exact and never round.
- Fractional and NaN quantities: quantities, typed as JavaScript `number` in the source, are modelled as integers. `updateQuantity(id, 0.5)` passes the `quantity <= 0` test as false and stores 0.5, and `updateQuantity(id, NaN)` stores NaN; neither is modelled, so the positivity results hold for whole-number quantities only.
- `addItem`'s untyped `item: any` and its `Promise<string> | string` result: the input is the typed record `Product` (id, name, price, optional image) and the result a plain string. Extra fields of the incoming object are not copied by the source either.
- Comparisons are on Dafny strings. JavaScript's strict comparison of ids that are not strings (for example a number against a string) is not modelled.
