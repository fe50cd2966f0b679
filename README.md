# Print storefront commerce state, modelled in Dafny

This project models the client-side commerce state of a storefront for printed business cards:

- the **pricing calculator** of the product customizer (`src/pages/ProductCustomize.tsx`): the catalog table, the live price and the line item that "Add to cart" builds;
- the **cart store** (`src/context/CartContext.tsx`): a reducer over a newest-first list of line items (ADD, REMOVE, QTY, CLEAR), the derived subtotal and count, and a provider that loads the cart once and writes it back after every change;
- the **session store** (`src/context/AuthContext.tsx`): a mock sign-in that is either anonymous or holds one `{id, email}` identity, kept in step with a storage slot.

Modules, one per component:

| file | module | what it holds |
|---|---|---|
| `wrappers.dfy` | `Wrappers` | `Option`, for `undefined`/`null` and `??` |
| `persistence.dfy` | `Persistence` | the storage slots as a `map<string, Snapshot<T>>`, with `Load`, `Save`, `Delete` |
| `cart.dfy` | `Cart` | line items, the reducer as pure functions, the totals, the cart invariant and the lemmas about them |
| `cart_provider.dfy` | `CartProvider` | class `CartStore`, which holds `state` and `storage` and applies the reducer |
| `pricing.dfy` | `Pricing` | the `BusinessCard` catalog, `Price`, `AddToCart` and the pricing lemmas |
| `auth.dfy` | `Auth` | class `AuthStore`, which holds `user`, `loading` and `storage`, with `Persist`, `SignIn`, `SignUp` and `SignOut` |

Modelling choices:

- `crypto.randomUUID()` becomes an id that the caller supplies. For an ADD it must be fresh: no item may already carry it. For a sign-in it must differ from the current user's id.
- Prices are whole cents, as in the source. The source computes `Math.round((base + deltas) * (quantity / 100))` in floating point. The model uses `RoundHalfUp((base + deltas) * quantity)`, which is `(t + 50) / 100` with floor division. That is the same rounding `Math.round` applies to `t / 100`. Every delta in the catalog is a multiple of 100, so the result is an exact integer. `PriceExact` proves this.
- A storage slot holds either `Stored(v)` or `Corrupt`. `Stored(v)` stands for any text that `JSON.parse` accepts and that reads back as `v`. `Corrupt` stands for text that makes `JSON.parse` throw. The session slot's type is `Option<User>`, so a stored literal `null` reads back as anonymous, as it does in the source.

A configurator that rejects unknown axis values, an `add` that returns the new line item, or a cart that is only written after a user action would differ from the code; the model follows the code:

- An axis value that is not in its table is not rejected as a configuration error. `?? 0` makes it contribute 0 to the price (`UnknownValueIsFree`).
- `addItem` returns nothing. It does not return the new line item.
- The cart's persist effect also runs on mount. So the constructor of `CartStore` already writes the loaded (or empty) cart to the slot, and a corrupt slot is overwritten with the empty cart.

## Model

| member | source | states |
|---|---|---|
| `Persistence.Load` | src/context/CartContext.tsx:54-59 | reading a slot yields a value exactly when the slot exists and parses, and then yields the value that is stored there |
| `Persistence.Save` | src/context/CartContext.tsx:63 | the slot afterwards holds the serialization of the value; no other slot changes |
| `Persistence.Delete` | src/context/AuthContext.tsx:35 | the slot is gone afterwards; every other slot is kept as it was |
| `Persistence.SaveThenLoad` | src/context/CartContext.tsx:55-63 | what is saved loads back unchanged; loads of other keys are unaffected |
| `Persistence.DeleteThenLoad` | src/context/AuthContext.tsx:21-36 | a deleted slot loads as absent; loads of other keys are unaffected |
| `Cart.Reduce` | src/context/CartContext.tsx:28-48 | `cartReducer`, one case per action with the fresh id as a parameter; it has no contract of its own, and its behaviour is stated by `AddPrepends`, `RemoveId`, `RemoveAbsent`, `RemoveKeepsOrder`, `SetQuantity` and `ClearAndUnrecognized` |
| `Cart.Subtotal` | src/context/CartContext.tsx:67 | the `reduce` fold of `unitPrice * quantity`; its properties are stated by `EmptyTotals`, `TotalsAppend`, `AddTotals` and `CountAtLeastLines` |
| `Cart.Count` | src/context/CartContext.tsx:68 | the `reduce` fold of `quantity`; its properties are stated by `EmptyTotals`, `TotalsAppend`, `AddTotals`, `QtyCount` and `CountAtLeastLines` |
| `Cart.WithId` | src/context/CartContext.tsx:32 | `{ id, ...payload }` carries the new id, and leaving the id out again gives back exactly the payload |
| `Cart.ClampQuantity` | src/context/CartContext.tsx:39 | `Math.max(1, qty)` is at least 1, equals `qty` when `qty >= 1`, and is 1 otherwise |
| `Cart.RemoveId` | src/context/CartContext.tsx:36 | the result holds exactly the items whose id differs from the removed one and is never longer |
| `Cart.SetQuantity` | src/context/CartContext.tsx:39 | length and positions are kept; the item at each matching position gets the clamped quantity, every other field of it is kept, and every other item is unchanged |
| `Cart.AddPrepends` | src/context/CartContext.tsx:30-33 | ADD grows the list by one, puts the new item (with the new id and the payload) at index 0, and leaves the old list, in order, after it |
| `Cart.AddKeepsIdsUnique` | src/context/CartContext.tsx:31-32 | with a fresh id, ADD keeps the ids unique |
| `Cart.AddTotals` | src/context/CartContext.tsx:66-68 | ADD raises the subtotal by `unitPrice * quantity` of the new line and the count by its quantity |
| `Cart.RemoveAbsent` | src/context/CartContext.tsx:35-37 | removing an id that no item carries leaves the items exactly as they were, without any error |
| `Cart.RemoveKeepsOrder` | src/context/CartContext.tsx:36 | REMOVE filters each part of the list on its own, so the kept items stay in their original order |
| `Cart.RemoveKeepsFresh` | src/context/CartContext.tsx:36 | an id that no item carries is still carried by none after REMOVE |
| `Cart.RemoveKeepsIdsUnique` | src/context/CartContext.tsx:36 | after REMOVE no item carries the removed id, and unique ids stay unique |
| `Cart.AddThenRemove` | src/context/CartContext.tsx:30-37 | ADD with a fresh id followed by REMOVE of that id restores the previous state exactly, so both totals are restored too |
| `Cart.QtyAbsent` | src/context/CartContext.tsx:38-41 | QTY for an id that no item carries changes nothing |
| `Cart.QtyCount` | src/context/CartContext.tsx:38-41 | with unique ids, QTY replaces exactly one item's quantity in the count by the clamped value |
| `Cart.ClearAndUnrecognized` | src/context/CartContext.tsx:42-46 | CLEAR yields no items; an unrecognised action returns the state unchanged |
| `Cart.EmptyTotals` | src/context/CartContext.tsx:67-68 | subtotal and count of an empty cart are both 0 |
| `Cart.TotalsAppend` | src/context/CartContext.tsx:67-68 | both folds add up over a split of the list, so the order of the fold does not matter |
| `Cart.CountAtLeastLines` | src/context/CartContext.tsx:67-68 | when every quantity is at least 1 and every unit price is non-negative, the count is at least the number of lines and the subtotal is non-negative |
| `Cart.ReduceKeepsItemsOk` | src/context/CartContext.tsx:28-48 | every action keeps "quantity >= 1 and unitPrice >= 0 for every item", given only a valid draft for ADD; ids play no part |
| `Cart.ReduceKeepsInvariant` | src/context/CartContext.tsx:28-48 | every action also keeps ids unique, when ADD uses a fresh id |
| `Cart.Run` | src/context/CartContext.tsx:28-48 | dispatching a sequence of actions in order; it has no contract of its own, and its properties are stated by `RunKeepsItemsOk`, `RunKeepsInvariant` and `RunThroughout` |
| `Cart.RunKeepsItemsOk` | src/context/CartContext.tsx:28-48 | from any cart whose items are valid, whatever its ids, any sequence of ADD (with valid drafts), REMOVE, QTY, CLEAR and unrecognised actions leaves valid items, with count >= lines and subtotal >= 0 |
| `Cart.RunKeepsInvariant` | src/context/CartContext.tsx:28-48 | from a cart with valid items and unique ids, any sequence whose ADDs use valid drafts and fresh ids keeps both at the end |
| `Cart.AdmissiblePrefix` | src/context/CartContext.tsx:28-48 | every prefix of an admissible sequence of actions is admissible |
| `Cart.RunThroughout` | src/context/CartContext.tsx:28-48 | the guarantees of `RunKeepsItemsOk` (and, for admissible sequences, unique ids) hold after every prefix of the sequence, not only at its end |
| `CartProvider.InitialCart` | src/context/CartContext.tsx:53-60 | the initial state is the stored cart when the slot parses, and the empty cart when the slot is absent or unparsable |
| `CartProvider.ReloadRoundTrip` | src/context/CartContext.tsx:53-64 | after a write, loading from scratch reproduces the same cart |
| `CartProvider.CartStore.constructor` | src/context/CartContext.tsx:53-64 | the state is the loaded-or-empty cart, and the mount-time effect writes it to the slot |
| `CartProvider.CartStore.Dispatch` | src/context/CartContext.tsx:62-64 | the state becomes the reducer's result, and the slot then holds the full new state and nothing else changes |
| `CartProvider.CartStore.AddItem` | src/context/CartContext.tsx:71 | the new line is first and the old lines follow in order; the slot is written; the totals grow by the line's amount; valid items stay valid when the draft is valid, and unique ids stay unique |
| `CartProvider.CartStore.RemoveItem` | src/context/CartContext.tsx:72 | the lines are filtered by id; an absent id leaves the state unchanged; the slot is written; valid items stay valid and unique ids stay unique, each on its own |
| `CartProvider.CartStore.UpdateQuantity` | src/context/CartContext.tsx:73 | the lines are the clamped quantity update of the old lines; the slot is written; valid items stay valid and unique ids stay unique, each on its own |
| `CartProvider.CartStore.SubtotalNow` | src/context/CartContext.tsx:66-67 | `subtotal`, recomputed from the current items on every read; its changes are stated by `AddItem` and `Clear` |
| `CartProvider.CartStore.CountNow` | src/context/CartContext.tsx:66-68 | `count`, recomputed from the current items on every read; its changes are stated by `AddItem` and `Clear` |
| `CartProvider.CartStore.Clear` | src/context/CartContext.tsx:74 | the cart is empty, both totals are 0, and the slot holds the empty cart |
| `Pricing.Find` | src/pages/ProductCustomize.tsx:48 | `find` yields nothing exactly when no entry has the value; otherwise it yields the first entry that has it |
| `Pricing.Delta` | src/pages/ProductCustomize.tsx:48-50 | an axis contributes the price of the first matching entry, or 0 when no entry matches |
| `Pricing.UnitSum` | src/pages/ProductCustomize.tsx:48-52 | base price plus the three axis deltas, before scaling; its properties are stated by `UnitSumWholeDollar`, `PriceExact` and `Price` |
| `Pricing.RoundHalfUp` | src/pages/ProductCustomize.tsx:53 | the result is the integer nearest to `t / 100`, with halves rounded up |
| `Pricing.Price` | src/pages/ProductCustomize.tsx:47-54 | the price is `(base + size + paper + finish) * quantity / 100` rounded once, after summing and scaling |
| `Pricing.AddToCart` | src/pages/ProductCustomize.tsx:67-75 | the draft has quantity 1, the current price as unit price, options `{size, paper, finish}`, the product name, the artwork reference, and the route slug or else the `"business-card"` fallback |
| `Pricing.UnknownValueIsFree` | src/pages/ProductCustomize.tsx:48-50 | an axis value that is not in its table contributes 0; it is not an error |
| `Pricing.PriceNonNegative` | src/pages/ProductCustomize.tsx:47-54 | with non-negative tables and quantity, the price is non-negative |
| `Pricing.DeltaWholeDollar` | src/pages/ProductCustomize.tsx:16-30 | when every entry of a table is a multiple of 100, so is the contribution of any selected value |
| `Pricing.UnitSumWholeDollar` | src/pages/ProductCustomize.tsx:52 | with whole-dollar tables, base plus the three deltas is a multiple of 100 |
| `Pricing.RoundScaled` | src/pages/ProductCustomize.tsx:51-53 | rounding a multiple of 100 is exact |
| `Pricing.PriceExact` | src/pages/ProductCustomize.tsx:47-54 | with whole-dollar tables the rounding changes nothing: `100 * price` equals the scaled sum exactly |
| `Pricing.PriceLinear` | src/pages/ProductCustomize.tsx:51-52 | with whole-dollar tables, `price(q2) * q1 == price(q1) * q2` |
| `Pricing.BusinessCardTables` | src/pages/ProductCustomize.tsx:13-32 | the catalog's base price and deltas are non-negative multiples of 100 |
| `Pricing.BusinessCardPrices` | src/pages/ProductCustomize.tsx:13-54 | for every selection at a listed quantity the price is exact and non-negative, and 500 cards cost exactly twice 250 |
| `Pricing.BusinessCardExamples` | src/pages/ProductCustomize.tsx:39-53 | the defaults are `3.5x2`, `matte14`, `none`, 100 and price at 1200; `3.5x2`, `gloss16`, `soft-touch` at 250 price at 4250 |
| `Pricing.AddToCartKeepsCartInvariant` | src/pages/ProductCustomize.tsx:67-75 | the draft that "Add to cart" builds satisfies the cart invariant, and adding it raises the subtotal by exactly the quoted price |
| `Auth.InitialUser` | src/context/AuthContext.tsx:21-30 | the loaded user is the stored one when the slot parses, and anonymous when the slot is absent or unparsable |
| `Auth.PersistedStorage` | src/context/AuthContext.tsx:32-36 | a signed-in user is written to the slot; anonymous deletes the slot; other slots are untouched |
| `Auth.PersistThenReload` | src/context/AuthContext.tsx:21-36 | after `persist(next)` a fresh load yields exactly `next` |
| `Auth.AuthStore.constructor` | src/context/AuthContext.tsx:18-19 | the first render is anonymous and loading |
| `Auth.AuthStore.Load` | src/context/AuthContext.tsx:21-30 | the user is the loaded-or-anonymous user, `loading` becomes false in every case, and storage is not written |
| `Auth.AuthStore.Persist` | src/context/AuthContext.tsx:32-36 | the user becomes `next`; the slot holds `next` when it is signed in and is absent when it is anonymous |
| `Auth.AuthStore.SignIn` | src/context/AuthContext.tsx:38-42 | from either state, the user becomes `{freshId, email}`, replacing any previous identity; it is written to the slot; no error is returned; the password plays no part |
| `Auth.AuthStore.SignUp` | src/context/AuthContext.tsx:44-48 | exactly the same effect on user, storage and result as `SignIn` |
| `Auth.AuthStore.SignOut` | src/context/AuthContext.tsx:50-52 | the user becomes anonymous and the slot is deleted, so a later load yields anonymous |

## Left out

- Rendering, layout, Helmet, the select and input markup, the live preview card, the preview texts and the dollar formatting with `toFixed`: presentation only.
- Router navigation and toasts: calls into UI code outside the model.
- The pages that only read or wire the stores (`Index`, `Header`, `CheckoutSuccess`, `Auth`, `Cart`): rendering over the stores.
- The mock checkout's timer and its `Math.random` order id: timing and randomness. Its only effect on the core, clearing the cart, is `CartStore.Clear`.
- File upload (`URL.createObjectURL`, the MIME check): browser APIs. The artwork reference is an opaque `Option<string>`.
- JSON text and the shape of parsed data: the stores cast whatever `JSON.parse` returns without checking it. A slot that holds well-formed JSON of another shape, a stored `null` under the cart key, and an empty-string slot are not modelled. A slot either parses to a value of the store's own type or is `Corrupt`.
- Both stores share one browser storage under different keys. Each store here keeps its own typed map. Both stores write only their own key, and the contracts say that every other slot is unchanged.
- Id generation: `crypto.randomUUID()` is not random here. The caller supplies the id and the model requires it to be fresh.
- Pricing.Price: computes the exact rational price and rounds it. JS computes `quantity / 100` and the product in double precision. The two agree for the listed quantities 100, 250, 500 and 1000, where every intermediate value is exact. Other quantities cannot be selected, and for them the floating-point result is not modelled.
- Non-integer, `NaN` or otherwise coerced quantities from `Number(...)`: quantities are integers here.
- React plumbing: `useMemo` caching, context objects, re-render timing, and the `useCart`/`useAuth` errors thrown outside a provider. The totals are recomputed on every read (`SubtotalNow`, `CountNow`).
- Auth.AuthStore.SignIn and Auth.AuthStore.SignUp are `async`. Here they are synchronous, because neither ever awaits anything.
- Concurrent tabs writing the same slot: the application runs on one thread and last-write-wins is not modelled.
