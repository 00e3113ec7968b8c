# Shopping-store cart state, in Dafny

This project models the cart state module of a small storefront front end,
together with the key-value store it writes through to.

- **The store** (`LocalStorage.Store`) is the in-memory `localStorage` that the
  cart's test suite installs on `window`. It holds a string-to-string
  dictionary and changes it in place through `clear`, `getItem`, `removeItem`
  and `setItem`. `getItem` answers `null` (here `None`) both for a missing
  key and for a key holding the empty string, because it returns
  `store[key] || null`.
- **The cart** (`CartState.Cart`) owns an ordered sequence of products. A
  `Product` is a `{name, price, image}` value compared structurally, and
  duplicates are allowed. When the cart is created it reads the `"products"`
  key once. Missing, empty or malformed text gives the empty cart. Creating
  the cart writes nothing.
- **The cart operations.** `addToCart` appends a product, `removeFromCart`
  removes one, and `clearCart` empties the cart. Each one writes the encoded
  sequence back under `"products"`. `totalPrice` sums the prices.
- **The write-through invariant** is `Synced()`: the store holds the encoding
  of the in-memory sequence. Every mutation ensures it. `SyncedRehydrates`
  shows that a session hydrated from a synced store gets exactly the same
  cart back.
- **The persisted text** (`ProductJson`) is a JSON array of objects with keys
  `name`, `price` and `image`, laid out without whitespace, like the output of
  `JSON.stringify`. `Encode` writes it and `Decode` reads it. The model proves
  `Decode(Encode(ps)) == Some(ps)`. It also proves the converse: any text that
  `Decode` accepts is the encoding of what it decodes to.
- **The test cases** of the suite are methods in `CartScenarios`. Each builds
  a fresh store and cart, and its postconditions state what the test expects.

The implementation of the `useCart` hook (the module the test file imports
as `./useCart`) is not part of this model. The cart's behaviour follows what its test file
asserts. Where the tests say nothing, the model makes five choices of its
own:
- a missing, empty or malformed `"products"` text hydrates to the empty cart;
- creating the cart writes nothing to the store, which is why a freshly
  hydrated cart need not be `Synced()` (the tests attach their spies only
  after the hook is rendered, so they do not rule out a write on mount);
- `removeFromCart` matches an entry only when name, price and image are all
  equal (the removal test shows only that removal does not compare object
  references);
- `removeFromCart` removes the first equal entry only;
- `clearCart` writes `"[]"` even when the cart is already empty.

## Model

| member | source | states |
|---|---|---|
| `LocalStorage.Store.constructor` | src/CartContext/useCart.spec.tsx:6 | the store starts with an empty dictionary |
| `LocalStorage.Store.GetItem` | src/CartContext/useCart.spec.tsx:12-14 | returns the stored text exactly when the key is present and its value is non-empty; otherwise `None` (`null`), so a stored empty string reads as missing |
| `LocalStorage.Store.Clear` | src/CartContext/useCart.spec.tsx:9-11 | the dictionary is empty afterwards, and `getItem` of every key is `None` |
| `LocalStorage.Store.RemoveItem` | src/CartContext/useCart.spec.tsx:15-17 | removes only `key`; `getItem(key)` is `None` and every other key reads as before |
| `LocalStorage.Store.SetItem` | src/CartContext/useCart.spec.tsx:18-20 | `key` maps to `value` and every other key is unchanged; a value stored empty reads back as `None` |
| `ProductJson.Digits` | src/CartContext/useCart.spec.tsx:114-122 | a price is written as at least one decimal digit with no leading zero, and the digits denote the price |
| `ProductJson.Encode` | src/CartContext/useCart.spec.tsx:103-106 | the text is bracketed, and it is `"[]"` exactly when the cart is empty |
| `ProductJson.DecodeEncode` | src/CartContext/useCart.spec.tsx:44-51 | every cart's encoding decodes back to that cart |
| `ProductJson.EncodeDecode` | src/CartContext/useCart.spec.tsx:44-51 | a text that `Decode` accepts is the encoding of the cart it decodes to. `Decode` is the model's canonical-only reader, stricter than `JSON.parse`: layouts `JSON.parse` would also accept are read as malformed |
| `ProductJson.EncodeInjective` | src/CartContext/useCart.spec.tsx:72-75 | two carts with the same persisted text are equal |
| `CartState.SumAppend` | src/CartContext/useCart.spec.tsx:113-128 | the total of a concatenation is the sum of the totals |
| `CartState.PriceAtMostSum` | src/CartContext/useCart.spec.tsx:127 | the price of every entry is included in the total |
| `CartState.RemoveFirstAbsent` | src/CartContext/useCart.spec.tsx:98-100 | removing a product the cart does not hold leaves the cart unchanged |
| `CartState.RemoveFirstOccurrence` | src/CartContext/useCart.spec.tsx:98-102 | for a cart `before + [p] + after` with `p` not in `before`, removal gives `before + after`: only the first occurrence goes, and the order is kept |
| `CartState.RemoveFirstMultiset` | src/CartContext/useCart.spec.tsx:98-102 | removal takes exactly one copy of the product out of the cart's multiset, or none if it was absent |
| `CartState.RemoveFirstSum` | src/CartContext/useCart.spec.tsx:98-102 | removal lowers the total by the product's price if it was present, and by nothing otherwise |
| `CartState.RemoveUndoesAdd` | src/CartContext/useCart.spec.tsx:67-69 | removing a product just appended to a cart that lacked it restores the cart |
| `CartState.HydrateEncoded` | src/CartContext/useCart.spec.tsx:44-51 | a store holding `Encode(ps)` hydrates to `ps` |
| `CartState.HydrateMalformed` | src/CartContext/useCart.spec.tsx:49 | a stored text that encodes no cart hydrates to the empty cart. No test stores such a text; the empty-cart fallback is the model's own choice, and "encodes no cart" is judged by the canonical-only `Decode`, not by `JSON.parse` |
| `CartState.Cart.constructor` | src/CartContext/useCart.spec.tsx:49-51 | the cart is loaded from the store's `"products"` text through `getItem`. That the store is not written on creation is the model's own choice (no `modifies` clause); these lines do not show it |
| `CartState.Cart.TotalPrice` | src/CartContext/useCart.spec.tsx:127 | an empty cart totals 0 and every entry's price is part of the total; it reads the in-memory sequence and changes nothing. Its exact value is `Sum(products)` by its definition; `Sum` is fixed by its own definition and `SumAppend`, and the total-price clauses of `AddToCart`, `RemoveFromCart` and `ClearCart` state how it changes |
| `CartState.Cart.AddToCart` | src/CartContext/useCart.spec.tsx:67-75 | appends `p` after the earlier entries; the store's `"products"` value becomes the new encoding and no other key changes; the cart is synced; the total rises by `p.price` |
| `CartState.Cart.RemoveFromCart` | src/CartContext/useCart.spec.tsx:98-106 | the cart becomes `RemoveFirst(old products, p)`; `"products"` is rewritten and no other key changes; the cart is synced; the total drops by `p.price` if `p` was present |
| `CartState.Cart.ClearCart` | src/CartContext/useCart.spec.tsx:147-155 | the cart is empty, `"products"` holds `"[]"` whatever the cart held before, no other key changes, and the total is 0 |
| `CartState.Cart.SyncedRehydrates` | src/CartContext/useCart.spec.tsx:72-75 | when cart and store are synced, hydrating a new session from the store yields the same cart |
| `CartScenarios.LoadsDataFromLocalStorage` | src/CartContext/useCart.spec.tsx:35-52 | a cart stored as `[Product foo]` before mount loads as `[Product foo]` |
| `CartScenarios.AddsItemsToTheCart` | src/CartContext/useCart.spec.tsx:56-78 | adding to an empty cart gives `[product]` and writes `Encode([product])` |
| `CartScenarios.RemovesItemsFromTheCart` | src/CartContext/useCart.spec.tsx:82-109 | removing the only product gives `[]` and writes `"[]"` |
| `CartScenarios.ReturnsTotalProductsPrice` | src/CartContext/useCart.spec.tsx:113-128 | two entries of a product priced 21 total 42 |
| `CartScenarios.RemovesAllTheProductsFromTheCart` | src/CartContext/useCart.spec.tsx:132-158 | clearing a two-entry cart gives `[]` and writes `"[]"` |

## Left out

- The React side is not modelled: `renderHook`, `act`, the Jest spies and the context provider that shares one cart across the component tree. The model has one explicit `Cart` object that owns its store reference.
- The spy assertions (`toHaveBeenCalledWith`) are modelled as the store content after the call, not as a log of calls.
- Prices are `nat`, not floating-point numbers. Only whole, non-negative prices are modelled, and those are the only prices the tests use.
- The encoder escapes only `"` and `\`. `JSON.stringify` also escapes control characters, which the model writes raw and reads back raw. It also escapes lone surrogates, but a Dafny `char` is a Unicode scalar value, so the model cannot hold a string containing one at all.
- `ProductJson.Encode` always writes the keys as `name`, `price`, `image` and every price in full decimal digits. `JSON.stringify` writes keys in the order the object created them and writes numbers of 1e21 and above in exponent form (`1e+21`). No product literal or price in the tests is affected.
- The decoder accepts only the canonical layout. JSON with whitespace, other key orders, extra keys, fractional or exponent numbers, or other escape sequences counts as malformed and hydrates to the empty cart.
- `LocalStorage.Store.SetItem` takes a `string`, as declared. The `value ? value.toString() : ""` branch matters only for non-string arguments (`null`, `undefined`, numbers), and those are not modelled. For a string, the falsy branch stores `""`, which is the value itself.
- `LocalStorage.Store` treats every key as an own entry of its dictionary. The mock's store is a plain object literal, so in the mock a key naming an `Object.prototype` member (`__proto__`, `constructor`, `toString`, …) reads the inherited value: `getItem` of such a key is not `null` even after `clear` or `removeItem`, and `setItem("__proto__", s)` stores nothing. The model's `GetItem`, `Clear`, `RemoveItem` and `SetItem` contracts do not hold for those keys in the mock. The cart only uses `"products"`.
- Store failures are not modelled, such as a quota being exceeded or storage being unavailable. The test store never fails.
- CartState.Cart.TotalPrice: its own contract gives the empty case and a bound for each entry, not the exact sum. The exact value is `Sum(products)` by its definition, and `Sum` is fixed by its own definition and `SumAppend`. The total-price clauses of the three mutations only track how the total changes, so they alone do not fix the total of a hydrated cart.
- `CartState.Cart.RemoveFromCart` with several equal entries: the hook's own policy is not visible. The model removes the first occurrence.
- The "Add to cart" button is disabled when the product is already in the cart (src/Home/ProductCard.spec.tsx:34-45). This is UI over a membership test and is not modelled.
- The catalog page, the checkout list and the router (src/Home/Home.spec.tsx, src/Checkout/CheckoutList.spec.tsx, src/App.spec.tsx) are views and library wiring and are not modelled.
