# Storefront stores — a Dafny model

This project models the in-memory state behind the storefront's Next.js API
routes and proves properties of it. There are four stores, each an array held at
module level. The cart, order and user stores also keep an id counter there. The
catalog has no counter and numbers a new item from the largest id present:

- the **cart store** (`/api/carts`): at most one cart per user, created on the
  first add-to-cart; adding an item that is already in the cart raises that
  line's quantity (merge-on-add); listing returns every cart; clearing empties a
  cart but keeps it;
- the **order ledger** (`/api/orders`): an append-only list of orders, stored
  exactly as the client sent them (the total is not recomputed);
- the **user registry** (`/api/users`): registration refuses a username that is
  already taken, and listing leaves out passwords;
- the **catalog** (`/api/items`): eight seeded items. A new item gets the
  largest id plus one.

Every cart and order handler first applies a token gate: it takes the
`Authorization` header, removes the first occurrence of `"Bearer "` (anywhere in
the header, not only at its start) and answers 401 when nothing truthy is left.
Required body fields are checked with JavaScript truthiness. `!x` rejects a
missing field, 0 and `""`, but accepts an empty array.

Checkout has no endpoint of its own. The shop page POSTs an order built from its
copy of the cart and then DELETEs the cart. It reports success without looking
at the DELETE's answer. `Checkout.Checkout` composes the two store models in
that order.

Layout: one module per file. `Wrappers` (Option), `Js` (truthiness, defaults),
`Arrays` (`findIndex`), `Auth` (the token gate), `Numbers` (`Number.parseInt`
and `${n}`), `Carts`, `Orders`, `Users`, `Catalog` and `Checkout`. Each store is
a class whose fields are a `seq` of records and, except for the catalog, an
`int` counter. Each handler is
a method that returns the HTTP status and the response value. The methods are
specified by pure functions of the old state (`Carts.AfterAdd`,
`Carts.AfterClear`). The invariants (`Carts.WellFormed`, `Orders.Ledger`,
`Users.Registry`, `Catalog.WellFormed`) are proved as lemmas about those
functions.

Modelling choices:
- A JSON body field is an `Option`; `None` is a missing field (`undefined`).
- Ids and quantities are integers.
- Prices and totals are integer hundredths. They are stored and never computed with.
- The clock is a parameter `now` of every handler that stamps `created_at`.
- The `userId` query parameter of DELETE is a string, and the model parses it as
  `Number.parseInt` does: leading white space, an optional sign, a `0x` prefix
  meaning radix 16, then the longest run of digits; `None` stands for NaN.

The model follows the code in these respects:
- A duplicate username answers 400, not a separate conflict status (app/api/users/route.ts:18-20).
- Cart quantities are not required to be at least 1. A supplied 0 or a negative
  number is stored and added as it is (app/api/carts/route.ts:27, 49).
- Creating a catalog item needs no token, like reading the catalog (app/api/items/route.ts:19-41).
- A checkout whose DELETE finds no cart is still reported as a success. It is
  not reported as a partial failure (app/shop/page.tsx:161-175).

## Model

| member | source | states |
|---|---|---|
| `Js.IsPresentNumber` | app/api/carts/route.ts:29 | `!x` on a numeric field fails exactly for a missing field or 0 |
| `Js.IsPresentString` | app/api/users/route.ts:13 | `!x` on a string field fails exactly for a missing field or `""` |
| `Js.IsPresentArray` | app/api/orders/route.ts:25 | `!items` fails only for a missing field; an empty array passes |
| `Js.OrEmpty` | app/api/items/route.ts:32 | `description \|\| ""` keeps a non-empty description and gives `""` otherwise |
| `Arrays.FindIndex` | app/api/carts/route.ts:83 | `findIndex` returns the first index whose element satisfies the predicate, or none when no element does |
| `Js.WithDefault` | app/api/carts/route.ts:27 | `{ quantity = 1 }` applied through the destructuring rule `Js.Destructure` (only `undefined` takes the default): a missing field gives the default, and a supplied number, 0 included, is kept |
| `Js.OrEmptyIsEmptyIff` | app/api/items/route.ts:32 | `description \|\| ""` yields `""` exactly when the field is missing or empty |
| `Auth.IndexOf` | app/api/carts/route.ts:21 | the position found is an occurrence of the pattern, and no earlier position is one; none means no occurrence at all |
| `Auth.RemoveFirst` | app/api/carts/route.ts:21 | `replace("Bearer ", "")`: when the pattern occurs, the result is the string with the characters of its first occurrence cut out and is shorter by the pattern's length; with no occurrence it is the string itself |
| `Auth.Token` | app/api/carts/route.ts:21 | a token exists exactly when the header does; a header starting with `"Bearer "` yields the rest, and a header without `"Bearer "` anywhere is returned whole |
| `Auth.Authorized` | app/api/carts/route.ts:21-24 | the gate passes when the extracted token is truthy; its exact set of accepted headers is proved in `Auth.AuthorizedIff` |
| `Auth.AuthorizedIff` | app/api/carts/route.ts:21-24 | the gate rejects exactly an absent header, an empty one and exactly `"Bearer "`; every other header passes |
| `Auth.BearerToken` | app/shop/page.tsx:151 | the client's header `Bearer ${token}` yields `token` back, so it passes the gate iff the token is non-empty |
| `Numbers.TrimStart` | app/api/carts/route.ts:83 | `parseInt` skips exactly the leading JavaScript white space: what it removes is all white space and what remains does not start with any |
| `Numbers.LeadingDigits` | app/api/carts/route.ts:83 | the digits `parseInt` reads are the longest run of radix digits at the front |
| `Numbers.DecimalDigitsValue` | app/shop/page.tsx:164 | the digits `${n}` writes for a natural number denote that number |
| `Numbers.ParseInt` | app/api/carts/route.ts:83 | `Number.parseInt`: leading white space, sign, `0x` prefix, longest digit run, `None` for NaN; its round trip with `${n}` is proved in `Numbers.ParseIntToDecimal` |
| `Numbers.ToDecimal` | app/shop/page.tsx:164 | `${n}` for an integer; its shape is proved in `Numbers.ToDecimalShape` and its value in `Numbers.ParseIntRoundTrip` |
| `Numbers.ToDecimalShape` | app/shop/page.tsx:164 | `${n}` is non-empty, starts with a minus sign exactly when n is negative, and is digits everywhere else |
| `Numbers.ParseIntToDecimal` | app/api/carts/route.ts:83 | `Number.parseInt` of the rendering of `n`, followed by text that does not continue the number, is `n` |
| `Numbers.ParseIntRoundTrip` | app/shop/page.tsx:164 | the query `userId=${n}` the client sends parses back to `n` on the server |
| `Carts.FindCart` | app/api/carts/route.ts:34 | the cart found is the first cart of that user; none means the user has no cart |
| `Carts.FindLine` | app/api/carts/route.ts:47 | the line found is the first line for that item; none means the cart does not hold the item |
| `Carts.AddLine` | app/api/carts/route.ts:46-52 | add-or-raise one line; its properties are proved in `Carts.AddLineQuantities`, `Carts.AddLineShape` and `Carts.AddLineKeepsDistinct` |
| `Carts.AfterAdd` | app/api/carts/route.ts:33-52 | the state after a successful POST; proved to keep `Carts.WellFormed` (`Carts.AfterAddWellFormed`) and to touch only the user's cart (`Carts.AfterAddCarts`, `Carts.AfterAddQuantity`) |
| `Carts.AfterClear` | app/api/carts/route.ts:85 | `carts[k].items = []`; proved in `Carts.AfterClearCarts` to keep every cart and empty only cart k |
| `Carts.ClearTarget` | app/api/carts/route.ts:83 | the cart DELETE clears: the first owned by `Number.parseInt(userId)`; for `userId=${u}` it is `FindCart(carts, u)` (`Carts.ClearTargetOfDecimal`) |
| `Carts.AddLineQuantities` | app/api/carts/route.ts:47-52 | adding raises the item's total quantity by exactly the quantity supplied and leaves every other item's total unchanged |
| `Carts.AddLineShape` | app/api/carts/route.ts:47-52 | existing lines keep their item ids and order, only the matching line changes, and `{item_id, quantity}` is appended at the end iff the item was absent |
| `Carts.AddLineKeepsDistinct` | app/api/carts/route.ts:47-52 | merge-on-add never creates a second line for an item |
| `Carts.AfterAddWellFormed` | app/api/carts/route.ts:34-52 | POST keeps the invariant: one cart per user at most, distinct item ids per cart, increasing cart ids below the counter |
| `Carts.AfterAddCarts` | app/api/carts/route.ts:34-54 | after POST exactly one cart has the user id; a cart is created only when none existed, with id `nextCartId`, appended, and the counter increments; other users' carts and every id and owner are unchanged |
| `Carts.AfterAddQuantity` | app/api/carts/route.ts:47-49 | POST adds exactly the supplied quantity to the user's quantity of the item |
| `Carts.AddAllQuantity` | app/api/carts/route.ts:47-49 | repeated adds of one item by one user accumulate: the quantity grows by the sum of the quantities supplied |
| `Carts.AfterClearCarts` | app/api/carts/route.ts:83-86 | clearing keeps the invariant, the number of carts, and the cart's id and owner; its items become `[]` and every other cart is unchanged |
| `Carts.ClearTargetOfDecimal` | app/api/carts/route.ts:83 | a DELETE with `userId=${u}` targets the cart of user `u` |
| `Carts.CartStore.constructor` | app/api/carts/route.ts:16-17 | the store starts with no carts and the counter at 1 |
| `Carts.CartStore.Post` | app/api/carts/route.ts:19-58 | 401 without a token and 400 for a falsy `user_id` or `item_id`, both with no state change; otherwise 200, the new state is `AfterAdd` with quantity defaulting to 1, and the response is the user's updated cart |
| `Carts.CartStore.AddToCart` | app/api/carts/route.ts:33-54 | finds the user's cart or pushes a new one with the next id, raises or appends the line; the new state is `AfterAdd` of the old one and the returned cart is the user's cart in it |
| `Carts.CartStore.Get` | app/api/carts/route.ts:60-67 | 401 without a token; otherwise 200 and every cart, unfiltered |
| `Carts.CartStore.Delete` | app/api/carts/route.ts:69-93 | 401 without a token, 400 for a missing or empty `userId`, 404 with no change when no cart matches the parsed id, otherwise 200 with that cart emptied in place |
| `Orders.Accepts` | app/api/orders/route.ts:25 | the body check `!user_id \|\| !cart_id \|\| !items` negated; its closed form is proved in `Orders.AcceptsIff` |
| `Orders.AcceptsIff` | app/api/orders/route.ts:25-27 | an order body is accepted iff `user_id` and `cart_id` are present and non-zero and `items` is present, even empty |
| `Orders.AppendKeepsLedger` | app/api/orders/route.ts:29-38 | the order numbered by the counter has an id above every earlier one, and appending it keeps ids strictly increasing |
| `Orders.OrderLedger.constructor` | app/api/orders/route.ts:12-13 | the ledger starts empty with the counter at 1 |
| `Orders.OrderLedger.Post` | app/api/orders/route.ts:15-44 | 401 without a token and 400 for a falsy required field, both with no state change; otherwise 201 and exactly one order appended, with id the old counter and fields stored as supplied; the counter increments |
| `Orders.OrderLedger.Get` | app/api/orders/route.ts:46-53 | 401 without a token; otherwise 200 and the whole ledger in insertion order |
| `Users.IsTaken` | app/api/users/route.ts:18 | `users.some` is true iff some user has that username |
| `Users.PublicList` | app/api/users/route.ts:42-45 | the listing has one `{id, username}` per user, in the same order |
| `Users.RegisterKeepsRegistry` | app/api/users/route.ts:18-29 | registering an untaken name under the counter's id keeps usernames pairwise distinct and ids increasing |
| `Users.UserRegistry.constructor` | app/api/users/route.ts:4-6 | the registry starts empty with the counter at 1 |
| `Users.UserRegistry.Post` | app/api/users/route.ts:8-38 | 400 with no change for a missing or empty username or password and for a taken username; otherwise 201 with `{id, username}` only, the user appended with id the old counter, and the counter increments |
| `Users.UserRegistry.Get` | app/api/users/route.ts:40-46 | 200 with every user projected to `{id, username}`, same length and order |
| `Users.DuplicateScenario` | app/api/users/route.ts:17-20 | registering "alice" answers 201, a second "alice" answers 400, and the registry holds only the first |
| `Catalog.MaxId` | app/api/items/route.ts:29 | `Math.max` over the ids is an upper bound of every id and is the id of some item |
| `Catalog.SeedIds` | app/api/items/route.ts:4-13 | the seeded catalog holds eight items with ids 1 to 8 in order |
| `Catalog.SeedWellFormed` | app/api/items/route.ts:4-13 | the seeded catalog is non-empty and its ids are distinct |
| `Catalog.SeedMaxId` | app/api/items/route.ts:4-13 | the largest seeded id is 8, so the first item added is numbered 9 |
| `Catalog.AppendKeepsWellFormed` | app/api/items/route.ts:29-35 | the new id is above every existing id, so appending keeps ids distinct and the catalog non-empty |
| `Catalog.Store.constructor` | app/api/items/route.ts:4-13 | the catalog starts as the seeded list |
| `Catalog.Store.Get` | app/api/items/route.ts:15-17 | 200 and the whole catalog in order |
| `Catalog.Store.Post` | app/api/items/route.ts:19-41 | 400 with no change for a falsy name or a missing price (a price of 0 is accepted); otherwise 201 and the item with id max+1 and description defaulting to `""` is appended |
| `Checkout.Checkout` | app/shop/page.tsx:135-182 | nothing is sent for an empty cart or an empty token, and a rejected order changes nothing; a placed order is appended with the client's items and total, then the user's cart is emptied (200), or 404 when there is none, and the checkout still succeeds |
| `Checkout.FirstAdd` | app/api/carts/route.ts:33-52 | for any user, item and quantity, the first add to an empty store creates cart 1 owned by that user with that one line, and moves the counter to 2 |
| `Checkout.SecondAdd` | app/api/carts/route.ts:46-52 | in a store holding a single one-line cart, adding the item that line holds raises its quantity by the amount added, adds no line, and leaves the counter alone |
| `Checkout.MergeScenario` | app/api/carts/route.ts:47-52 | adding item 1 for user 7 with the default quantity and then with quantity 2 gives one cart holding one line of quantity 3 |
| `Checkout.CheckoutScenario` | app/shop/page.tsx:145-172 | checking out that cart answers the DELETE with 200, records the order with the items and total as sent, and leaves the cart empty but present |
| `Checkout.MissingCartScenario` | app/api/carts/route.ts:83-89 | `DELETE ?userId=999` when only user 7 has a cart answers 404 and changes no cart |

## Left out

- backend/main.go is not part of this model. It is a separate Go service over a SQLite database whose queries are not visible here.
- app/api/users/login/route.ts is not part of this model. It fetches over HTTP and builds tokens from the clock and `Math.random()`.
- The `tokens` map declared in app/api/users/route.ts:5 is never used, so it is not modelled.
- Rendering, `localStorage`, routing and toasts in the React files are not modelled. The client's cart copy (its filtering of GET /api/carts by `user_id`) is a parameter of `Checkout.Checkout`.
- The checkout in components/shop/items-list.tsx:127-163 is not modelled separately. It lacks the page's early return on an empty token or a null `userId` (app/shop/page.tsx:141). With an empty token it sends `"Bearer "`, which reaches the gate trimmed to `"Bearer"` and passes (`Auth.AuthorizedIff`), so the order is still placed with 201.
- Floating-point prices and the client's `reduce`/`toFixed` totals are not modelled. Amounts are opaque integer hundredths.
- `new Date().toISOString()` is a parameter.
- `request.json()` failures and the catch-all 500 answers are not modelled. The framework produces them, and no store changes on that path.
- JSON values of unexpected types are not modelled. This covers a string `user_id`, `null`, NaN and a non-array `items`. Fields are typed as integers, strings and lists, and strict equality is modelled only between values of those types.
- The whitespace trimming that the Fetch `Headers` object applies to header values is not modelled. The gate is applied to the value `headers.get` returns. A raw `"Bearer "` header would arrive as `"Bearer"` and pass.
- Numbers.ParseInt: does not model precision loss for values of 2^53 and beyond, because ids stay small integers.
- Ids, id counters and cart quantities are JavaScript doubles in the source but unbounded integers here. `Carts.AddAllQuantity`, `Carts.AfterAddQuantity` and the counter increments hold in the source only while the values stay below 2^53.
- Numbers.ToDecimal: does not model the exponent notation that `${n}` uses from 10^21 upwards, for the same reason.
- Concurrency between requests is not modelled. Each handler runs to completion. The race between two overlapping checkouts is out of scope.
