# Cart and checkout store of the e-commerce demo backend

This project models the core of the demo shop's backend (`backend/server.js`) in Dafny. The server keeps two tables in an in-memory database:

- `products`: the catalogue, filled once at start-up and read-only after that;
- `cart_items`: one global cart.

Its request handlers read and change those two tables. The model keeps:

- **Catalogue normalisation** (`Catalog`): the fetched catalogue is cut to its first ten items. Each item is reshaped into a product whose id is the decimal string of the numeric id and whose name is the item's title. When the fetch fails, a fixed list of eight products is used instead. Prices are whole cents.
- **The store** (`Server.Store`): a class with a `products` map and a `lines` sequence. The sequence is the cart_items table in insertion order. There is one method per handler.
  - `Seed` is the start-up insert loop.
  - `AddToCart` is `POST /api/cart`.
  - `RemoveFromCart` is `DELETE /api/cart/:id`.
  - `GetCart` is `GET /api/cart`, written as a function.
  - `Checkout` is `POST /api/checkout`.
- **The pure parts of those handlers** (`Cart`, `Checkout`):
  - the lookup of a product's line;
  - the quantity update keyed by product;
  - the delete by id;
  - the join of lines with products;
  - the `reduce` folds, written as recursive functions (left folds, like `reduce`);
  - checkout validation and the receipt.

Each handler answers `Ok`, `BadRequest` (400) or `NotFound` (404), carrying the source's own messages.

The model keeps these behaviours of the code:

- **Field presence.** Request fields are checked only for JavaScript truthiness. A missing product id or `""` is rejected, and so is a missing quantity or `0`. A negative quantity is accepted and is added to the line. The model therefore uses `int` quantities.
- **Update keyed by product.** The update in `POST /api/cart` sets the quantity of every line of that product. With the invariant (one line per product), this is exactly the line found by the lookup (`Cart.SetQuantityOnlyLine`).
- **Delete always succeeds.** A delete by id answers success even when no line has that id.
- **Checkout trusts the client.** It prices the submitted items with their own price and quantity and never reads the cart. It then empties the whole cart.
- **Cart-item ids.** An id is an arbitrary choice of a string that no line has yet (`Cart.FreshIdExists` shows one exists). The order id and the timestamps are parameters.
- **Seeding.** The start-up loop inserts the catalogue row by row. The seeding lemmas are stated for catalogues with distinct ids. Both the fallback list and a fetch whose first ten ids are distinct qualify.

The store's invariant `Valid()` holds before and after every operation:

- cart-item ids are unique;
- there is at most one line per product;
- every line refers to a product in `products`.

Every error leaves both tables unchanged.

Two further facts about the code shape the model:

- **Quantity.** The code rejects only 0 and a missing quantity (`backend/server.js:76`). Negative quantities are therefore accepted and modelled.
- **Removing a line.** The server never deletes a line whose quantity reaches 0. Only the browser client sends that delete, when the new quantity is below 1 (`frontend/src/App.jsx:63-65`).

## Model

| member | source | states |
|---|---|---|
| `Catalog.IntToString` | backend/server.js:19 | `toString` of an integral id; its meaning is carried by `Catalog.IntToStringRoundTrip` (it reads back as the id) and `Catalog.IntToStringInjective` |
| `Catalog.ToProduct` | backend/server.js:18-24 | the reshaping of one fetched item; its field-by-field meaning is stated by `Catalog.Normalize` |
| `Catalog.Normalize` | backend/server.js:18-24 | at most 10 products, as many as the first ten fetched items, in source order; each has id = decimal string of the source id, name = title, and the same price, image and description |
| `Catalog.IntToStringRoundTrip` | backend/server.js:19 | the string form of a numeric id reads back as that id, so `toString` loses nothing |
| `Catalog.IntToStringInjective` | backend/server.js:19 | distinct numeric ids give distinct string ids |
| `Catalog.NormalizeDistinctIds` | backend/server.js:18-24 | fetched items with distinct ids among the first ten give products with distinct ids |
| `Catalog.Fallback` | backend/server.js:26-35 | the fixed list of the eight fallback products, prices in cents: ids "1" to "8" in order, distinct, prices non-negative |
| `Catalog.NatToStringNoLeadingZero` | backend/server.js:19 | the decimal form of a positive number never starts with '0' |
| `Catalog.IntToStringCanonical` | backend/server.js:19 | the rendering is `toString`'s form: "0" for zero, no leading zero, and '-' exactly for negatives, followed by a non-zero digit |
| `Catalog.GetProducts` | backend/server.js:14-37 | a successful fetch gives the normalised list; a failed one gives exactly the fallback list: eight products with distinct ids and non-negative prices; never more than 10 |
| `Server.Inserted` | backend/server.js:55-59 | the products table after the row-by-row inserts; its meaning is carried by `Server.InsertedKeepsExisting`, `Server.InsertedStoresRow` and `Server.SeedFromEmpty` |
| `Server.InsertedKeepsExisting` | backend/server.js:55-59 | seeding adds exactly the catalogue's ids and never alters a product already stored |
| `Server.InsertedStoresRow` | backend/server.js:55-59 | a catalogue row whose id is not yet in the table and not repeated earlier in the catalogue is stored as given |
| `Server.SeedFromEmpty` | backend/server.js:55-59 | seeding an empty table with distinct ids stores exactly that catalogue |
| `Server.SeedGetProducts` | backend/server.js:55-59 | when the fetch failed, or when the first ten fetched ids are distinct, every product getProducts yields is stored as given |
| `Server.Store.constructor` | backend/server.js:40-53 | both tables start empty and the invariant holds |
| `Server.Store.Seed` | backend/server.js:55-60 | the insert loop leaves the cart untouched, keeps the invariant, and the products table becomes `Inserted` of the old table and the catalogue |
| `Wrappers.PresentString` | backend/server.js:76 | JavaScript truthiness of a string field (absent or "" is falsy); used by the contracts of `Server.Store.AddToCart` and `Checkout.PlaceOrder` (also backend/server.js:162) |
| `Wrappers.PresentNumber` | backend/server.js:76 | JavaScript truthiness of a numeric field (absent or 0 is falsy); used by the contract of `Server.Store.AddToCart` |
| `Server.Store.AddToCart` | backend/server.js:73-113 | a missing/empty product id or a missing/zero quantity gives 400; an unknown product gives 404; both leave the state unchanged. Otherwise, if the product has a line, that line's quantity becomes old + quantity, its id is returned and nothing else changes; if not, exactly one line with a fresh id, that product and that quantity is appended. On success the cart value grows by quantity × price and the item count by quantity; the invariant is kept |
| `Cart.FindByProduct` | backend/server.js:88 | returns the first line of the product, or nothing exactly when no line has it |
| `Cart.SetQuantity` | backend/server.js:95 | the UPDATE keyed by product; its meaning is carried by `Cart.SetQuantityOnlyLine` and `Cart.SetQuantityAbsent` |
| `Cart.SetQuantityOnlyLine` | backend/server.js:93-95 | with one line per product, the update keyed by product changes only the quantity of the line found |
| `Cart.SetQuantityAbsent` | backend/server.js:95 | the update keyed by a product with no line changes nothing |
| `Cart.FreshIdExists` | backend/server.js:102 | some cart-item id is always unused, so a fresh id can be chosen |
| `Cart.InsertKeepsConsistent` | backend/server.js:101-104 | appending a line with a fresh id for a known product that has no line keeps the invariant |
| `Server.Store.RemoveFromCart` | backend/server.js:115-124 | always succeeds; the lines become those whose id differs, in order. An absent id changes nothing; a present id removes exactly that line and lowers the cart value by its quantity × price; the invariant is kept |
| `Cart.RemoveLine` | backend/server.js:118 | a line survives the delete exactly when it was there and its id differs |
| `Cart.RemoveLineAbsent` | backend/server.js:118 | deleting an id no line has is a no-op |
| `Cart.RemoveLineIdempotent` | backend/server.js:115-124 | deleting twice equals deleting once |
| `Cart.RemoveLineExact` | backend/server.js:118 | with unique ids, deleting line k's id removes line k and nothing else |
| `Cart.RemoveKeepsConsistent` | backend/server.js:118 | a delete keeps the invariant |
| `Server.Store.GetCart` | backend/server.js:126-152 | total = Σ quantity × price and itemCount = Σ quantity over the lines; with the invariant there is one row per line, in order, holding the product's fields and quantity × price; an empty cart gives no rows, 0 and 0 |
| `Cart.RowOf` | backend/server.js:127-135 | one selected row: the line's id and quantity, the product's id, name, price and image, and quantity × price; `Checkout.JoinRowsConsistent` states item_total = quantity × price for every joined row |
| `Cart.Join` | backend/server.js:127-138 | the inner join drops lines without a product; when every line has one, row i is line i joined with its product |
| `Cart.Total` | backend/server.js:145 | the `reduce` over item_total; `Cart.JoinFolds` states it equals the cart value, `Cart.TotalAppend` that it is additive |
| `Cart.ItemCount` | backend/server.js:150 | the `reduce` over quantity; `Cart.JoinFolds` states it equals the cart quantity, `Cart.TotalAppend` that it is additive |
| `Cart.JoinFolds` | backend/server.js:145-150 | the two `reduce` folds over the joined rows equal the cart's value and quantity computed over the lines |
| `Cart.TotalAppend` | backend/server.js:145-150 | both folds over concatenated rows are the sums of the folds |
| `Cart.CartValueAppend` | backend/server.js:135 | value and quantity of concatenated lines are the sums |
| `Cart.SplitAt` | backend/server.js:135 | the value and quantity of a cart split around line k are the two sides plus line k's own share |
| `Cart.InsertValue` | backend/server.js:103 | a new line of quantity q raises the value by q × price and the count by q |
| `Cart.UpdateValue` | backend/server.js:95 | setting line k's quantity to q changes the value by (q − old) × price and the count by q − old |
| `Cart.RemoveValue` | backend/server.js:118 | deleting line k lowers the value by its quantity × price and the count by its quantity |
| `Checkout.ItemsSubmitted` | backend/server.js:158 | passes when a list was sent and it is not empty (the code rejects when `!cartItems` or `!cartItems.length`); used by the contract of `Checkout.PlaceOrder` |
| `Checkout.CustomerComplete` | backend/server.js:162 | passes when customerInfo is present and its name and email are both present and non-empty (the code rejects when `!customerInfo`, `!customerInfo.name` or `!customerInfo.email`); used by the contract of `Checkout.PlaceOrder` |
| `Checkout.PlaceOrder` | backend/server.js:155-174 | a missing or empty item list gives 400 "Cart empty"; otherwise a missing customer, name or email (absent or empty) gives 400 "Need name and email"; success exactly otherwise, echoing the customer and items unchanged with total = Σ price × quantity of the submitted items |
| `Checkout.OrderTotal` | backend/server.js:166 | the `reduce` of price × quantity over the submitted items; `Checkout.OrderTotalAppend` and `Checkout.OrderTotalOfCart` state its meaning |
| `Checkout.OrderTotalAppend` | backend/server.js:166 | the checkout total of concatenated items is the sum of the totals |
| `Checkout.OrderTotalOfConsistentRows` | backend/server.js:166 | for items whose item_total is quantity × price, the checkout total equals the cart query's total fold |
| `Checkout.JoinRowsConsistent` | backend/server.js:135 | every row of the cart query has item_total = quantity × price |
| `Checkout.OrderTotalOfCart` | backend/server.js:166 | a client that submits the cart query's rows unchanged is charged exactly the cart's value |
| `Server.Store.Checkout` | backend/server.js:155-179 | the response is the one `PlaceOrder` defines from the submitted body alone; on success the cart becomes empty, so the cart query then returns no rows, 0 and 0, whatever was submitted; on error the cart is unchanged; products never change |

## Left out

- The network fetch of the catalogue, its `try`/`catch` and the JSON parse are I/O. The outcome is the parameter `Fetch`. An item whose fields would make the reshaping throw counts as a failed fetch.
- `Number.prototype.toString` is modelled only for integral ids of magnitude below 10^21, where it prints plain decimal. Fractional ids, the exponential form used from 10^21 up, and the rounding of JSON ids beyond 2^53 are not modelled.
- A catalogue that repeats a product id is not modelled. The second insert breaks the primary key, and the model does not capture how the database library reacts to an insert error that no callback handles. `Server.Inserted` skips such a row only so that it is defined for every catalogue. The seeding lemmas assume distinct ids.
- The SQL error callbacks (500 responses) are data-access failures of the database library and are not modelled. This includes a failed insert caused by a duplicate cart-item id. The store is a total in-memory state.
- Express routing, CORS, JSON body parsing and `app.listen` are HTTP plumbing and are not modelled. A request field that is absent from the body is `None`. Request fields are assumed to have the types the handlers expect: a string product id, a numeric quantity, and a list of cart rows for checkout. JavaScript coercions of other types (string concatenation in `quantity + quantity`, `length` of a non-list) are not modelled.
- `GET /api/products` and the order of a full-table `SELECT` are not modelled: the products table is a map.
- Server.Store.AddToCart: quantities are taken as integers. Three things are not modelled: a fractional quantity such as 1.5 (it passes the truthiness check and the database stores it as a REAL despite the INTEGER column), the rounding of quantity sums above 2^53 (`existingItem.quantity + quantity` and the item-count `reduce` add doubles), and the database storing an integer above 2^63 as a REAL. The model's sums of quantities are always exact.
- Floating-point prices and `REAL` arithmetic are not modelled. Prices are integer cents, so every sum is exact.
- The row order of the cart join is taken to be the lines' insertion order. The database does not promise an order, and the total and the item count do not depend on it.
- Concurrent interleaving of requests is not modelled. Operations are sequential.
- The `uuidv4` order id and the ISO timestamps are parameters. The `CURRENT_TIMESTAMP` default of a new line is the parameter `now`.
- The browser client (`frontend/src/App.jsx`) is not modelled. It includes the client-side quantity update, which is made of a delete and a re-add.
