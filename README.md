# bamazon commerce rules in Dafny

bamazon is a small shop split into four Django services: auth, products, cart and orders. Each service ships browser scripts that talk to the others over HTTP. This project models the commerce rules underneath the HTTP and DOM glue, and proves properties of them:

- **Two cart backends.**
  - The products service's page keeps a cart in `localStorage`, as a dictionary keyed by product id.
  - The cart service keeps one cart per user, a table of rows unique per (cart, product).
  - Both are projected onto one abstract cart, a finite map from product id to (quantity, unit price). The model proves where they agree (add, remove, set quantity) and where they deliberately differ:
    - the local badge counts distinct products, the auth pages' badge counts units;
    - removing an absent line is a no-op locally and a 404 on the server.
- **The order lifecycle and the stock table.**
  - `create_order` validates the whole cart before it writes anything, computes subtotal, 10% tax and total, and writes each product's stock down.
  - `cancel_order` is gated on `pending`/`confirmed` and puts the stock back.
  - `update_order_status` is staff-only, checks the six-value status enum, and restores stock only on the move into `cancelled`.
  - `update_stock` overwrites one product's stock.
  - Cancelling an order restores exactly the product table it was placed against; this is proved.
- **The catalog access ladder.** The products service's four endpoints answer an OPTIONS request with 200 and the allowed methods, for anyone and before any lookup. Every other request meets 405, 404, 401, 403 and 400 in that order. This is a pure decision function, with the catalog updates of the successful branches.
- **The browser rules**, with DOM reads replaced by parameters, `confirm` by a boolean, and navigation by a returned target:
  - the auth service's request gateway (`apiCall`) and its cart, catalog and order wrappers;
  - the cart pages, the checkout page (address extraction, ordered validation, payload, button guard), the order pages (cancel gate, status filter, map link, username cache), the two browse pages' steppers, and the registration form.

Replies from other services are inputs of type `Common.Reply<D>`: no response, a body that is not JSON, or a status with a body. Money is exact `real` arithmetic, and the tax is `subtotal * 1/10`. Text is `seq<char>`. `parseInt` is modelled as JavaScript reads decimal text: leading white space (ECMAScript's white space and line terminators, the same set `trim()` strips), an optional sign, then the longest run of digits.

The files follow the services:

- Server side: `common`, `cart_spec`, `cart_models`, `cart_serializers`, `cart_views`, `order_models`, `order_views`, `stock_views`, `products_views`.
- The products service's scripts: `products_client_api`, `products_client_browse`, `products_client_cart`.
- The auth service's scripts: `auth_client_api`, `auth_cart_summary`, `auth_cart_page`, `checkout`, `orders_page`, `manage_orders`, `auth_browse_page`, `register`.

Where this description and the code differ, the model follows the code:

- `add_to_cart` creates the caller's cart before it refuses a request that has no product id or price.
- `update_stock` looks the product up before it checks for a missing `stock`, so an unknown id with no stock value is 404, not 400.
- A remote call in the orders service can raise (a timeout, a refused connection). `create_order` turns that into a 500 and keeps what it had already written. `cancel_order` and `update_order_status` catch only a missing order, so a raise there is a 500 too, with the items before it restored and the status not saved. `OrderViews.Raise` and a loop index say which call raises.
- `order_number` is unique. A fresh number that collides with a stored one makes the insert raise, which `create_order` turns into a 500.
- A cancelled order that the admin moves to another status and back to `cancelled` has its stock restored a second time.
- The auth service's `apiCall` has no 204 branch. A reply without a JSON body is a failure with status 0 there, while the products service's helper treats it as a success (`AuthClientApi.NoContentDiffers`).
- The order serializer does not list `user_id`. The admin page therefore asks for the username of an undefined id (see Findings).

## Model

| member | source | states |
|---|---|---|
| Common.Trim | services/auth/accounts/static/js/checkout.js:188-189 | `trim()` strips ECMAScript's white space and line terminators, U+00A0, U+FEFF and the Unicode space separators included: the result is empty exactly for text made only of those; otherwise it starts and ends with another character |
| Common.NoBreakSpace | services/auth/accounts/static/js/checkout.js:188 | a no-break space alone trims to empty text, and `parseInt` reads the number after it |
| Common.ParseIntOfIntToString | services/products/products_app/static/js/products.js:82-84 | a number written into a quantity box parses back (`parseInt`, and `parseInt(..) \|\| 0`) to that same number |
| Common.ParseIntSkipsSpace | services/products/products_app/static/js/products.js:82 | a white-space character before the text does not change what `parseInt` reads |
| Common.TotalsOf | services/products/products_app/static/js/cart.js:43-44 | tax is a tenth of the subtotal, total is subtotal plus tax, and both are non-negative for a non-negative subtotal |
| CartSpec.Added | services/cart/cart_app/views.py:34-42 | adding opens a line (quantity, price) or adds the quantity into an existing line and keeps its price; no other line changes; positive quantities stay positive |
| CartSpec.QuantitySet | services/cart/cart_app/views.py:68-69 | only the named line's quantity is replaced; same keys, every other line unchanged |
| CartSpec.Removed | services/cart/cart_app/views.py:80-82 | exactly that product's line goes; removing an absent product changes nothing |
| CartSpec.AddTwiceIsOneLine | services/cart/cart_app/models.py:28 | two adds of one product make a single line holding both quantities, never a second line |
| CartSpec.MapSumRemove | services/cart/cart_app/serializers.py:26-30 | a sum over the cart's lines can take any line out first: the sums do not depend on row order |
| CartSpec.DistinctAtMostUnits | services/products/products_app/static/js/api.js:139 | with every line positive, the number of distinct products is at most the number of units |
| CartSpec.AllSingleUnits | services/products/products_app/static/js/api.js:139 | when every line holds one unit, units equal distinct products |
| CartSpec.DistinctEqualsUnitsIff | services/auth/accounts/static/js/api.js:252-253 | the local badge (distinct products) and the server badge (units) agree exactly when every line holds a single unit |
| CartModels.IndexOfProduct | services/cart/cart_app/views.py:34-38 | the lookup of a cart's row for a product finds a row with that product, or there is none |
| CartModels.IndexOfId | services/cart/cart_app/views.py:53-54 | the lookup of a row by id within the caller's cart finds that row, or there is none |
| Common.NewestFirst | services/cart/cart_app/models.py:26-27 | rows kept in creation order are listed in reverse: position i of the listing holds the row stored at n-1-i. The cart rows and the orders (services/orders/orders_app/models.py:40-41) are both listed this way |
| CartModels.NewestFirstOrdered | services/cart/cart_app/models.py:27 | listed newest first, ids strictly decrease, and the listing holds exactly the cart's rows |
| CartModels.LinesOfKeys | services/cart/cart_app/models.py:17-20 | a product has a line in the abstract cart exactly when some row holds it |
| CartModels.LinesOfRow | services/cart/cart_app/models.py:28 | with (cart, product) unique, a row's product maps to that row's quantity and price |
| CartModels.LinesOfSetQuantity | services/cart/cart_app/views.py:68-69 | setting one row's quantity is the abstract quantity update and keeps products unique |
| CartModels.DeletedRows | services/cart/cart_app/views.py:82 | deleting a row keeps the rows before it and moves the later ones up by one |
| CartModels.DeleteKeepsRows | services/cart/cart_app/models.py:28 | deleting a row keeps products unique and ids increasing and invents no row |
| CartModels.RemovedUpdate | services/cart/cart_app/views.py:82 | removing one product commutes with writing another |
| CartModels.LinesOfDelete | services/cart/cart_app/views.py:80-82 | deleting a row drops exactly that product's line from the abstract cart |
| CartModels.LinesOfAppend | services/cart/cart_app/views.py:34-38 | appending a row for a new product opens exactly that line |
| CartSerializers.SerializeItem | services/cart/cart_app/serializers.py:5-11 | an item exposes its id, product id, quantity, price and a total of price × quantity |
| CartSerializers.SerializeItems | services/cart/cart_app/serializers.py:17 | one serialised item per row, in the given order |
| CartSerializers.SerializeCart | services/cart/cart_app/serializers.py:15-30 | the cart shows its id and user, its rows newest first, and an empty cart shows no items, 0 units and 0 total |
| CartSerializers.TotalItemsIsUnits | services/cart/cart_app/serializers.py:26-27 | `total_items` is the number of units in the abstract cart |
| CartSerializers.TotalPriceIsSubtotal | services/cart/cart_app/serializers.py:29-30 | `total_price` is Σ price × quantity over the abstract cart's lines |
| CartViews.AddedRowsValid | services/cart/cart_app/views.py:34-42 | accumulate-on-add keeps a cart's rows unique and ordered and is the abstract add |
| CartViews.EditedRowsValid | services/cart/cart_app/views.py:68-82 | deleting a row or setting its quantity keeps a cart's rows valid |
| CartViews.ReplaceRows | services/cart/cart_app/models.py:4-6 | replacing one user's rows by valid rows keeps one cart per user and every cart valid |
| CartViews.CartStore.constructor | services/cart/cart_app/models.py:4-6 | the store starts with no carts |
| CartViews.CartStore.GetOrCreateCart | services/cart/cart_app/views.py:13 | an existing cart is returned unchanged; otherwise one empty cart is created for the user |
| CartViews.CartStore.GetCart | services/cart/cart_app/views.py:11-15 | 200 with the caller's cart (created empty if missing, no other cart touched), whose totals are the units and subtotal of its lines |
| CartViews.CartStore.AddToCart | services/cart/cart_app/views.py:20-45 | the cart is created first; a missing or zero product id or price is 400 with no row changed; otherwise quantity defaults to 1, the row accumulates or is created (201), and the lines are the abstract add |
| CartViews.CartStore.Accumulate | services/cart/cart_app/views.py:34-42 | an existing row gains the quantity and keeps its price; otherwise a new row with the next id; only this cart changes |
| CartViews.CartStore.UpdateCartItem | services/cart/cart_app/views.py:50-72 | an item outside the caller's cart is 404; a missing quantity or one below 1 is 400; both change nothing; otherwise exactly that row's quantity is set (200) |
| CartViews.CartStore.RemoveFromCart | services/cart/cart_app/views.py:77-91 | a row of the caller's cart is deleted (204, abstract removal); an absent one is 404, not a silent no-op |
| CartViews.CartStore.ClearCart | services/cart/cart_app/views.py:96-109 | every row of the caller's cart goes (204) and no other cart changes; with no cart, 200 'Cart is already empty' |
| OrderModels.ParseStatus | services/orders/orders_app/models.py:5-12 | exactly the six stored names are accepted, each giving the choice it names |
| OrderModels.StatusNamesRoundTrip | services/orders/orders_app/models.py:5-16 | every choice parses back from its stored name, and distinct choices have distinct names |
| Common.ValueOr | services/orders/orders_app/views.py:74 | `request.data.get(field, default)`, a partial update's absent field and `x \|\| ''` on optional text: the given value, else the default |
| OrderModels.WithDefaults | services/orders/orders_app/views.py:74-83 | text columns default to '', the country to 'India', the payment method to 'COD', and the coordinates to null |
| OrderModels.EmptyRequestDefaults | services/orders/orders_app/models.py:21-31 | an empty request stores country 'India', payment 'COD', an empty name and no latitude |
| OrderModels.SaveItem | services/orders/orders_app/models.py:55-57 | saving an item sets subtotal to quantity × price and keeps every other field |
| OrderModels.SaveItemIdempotent | services/orders/orders_app/models.py:55-57 | saving again changes nothing, and any supplied subtotal is overridden |
| OrderModels.UpperChar | services/orders/orders_app/models.py:37 | ASCII lower-case letters map to upper case, every other character is kept |
| OrderModels.Upper | services/orders/orders_app/models.py:37 | `str.upper()` keeps the length and upper-cases each character |
| OrderModels.Prefix | services/orders/orders_app/models.py:37 | `hex[:12]`: the first 12 characters, or all of a shorter string |
| OrderModels.AssignNumber | services/orders/orders_app/models.py:35-38 | an empty number becomes 'ORD-' + the first 12 hex characters upper-cased (16 characters, digits and A–F only); a set number is kept |
| OrderModels.NumberNeverOverwritten | services/orders/orders_app/models.py:36 | an assigned number is non-empty and no later save replaces it |
| OrderViews.FirstFailure | services/orders/orders_app/views.py:35-55 | none exactly when every line's product exists with enough stock; otherwise the first line that fails, all earlier lines passing |
| OrderViews.FirstFailureAt | services/orders/orders_app/views.py:35-55 | the check stops at the first failing line |
| OrderViews.ItemsOf | services/orders/orders_app/views.py:57-62 | one order line per cart line, in cart order, with the product's name and the cart's quantity and price |
| OrderViews.Persist | services/orders/orders_app/views.py:88 | the stored item keeps the line's data and its subtotal is quantity × price |
| OrderViews.PersistAll | services/orders/orders_app/views.py:87-88 | one stored item per order line, in order |
| OrderViews.StoredSubtotalsAddUp | services/orders/orders_app/views.py:65 | the stored items' subtotals add up to the subtotal the amounts were computed from |
| OrderViews.PlacedOrderAmounts | services/orders/orders_app/views.py:65-73 | a placed order is pending, has a number and one item per line; its tax is a tenth of the items' sum and its total is that sum plus the tax |
| OrderViews.StockAfter | services/orders/orders_app/views.py:87-101 | the write loop leaves the same products in the table |
| OrderViews.StockAfterKeeps | services/orders/orders_app/views.py:91-101 | only stock changes; a product whose write fails, or that no line names, keeps its row |
| OrderViews.LastWriteWins | services/orders/orders_app/views.py:91-97 | a product whose write goes through ends at the stock read at check time minus its last line's quantity |
| OrderViews.StockAfterStep | services/orders/orders_app/views.py:87-97 | one more pass of the write loop writes that line's product, unless its write fails |
| OrderViews.RestoreStock | services/orders/orders_app/views.py:152-166 | the restore loop leaves the same products in the table |
| OrderViews.RestoredStock | services/orders/orders_app/views.py:152-166 | restoring changes only stock; a product whose calls fail keeps its row; any other gains all its units in the order |
| OrderViews.StockStaysNonNegative | services/orders/orders_app/views.py:51-55 | after a passed check, no non-negative stock goes negative |
| OrderViews.OrderKeepsStockNonNegative | services/orders/orders_app/views.py:35-101 | placing an order from a cart that passed the check leaves no stock negative |
| OrderViews.UnitsOfAbsent | services/orders/orders_app/views.py:152 | an order without a product holds none of its units |
| OrderViews.UnitsOfDistinct | services/orders/orders_app/views.py:152 | with distinct products, an order holds exactly a line's quantity of its product |
| OrderViews.RestoredRow | services/orders/orders_app/views.py:152-166 | each product's row is back to the original after an order's write loop and its cancel's restore |
| OrderViews.DistinctItems | services/orders/orders_app/views.py:57-62 | the lines of a passed check name found products, and distinct cart lines give distinct order lines |
| OrderViews.CancelRestoresStock | services/orders/orders_app/views.py:152-166 | cancelling an order placed from a cart of distinct products gives back exactly the product table it was checked against |
| OrderViews.IndexOfOrder | services/orders/orders_app/views.py:143 | the lookup of an order by id finds one with that id, or none exists |
| OrderViews.OwnOrders | services/orders/orders_app/views.py:121 | exactly the caller's orders |
| OrderViews.CheckLines | services/orders/orders_app/views.py:35-62 | a product read that raises before the first failing line stops the loop with no refusal; otherwise it refuses exactly at the first failing line, with its 'not found' or 'insufficient stock' message; with neither, every line's data and the stock read for each product |
| OrderViews.WriteStock | services/orders/orders_app/views.py:87-101 | raised exactly when the write at the raising index is reached; the product table becomes StockAfter of the stock read at check time for the writes before it (all of them when none raises); categories are untouched |
| OrderViews.RestoreItems | services/orders/orders_app/views.py:152-166 | raised exactly when the item at the raising index is reached; the product table becomes RestoreStock of the current stock for the items before it (all of them when none raises); categories are untouched |
| OrderViews.AppendKeepsValid | services/orders/orders_app/models.py:15 | an order with the next id and an untaken non-empty number keeps ids increasing and numbers unique |
| OrderViews.SetStatusKeepsValid | services/orders/orders_app/views.py:168-169 | changing an order's status keeps the table valid |
| OrderViews.OrderStore.constructor | services/orders/orders_app/models.py:4-16 | no orders at first |
| OrderViews.OrderStore.CreateOrder | services/orders/orders_app/views.py:13-114 | a raising cart fetch is 500; a failed fetch and an empty cart are 400; then a raising product read (500) or the first failing line (400), whichever comes first; a taken number is 500; all of these write nothing. Otherwise the order is appended holding the items stored up to a raising stock write, the stock is written down for the writes before it, the cart is cleared only when every write ran, and the reply is 201 exactly when no call raised |
| OrderViews.OrderStore.Commit | services/orders/orders_app/views.py:64-111 | once every line has passed: a taken number is 500 and writes nothing; otherwise the state and reply are Committed's, and a 201 means the full order is stored, all stock is written down and the cart is cleared |
| OrderViews.OrderStore.Place | services/orders/orders_app/views.py:70-101 | the order is appended with the next id, holding every item stored up to the raising stock write (all when none raises); the stock becomes StockAfter for the writes before it |
| OrderViews.CheckReply | services/orders/orders_app/views.py:17-62 | the check phase stops the request exactly when it is not Checked, with a 400 or a 500 |
| OrderViews.CheckCart | services/orders/orders_app/views.py:17-62 | the check phase answers CheckReply; when it lets the order through, it hands on every line's data and the stock read for each product |
| OrderViews.Completed | services/orders/orders_app/views.py:87-101 | the number of loop passes that complete is the raising index when the loop reaches it, else the number of passes |
| OrderViews.StoredCount | services/orders/orders_app/views.py:87-92 | an order item is stored before its stock write, so a write that raises leaves one more item stored than writes completed |
| OrderViews.OrderStore.GetOrders | services/orders/orders_app/views.py:119-123 | 200 with exactly the caller's orders, newest first |
| OrderViews.OrderStore.GetOrderDetail | services/orders/orders_app/views.py:128-135 | 200 exactly when the caller owns an order with that id, and it is returned; 404 otherwise |
| OrderViews.OrderStore.GetAllOrders | services/orders/orders_app/views.py:179-186 | non-staff get 403; staff get every order newest first |
| OrderViews.OrderStore.CancelOrder | services/orders/orders_app/views.py:140-174 | only the caller's order is found (404); a status other than pending or confirmed is 400; both change nothing. Otherwise the stock is restored item by item; a raising call is 500, with the items before it restored and the orders unchanged; with none, only that order becomes cancelled (200) |
| OrderViews.OrderStore.UpdateOrderStatus | services/orders/orders_app/views.py:191-228 | non-staff 403, unknown order 404, a status outside the six 400, all changing nothing. A valid status replaces any other. Stock is restored only on entry into cancelled from another status; a raising call there is 500, with the items before it restored and the status not saved |
| StockViews.UpdateStock | services/products/products_app/stock_views.py:8-23 | an anonymous caller is 401 before any lookup; an unknown product is 404; a missing value is 400; otherwise only that product's stock is overwritten with exactly the value, which is echoed back |
| ProductsViews.WriteGate | services/products/products_app/views.py:29-41 | 401 exactly for an anonymous caller, 403 exactly for a signed-in non-admin, and through exactly for staff or superuser |
| ProductsViews.ListStatus | services/products/products_app/views.py:16-47 | OPTIONS and GET are 200 for anyone; POST is 401, 403, then 201 for a valid and 400 for an invalid payload; other methods 405; 201 exactly for an admin's valid POST |
| ProductsViews.DetailStatus | services/products/products_app/views.py:50-110 | each status holds exactly in its case: OPTIONS is 200 for anyone, before the lookup; 405 for other methods, then 404 for an unknown id whoever asks, then 401/403 for writes, 400 for an invalid PUT, 200 for GET or a valid admin PUT, and 204 for an admin DELETE |
| ProductsViews.PatchCategory | services/products/products_app/views.py:85-87 | only the given fields of the category are written; an empty patch changes nothing |
| ProductsViews.PatchProduct | services/products/products_app/views.py:198-200 | only the given fields of the product are written; an empty patch changes nothing |
| ProductsViews.PatchIdempotent | services/products/products_app/views.py:198-200 | applying the same PUT body twice is applying it once |
| ProductsViews.InCategory | services/products/products_app/views.py:126-129 | exactly the products of that category, unchanged |
| ProductsViews.Catalog.constructor | services/products/products_app/views.py:24 | an empty catalog |
| ProductsViews.Catalog.CategoryListCreate | services/products/products_app/views.py:16-47 | the status is the list ladder's; OPTIONS answers the allowed methods; GET lists the categories; only a 201 adds the payload under the next id |
| ProductsViews.Catalog.CategoryDetail | services/products/products_app/views.py:50-110 | the status is the detail ladder's; OPTIONS answers the allowed methods; a 404 says 'Category not found.'; a 200 PUT patches exactly that category; a 204 deletes exactly it; nothing else changes |
| ProductsViews.Catalog.ProductListCreate | services/products/products_app/views.py:115-160 | OPTIONS answers the allowed methods; GET without a filter lists every product, with an unknown category 404, else that category's products; POST follows the list ladder and only a 201 adds the product |
| ProductsViews.Catalog.ProductDetail | services/products/products_app/views.py:163-223 | the status is the detail ladder's; OPTIONS answers the allowed methods; a 404 says 'Product not found.'; PUT patches and DELETE removes exactly that product; nothing else changes |
| ProductsViews.ReadsArePublic | services/products/products_app/views.py:16-26 | GET answers the same for every user, signed in or not, and OPTIONS is 200 for anyone, even for an unknown id |
| ProductsClientApi.Headers | services/products/products_app/static/js/api.js:7-15 | always a JSON content type; a bearer token exactly when auth is asked for and a non-empty token was stored |
| ProductsClientApi.RequestBody | services/products/products_app/static/js/api.js:25-27 | a body is sent exactly for POST or PUT with data |
| ProductsClientApi.OrElse | services/products/products_app/static/js/api.js:38 | `a \|\| b` on text: an empty string is falsy |
| ProductsClientApi.ApiCall | services/products/products_app/static/js/api.js:18-46 | 204 succeeds with no data; a non-OK status fails with error, else message, else 'API Error'; a throw or a non-JSON body fails with its message; success holds exactly for 204 or a 2xx JSON reply |
| ProductsClientApi.FailureMessageFallback | services/products/products_app/static/js/api.js:37-39 | a failure whose body names no error or message reports 'API Error' |
| ProductsClientApi.ProductsEndpoint | services/products/products_app/static/js/api.js:66-71 | the category filter is appended exactly for a truthy id |
| ProductsClientApi.QuantityOrDefault | services/products/products_app/static/js/api.js:100 | an absent quantity is 1 |
| ProductsClientApi.AddLine | services/products/products_app/static/js/api.js:100-116 | an existing line only gains quantity (id, name, price kept) and no second line appears; a new product gets one line {id, name, price, quantity}; no other line changes |
| ProductsClientApi.RemoveLine | services/products/products_app/static/js/api.js:118-123 | only that key goes; an absent product leaves the cart unchanged |
| ProductsClientApi.SetLineQuantity | services/products/products_app/static/js/api.js:125-135 | an absent product changes nothing; a quantity of 0 or less is removal; a positive one replaces only that line's quantity |
| ProductsClientApi.Project | services/products/products_app/static/js/api.js:90-93 | the local cart seen as the abstract cart, key for key |
| ProductsClientApi.ProjectAddLine | services/products/products_app/static/js/api.js:100-112 | the local add is the abstract add |
| ProductsClientApi.ProjectRemoveLine | services/products/products_app/static/js/api.js:118-121 | the local removal is the abstract removal |
| ProductsClientApi.ProjectSetLineQuantity | services/products/products_app/static/js/api.js:130-132 | a positive local quantity update is the abstract quantity update |
| ProductsClientApi.OperationsKeepInvariants | services/products/products_app/static/js/api.js:100-135 | every line stays under its own id, and positive adds keep quantities positive |
| ProductsClientApi.BadgeCountsProducts | services/products/products_app/static/js/api.js:137-144 | the badge counts distinct products: never more than the units, and equal exactly when each line holds one unit |
| ProductsClientApi.CartStorage.constructor | services/products/products_app/static/js/api.js:161-163 | storage as found at page load |
| ProductsClientApi.CartStorage.GetCart | services/products/products_app/static/js/api.js:90-93 | the stored cart, or the empty object when none is stored |
| ProductsClientApi.CartStorage.UpdateCartCount | services/products/products_app/static/js/api.js:137-144 | the badge shows the number of keys |
| ProductsClientApi.CartStorage.SaveCart | services/products/products_app/static/js/api.js:95-98 | the cart is stored and the badge updated |
| ProductsClientApi.CartStorage.AddToCart | services/products/products_app/static/js/api.js:100-116 | the stored cart becomes AddLine of the old one, quantity defaulting to 1 |
| ProductsClientApi.CartStorage.RemoveFromCart | services/products/products_app/static/js/api.js:118-123 | the stored cart becomes RemoveLine of the old one |
| ProductsClientApi.CartStorage.UpdateCartItemQuantity | services/products/products_app/static/js/api.js:125-135 | the stored cart becomes SetLineQuantity of the old one; for an absent product nothing is written at all |
| ProductsClientBrowse.InitialQuantity | services/products/products_app/static/js/products.js:55-56 | a card starts at the local cart's quantity for the product, else 0 |
| ProductsClientBrowse.QuantityBox.constructor | services/products/products_app/static/js/products.js:69 | the box shows the initial quantity |
| ProductsClientBrowse.QuantityBox.Increase | services/products/products_app/static/js/products.js:80-85 | one more than the box read, with no upper bound |
| ProductsClientBrowse.QuantityBox.Decrease | services/products/products_app/static/js/products.js:87-94 | one less, only from a positive number |
| ProductsClientBrowse.StepsReadBack | services/products/products_app/static/js/products.js:80-94 | after a step the box reads back as the stepped number |
| ProductsClientBrowse.DecreaseStaysNonNegative | services/auth/accounts/static/js/products.js:98-105 | the minus button never takes a box below 0; both pages use this same stepper |
| ProductsClientBrowse.AddProductToCart | services/products/products_app/static/js/products.js:96-108 | a box at 0 or less adds nothing; otherwise that many units go into the local cart and the box is reset to 0 |
| ProductsClientBrowse.CategoryFilter | services/products/products_app/static/js/products.js:121 | `categoryId \|\| null`: a filter exactly for a truthy id |
| ProductsClientBrowse.SelectFalsyLoadsAll | services/products/products_app/static/js/products.js:121-122 | a falsy id requests every product |
| ProductsClientCart.LoadCart | services/products/products_app/static/js/cart.js:3-49 | an empty cart shows the empty message; otherwise the totals over all lines, with 10% tax |
| ProductsClientCart.SubtotalStep | services/products/products_app/static/js/cart.js:22-24 | the loop's subtotal can take any one line out first |
| ProductsClientCart.ClassifyQuantity | services/products/products_app/static/js/cart.js:52-65 | NaN or negative is invalid, 0 asks for removal, a positive number sets the quantity, each exactly in its case |
| ProductsClientCart.RemoveItem | services/products/products_app/static/js/cart.js:68-73 | the line goes exactly when the user confirms, and the cart is then shown again; otherwise nothing is written |
| ProductsClientCart.UpdateQuantity | services/products/products_app/static/js/cart.js:51-66 | an invalid entry writes nothing; 0 removes only on confirmation; a positive number sets that quantity; the cart is shown again on every path but a declined removal |
| ProductsClientCart.ClassifyWrittenNumber | services/products/products_app/static/js/cart.js:52-60 | a typed number dispatches on its sign: negative invalid, 0 removal, positive update to that number |
| AuthClientApi.ApiCall | services/auth/accounts/static/js/api.js:45-59 | a parsed reply passes through with success = response.ok; a throw or a non-JSON body becomes status 0, no success, `{error}`; success exactly for a 2xx JSON reply |
| AuthClientApi.NoContentDiffers | services/auth/accounts/static/js/api.js:45-52 | a reply without a JSON body fails here, though the products service's helper counts a 204 as success |
| AuthClientApi.Wrap | services/auth/accounts/static/js/api.js:147-153 | success and data pass through; the error is the server's, else the operation's fixed default |
| AuthClientApi.WrapperErrorAlwaysSet | services/auth/accounts/static/js/api.js:147-231 | a catalog wrapper always reports a non-empty error, the exception's message when there is one, and fails exactly when the call failed |
| AuthClientApi.CartCount | services/auth/accounts/static/js/api.js:252-253 | no items count 0, and non-negative quantities give a non-negative count |
| AuthClientApi.EntriesUnitsNonNegative | services/auth/accounts/static/js/api.js:253 | Σ quantity of non-negative quantities is non-negative |
| AuthClientApi.Client.constructor | services/auth/accounts/static/js/api.js:4-6 | the token as stored, no badge written yet |
| AuthClientApi.Client.SetToken | services/auth/accounts/static/js/api.js:9-11 | the token is stored |
| AuthClientApi.Client.RemoveToken | services/auth/accounts/static/js/api.js:14-16 | the token is removed |
| AuthClientApi.Client.IsAuthenticated | services/auth/accounts/static/js/api.js:19-21 | true exactly when a token is stored, even a blank one |
| AuthClientApi.Client.Options | services/auth/accounts/static/js/api.js:24-43 | a JSON content type; 'Token <trimmed>' exactly when auth is required and the trimmed token is non-empty; a body exactly for POST/PUT with data |
| AuthClientApi.Client.UpdateCartCountFromItems | services/auth/accounts/static/js/api.js:252-258 | the badge shows Σ quantity |
| AuthClientApi.Client.GetCart | services/auth/accounts/static/js/api.js:235-250 | with no truthy token nothing is requested and the cart is []; a failure gives []; a success gives `items \|\| []` and writes the badge unless asked not to |
| AuthClientApi.Client.AddToCart | services/auth/accounts/static/js/api.js:260-274 | the add is posted with the token; the cart is re-fetched, rewriting the badge, exactly when the add succeeded; the notice is '<name> added to cart!' on success and 'Failed to add to cart' otherwise |
| AuthClientApi.Client.UpdateCartItemQuantity | services/auth/accounts/static/js/api.js:276-279 | the new quantity is sent with a PUT; the badge is untouched |
| AuthClientApi.Client.RemoveFromCart | services/auth/accounts/static/js/api.js:281-288 | a DELETE without a body is sent; the cart is re-fetched exactly on success |
| AuthClientApi.Client.ClearCart | services/auth/accounts/static/js/api.js:290-296 | a DELETE without a body is sent; the cart is re-fetched exactly on success |
| AuthClientApi.EntriesOf | services/cart/cart_app/serializers.py:17 | one browser entry per serialised item, in order |
| AuthClientApi.UnitsPrepend | services/auth/accounts/static/js/api.js:253 | the reduce's sum splits off its first item |
| AuthClientApi.SubtotalPrepend | services/auth/accounts/static/js/cart.js:37-40 | the pages' subtotal splits off its first item |
| AuthClientApi.ReceivedSplit | services/cart/cart_app/models.py:27 | the newest row comes first in what the browser receives |
| AuthClientApi.ReceivedUnits | services/auth/accounts/static/js/api.js:252-253 | the badge equals the cart service's `total_items`, though the browser sums the rows newest first |
| AuthClientApi.EntryOfTotal | services/cart/cart_app/models.py:33-35 | a received row totals what the service's row does |
| AuthClientApi.ReceivedSubtotal | services/auth/accounts/static/js/cart.js:35-40 | the pages' subtotal equals the cart service's `total_price` |
| AuthClientApi.BadgeMatchesTotalItems | services/auth/accounts/static/js/api.js:252-253 | for a served cart, the badge shows its `total_items` |
| AuthCartSummary.DetailsStable | services/auth/accounts/static/js/cart.js:5-16 | a cache grown from successful lookups answers every product as before |
| AuthCartSummary.GrowStep | services/auth/accounts/static/js/cart.js:11-13 | caching one more successful lookup keeps the cache grown only from lookups |
| AuthCartSummary.SubtotalStep | services/auth/accounts/static/js/cart.js:37-40 | one pass of the loop adds price × quantity to the subtotal |
| AuthCartSummary.ProductCache.constructor | services/auth/accounts/static/js/cart.js:3 | an empty cache |
| AuthCartSummary.ProductCache.Fetch | services/auth/accounts/static/js/cart.js:5-16 | a cached product is returned with no request; otherwise it is looked up, only a success is cached, and a failure gives 'Product <id>' at price 0 |
| AuthCartSummary.RowsFor | services/auth/accounts/static/js/cart.js:37-56 | one row per item, in cart order |
| AuthCartSummary.RowsStep | services/auth/accounts/static/js/cart.js:37-56 | one more item adds its row at the end |
| AuthCartSummary.ListRow | services/auth/accounts/static/js/cart.js:38-55 | a row named through the cache is the row the cache from before the listing gives |
| AuthCartSummary.Summarise | services/auth/accounts/static/js/checkout.js:160-177 | one row per item named through the cache, priced from the cart; the subtotal is Σ price × quantity |
| AuthCartPage.LoadCart | services/auth/accounts/static/js/cart.js:18-64 | the badge is untouched; no items show the empty message; otherwise every item's row and the totals with 10% tax |
| AuthCartPage.PageTotalsMatchServer | services/auth/accounts/static/js/cart.js:58-63 | for a served cart, the page's totals are those of the service's `total_price` and it lists one row per item |
| AuthCartPage.QuantityUpdate | services/auth/accounts/static/js/cart.js:67-69 | NaN or a number below 1 is refused; otherwise the number is taken |
| AuthCartPage.QuantityUpdateOfWritten | services/auth/accounts/static/js/cart.js:66-73 | a typed number is taken exactly when it is at least 1 |
| AuthCartPage.UpdateQuantity | services/auth/accounts/static/js/cart.js:66-77 | a refused quantity shows 'Invalid quantity' and sends nothing; an accepted one sends exactly one update of that quantity; both paths reload the cart |
| AuthCartPage.RemoveItem | services/auth/accounts/static/js/cart.js:79-84 | the removal is sent exactly when the user confirms |
| AuthCartPage.ProceedToCheckout | services/auth/accounts/static/js/cart.js:86-95 | an empty cart is refused with 'Your cart is empty'; otherwise the page goes to /checkout |
| AuthCartPage.CartPage.constructor | services/auth/accounts/static/js/cart.js:98 | the page is not yet started |
| AuthCartPage.CartPage.Start | services/auth/accounts/static/js/cart.js:97-111 | only the first call starts the page, listing the cart for a truthy token; at most one listing ever starts |
| Checkout.LastOfIsLastMatch | services/auth/accounts/static/js/checkout.js:216-227 | the last matching component wins, and with none the part stays '' |
| Checkout.AllSpaceConcat | services/auth/accounts/static/js/checkout.js:214 | appended text is blank exactly when both parts are |
| Checkout.TrimBlank | services/auth/accounts/static/js/checkout.js:237 | `trim()` is empty exactly for all-blank text |
| Checkout.StreetNamesBlankSplit | services/auth/accounts/static/js/checkout.js:213-214 | the street names are blank exactly when the earlier ones are and the last one, if a street, is |
| Checkout.StreetBlank | services/auth/accounts/static/js/checkout.js:210-215 | the street is blank exactly when every street component's long name is |
| Checkout.ExtractAddress | services/auth/accounts/static/js/checkout.js:207-229 | the parts are the street (long name + ' ' over street components, in order) and the last locality, state short name, postal code and country |
| Checkout.DisplayAddressDetails | services/auth/accounts/static/js/checkout.js:110-146 | the same extraction, shown with 'N/A' for each empty part |
| Checkout.DeliveryAddress | services/auth/accounts/static/js/checkout.js:237 | the trimmed street, else the formatted address |
| Checkout.NoStreetUsesFormatted | services/auth/accounts/static/js/checkout.js:237 | a place without street components is delivered to its formatted address |
| Checkout.OrderDataOf | services/auth/accounts/static/js/checkout.js:234-245 | the payload carries the checked name and phone, the payment method, the extracted parts, the delivery address and the coordinates |
| Checkout.PayloadOverridesDefaults | services/auth/accounts/static/js/checkout.js:234-245 | every field is sent, so the order service's defaults never apply: no country component gives country '' and never 'India' |
| Checkout.PlaceOrderButton.constructor | services/auth/accounts/static/js/checkout.js:254 | the button is enabled and reads 'Place Order' |
| Checkout.PlaceOrder | services/auth/accounts/static/js/checkout.js:187-259 | name, then phone, then place are checked, the first missing stopping with its notice and nothing sent; otherwise the payload is posted with the button disabled, the button is restored whatever the outcome, and the page goes to /orders exactly on success |
| Checkout.Submit | services/auth/accounts/static/js/checkout.js:247-258 | the post carries the payload and the token header; the button reads 'Placing Order...' during it and 'Place Order' after it; /orders exactly on success |
| Checkout.LoadOrderSummary | services/auth/accounts/static/js/checkout.js:148-185 | an empty cart goes back to /cart and lists nothing; otherwise the rows and totals with 10% tax |
| Checkout.FullName | services/auth/accounts/static/js/checkout.js:272 | the trimmed first and last name, else the username |
| Checkout.BlankNamesGiveUsername | services/auth/accounts/static/js/checkout.js:272 | blank or absent names autofill the username |
| Checkout.Start | services/auth/accounts/static/js/checkout.js:262-276 | with no truthy token the page goes to /login; otherwise a loaded profile fills in the delivery name |
| OrdersPage.LinesOf | services/orders/orders_app/serializers.py:4-7 | one line per stored item with its name and quantity |
| OrdersPage.JsonOf | services/orders/orders_app/serializers.py:11-20 | the order with its owner, stored status name, the delivery name, phone, address and payment method, the coordinates' decimal text exactly when set, and each item's name and quantity (the corrected serializer) |
| OrdersPage.JsonAsServed | services/orders/orders_app/serializers.py:16-20 | the served order has no `user_id` |
| OrdersPage.CardOf | services/auth/accounts/static/js/orders.js:14-45 | the item count is the number of lines, not units; the cancel button exactly for pending or confirmed |
| OrdersPage.CancelButtonMatchesService | services/auth/accounts/static/js/orders.js:42-44 | the page offers cancelling exactly the orders `cancel_order` accepts |
| Common.Map | services/auth/accounts/static/js/orders.js:14-48 | one card per element, in order: the order cards here and the product cards of the auth browse page (services/auth/accounts/static/js/products.js:49-52) |
| OrdersPage.OrdersViewOf | services/auth/accounts/static/js/orders.js:3-49 | 'No orders found' exactly for a failure or an empty list; otherwise the cards |
| OrdersPage.LoadOrders | services/auth/accounts/static/js/orders.js:3-49 | the listing loop shows exactly OrdersViewOf of the reply |
| OrdersPage.HandleCancelOrder | services/auth/accounts/static/js/orders.js:51-60 | the cancel is sent exactly when confirmed; its notice and the reload happen exactly on success |
| OrdersPage.Start | services/auth/accounts/static/js/orders.js:63-69 | a truthy token lists the orders; otherwise the page goes to /login/ |
| ManageOrders.NamesStable | services/auth/accounts/static/js/manage_orders.js:14-17 | a cache grown from successful lookups names every user as before |
| ManageOrders.UsernameCache.constructor | services/auth/accounts/static/js/manage_orders.js:4 | an empty cache |
| ManageOrders.UsernameCache.Fetch | services/auth/accounts/static/js/manage_orders.js:14-34 | a hit makes no request; otherwise only a successful lookup is cached, and a failure gives 'User <id>' |
| ManageOrders.NamesGrowStep | services/auth/accounts/static/js/manage_orders.js:25-28 | caching one more successful lookup keeps the cache grown only from lookups |
| ManageOrders.AddressLink | services/auth/accounts/static/js/manage_orders.js:36-48 | a maps link `?q=lat,lng` exactly for truthy coordinates, labelled with the address or 'View Location'; otherwise the address, else 'N/A' |
| ManageOrders.StoredLocationLinks | services/auth/accounts/static/js/manage_orders.js:37 | a stored location always gives a link, even at coordinate 0, since coordinates arrive as decimal text |
| ManageOrders.Filtered | services/auth/accounts/static/js/manage_orders.js:62-65 | '' keeps every order; otherwise exactly the orders with that status, in order |
| ManageOrders.FilteredIdempotent | services/auth/accounts/static/js/manage_orders.js:62-65 | filtering twice by a status is filtering once |
| ManageOrders.ManagedCardOf | services/auth/accounts/static/js/manage_orders.js:84-117 | the customer is the delivery name, else the username; the phone, else 'N/A'; the line count, address link and selected status |
| ManageOrders.ManagedCardsOf | services/auth/accounts/static/js/manage_orders.js:74-120 | one card per kept order |
| ManageOrders.ManagedCardAt | services/auth/accounts/static/js/manage_orders.js:74-120 | the i-th card is the i-th order's card under its username |
| ManageOrders.ServedOrdersLackOwner | services/auth/accounts/static/js/manage_orders.js:75 | as served, an order shows its delivery name or else 'User undefined', whoever owns it |
| ManageOrders.OwnerNamedWhenServed | services/auth/accounts/static/js/manage_orders.js:102 | with the owner served, an order without a delivery name shows the owner's username |
| ManageOrders.ManagedCardsStep | services/auth/accounts/static/js/manage_orders.js:74-120 | one more order adds its card at the end |
| ManageOrders.CardFor | services/auth/accounts/static/js/manage_orders.js:75-117 | a card named through the cache is the card the cache from before the listing gives |
| ManageOrders.LoadAllOrders | services/auth/accounts/static/js/manage_orders.js:50-121 | a failure shows 'Failed to load orders', an empty filtered list 'No orders found', otherwise one card per kept order in order |
| ManageOrders.HandleStatusChange | services/auth/accounts/static/js/manage_orders.js:123-137 | the update is sent exactly when confirmed; its outcome is announced; the list is reloaded with the filter in every case |
| AuthBrowsePage.ButtonsOf | services/auth/accounts/static/js/products.js:13-31 | 'All Products' first, then one button per category, in order |
| AuthBrowsePage.LoadCategories | services/auth/accounts/static/js/products.js:5-33 | on success the buttons are rebuilt; on failure nothing changes |
| AuthBrowsePage.CardOf | services/auth/accounts/static/js/products.js:58-85 | out of stock, with no quantity controls, exactly when stock is 0; otherwise the steppers are bounded by the stock; 'No description available' for an empty description |
| AuthBrowsePage.BrowseViewOf | services/auth/accounts/static/js/products.js:35-56 | a failure shows 'Error loading products', an empty list 'No products available', otherwise the cards |
| AuthBrowsePage.LoadProducts | services/auth/accounts/static/js/products.js:35-56 | the listing loop shows exactly BrowseViewOf of the reply |
| AuthBrowsePage.IncreaseQuantity | services/auth/accounts/static/js/products.js:87-96 | below the stock the box goes up by one; at or above it the box is kept and the maximum announced |
| AuthBrowsePage.IncreaseNeverExceedsStock | services/auth/accounts/static/js/products.js:89-92 | a non-number reads as 0; the box never passes the stock, and below it gains exactly one |
| AuthBrowsePage.StepperStaysWithinStock | services/auth/accounts/static/js/products.js:76-77 | the card's bound is the product's stock, so presses of '+' keep the box within it |
| AuthBrowsePage.AddProductToCart | services/auth/accounts/static/js/products.js:107-119 | 0 or less sends nothing and asks for a quantity; otherwise the add is posted, its success or failure notice shown, the badge refreshed on success, and the box reset to 0 |
| AuthBrowsePage.SelectCategory | services/auth/accounts/static/js/products.js:121-137 | null or 0 maps to a null filter and the unfiltered list |
| AuthBrowsePage.FilterThenEndpoint | services/auth/accounts/static/js/api.js:184-188 | mapping a falsy id to null first does not change the request |
| Register.ErrorMessage | services/auth/accounts/static/js/register.js:54-61 | the password's first error, else the username's, else the email's, else 'Registration failed' |
| Register.UnreachedShowsGeneric | services/auth/accounts/static/js/api.js:53-58 | a registration that never got a JSON reply fails with 'Registration failed' |
| Register.PasswordErrorFirst | services/auth/accounts/static/js/register.js:55-56 | a password error outranks whatever the other fields say |
| Register.RegisterForm.constructor | services/auth/accounts/static/js/register.js:16-17 | a cleared message, the button enabled and the spinner hidden |
| Register.HandleRegister | services/auth/accounts/static/js/register.js:2-73 | differing passwords show an error and send nothing; success stores the token and heads for /dashboard/; failure shows the chosen error and restores the button and spinner |
| Register.AutofillEmail | services/auth/accounts/static/js/register.js:82-87 | the trimmed username + '@bamazon.com', or '' for a blank username |
| Register.AutofillShape | services/auth/accounts/static/js/register.js:81-88 | the email is empty exactly for an all-blank username; otherwise it ends with the domain and starts with a non-space |
| Register.Start | services/auth/accounts/static/js/register.js:93-97 | a stored token sends the user on to /dashboard/ |

## Left out

- HTTP between services, `fetch`, timeouts: every remote answer is an input (`Reply<D>`, a product map, a set of products whose stock write fails). A call that raises is an input too (`OrderViews.Raise`, or the index of the raising pass). It is modelled as having no effect at the other service, so a timed-out write that landed anyway is not modelled.
- Django's ORM, serializer validation, URL routing, admin registration and token authentication: a payload's validity and the caller's flags are inputs. Whether the caller is signed in is an input only for the products service (`ProductsViews.WriteGate`, `StockViews.UpdateStock`); admin and staff are inputs wherever the views check them. The orders service forwards the caller's token on its stock writes, so it calls `StockViews.UpdateStock` as an authenticated caller.
- CartViews.CartStore and OrderViews.OrderStore: every cart and orders endpoint requires a signed-in caller (`IsAuthenticated`, services/cart/cart_app/views.py:10 and services/orders/orders_app/views.py:12 and the other endpoints' decorators). The anonymous 401 refusal is not modelled; each method's `user` is the authenticated caller's id.
- ProductsViews.Catalog.ProductListCreate: the category filter is a number. A non-numeric `?category_id=` makes the lookup raise `ValueError`, which services/products/products_app/views.py:126-129 does not catch, so the request ends in a 500; that case is not modelled.
- The DOM, notifications, `setTimeout` redirects, `alert` and `confirm`: `confirm` is a boolean, navigation a returned target, a notice a returned text.
- Google Maps (`initMap`, autocomplete, geocoder, geolocation): a place is plain data. The model covers its components, formatted address and coordinates.
- Floating point, `parseFloat` and `toFixed`: money and coordinates are exact reals. The serializer's decimal text of a coordinate is the parameter `decimalText`.
- `uuid.uuid4()`: the hex text is an input.
- `created_at`/`updated_at`: rows are kept in creation order, so "newest first" is the reverse of that order.
- Concurrency: the check-then-write stock race between simultaneous orders, and out-of-order browser replies.
- The load-time badge fetch in the auth `api.js` (lines 317-337): the same `getCart` call that `AuthClientApi.Client.GetCart` models.
- `checkAdminAccess` and the start handler of `manage_orders.js`: a profile lookup and a redirect, with no rule of their own.
- The products service page's `loadCategories`, `loadProducts` and `createProductCard` markup: the card's initial quantity is modelled (`ProductsClientBrowse.InitialQuantity`); the listings mirror the auth page's, which are modelled.
- The CSS status class (`toLowerCase`): `OrdersPage.CardOf` states only that the upper-cased label keeps the status's length.
- `register.js`'s `catch` branch (lines 67-72): `apiCall` catches every error itself, so this branch cannot be reached.
- Non-list 2xx bodies on the list endpoints: a successful list reply is typed as a list.
- ProductsViews.Catalog.CategoryDetail: a category DELETE leaves the products table as it is. What the product's category foreign key does on delete is not modelled, because services/products/products_app/models.py is not part of this model.
- ManageOrders.ManagedCardsOf: its own contract states only the length; the card at each position is stated by `ManageOrders.ManagedCardAt`.
- CartSpec.Subtotal, CartSpec.Units: ghost sums over a map; the cart pages' loops are tied to them through `ProductsClientCart.SubtotalStep` and `AuthClientApi.ReceivedSubtotal`.

## Findings

| source | as written | input that shows it | evidently intended | confidence | as-written member | corrected member |
|---|---|---|---|---|---|---|
| services/orders/orders_app/serializers.py:16-20 | `OrderSerializer` lists no `user_id`, so `manage_orders.js:75` calls `fetchUsername(undefined)`. The route `api/users/<int:user_id>/` cannot match that. | any order with an empty `delivery_name`: the admin page shows 'User undefined' | the order's owner is served, and the card shows the owner's username | not executed | ManageOrders.ServedOrdersLackOwner | ManageOrders.OwnerNamedWhenServed |
