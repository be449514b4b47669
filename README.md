# Remiedy catering storefront: session cart, checkout and admin flag

A Dafny model of the part of the Remiedy Event Catering storefront
(`index.php`) that holds logic and not just SQL and HTML. It covers three things:

- **The session shopping cart** (`$_SESSION['cart']`). This is a table from food id
  to a line holding the food's id, a snapshot of its name and unit price, and a
  quantity. Lines keep insertion order, because PHP associative arrays do.
  The model covers "add to cart" (an unknown id does nothing, a known id
  already in the cart gets one more portion, a new id gets a new last line
  with quantity 1), "remove from cart", the nav badge (the sum of the
  quantities) and the cart page total (the sum of price × quantity).
- **Checkout** (`page=process_order`). It computes the subtotal, a 10%
  service fee and the total from the cart. It inserts one `orders` row with
  status `pending` and payment status `unpaid`, and the session user id or 0.
  It inserts one `order_items` row per cart line, in cart order, and then
  empties the cart.
- **The admin session flag**. Login sets it only when a user with role
  `admin` exists under the given name and the password verifies. Otherwise
  the flag is left as it was and the message "Invalid admin credentials."
  is produced. Logout clears the flag. Every admin page redirects to the
  login page when the flag is not set.

Files and modules:

- `wrappers.dfy` (`Wrappers`): `Option`.
- `cart.dfy` (`Cart`): the cart as a sequence of lines, the functions `Added`,
  `Removed`, `TotalQuantity` and `Subtotal`, and lemmas about add and remove.
- `checkout.dfy` (`Checkout`): the `Order` and `OrderItem` rows, the
  functions that build them from a cart, and lemmas about the totals.
- `admin.dfy` (`Admin`): the admin lookup, the login outcome and the page guard.
- `session.dfy` (`Session`): the session state as the class `VisitorSession`.
  Its fields `cart`, `userId` and `adminLoggedIn` are updated in place, with
  one method per request handler. The class `Database` holds the two tables
  that the checkout appends to. The checkout's subtotal loop (index.php:61-63)
  is the same accumulation as the cart page total (index.php:302-303), so
  `ProcessOrder` calls `CartTotal` for it. Each method is proved against the functions
  of the modules above.

Modelling choices:

- Money is exact (`real`). The fee is `subtotal * 0.10` with no rounding,
  which is what the code computes. So `total == subtotal + serviceFee` and
  `serviceFee * 10 == subtotal` hold exactly.
- The catalog is a `map<int, Food>` parameter that stands for the
  `SELECT ... WHERE id = ?` at index.php:93-95. `CatalogKeyed` says that the
  row under key k has id k.
- The `users` table is a `seq<User>` parameter. `FindAdmin` returns the
  first row whose username and role equal the given name and `admin`
  exactly (see "Left out" for the database's collation).
- `password_verify` is the function parameter `verify`.
- `date("H:i:s")` is the parameter `eventTime`.
- The id from `lastInsertId` is the parameter `orderId`.
- Ids arrive already parsed as `int`.

In four places the storefront's intended behaviour differs from what the
code does. The model follows the code:

- A fee rounded to money precision would be natural for a price. The code
  does not round.
- A checkout would be expected to be all-or-nothing. The code runs the inserts
  one after another with no transaction (see "Left out").
- The checkout form asks for the customer's name, phone and email. The code
  reads them but does not store them in the `orders` row, so `Order` has no
  such fields.
- The checkout form is only reachable with a non-empty cart: the `order` page
  at index.php:316 redirects on an empty cart. `process_order` itself does
  not check this, so an empty cart gives an order with subtotal 0 and no
  items.

## Model

| member | source | states |
|---|---|---|
| `Cart.IndexOf` | index.php:97 | finds the position of the line with the given id, and the first one; returns none exactly when no line has that id (`isset`) |
| `Cart.NewLine` | index.php:100-105 | a newly added line has quantity 1 and copies the catalog row's id, name and price |
| `Cart.Added` | index.php:90-107 | an unknown id leaves the cart unchanged; an id already in the cart gets exactly one more portion, and its snapshot and all other lines stay in place; a new catalog id adds one line with quantity 1 and the catalog's id, name and price, placed last |
| `Cart.Removed` | index.php:112-116 | removing an absent id changes nothing; otherwise exactly that line is deleted and the other lines keep their order; afterwards the id is not in the cart |
| `Cart.AddPreservesValid` | index.php:96-106 | add keeps ids distinct and every quantity at least 1 |
| `Cart.RemovePreservesValid` | index.php:114 | remove keeps ids distinct and every quantity at least 1 |
| `Cart.AddRaisesBadge` | index.php:96-106 | the badge (sum of quantities, index.php:172) rises by exactly 1 on a known id and is unchanged on an unknown one |
| `Cart.AddRaisesSubtotal` | index.php:96-106 | the cart total rises by the line's price snapshot for an id already in the cart, by the catalog's current price for a new id, and not at all for an unknown id |
| `Cart.RemoveLowersBadge` | index.php:114 | removing a line lowers the badge by that line's quantity; removing an absent id leaves it unchanged |
| `Cart.AddTwiceIsOneLine` | index.php:97-105 | adding the same new food twice gives one line with quantity 2, not two lines |
| `Checkout.OrderUserId` | index.php:71 | the order's user id is the session user id when set, otherwise 0 |
| `Checkout.ItemsMatchLines` | index.php:76-80 | exactly one order item per cart line, in cart order, each tagged with the order id and copying the line's food id, quantity and price, with subtotal price × quantity |
| `Checkout.ItemsSumToSubtotal` | index.php:60-80 | the item subtotals sum to the cart subtotal |
| `Checkout.ItemsOfOwnOrder` | index.php:76-80 | every item built for an order is tagged with that order's id |
| `Checkout.StoredItemsOfNewOrder` | index.php:73-80 | after appending a cart's items under an id no earlier row uses, the `order_items` rows tagged with that id are exactly those items, in cart order, and they sum to the cart subtotal |
| `Checkout.OrderInvariants` | index.php:60-72 | the order's subtotal is the cart subtotal and the sum of its items; the fee is one tenth of it; total = subtotal + fee (11/10 of the items' sum); status `pending`, payment `unpaid`; user id is the session user or 0; the event fields are copied from the form |
| `Checkout.WorkedExample` | index.php:60-80 | a cart of 100 × 2 and 50 × 1 gives subtotal 250, fee 25, total 275, and items with subtotals 200 and 50 |
| `Admin.FindAdmin` | index.php:122-124 | the fetched row, if any, is a user with that username and role `admin`; none is fetched exactly when no such user exists |
| `Admin.LoginSucceedsIff` | index.php:125 | login succeeds only if an admin with that username exists whose hash verifies the password; when admin usernames are unique, such a user always makes it succeed |
| `Admin.Login` | index.php:119-131 | no error exactly when login succeeds, and then the flag is set; on failure the error is "Invalid admin credentials." and the flag is unchanged; the flag becomes set only for an existing admin whose password verifies |
| `Admin.Guard` | index.php:453 | an admin page is shown exactly when the flag is set, and otherwise redirects to the login page |
| `Session.Database.InsertOrder` | index.php:69-72 | the `orders` table gains exactly the given row, appended last |
| `Session.Database.InsertOrderItem` | index.php:78-79 | the `order_items` table gains exactly the given row, appended last |
| `Session.VisitorSession.constructor` | index.php:35-37 | a new session starts with an empty cart and the admin flag cleared |
| `Session.VisitorSession.AddToCart` | index.php:90-107 | the new cart is `Added` of the old one and the catalog; the cart invariant is kept; the badge rises by 1 exactly when the id is in the catalog |
| `Session.VisitorSession.RemoveFromCart` | index.php:112-116 | the new cart is `Removed` of the old one; the invariant is kept; the id is no longer in the cart |
| `Session.VisitorSession.CartCount` | index.php:172 | the loop returns the sum of the quantities in the cart |
| `Session.VisitorSession.CartTotal` | index.php:301-304 | the accumulation loop returns the sum of price × quantity in the cart, 0 when it is empty |
| `Session.VisitorSession.ProcessOrder` | index.php:49-87 | appends exactly one order row (subtotal from the cart, 10% fee, total, pending/unpaid, session user or 0, id `orderId`) and the cart's items in cart order, whose subtotals sum to the order subtotal; for a fresh `orderId`, the whole `order_items` table's rows tagged with it are exactly those items and sum to the new order's subtotal; the cart is empty afterwards and nothing else in the session changes |
| `Session.VisitorSession.AdminLogin` | index.php:119-131 | the new flag and the error message are those of `Login`; the flag becomes set only for an existing admin whose password verifies; on failure the flag is unchanged and the message is "Invalid admin credentials." |
| `Session.VisitorSession.AdminLogout` | index.php:134-137 | the flag is cleared, whatever it was |
| `Session.VisitorSession.OpenAdminPage` | index.php:648 | redirects to the login page exactly when the flag is not set, the same check as the other admin pages (index.php:453, 470, 508, 570, 635) |

## Left out

- The database connection and its failure path (index.php:11-16) are not modelled; they are I/O.
- The try/catch around the checkout inserts and the `die` (index.php:67-86) are database I/O and are not modelled. The model's checkout always succeeds. The source has no transaction, so an insert that fails part-way leaves an order row with some or none of its items. No atomicity is claimed.
- `redirect`, `header` and `exit` (index.php:29-32) and all HTML output (index.php:140-738) are presentation. A redirect appears only as the `Route` of an admin page.
- `clean_input` and `formatCurrency` (index.php:21-27) are thin wrappers over PHP string library functions whose behaviour is not shown. Form fields and the admin username arrive already cleaned.
- Food add, edit and delete (index.php:507-642) are SQL CRUD plus a file upload with `uniqid()`/`time()` names. Only their first line, the admin guard, is modelled.
- The listing queries for menu, food management and orders are SQL reads and are not modelled.
- `password_verify` is a foreign call, given as the parameter `verify`. `date("H:i:s")` and `lastInsertId` are given as parameters too.
- PHP floats are not modelled: money is exact, so float rounding in `price * quantity`, in the sum and in `* 0.10` is not captured. The `(int)`/`(float)` casts on request input (index.php:56, 91, 113) are not modelled either: ids and the guest count arrive as integers.
- PHP's integer overflow to float for an absurdly large quantity is not modelled.
- Concurrent requests on the same session (racing cart updates) are concurrency and are not modelled.
- `Admin.FindAdmin`: the source's `SELECT` has no `ORDER BY`, so with two admin rows of the same username the database may return either. The model returns the first, and `Admin.LoginSucceedsIff` states the converse direction only for unique admin usernames.
- Admin.FindAdmin: username and role are matched by exact string equality. The database's collation is not modelled: a case-insensitive collation, or one that ignores trailing spaces, makes the source's `SELECT` also match `"Admin"` or `"admin "` for the input `"admin"`, and the model does not. So `Admin.Login` and `Admin.LoginSucceedsIff` speak of exact-match usernames only.
- Session.VisitorSession.ProcessOrder requires that no existing `orders` or `order_items` row uses `orderId`. This stands for `lastInsertId` returning a fresh auto-increment key, which the model cannot derive from the database.
