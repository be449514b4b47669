/**
 * The per-visitor session state that index.php updates in place
 * (`$_SESSION['cart']`, `$_SESSION['user_id']`, `$_SESSION['admin_logged_in']`)
 * and the two tables the checkout appends to.
 *
 * Each request handler of index.php that touches this state is a method
 * here. Catalog and users tables are passed in as values (they stand for
 * the `SELECT`s the handlers run); the `orders` and `order_items` tables
 * are sequences that the checkout appends to.
 */
module Session {
  import opened Wrappers
  import opened Cart
  import opened Checkout
  import opened Admin

  /** The `orders` and `order_items` tables, in insertion order. */
  class Database {
    var orders: seq<Order>
    var orderItems: seq<OrderItem>

    constructor ()
      ensures orders == [] && orderItems == []
    {
      orders := [];
      orderItems := [];
    }

    /** `INSERT INTO orders ...` (index.php:69-72). */
    method InsertOrder(o: Order)
      modifies this`orders
      ensures orders == old(orders) + [o]
    {
      orders := orders + [o];
    }

    /** `INSERT INTO order_items ...` (index.php:78-79). */
    method InsertOrderItem(item: OrderItem)
      modifies this`orderItems
      ensures orderItems == old(orderItems) + [item]
    {
      orderItems := orderItems + [item];
    }
  }

  class VisitorSession {
    /** `$_SESSION['cart']`, the lines in iteration (insertion) order. */
    var cart: seq<CartLine>
    /** `$_SESSION['user_id']`, unset for a guest. */
    var userId: Option<int>
    /** Whether `$_SESSION['admin_logged_in']` is set. */
    var adminLoggedIn: bool

    ghost predicate Valid()
      reads this
    {
      ValidLines(cart)
    }

    /** A new session: the cart is initialised to empty (index.php:35-37). */
    constructor (userId: Option<int>)
      ensures Valid() && cart == [] && this.userId == userId && !adminLoggedIn
    {
      cart := [];
      this.userId := userId;
      adminLoggedIn := false;
    }

    /** `action=add_to_cart&id=foodId` (index.php:90-107). */
    method AddToCart(catalog: map<int, Food>, foodId: int)
      requires Valid() && CatalogKeyed(catalog)
      modifies this`cart
      ensures Valid()
      ensures cart == Added(old(cart), catalog, foodId)
      ensures TotalQuantity(cart) == TotalQuantity(old(cart)) + (if foodId in catalog then 1 else 0)
    {
      AddPreservesValid(cart, catalog, foodId);
      AddRaisesBadge(cart, catalog, foodId);
      if foodId in catalog {
        var food := catalog[foodId];
        match IndexOf(cart, foodId)
        case Some(k) =>
          cart := cart[k := cart[k].(quantity := cart[k].quantity + 1)];
        case None =>
          cart := cart + [CartLine(food.id, food.name, food.price, 1)];
      }
    }

    /** `action=remove_from_cart&id=foodId` (index.php:112-116). */
    method RemoveFromCart(foodId: int)
      requires Valid()
      modifies this`cart
      ensures Valid()
      ensures cart == Removed(old(cart), foodId)
      ensures !InCart(cart, foodId)
    {
      RemovePreservesValid(cart, foodId);
      match IndexOf(cart, foodId)
      case None =>
      case Some(k) =>
        cart := cart[..k] + cart[k + 1..];
    }

    /** The nav badge: the sum of the quantities in the cart (index.php:172). */
    method CartCount() returns (n: nat)
      ensures n == TotalQuantity(cart)
    {
      n := 0;
      var i := 0;
      while i < |cart|
        invariant 0 <= i <= |cart|
        invariant n == TotalQuantity(cart[..i])
      {
        assert cart[..i + 1][..i] == cart[..i];
        n := n + cart[i].quantity;
        i := i + 1;
      }
      assert cart[..i] == cart;
    }

    /** The cart page total, a `foreach` accumulation (index.php:301-304). */
    method CartTotal() returns (total: real)
      ensures total == Subtotal(cart)
    {
      total := 0.0;
      var i := 0;
      while i < |cart|
        invariant 0 <= i <= |cart|
        invariant total == Subtotal(cart[..i])
      {
        assert cart[..i + 1][..i] == cart[..i];
        total := total + cart[i].price * cart[i].quantity as real;
        i := i + 1;
      }
      assert cart[..i] == cart;
    }

    /** `page=process_order` (index.php:49-87): computes the subtotal, fee
        and total, inserts one order row under the fresh id `orderId` (the
        `lastInsertId`), one item row per cart line, and empties the cart.
        `eventTime` is the `date("H:i:s")` of the request. */
    method ProcessOrder(db: Database, req: OrderRequest, eventTime: string, orderId: int)
      // `lastInsertId` of an auto-increment key: no row uses it yet
      requires forall o :: o in db.orders ==> o.id != orderId
      requires forall it :: it in db.orderItems ==> it.orderId != orderId
      modifies this`cart, db
      ensures Valid() && cart == []
      ensures db.orders == old(db.orders) + [OrderFor(orderId, userId, req, eventTime, Subtotal(old(cart)))]
      ensures db.orderItems == old(db.orderItems) + ItemsFor(orderId, old(cart))
      // the whole table: the rows tagged with the new id are exactly this
      // cart's items, and they sum to the new order's subtotal
      ensures ItemsOfOrder(db.orderItems, orderId) == ItemsFor(orderId, old(cart))
      ensures ItemsSubtotal(ItemsOfOrder(db.orderItems, orderId)) == db.orders[|db.orders| - 1].subtotal
    {
      var lines := cart;
      var subtotal := CartTotal();
      var serviceFee := subtotal * ServiceFeeRate;
      var total := subtotal + serviceFee;
      var userColumn := match userId case Some(u) => u case None => 0;
      db.InsertOrder(Order(orderId, userColumn, req.eventDate, eventTime, req.eventLocation,
                           req.guestCount, req.specialRequests, subtotal, serviceFee, total,
                           "pending", "unpaid"));
      var i := 0;
      while i < |lines|
        invariant 0 <= i <= |lines|
        invariant db.orders == old(db.orders) + [OrderFor(orderId, userId, req, eventTime, Subtotal(lines))]
        invariant db.orderItems == old(db.orderItems) + ItemsFor(orderId, lines[..i])
      {
        assert lines[..i + 1][..i] == lines[..i];
        assert ItemsFor(orderId, lines[..i + 1]) ==
               ItemsFor(orderId, lines[..i]) + [ItemFor(orderId, lines[i])];
        var itemSubtotal := lines[i].price * lines[i].quantity as real;
        db.InsertOrderItem(OrderItem(orderId, lines[i].id, lines[i].quantity, lines[i].price, itemSubtotal));
        i := i + 1;
      }
      assert lines[..i] == lines;
      StoredItemsOfNewOrder(old(db.orderItems), orderId, lines);
      cart := [];
    }

    /** `page=admin_login` posted (index.php:119-131). */
    method AdminLogin(users: seq<User>, username: string, password: string,
                      verify: (string, string) -> bool)
      returns (error: Option<string>)
      modifies this`adminLoggedIn
      ensures adminLoggedIn == Login(old(adminLoggedIn), users, username, password, verify).loggedIn
      ensures error == Login(old(adminLoggedIn), users, username, password, verify).error
      ensures adminLoggedIn && !old(adminLoggedIn) ==>
                exists u :: u in users && u.username == username && u.role == AdminRole &&
                            verify(password, u.passwordHash)
      ensures error.Some? ==> error == Some(InvalidCredentials) && adminLoggedIn == old(adminLoggedIn)
    {
      var admin := FindAdmin(users, username);
      if admin.Some? && verify(password, admin.value.passwordHash) {
        adminLoggedIn := true;
        error := None;
      } else {
        error := Some(InvalidCredentials);
      }
    }

    /** `page=admin_logout` (index.php:134-137). */
    method AdminLogout()
      modifies this`adminLoggedIn
      ensures !adminLoggedIn
    {
      adminLoggedIn := false;
    }

    /** The first line of every admin page (index.php:453, 470, 508, 570, 635, 648). */
    method OpenAdminPage(page: AdminPage) returns (r: Route)
      ensures r == Guard(adminLoggedIn, page)
      ensures r == RedirectToLogin <==> !adminLoggedIn
    {
      if !adminLoggedIn {
        return RedirectToLogin;
      }
      return Show(page);
    }
  }
}
