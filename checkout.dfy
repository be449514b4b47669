/**
 * The records the checkout step writes (index.php:49-87): one row of the
 * `orders` table and one row of `order_items` per cart line, with the
 * subtotal, the fixed 10% service fee and the total computed from the cart.
 *
 * Money is exact (`real`); see README.md for what that leaves out.
 */
module Checkout {
  import opened Wrappers
  import opened Cart

  /** The checkout form fields (index.php:51-57), already sanitised. */
  datatype OrderRequest = OrderRequest(
    customerName: string,
    customerPhone: string,
    customerEmail: string,
    eventDate: string,
    eventLocation: string,
    guestCount: int,
    specialRequests: string)

  /** A row of the `orders` table as the checkout inserts it. */
  datatype Order = Order(
    id: int,
    userId: int,
    eventDate: string,
    eventTime: string,
    eventLocation: string,
    guestCount: int,
    specialRequests: string,
    subtotal: real,
    serviceFee: real,
    total: real,
    status: string,
    paymentStatus: string)

  /** A row of the `order_items` table. */
  datatype OrderItem = OrderItem(orderId: int, foodId: int, quantity: nat, price: real, subtotal: real)

  /** The service fee rate, `0.10` at index.php:64. */
  const ServiceFeeRate: real := 0.10

  const StatusPending := "pending"
  const PaymentUnpaid := "unpaid"

  /** The `user_id` column: the logged-in customer, or 0 for a guest (index.php:71). */
  function OrderUserId(sessionUser: Option<int>): (u: int)
    ensures sessionUser.Some? ==> u == sessionUser.value
    ensures sessionUser.None? ==> u == 0
  {
    match sessionUser
    case Some(v) => v
    case None => 0
  }

  /** The order row built from the cart's subtotal (index.php:64-65, 69-72). */
  function OrderFor(orderId: int, sessionUser: Option<int>, req: OrderRequest,
                    eventTime: string, subtotal: real): Order
  {
    var fee := subtotal * ServiceFeeRate;
    Order(orderId, OrderUserId(sessionUser), req.eventDate, eventTime, req.eventLocation,
          req.guestCount, req.specialRequests, subtotal, fee, subtotal + fee,
          StatusPending, PaymentUnpaid)
  }

  /** The order item for one cart line (index.php:77-79). */
  function ItemFor(orderId: int, line: CartLine): OrderItem
  {
    OrderItem(orderId, line.id, line.quantity, line.price, line.price * line.quantity as real)
  }

  /** The order items for a cart, one per line in iteration order. */
  function ItemsFor(orderId: int, lines: seq<CartLine>): seq<OrderItem>
  {
    if lines == [] then []
    else ItemsFor(orderId, lines[..|lines| - 1]) + [ItemFor(orderId, lines[|lines| - 1])]
  }

  /** The sum of the `subtotal` column over some order items. */
  function ItemsSubtotal(items: seq<OrderItem>): real
  {
    if items == [] then 0.0
    else ItemsSubtotal(items[..|items| - 1]) + items[|items| - 1].subtotal
  }

  /** Exactly one item per cart line, in cart order, tagged with the order id,
      copying the line's food id, quantity and price. */
  lemma {:induction false} ItemsMatchLines(orderId: int, lines: seq<CartLine>)
    ensures |ItemsFor(orderId, lines)| == |lines|
    ensures forall i :: 0 <= i < |lines| ==>
              var it := ItemsFor(orderId, lines)[i];
              && it.orderId == orderId
              && it.foodId == lines[i].id
              && it.quantity == lines[i].quantity
              && it.price == lines[i].price
              && it.subtotal == LineValue(lines[i])
  {
    if lines != [] {
      ItemsMatchLines(orderId, lines[..|lines| - 1]);
    }
  }

  /** The item subtotals add up to the cart subtotal, so to the order's. */
  lemma {:induction false} ItemsSumToSubtotal(orderId: int, lines: seq<CartLine>)
    ensures ItemsSubtotal(ItemsFor(orderId, lines)) == Subtotal(lines)
  {
    if lines != [] {
      var init := lines[..|lines| - 1];
      var items := ItemsFor(orderId, lines);
      ItemsMatchLines(orderId, init);
      assert items[..|items| - 1] == ItemsFor(orderId, init);
      ItemsSumToSubtotal(orderId, init);
    }
  }

  /** The rows of `order_items` that belong to one order, in table order
      (`WHERE order_id = ?`). */
  function ItemsOfOrder(items: seq<OrderItem>, orderId: int): seq<OrderItem>
  {
    if items == [] then []
    else ItemsOfOrder(items[..|items| - 1], orderId) +
         (if items[|items| - 1].orderId == orderId then [items[|items| - 1]] else [])
  }

  lemma {:induction false} ItemsOfOrderAppend(s: seq<OrderItem>, t: seq<OrderItem>, orderId: int)
    ensures ItemsOfOrder(s + t, orderId) == ItemsOfOrder(s, orderId) + ItemsOfOrder(t, orderId)
  {
    if t == [] {
      assert s + t == s;
    } else {
      var t' := t[..|t| - 1];
      assert (s + t)[..|s + t| - 1] == s + t';
      ItemsOfOrderAppend(s, t', orderId);
    }
  }

  /** No row tagged with the id, nothing selected. */
  lemma {:induction false} ItemsOfOrderAbsent(s: seq<OrderItem>, orderId: int)
    requires forall it :: it in s ==> it.orderId != orderId
    ensures ItemsOfOrder(s, orderId) == []
  {
    if s != [] {
      assert s[|s| - 1] in s;
      ItemsOfOrderAbsent(s[..|s| - 1], orderId);
    }
  }

  /** Every item built for an order is tagged with it. */
  lemma {:induction false} ItemsOfOwnOrder(orderId: int, lines: seq<CartLine>)
    ensures ItemsOfOrder(ItemsFor(orderId, lines), orderId) == ItemsFor(orderId, lines)
  {
    if lines != [] {
      var init := lines[..|lines| - 1];
      ItemsOfOwnOrder(orderId, init);
      ItemsOfOrderAppend(ItemsFor(orderId, init), [ItemFor(orderId, lines[|lines| - 1])], orderId);
      assert [ItemFor(orderId, lines[|lines| - 1])][..0] == [];
    }
  }

  /** Appending a cart's items under a fresh order id to the `order_items`
      table: the rows tagged with that id are exactly those items, and they
      sum to the cart subtotal. */
  lemma StoredItemsOfNewOrder(table: seq<OrderItem>, orderId: int, lines: seq<CartLine>)
    requires forall it :: it in table ==> it.orderId != orderId
    ensures ItemsOfOrder(table + ItemsFor(orderId, lines), orderId) == ItemsFor(orderId, lines)
    ensures ItemsSubtotal(ItemsOfOrder(table + ItemsFor(orderId, lines), orderId)) == Subtotal(lines)
  {
    ItemsOfOrderAppend(table, ItemsFor(orderId, lines), orderId);
    ItemsOfOrderAbsent(table, orderId);
    ItemsOfOwnOrder(orderId, lines);
    assert [] + ItemsFor(orderId, lines) == ItemsFor(orderId, lines);
    ItemsSumToSubtotal(orderId, lines);
  }

  /** The invariants of a freshly built order: fee is one tenth of the
      subtotal, the total is subtotal plus fee (eleven tenths of the cart),
      the subtotal is the sum of its items, status pending and unpaid, and
      the user id is the session user or 0. */
  lemma OrderInvariants(orderId: int, sessionUser: Option<int>, req: OrderRequest,
                        eventTime: string, lines: seq<CartLine>)
    ensures var o := OrderFor(orderId, sessionUser, req, eventTime, Subtotal(lines));
            && o.id == orderId
            && o.subtotal == Subtotal(lines)
            && o.subtotal == ItemsSubtotal(ItemsFor(orderId, lines))
            && o.serviceFee * 10.0 == o.subtotal
            && o.total == o.subtotal + o.serviceFee
            && o.total * 10.0 == ItemsSubtotal(ItemsFor(orderId, lines)) * 11.0
            && o.status == "pending" && o.paymentStatus == "unpaid"
            && o.userId == (if sessionUser.Some? then sessionUser.value else 0)
            && o.eventDate == req.eventDate && o.eventLocation == req.eventLocation
            && o.guestCount == req.guestCount && o.specialRequests == req.specialRequests
  {
    ItemsSumToSubtotal(orderId, lines);
  }

  /** The worked example: 100 x 2 and 50 x 1 give subtotal 250, fee 25 and
      total 275, with item subtotals 200 and 50. */
  lemma WorkedExample(orderId: int, sessionUser: Option<int>, req: OrderRequest, eventTime: string)
    ensures var lines := [CartLine(1, "A", 100.0, 2), CartLine(2, "B", 50.0, 1)];
            var o := OrderFor(orderId, sessionUser, req, eventTime, Subtotal(lines));
            && o.subtotal == 250.0 && o.serviceFee == 25.0 && o.total == 275.0
            && ItemsFor(orderId, lines) ==
               [OrderItem(orderId, 1, 2, 100.0, 200.0), OrderItem(orderId, 2, 1, 50.0, 50.0)]
  {
    var lines := [CartLine(1, "A", 100.0, 2), CartLine(2, "B", 50.0, 1)];
    assert lines[..1] == [lines[0]];
    assert lines[..1][..0] == [];
    assert ItemsFor(orderId, lines[..1]) == [ItemFor(orderId, lines[0])];
  }
}
