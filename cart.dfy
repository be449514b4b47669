/**
 * The session shopping cart of the storefront (index.php:34-37, 89-116):
 * an insertion-ordered table from food id to a cart line holding a snapshot
 * of the food's name and unit price and a quantity.
 *
 * This module holds the value-level specification: the cart as a sequence
 * of lines in iteration order, what "add to cart" and "remove from cart" do
 * to it, and the two sums shown to the visitor (the nav badge and the cart
 * total). The session object that updates the cart in place is in
 * module Session.
 */
module Cart {
  import opened Wrappers

  /** A row of the `food_items` table, as far as the cart reads it. */
  datatype Food = Food(id: int, categoryId: int, name: string, description: string,
                       price: real, available: bool)

  /** One entry of the session cart: the food id, the name and price copied
      at add time, and how many portions were added. */
  datatype CartLine = CartLine(id: int, name: string, price: real, quantity: nat)

  /** The catalog stands for `SELECT * FROM food_items WHERE id = ?`: the row
      found under key k is the row whose id is k. */
  ghost predicate CatalogKeyed(catalog: map<int, Food>)
  {
    forall k :: k in catalog ==> catalog[k].id == k
  }

  /** The cart is keyed by food id, so no two lines share an id. */
  ghost predicate DistinctIds(lines: seq<CartLine>)
  {
    forall i, j :: 0 <= i < j < |lines| ==> lines[i].id != lines[j].id
  }

  /** The invariant of a session cart: distinct ids, every quantity at least 1. */
  ghost predicate ValidLines(lines: seq<CartLine>)
  {
    && DistinctIds(lines)
    && forall i :: 0 <= i < |lines| ==> lines[i].quantity >= 1
  }

  /** `isset($_SESSION['cart'][$id])`. */
  ghost predicate InCart(lines: seq<CartLine>, id: int)
  {
    exists i :: 0 <= i < |lines| && lines[i].id == id
  }

  /** Position of the line for `id`, if there is one. */
  function IndexOf(lines: seq<CartLine>, id: int): (r: Option<nat>)
    ensures r.Some? ==> r.value < |lines| && lines[r.value].id == id
    ensures r.Some? ==> forall i :: 0 <= i < r.value ==> lines[i].id != id
    ensures r.None? <==> !InCart(lines, id)
  {
    if lines == [] then None
    else if lines[0].id == id then Some(0)
    else match IndexOf(lines[1..], id)
      case None => None
      case Some(k) => Some(k + 1)
  }

  /** The line a catalog row becomes when it is first added: quantity 1 and
      a snapshot of the row's id, name and price. */
  function NewLine(food: Food): (l: CartLine)
    ensures l.quantity == 1
    ensures l.id == food.id && l.name == food.name && l.price == food.price
  {
    CartLine(food.id, food.name, food.price, 1)
  }

  /** The cart after "add to cart" of `id` (index.php:90-107). */
  function Added(lines: seq<CartLine>, catalog: map<int, Food>, id: int): (r: seq<CartLine>)
    // an id the catalog does not know leaves the cart exactly as it was
    ensures id !in catalog ==> r == lines
    // an id already in the cart bumps that line's quantity by one; its
    // snapshot and every other line stay, in the same order
    ensures id in catalog && InCart(lines, id) && DistinctIds(lines) ==>
              |r| == |lines| &&
              forall i :: 0 <= i < |lines| ==>
                r[i] == if lines[i].id == id then lines[i].(quantity := lines[i].quantity + 1)
                        else lines[i]
    // a new catalog id becomes one fresh line, last in iteration order
    ensures id in catalog && !InCart(lines, id) ==>
              |r| == |lines| + 1 && r[..|lines|] == lines &&
              r[|lines|] == CartLine(catalog[id].id, catalog[id].name, catalog[id].price, 1)
  {
    if id !in catalog then lines
    else match IndexOf(lines, id)
      case Some(k) => lines[k := lines[k].(quantity := lines[k].quantity + 1)]
      case None => lines + [NewLine(catalog[id])]
  }

  /** The cart after "remove from cart" of `id` (index.php:112-116). */
  function Removed(lines: seq<CartLine>, id: int): (r: seq<CartLine>)
    // removing an id that is not in the cart changes nothing
    ensures !InCart(lines, id) ==> r == lines
    // otherwise exactly its line is taken out and the rest keep their order
    ensures InCart(lines, id) ==>
              exists k :: 0 <= k < |lines| && lines[k].id == id && r == lines[..k] + lines[k + 1..]
    ensures DistinctIds(lines) ==> !InCart(r, id)
  {
    match IndexOf(lines, id)
    case None => lines
    case Some(k) =>
      var r := lines[..k] + lines[k + 1..];
      assert forall i :: 0 <= i < |r| ==> r[i] == lines[if i < k then i else i + 1];
      r
  }

  /** The nav badge, `array_sum(array_column($_SESSION['cart'], 'quantity'))`
      (index.php:172), summed in iteration order. */
  function TotalQuantity(lines: seq<CartLine>): nat
  {
    if lines == [] then 0
    else TotalQuantity(lines[..|lines| - 1]) + lines[|lines| - 1].quantity
  }

  /** The value of a line, price times quantity. */
  function LineValue(l: CartLine): real
  {
    l.price * l.quantity as real
  }

  /** The cart total, the sum of price times quantity over the lines
      (index.php:60-63 and 301-304); 0 for an empty cart. */
  function Subtotal(lines: seq<CartLine>): real
  {
    if lines == [] then 0.0
    else Subtotal(lines[..|lines| - 1]) + LineValue(lines[|lines| - 1])
  }

  // ---------------------------------------------------------------------
  // Sums over concatenations, the tool for the lemmas below
  // ---------------------------------------------------------------------

  lemma {:induction false} TotalQuantityAppend(s: seq<CartLine>, t: seq<CartLine>)
    ensures TotalQuantity(s + t) == TotalQuantity(s) + TotalQuantity(t)
  {
    if t == [] {
      assert s + t == s;
    } else {
      var t' := t[..|t| - 1];
      assert (s + t)[..|s + t| - 1] == s + t';
      TotalQuantityAppend(s, t');
    }
  }

  lemma {:induction false} SubtotalAppend(s: seq<CartLine>, t: seq<CartLine>)
    ensures Subtotal(s + t) == Subtotal(s) + Subtotal(t)
  {
    if t == [] {
      assert s + t == s;
    } else {
      var t' := t[..|t| - 1];
      assert (s + t)[..|s + t| - 1] == s + t';
      SubtotalAppend(s, t');
    }
  }

  /** A one-line cart sums to that line. */
  lemma SingletonSums(l: CartLine)
    ensures TotalQuantity([l]) == l.quantity
    ensures Subtotal([l]) == LineValue(l)
  {
    assert [l][..0] == [];
  }

  /** Both sums, split around position k. */
  lemma SplitAt(s: seq<CartLine>, k: nat)
    requires k < |s|
    ensures TotalQuantity(s) == TotalQuantity(s[..k]) + s[k].quantity + TotalQuantity(s[k + 1..])
    ensures Subtotal(s) == Subtotal(s[..k]) + LineValue(s[k]) + Subtotal(s[k + 1..])
  {
    assert s == s[..k] + [s[k]] + s[k + 1..];
    TotalQuantityAppend(s[..k] + [s[k]], s[k + 1..]);
    TotalQuantityAppend(s[..k], [s[k]]);
    SubtotalAppend(s[..k] + [s[k]], s[k + 1..]);
    SubtotalAppend(s[..k], [s[k]]);
    SingletonSums(s[k]);
  }

  // ---------------------------------------------------------------------
  // Properties of add and remove
  // ---------------------------------------------------------------------

  /** Add to cart keeps the cart invariant. */
  lemma AddPreservesValid(lines: seq<CartLine>, catalog: map<int, Food>, id: int)
    requires ValidLines(lines) && CatalogKeyed(catalog)
    ensures ValidLines(Added(lines, catalog, id))
  {
    var r := Added(lines, catalog, id);
    if id in catalog && !InCart(lines, id) {
      forall i, j | 0 <= i < j < |r| ensures r[i].id != r[j].id {
        if j == |lines| {
          assert r[i] == lines[i];
        } else {
          assert r[i] == lines[i] && r[j] == lines[j];
        }
      }
    }
  }

  /** Remove from cart keeps the cart invariant. */
  lemma RemovePreservesValid(lines: seq<CartLine>, id: int)
    requires ValidLines(lines)
    ensures ValidLines(Removed(lines, id))
  {
    match IndexOf(lines, id)
    case None =>
    case Some(k) => DeleteKeepsValid(lines, k);
  }

  /** Deleting any one line keeps the cart invariant. */
  lemma DeleteKeepsValid(lines: seq<CartLine>, k: nat)
    requires ValidLines(lines) && k < |lines|
    ensures ValidLines(lines[..k] + lines[k + 1..])
  {
    var r := lines[..k] + lines[k + 1..];
    forall i, j | 0 <= i < j < |r| ensures r[i].id != r[j].id {
      var i', j' := if i < k then i else i + 1, if j < k then j else j + 1;
      assert r[i] == lines[i'] && r[j] == lines[j'] && i' < j';
    }
    forall i | 0 <= i < |r| ensures r[i].quantity >= 1 {
      assert r[i] == lines[if i < k then i else i + 1];
    }
  }

  /** One more portion of line k: the badge grows by one and the total by
      that line's price snapshot. */
  lemma BumpSums(lines: seq<CartLine>, k: nat)
    requires k < |lines|
    ensures TotalQuantity(lines[k := lines[k].(quantity := lines[k].quantity + 1)]) ==
            TotalQuantity(lines) + 1
    ensures Subtotal(lines[k := lines[k].(quantity := lines[k].quantity + 1)]) ==
            Subtotal(lines) + lines[k].price
  {
    var r := lines[k := lines[k].(quantity := lines[k].quantity + 1)];
    SplitAt(lines, k);
    SplitAt(r, k);
    assert r[..k] == lines[..k] && r[k + 1..] == lines[k + 1..];
    BumpedValue(lines[k]);
  }

  /** One more portion adds one unit price to the line's value. */
  lemma BumpedValue(l: CartLine)
    ensures LineValue(l.(quantity := l.quantity + 1)) == LineValue(l) + l.price
  {
    var q := l.quantity as real;
    assert (l.quantity + 1) as real == q + 1.0;
    assert l.price * (q + 1.0) == l.price * q + l.price;
  }

  /** A successful add raises the badge by exactly one; an unknown id leaves it. */
  lemma AddRaisesBadge(lines: seq<CartLine>, catalog: map<int, Food>, id: int)
    ensures TotalQuantity(Added(lines, catalog, id)) ==
            TotalQuantity(lines) + (if id in catalog then 1 else 0)
  {
    if id in catalog {
      match IndexOf(lines, id)
      case Some(k) =>
        assert Added(lines, catalog, id) == lines[k := lines[k].(quantity := lines[k].quantity + 1)];
        BumpSums(lines, k);
      case None =>
        assert Added(lines, catalog, id) == lines + [NewLine(catalog[id])];
        TotalQuantityAppend(lines, [NewLine(catalog[id])]);
        SingletonSums(NewLine(catalog[id]));
    }
  }

  /** What an add does to the cart total: nothing for an unknown id, the
      line's own price snapshot for an id already in the cart, and the
      catalog's current price for a new one. */
  lemma AddRaisesSubtotal(lines: seq<CartLine>, catalog: map<int, Food>, id: int)
    requires DistinctIds(lines)
    ensures id !in catalog ==> Subtotal(Added(lines, catalog, id)) == Subtotal(lines)
    ensures id in catalog && !InCart(lines, id) ==>
              Subtotal(Added(lines, catalog, id)) == Subtotal(lines) + catalog[id].price
    ensures forall k :: 0 <= k < |lines| && lines[k].id == id && id in catalog ==>
              Subtotal(Added(lines, catalog, id)) == Subtotal(lines) + lines[k].price
  {
    if id in catalog {
      match IndexOf(lines, id)
      case Some(k) =>
        assert Added(lines, catalog, id) == lines[k := lines[k].(quantity := lines[k].quantity + 1)];
        BumpSums(lines, k);
        assert forall j :: 0 <= j < |lines| && lines[j].id == id ==> j == k;
      case None =>
        SubtotalAppend(lines, [NewLine(catalog[id])]);
        SingletonSums(NewLine(catalog[id]));
    }
  }

  /** Removing an id lowers the badge by that line's quantity, and by
      nothing when the id is not in the cart. */
  lemma RemoveLowersBadge(lines: seq<CartLine>, id: int)
    ensures !InCart(lines, id) ==> TotalQuantity(Removed(lines, id)) == TotalQuantity(lines)
    ensures forall k :: 0 <= k < |lines| && lines[k].id == id && DistinctIds(lines) ==>
              TotalQuantity(Removed(lines, id)) + lines[k].quantity == TotalQuantity(lines)
  {
    match IndexOf(lines, id)
    case None =>
    case Some(k) =>
      SplitAt(lines, k);
      TotalQuantityAppend(lines[..k], lines[k + 1..]);
  }

  /** Adding the same new food twice gives one line of quantity 2, not two lines. */
  lemma AddTwiceIsOneLine(lines: seq<CartLine>, catalog: map<int, Food>, id: int)
    requires DistinctIds(lines) && CatalogKeyed(catalog)
    requires id in catalog && !InCart(lines, id)
    ensures Added(Added(lines, catalog, id), catalog, id) ==
            lines + [CartLine(id, catalog[id].name, catalog[id].price, 2)]
  {
    var once := Added(lines, catalog, id);
    assert once == lines + [NewLine(catalog[id])];
    assert IndexOf(once, id) == Some(|lines|);
  }
}
