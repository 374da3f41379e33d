/** The cart_items table as a sequence of lines in insertion order, and the pure parts of the cart handlers. */
module Cart {
  import opened Wrappers
  import opened Catalog

  /** A row of cart_items. `addedAt` is the opaque timestamp of the insert. */
  datatype CartLine = CartLine(id: string, productId: string, quantity: int, addedAt: string)

  /** A row of the cart query: the line joined with its product, and quantity * price. */
  datatype CartRow = CartRow(id: string, quantity: int, productId: string, name: string, price: int, image: string, itemTotal: int)

  /** The body of GET /api/cart. */
  datatype CartSummary = CartSummary(items: seq<CartRow>, total: int, itemCount: int)

  function Ids(lines: seq<CartLine>): set<string>
  {
    set i | 0 <= i < |lines| :: lines[i].id
  }

  /** The primary key of cart_items. */
  predicate UniqueIds(lines: seq<CartLine>)
  {
    forall i, j :: 0 <= i < j < |lines| ==> lines[i].id != lines[j].id
  }

  /** At most one line per product. */
  predicate OneLinePerProduct(lines: seq<CartLine>)
  {
    forall i, j :: 0 <= i < j < |lines| ==> lines[i].productId != lines[j].productId
  }

  /** Every line refers to a product of the catalogue. */
  predicate KnownProducts(lines: seq<CartLine>, products: map<string, Product>)
  {
    forall i :: 0 <= i < |lines| ==> lines[i].productId in products
  }

  /** The invariant of the two tables that every handler keeps. */
  predicate Consistent(lines: seq<CartLine>, products: map<string, Product>)
  {
    UniqueIds(lines) && OneLinePerProduct(lines) && KnownProducts(lines, products)
  }

  // ---------------------------------------------------------------------------
  // Lookup and update keyed by product (POST /api/cart)

  /** `SELECT * FROM cart_items WHERE product_id = ?`: the first line of that product, if any. */
  function FindByProduct(lines: seq<CartLine>, productId: string): (r: Option<nat>)
    ensures r.Some? ==> r.value < |lines| && lines[r.value].productId == productId
    ensures r.Some? ==> forall k :: 0 <= k < r.value ==> lines[k].productId != productId
    ensures r.None? <==> forall k :: 0 <= k < |lines| ==> lines[k].productId != productId
  {
    if lines == [] then None
    else if lines[0].productId == productId then Some(0)
    else
      match FindByProduct(lines[1..], productId)
      case None => None
      case Some(k) => Some(k + 1)
  }

  /** `UPDATE cart_items SET quantity = ? WHERE product_id = ?`: every line of that product gets the quantity. */
  function SetQuantity(lines: seq<CartLine>, productId: string, quantity: int): seq<CartLine>
  {
    if lines == [] then []
    else
      var head := if lines[0].productId == productId then lines[0].(quantity := quantity) else lines[0];
      [head] + SetQuantity(lines[1..], productId, quantity)
  }

  /** With one line per product, the update keyed by product changes exactly the line found, and only its quantity. */
  lemma {:induction false} SetQuantityOnlyLine(lines: seq<CartLine>, k: nat, quantity: int)
    requires OneLinePerProduct(lines) && k < |lines|
    ensures SetQuantity(lines, lines[k].productId, quantity) == lines[k := lines[k].(quantity := quantity)]
  {
    var pid := lines[k].productId;
    if k == 0 {
      SetQuantityAbsent(lines[1..], pid, quantity);
    } else {
      SetQuantityOnlyLine(lines[1..], k - 1, quantity);
      assert lines[1..][k - 1 := lines[k].(quantity := quantity)] == lines[k := lines[k].(quantity := quantity)][1..];
    }
  }

  /** The update keyed by a product with no line changes nothing. */
  lemma {:induction false} SetQuantityAbsent(lines: seq<CartLine>, productId: string, quantity: int)
    requires forall i :: 0 <= i < |lines| ==> lines[i].productId != productId
    ensures SetQuantity(lines, productId, quantity) == lines
  {
    if lines != [] {
      SetQuantityAbsent(lines[1..], productId, quantity);
    }
  }

  // ---------------------------------------------------------------------------
  // Fresh ids (uuidv4)

  ghost function MaxLength(ids: set<string>): (m: nat)
    ensures forall s :: s in ids ==> |s| <= m
    decreases |ids|
  {
    if ids == {} then 0
    else
      var s :| s in ids;
      var m := MaxLength(ids - {s});
      if |s| > m then |s| else m
  }

  /** A finite table always leaves some id unused, so the choice of a fresh cart-item id can be made. */
  lemma FreshIdExists(ids: set<string>)
    ensures exists s :: s !in ids
  {
    var long := seq(MaxLength(ids) + 1, _ => 'x');
    assert long !in ids;
  }

  /** Appending a line with a fresh id for a product that is known and has no line keeps the invariant. */
  lemma InsertKeepsConsistent(lines: seq<CartLine>, products: map<string, Product>, line: CartLine)
    requires Consistent(lines, products)
    requires line.id !in Ids(lines) && line.productId in products
    requires FindByProduct(lines, line.productId).None?
    ensures Consistent(lines + [line], products)
  {
  }

  // ---------------------------------------------------------------------------
  // DELETE /api/cart/:id

  /** `DELETE FROM cart_items WHERE id = ?`: the lines whose id differs, in their order. */
  function RemoveLine(lines: seq<CartLine>, id: string): (r: seq<CartLine>)
    ensures |r| <= |lines|
    ensures forall l :: l in r <==> l in lines && l.id != id
  {
    if lines == [] then []
    else if lines[0].id == id then RemoveLine(lines[1..], id)
    else [lines[0]] + RemoveLine(lines[1..], id)
  }

  /** Deleting an id that no line has is a no-op. */
  lemma {:induction false} RemoveLineAbsent(lines: seq<CartLine>, id: string)
    requires id !in Ids(lines)
    ensures RemoveLine(lines, id) == lines
  {
    if lines != [] {
      assert lines[0].id in Ids(lines);
      assert Ids(lines[1..]) <= Ids(lines) by {
        forall i | 0 <= i < |lines[1..]| ensures lines[1..][i].id in Ids(lines) {
          assert lines[1..][i] == lines[i + 1];
        }
      }
      RemoveLineAbsent(lines[1..], id);
    }
  }

  /** Deleting twice is deleting once. */
  lemma RemoveLineIdempotent(lines: seq<CartLine>, id: string)
    ensures RemoveLine(RemoveLine(lines, id), id) == RemoveLine(lines, id)
  {
  }

  /** With unique ids, deleting the id of line k removes exactly line k. */
  lemma {:induction false} RemoveLineExact(lines: seq<CartLine>, k: nat)
    requires UniqueIds(lines) && k < |lines|
    ensures RemoveLine(lines, lines[k].id) == lines[..k] + lines[k + 1..]
  {
    var id := lines[k].id;
    if k == 0 {
      assert id !in Ids(lines[1..]);
      RemoveLineAbsent(lines[1..], id);
    } else {
      RemoveLineExact(lines[1..], k - 1);
      assert lines[1..][..k - 1] + lines[1..][k..] == (lines[..k] + lines[k + 1..])[1..];
    }
  }

  /** Deleting a line keeps the invariant. */
  lemma RemoveKeepsConsistent(lines: seq<CartLine>, products: map<string, Product>, id: string)
    requires Consistent(lines, products)
    ensures Consistent(RemoveLine(lines, id), products)
  {
  }

  // ---------------------------------------------------------------------------
  // GET /api/cart

  /** One joined row: the line's id and quantity, the product's fields, and quantity * price. */
  function RowOf(line: CartLine, p: Product): CartRow
  {
    CartRow(line.id, line.quantity, p.id, p.name, p.price, p.image, line.quantity * p.price)
  }

  /** `cart_items JOIN products ON ci.product_id = p.id`, in line order; lines without a product drop out. */
  function Join(lines: seq<CartLine>, products: map<string, Product>): (rows: seq<CartRow>)
    ensures |rows| <= |lines|
    ensures KnownProducts(lines, products) ==>
      |rows| == |lines| &&
      forall i :: 0 <= i < |rows| ==> rows[i] == RowOf(lines[i], products[lines[i].productId])
  {
    if lines == [] then []
    else
      var rest := Join(lines[1..], products);
      if lines[0].productId in products then [RowOf(lines[0], products[lines[0].productId])] + rest else rest
  }

  /** `rows.reduce((sum, item) => sum + item.item_total, 0)`. */
  function Total(rows: seq<CartRow>): int
  {
    if rows == [] then 0 else Total(rows[..|rows| - 1]) + rows[|rows| - 1].itemTotal
  }

  /** `rows.reduce((count, item) => count + item.quantity, 0)`. */
  function ItemCount(rows: seq<CartRow>): int
  {
    if rows == [] then 0 else ItemCount(rows[..|rows| - 1]) + rows[|rows| - 1].quantity
  }

  /** What one line adds to the cart value: quantity * price, or nothing when its product is missing. */
  function LineValue(l: CartLine, products: map<string, Product>): int
  {
    if l.productId in products then l.quantity * products[l.productId].price else 0
  }

  /** What one line adds to the item count. */
  function LineQuantity(l: CartLine, products: map<string, Product>): int
  {
    if l.productId in products then l.quantity else 0
  }

  /** Sum of quantity * price over the lines whose product exists: the value of the cart. */
  function CartValue(lines: seq<CartLine>, products: map<string, Product>): int
  {
    if lines == [] then 0 else LineValue(lines[0], products) + CartValue(lines[1..], products)
  }

  /** Sum of the quantities of the lines whose product exists. */
  function CartQuantity(lines: seq<CartLine>, products: map<string, Product>): int
  {
    if lines == [] then 0 else LineQuantity(lines[0], products) + CartQuantity(lines[1..], products)
  }

  lemma {:induction false} TotalAppend(a: seq<CartRow>, b: seq<CartRow>)
    ensures Total(a + b) == Total(a) + Total(b)
    ensures ItemCount(a + b) == ItemCount(a) + ItemCount(b)
    decreases |b|
  {
    if b != [] {
      var n := |b| - 1;
      assert (a + b)[..|a + b| - 1] == a + b[..n];
      TotalAppend(a, b[..n]);
    } else {
      assert a + b == a;
    }
  }

  /** The two folds over the joined rows equal the value and the quantity of the cart. */
  lemma {:induction false} JoinFolds(lines: seq<CartLine>, products: map<string, Product>)
    ensures Total(Join(lines, products)) == CartValue(lines, products)
    ensures ItemCount(Join(lines, products)) == CartQuantity(lines, products)
  {
    if lines != [] {
      JoinFolds(lines[1..], products);
      var rest := Join(lines[1..], products);
      if lines[0].productId in products {
        var row := RowOf(lines[0], products[lines[0].productId]);
        TotalAppend([row], rest);
        assert Total([row]) == row.itemTotal by { assert [row][..0] == []; }
        assert ItemCount([row]) == row.quantity by { assert [row][..0] == []; }
      }
    }
  }

  lemma {:induction false} CartValueAppend(a: seq<CartLine>, b: seq<CartLine>, products: map<string, Product>)
    ensures CartValue(a + b, products) == CartValue(a, products) + CartValue(b, products)
    ensures CartQuantity(a + b, products) == CartQuantity(a, products) + CartQuantity(b, products)
  {
    if a != [] {
      assert (a + b)[1..] == a[1..] + b;
      CartValueAppend(a[1..], b, products);
    } else {
      assert a + b == b;
    }
  }

  /** The value and the count of a cart split around line k. */
  lemma SplitAt(lines: seq<CartLine>, products: map<string, Product>, k: nat)
    requires k < |lines|
    ensures CartValue(lines, products)
        == CartValue(lines[..k], products) + LineValue(lines[k], products) + CartValue(lines[k + 1..], products)
    ensures CartQuantity(lines, products)
        == CartQuantity(lines[..k], products) + LineQuantity(lines[k], products) + CartQuantity(lines[k + 1..], products)
  {
    assert lines == lines[..k] + ([lines[k]] + lines[k + 1..]);
    CartValueAppend(lines[..k], [lines[k]] + lines[k + 1..], products);
    assert ([lines[k]] + lines[k + 1..])[1..] == lines[k + 1..];
  }

  /** Adding a new line of quantity q raises the cart value by q * price and the item count by q. */
  lemma InsertValue(lines: seq<CartLine>, products: map<string, Product>, line: CartLine)
    requires line.productId in products
    ensures CartValue(lines + [line], products) == CartValue(lines, products) + line.quantity * products[line.productId].price
    ensures CartQuantity(lines + [line], products) == CartQuantity(lines, products) + line.quantity
  {
    CartValueAppend(lines, [line], products);
  }

  /** Replacing line k by one of the same product with quantity q changes the value by (q - old) * price. */
  lemma UpdateValue(lines: seq<CartLine>, products: map<string, Product>, k: nat, quantity: int)
    requires k < |lines| && lines[k].productId in products
    ensures var price := products[lines[k].productId].price;
      CartValue(lines[k := lines[k].(quantity := quantity)], products)
        == CartValue(lines, products) + (quantity - lines[k].quantity) * price
    ensures CartQuantity(lines[k := lines[k].(quantity := quantity)], products)
        == CartQuantity(lines, products) + quantity - lines[k].quantity
  {
    var updated := lines[k := lines[k].(quantity := quantity)];
    SplitAt(lines, products, k);
    SplitAt(updated, products, k);
    assert updated[..k] == lines[..k] && updated[k + 1..] == lines[k + 1..];
    var price := products[lines[k].productId].price;
    assert (quantity - lines[k].quantity) * price == quantity * price - lines[k].quantity * price;
  }

  /** Deleting line k lowers the value by that line's quantity * price and the item count by its quantity. */
  lemma RemoveValue(lines: seq<CartLine>, products: map<string, Product>, k: nat)
    requires UniqueIds(lines) && k < |lines| && lines[k].productId in products
    ensures CartValue(RemoveLine(lines, lines[k].id), products)
        == CartValue(lines, products) - lines[k].quantity * products[lines[k].productId].price
    ensures CartQuantity(RemoveLine(lines, lines[k].id), products)
        == CartQuantity(lines, products) - lines[k].quantity
  {
    RemoveLineExact(lines, k);
    SplitAt(lines, products, k);
    CartValueAppend(lines[..k], lines[k + 1..], products);
  }
}
