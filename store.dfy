/** The in-memory database of the server (the products and cart_items tables) and its request handlers. */
module Server {
  import opened Wrappers
  import opened Catalog
  import opened Cart
  import opened Checkout

  /** The body of a successful POST /api/cart. */
  datatype AddOutcome = AddOutcome(message: string, cartItemId: string)

  /**
   * The products table after inserting a catalogue row by row. A catalogue that repeats an id is
   * outside the model (the database rejects the second insert); this function skips such a row only
   * so that it is total, and the lemmas about seeding from getProducts assume distinct ids.
   */
  function Inserted(products: map<string, Product>, catalogue: seq<Product>): map<string, Product>
    decreases catalogue
  {
    if catalogue == [] then products
    else
      var p := catalogue[0];
      Inserted(if p.id in products then products else products[p.id := p], catalogue[1..])
  }

  /** Inserting never drops or alters a product already present, and adds exactly the catalogue's ids. */
  lemma {:induction false} InsertedKeepsExisting(products: map<string, Product>, catalogue: seq<Product>)
    ensures Inserted(products, catalogue).Keys == products.Keys + (set i | 0 <= i < |catalogue| :: catalogue[i].id)
    ensures forall id :: id in products ==> Inserted(products, catalogue)[id] == products[id]
    decreases catalogue
  {
    if catalogue != [] {
      var p := catalogue[0];
      var next := if p.id in products then products else products[p.id := p];
      InsertedKeepsExisting(next, catalogue[1..]);
      var ids := set i | 0 <= i < |catalogue| :: catalogue[i].id;
      var restIds := set i | 0 <= i < |catalogue[1..]| :: catalogue[1..][i].id;
      assert ids == {p.id} + restIds by {
        forall id | id in ids ensures id in {p.id} + restIds {
          var i :| 0 <= i < |catalogue| && catalogue[i].id == id;
          if i > 0 { assert catalogue[1..][i - 1].id == id; }
        }
      }
    }
  }

  /** A catalogue row whose id is new and not repeated earlier in the catalogue is stored as given. */
  lemma {:induction false} InsertedStoresRow(products: map<string, Product>, catalogue: seq<Product>, k: nat)
    requires k < |catalogue| && catalogue[k].id !in products
    requires forall j :: 0 <= j < k ==> catalogue[j].id != catalogue[k].id
    ensures catalogue[k].id in Inserted(products, catalogue)
    ensures Inserted(products, catalogue)[catalogue[k].id] == catalogue[k]
    decreases catalogue
  {
    var p := catalogue[0];
    var next := if p.id in products then products else products[p.id := p];
    if k == 0 {
      InsertedKeepsExisting(next, catalogue[1..]);
    } else {
      InsertedStoresRow(next, catalogue[1..], k - 1);
    }
  }

  /** Seeding an empty table with a catalogue of distinct ids stores exactly that catalogue. */
  lemma SeedFromEmpty(catalogue: seq<Product>)
    requires DistinctIds(catalogue)
    ensures Inserted(map[], catalogue).Keys == set i | 0 <= i < |catalogue| :: catalogue[i].id
    ensures forall k :: 0 <= k < |catalogue| ==> Inserted(map[], catalogue)[catalogue[k].id] == catalogue[k]
  {
    InsertedKeepsExisting(map[], catalogue);
    forall k | 0 <= k < |catalogue| ensures Inserted(map[], catalogue)[catalogue[k].id] == catalogue[k] {
      InsertedStoresRow(map[], catalogue, k);
    }
  }

  /** At start-up the products table receives every catalogue product as given, fetched or fallback. */
  lemma SeedGetProducts(f: Fetch)
    requires f.Fetched? ==> forall i, j :: 0 <= i < j < |f.data| && j < MaxFetched ==> f.data[i].id != f.data[j].id
    ensures var c := GetProducts(f);
      forall k :: 0 <= k < |c| ==> c[k].id in Inserted(map[], c) && Inserted(map[], c)[c[k].id] == c[k]
  {
    if f.Fetched? {
      NormalizeDistinctIds(f.data);
    }
    SeedFromEmpty(GetProducts(f));
  }

  /** The database: the products table by id and the cart_items table in insertion order. */
  class Store {
    var products: map<string, Product>
    var lines: seq<CartLine>

    /** Ids are unique, each product has at most one line, and every line's product exists. */
    ghost predicate Valid()
      reads this
    {
      Consistent(lines, products)
    }

    /** Both tables start empty. */
    constructor ()
      ensures Valid() && products == map[] && lines == []
    {
      products := map[];
      lines := [];
    }

    /** The start-up insert loop over the catalogue (`products.forEach(... stmt.run(...))`). */
    method Seed(catalogue: seq<Product>)
      requires Valid()
      modifies this
      ensures Valid() && lines == old(lines)
      ensures products == Inserted(old(products), catalogue)
    {
      var i := 0;
      while i < |catalogue|
        invariant 0 <= i <= |catalogue|
        invariant lines == old(lines)
        invariant old(products).Keys <= products.Keys
        invariant Inserted(products, catalogue[i..]) == Inserted(old(products), catalogue)
      {
        var p := catalogue[i];
        assert catalogue[i..][1..] == catalogue[i + 1..];
        if p.id !in products {
          products := products[p.id := p];
        }
        i := i + 1;
      }
    }

    /** POST /api/cart: add a quantity of a product, merging into the product's line if it has one. */
    method AddToCart(productId: Option<string>, quantity: Option<int>, now: string) returns (r: Response<AddOutcome>)
      requires Valid()
      modifies this
      ensures Valid() && products == old(products)
      ensures !PresentString(productId) || !PresentNumber(quantity) ==>
        r == BadRequest(NeedProductAndQuantity) && lines == old(lines)
      ensures PresentString(productId) && PresentNumber(quantity) && productId.value !in products ==>
        r == NotFound(ProductNotFound) && lines == old(lines)
      ensures r.Ok? <==> PresentString(productId) && PresentNumber(quantity) && productId.value in products
      ensures r.Ok? && FindByProduct(old(lines), productId.value).Some? ==>
        var k := FindByProduct(old(lines), productId.value).value;
        && r.body == AddOutcome(CartUpdated, old(lines)[k].id)
        && lines == old(lines)[k := old(lines)[k].(quantity := old(lines)[k].quantity + quantity.value)]
      ensures r.Ok? && FindByProduct(old(lines), productId.value).None? ==>
        && r.body.message == ItemAdded
        && r.body.cartItemId !in Ids(old(lines))
        && lines == old(lines) + [CartLine(r.body.cartItemId, productId.value, quantity.value, now)]
      ensures r.Ok? ==>
        && CartValue(lines, products) == old(CartValue(lines, products)) + quantity.value * products[productId.value].price
        && CartQuantity(lines, products) == old(CartQuantity(lines, products)) + quantity.value
    {
      if !PresentString(productId) || !PresentNumber(quantity) {
        return BadRequest(NeedProductAndQuantity);
      }
      var pid, q := productId.value, quantity.value;
      if pid !in products {
        return NotFound(ProductNotFound);
      }
      var existing := FindByProduct(lines, pid);
      if existing.Some? {
        var k := existing.value;
        var line := lines[k];
        SetQuantityOnlyLine(lines, k, line.quantity + q);
        UpdateValue(lines, products, k, line.quantity + q);
        lines := SetQuantity(lines, pid, line.quantity + q);
        r := Ok(AddOutcome(CartUpdated, line.id));
      } else {
        FreshIdExists(Ids(lines));
        var cartItemId :| cartItemId !in Ids(lines);
        var line := CartLine(cartItemId, pid, q, now);
        InsertKeepsConsistent(lines, products, line);
        InsertValue(lines, products, line);
        lines := lines + [line];
        r := Ok(AddOutcome(ItemAdded, cartItemId));
      }
    }

    /** DELETE /api/cart/:id: delete the line with that id, if any; always succeeds. */
    method RemoveFromCart(id: string) returns (r: Response<string>)
      requires Valid()
      modifies this
      ensures Valid() && products == old(products)
      ensures r == Ok(ItemRemoved)
      ensures lines == RemoveLine(old(lines), id)
      ensures id !in Ids(old(lines)) ==> lines == old(lines)
      ensures forall k :: 0 <= k < |old(lines)| && old(lines)[k].id == id ==>
        && lines == old(lines)[..k] + old(lines)[k + 1..]
        && CartValue(lines, products) == old(CartValue(lines, products)) - old(LineValue(lines[k], products))
    {
      RemoveKeepsConsistent(lines, products, id);
      if id !in Ids(lines) {
        RemoveLineAbsent(lines, id);
      } else {
        var k :| 0 <= k < |lines| && lines[k].id == id;
        RemoveLineExact(lines, k);
        RemoveValue(lines, products, k);
      }
      lines := RemoveLine(lines, id);
      r := Ok(ItemRemoved);
    }

    /** GET /api/cart: the joined rows with the total value and the item count. */
    function GetCart(): (r: CartSummary)
      reads this
      ensures r.total == CartValue(lines, products)
      ensures r.itemCount == CartQuantity(lines, products)
      ensures KnownProducts(lines, products) ==>
        |r.items| == |lines| &&
        forall i :: 0 <= i < |lines| ==> r.items[i] == RowOf(lines[i], products[lines[i].productId])
      ensures lines == [] ==> r == CartSummary([], 0, 0)
    {
      var rows := Join(lines, products);
      JoinFolds(lines, products);
      CartSummary(rows, Total(rows), ItemCount(rows))
    }

    /** POST /api/checkout: answer from the submitted items alone, and on success empty the whole cart. */
    method Checkout(cartItems: Option<seq<CartRow>>, customerInfo: Option<CustomerInfo>, orderId: string, now: string)
      returns (r: Response<Receipt>)
      requires Valid()
      modifies this
      ensures Valid() && products == old(products)
      ensures r == PlaceOrder(cartItems, customerInfo, orderId, now)
      ensures lines == if r.Ok? then [] else old(lines)
      ensures r.Ok? ==> GetCart() == CartSummary([], 0, 0)
    {
      r := PlaceOrder(cartItems, customerInfo, orderId, now);
      if r.Ok? {
        lines := [];
      }
    }
  }

  /** Adding 2 and then 3 of one product leaves one line of quantity 5, priced at 5 * price. */
  method AddTwiceExample(p: Product)
    requires p.id != ""
  {
    var store := new Store();
    store.Seed([p]);
    InsertedStoresRow(map[], [p], 0);
    var first := store.AddToCart(Some(p.id), Some(2), "t0");
    assert first.Ok? && |store.lines| == 1;
    var second := store.AddToCart(Some(p.id), Some(3), "t1");
    assert second == Ok(AddOutcome(CartUpdated, first.body.cartItemId));
    var cart := store.GetCart();
    assert |cart.items| == 1 && cart.items[0].quantity == 5 && cart.items[0].itemTotal == 5 * p.price;
    assert cart.itemCount == 5;
  }
}
