/** POST /api/checkout without its effect on the store: validation, the total and the receipt. */
module Checkout {
  import opened Wrappers
  import opened Catalog
  import opened Cart

  /** The customerInfo object as submitted; either field may be absent. */
  datatype CustomerInfo = CustomerInfo(name: Option<string>, email: Option<string>)

  /** The receipt returned on success; `orderId` and `timestamp` are generated outside the model. */
  datatype Receipt = Receipt(orderId: string, customer: CustomerInfo, items: seq<CartRow>, total: int, timestamp: string)

  /** `cartItems.reduce((sum, item) => sum + (item.price * item.quantity), 0)`, over the submitted items. */
  function OrderTotal(items: seq<CartRow>): int
  {
    if items == [] then 0
    else OrderTotal(items[..|items| - 1]) + items[|items| - 1].price * items[|items| - 1].quantity
  }

  /** `cartItems && cartItems.length`: a list was sent and it is not empty. */
  predicate ItemsSubmitted(cartItems: Option<seq<CartRow>>)
  {
    cartItems.Some? && |cartItems.value| > 0
  }

  /** `customerInfo && customerInfo.name && customerInfo.email`. */
  predicate CustomerComplete(customerInfo: Option<CustomerInfo>)
  {
    customerInfo.Some? && PresentString(customerInfo.value.name) && PresentString(customerInfo.value.email)
  }

  /** The response of POST /api/checkout for the given body, order id and clock reading. */
  function PlaceOrder(cartItems: Option<seq<CartRow>>, customerInfo: Option<CustomerInfo>, orderId: string, now: string)
    : (r: Response<Receipt>)
    ensures !ItemsSubmitted(cartItems) ==> r == BadRequest(CartEmpty)
    ensures ItemsSubmitted(cartItems) && !CustomerComplete(customerInfo) ==> r == BadRequest(NeedNameAndEmail)
    ensures r.Ok? <==> ItemsSubmitted(cartItems) && CustomerComplete(customerInfo)
    ensures r.Ok? ==>
      && r.body.customer == customerInfo.value
      && r.body.items == cartItems.value
      && r.body.total == OrderTotal(cartItems.value)
      && r.body.orderId == orderId
      && r.body.timestamp == now
  {
    if !ItemsSubmitted(cartItems) then BadRequest(CartEmpty)
    else if !CustomerComplete(customerInfo) then BadRequest(NeedNameAndEmail)
    else
      var items := cartItems.value;
      Ok(Receipt(orderId, customerInfo.value, items, OrderTotal(items), now))
  }

  lemma {:induction false} OrderTotalAppend(a: seq<CartRow>, b: seq<CartRow>)
    ensures OrderTotal(a + b) == OrderTotal(a) + OrderTotal(b)
    decreases |b|
  {
    if b == [] {
      assert a + b == a;
    } else {
      assert (a + b)[..|a + b| - 1] == a + b[..|b| - 1];
      OrderTotalAppend(a, b[..|b| - 1]);
    }
  }

  /** Every row's item_total is its quantity * price, as in the rows of the cart query. */
  predicate RowsPriced(rows: seq<CartRow>)
  {
    forall i :: 0 <= i < |rows| ==> rows[i].itemTotal == rows[i].quantity * rows[i].price
  }

  /** Items whose item_total is price * quantity give the same checkout total as the cart query's fold. */
  lemma {:induction false} OrderTotalOfConsistentRows(rows: seq<CartRow>)
    requires RowsPriced(rows)
    ensures OrderTotal(rows) == Total(rows)
  {
    if rows != [] {
      OrderTotalOfConsistentRows(rows[..|rows| - 1]);
    }
  }

  /** A client that submits the rows of GET /api/cart unchanged is charged the cart's value. */
  lemma OrderTotalOfCart(lines: seq<CartLine>, products: map<string, Product>)
    ensures OrderTotal(Join(lines, products)) == CartValue(lines, products)
  {
    var rows := Join(lines, products);
    JoinRowsConsistent(lines, products);
    OrderTotalOfConsistentRows(rows);
    JoinFolds(lines, products);
  }

  lemma {:induction false} JoinRowsConsistent(lines: seq<CartLine>, products: map<string, Product>)
    ensures RowsPriced(Join(lines, products))
  {
    if lines != [] {
      JoinRowsConsistent(lines[1..], products);
      var rest := Join(lines[1..], products);
      if lines[0].productId in products {
        var row := RowOf(lines[0], products[lines[0].productId]);
        assert Join(lines, products) == [row] + rest;
        assert RowsPriced([row] + rest) by {
          forall i | 0 <= i < |rest| + 1
            ensures ([row] + rest)[i].itemTotal == ([row] + rest)[i].quantity * ([row] + rest)[i].price
          {
            if i > 0 { assert ([row] + rest)[i] == rest[i - 1]; }
          }
        }
      }
    }
  }
}
