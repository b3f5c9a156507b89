/** The checkout page: when the form is shown, how the cart is snapshotted
    into order items, what payload is sent, and what happens to the cart and
    the `submitting` flag for each outcome of the request. */
module Checkout {
  import opened Shop
  import opened Pricing
  import CartPage

  /** The checkout form is rendered only when the cart page would list a product. */
  function ShowsCheckoutForm(products: seq<Product>, cart: Cart): (shown: bool)
    ensures shown <==> exists p :: p in products && Qty(cart, p.id) > 0
  {
    var listed := CartPage.CartProducts(products, cart);
    assert |listed| > 0 ==> listed[0] in listed;
    |listed| > 0
  }

  /** `products.find(p => p.id === id)`: the first catalog product with that id. */
  function Find(products: seq<Product>, id: ProductId): (r: Option<Product>)
    ensures r.None? <==> forall p :: p in products ==> p.id != id
    ensures r.Some? ==> exists i :: 0 <= i < |products| && products[i] == r.value && r.value.id == id &&
                          forall j :: 0 <= j < i ==> products[j].id != id
  {
    if products == [] then None
    else if products[0].id == id then Some(products[0])
    else
      var r := Find(products[1..], id);
      assert forall p :: p in products <==> p == products[0] || p in products[1..];
      assert forall j :: 1 <= j < |products| ==> products[j] == products[1..][j - 1];
      r
  }

  /** The line item one cart entry contributes: none unless its quantity is
      positive and its id names a catalog product. */
  function ItemFor(e: Entry, products: seq<Product>): (r: seq<OrderItem>)
    ensures |r| <= 1
    ensures r != [] <==> e.qty > 0 && exists p :: p in products && p.id == e.id
    ensures r != [] ==> r[0].quantity == e.qty && r[0].product in products && r[0].product.id == e.id
  {
    if e.qty > 0 then
      match Find(products, e.id)
      case Some(p) => [OrderItem(p, e.qty)]
      case None => []
    else []
  }

  /** The order items of a cart, in the order of its keys. */
  function OrderItemsOf(cart: Cart, products: seq<Product>): (r: seq<OrderItem>)
    ensures |r| <= |cart|
  {
    if cart == [] then []
    else OrderItemsOf(cart[..|cart| - 1], products) + ItemFor(cart[|cart| - 1], products)
  }

  /** Snapshotting a cart is compositional: the items of a longer cart extend
      those of its prefix, in key order. */
  lemma {:induction false} OrderItemsAppend(a: Cart, b: Cart, products: seq<Product>)
    ensures OrderItemsOf(a + b, products) == OrderItemsOf(a, products) + OrderItemsOf(b, products)
  {
    if b == [] {
      assert a + b == a;
    } else {
      var b' := b[..|b| - 1];
      assert (a + b)[..|a + b| - 1] == a + b';
      assert (a + b)[|a + b| - 1] == b[|b| - 1];
      OrderItemsAppend(a, b', products);
    }
  }

  /** An item is in the snapshot exactly when some cart entry with a positive
      quantity names that product (as `find` resolves it) with that quantity. */
  lemma {:induction false} OrderItemsExact(cart: Cart, products: seq<Product>, it: OrderItem)
    ensures it in OrderItemsOf(cart, products) <==>
              exists e :: e in cart && e.qty > 0 && Find(products, e.id) == Some(it.product) && it.quantity == e.qty
  {
    if cart != [] {
      var init, last := cart[..|cart| - 1], cart[|cart| - 1];
      assert cart == init + [last];
      assert forall e :: e in cart <==> e in init || e == last;
      OrderItemsExact(init, products, it);
    }
  }

  /** Every item is an unmodified catalog product whose id it was ordered
      under, with a positive quantity. */
  lemma OrderItemsAreCatalogCopies(cart: Cart, products: seq<Product>)
    ensures forall it :: it in OrderItemsOf(cart, products) ==> it.product in products && it.quantity > 0
  {
    forall it | it in OrderItemsOf(cart, products)
      ensures it.product in products && it.quantity > 0
    {
      OrderItemsExact(cart, products, it);
    }
  }

  /** A shown checkout form always submits at least one item; for a cart
      with distinct keys (as a JavaScript object has) the converse holds too,
      so the form is shown exactly when the snapshot is non-empty. */
  lemma FormShownIffItems(products: seq<Product>, cart: Cart)
    ensures ShowsCheckoutForm(products, cart) ==> OrderItemsOf(cart, products) != []
    ensures DistinctKeys(cart) && OrderItemsOf(cart, products) != [] ==> ShowsCheckoutForm(products, cart)
  {
    if ShowsCheckoutForm(products, cart) {
      var p :| p in products && Qty(cart, p.id) > 0;
      QtyWitness(cart, p.id);
      var e :| e in cart && e.id == p.id && e.qty == Qty(cart, p.id);
      var q := Find(products, e.id).value;
      OrderItemsExact(cart, products, OrderItem(q, e.qty));
    }
    var items := OrderItemsOf(cart, products);
    if DistinctKeys(cart) && items != [] {
      OrderItemsExact(cart, products, items[0]);
      var e :| e in cart && e.qty > 0 && Find(products, e.id) == Some(items[0].product) && items[0].quantity == e.qty;
      QtyOfEntry(cart, e);
      assert items[0].product in products && Qty(cart, items[0].product.id) > 0;
    }
  }

  /** The `for (const itemId in cartItems)` loop of `handlePlaceOrder`. */
  method BuildOrderItems(cart: Cart, products: seq<Product>) returns (items: seq<OrderItem>)
    ensures items == OrderItemsOf(cart, products)
  {
    items := [];
    var i := 0;
    while i < |cart|
      invariant 0 <= i <= |cart|
      invariant items == OrderItemsOf(cart[..i], products)
    {
      var e := cart[i];
      if e.qty > 0 {
        var itemInfo := Find(products, e.id);
        if itemInfo.Some? {
          items := items + [OrderItem(itemInfo.value, e.qty)];
        }
      }
      assert cart[..i + 1][..i] == cart[..i];
      i := i + 1;
    }
    assert cart[..i] == cart;
  }

  /** The request body: address, items and amount. It has no user id field;
      the server takes the owner from the session. */
  datatype Payload = Payload(address: Address, items: seq<OrderItem>, amount: real)

  /** How the request ends: `success: true`, `success: false` with a message,
      or a thrown error (network failure and the like). */
  datatype Response = Succeeded | Declined(message: string) | Threw

  const BlankForm: Address := Address("", "", "", "", "", "", "", "", "")

  class PlaceOrderPage {
    const shop: ShopContext
    var formData: Address
    var submitting: bool

    constructor (shop: ShopContext)
      ensures this.shop == shop && formData == BlankForm && !submitting
    {
      this.shop := shop;
      formData := BlankForm;
      submitting := false;
    }

    /** `handlePlaceOrder` up to the `await`: the login guard, the snapshot and
        the payload. An empty token stands for a missing one. */
    method BeginPlaceOrder(subtotal: real) returns (sent: Option<Payload>)
      modifies this`submitting
      ensures shop.token == "" ==> sent == None && submitting == old(submitting)
      ensures shop.token != "" ==> submitting
      ensures shop.token != "" && ShowsCheckoutForm(shop.products, shop.cartItems) ==> sent.Some? && sent.value.items != []
      ensures shop.token != "" ==>
                sent == Some(Payload(formData, OrderItemsOf(shop.cartItems, shop.products), GrandTotal(subtotal)))
    {
      if shop.token == "" {
        return None;
      }
      submitting := true;
      var orderItems := BuildOrderItems(shop.cartItems, shop.products);
      FormShownIffItems(shop.products, shop.cartItems);
      sent := Some(Payload(formData, orderItems, GrandTotal(subtotal)));
    }

    /** `handlePlaceOrder` after the `await`: the cart is emptied only on
        success, and the `finally` clause always lowers `submitting`. */
    method FinishPlaceOrder(response: Response)
      requires submitting && shop.Valid()
      modifies this`submitting, shop`cartItems
      ensures shop.Valid()
      ensures !submitting
      ensures shop.cartItems == if response.Succeeded? then [] else old(shop.cartItems)
    {
      if response.Succeeded? {
        shop.SetCartItems([]);
      }
      submitting := false;
    }

    /** The whole submission, with the server's answer as a parameter. */
    method HandlePlaceOrder(subtotal: real, response: Response) returns (sent: Option<Payload>)
      requires shop.Valid()
      modifies this`submitting, shop`cartItems
      ensures shop.Valid()
      ensures shop.token == "" ==>
                sent == None && submitting == old(submitting) && shop.cartItems == old(shop.cartItems)
      ensures shop.token != "" ==>
                && sent == Some(Payload(formData, OrderItemsOf(old(shop.cartItems), shop.products), GrandTotal(subtotal)))
                && !submitting
                && shop.cartItems == (if response.Succeeded? then [] else old(shop.cartItems))
      ensures shop.products == old(shop.products)
    {
      sent := BeginPlaceOrder(subtotal);
      if sent.Some? {
        FinishPlaceOrder(response);
      }
    }
  }
}
