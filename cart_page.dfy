/** The cart page: which catalog products are listed, and how the quantity
    controls turn user input into `addToCart` deltas. */
module CartPage {
  import opened Shop

  const MaxQty: int := 100

  /** `products.filter(p => (cartItems[p.id] || 0) > 0)`. */
  function CartProducts(products: seq<Product>, cart: Cart): (r: seq<Product>)
    ensures |r| <= |products|
    ensures forall p :: p in r <==> p in products && Qty(cart, p.id) > 0
  {
    if products == [] then []
    else
      var rest := CartProducts(products[1..], cart);
      assert forall p :: p in products <==> p == products[0] || p in products[1..];
      if Qty(cart, products[0].id) > 0 then [products[0]] + rest else rest
  }

  /** The filter keeps catalog order: it distributes over concatenation. */
  lemma {:induction false} CartProductsAppend(a: seq<Product>, b: seq<Product>, cart: Cart)
    ensures CartProducts(a + b, cart) == CartProducts(a, cart) + CartProducts(b, cart)
  {
    if a == [] {
      assert a + b == b;
    } else {
      assert (a + b)[1..] == a[1..] + b;
      CartProductsAppend(a[1..], b, cart);
    }
  }

  /** The quantity box's input: blank, or `Number(raw)`, where None is NaN. */
  datatype QtyInput = Blank | Entered(number: Option<real>)

  /** An empty string counts as 0; anything else is its numeric value. */
  function Parsed(raw: QtyInput): (r: Option<real>)
    ensures r.None? <==> raw == Entered(None)
    ensures raw.Blank? ==> r == Some(0.0)
  {
    match raw
    case Blank => Some(0.0)
    case Entered(n) => n
  }

  /** The quantity a typed number asks for: its floor, clamped to [0, 100]. */
  function TargetQty(x: real): (t: int)
    ensures 0 <= t <= MaxQty
    ensures 0 <= x.Floor <= MaxQty ==> t == x.Floor
    ensures x.Floor < 0 ==> t == 0
    ensures x.Floor > MaxQty ==> t == MaxQty
  {
    if x.Floor < 0 then 0 else if x.Floor > MaxQty then MaxQty else x.Floor
  }

  /** `handleQtyInput` up to its `addToCart` call: the delta it passes, or
      None when it makes no call. */
  method QtyInputDelta(raw: QtyInput, qty: int) returns (delta: Option<int>)
    ensures delta.None? <==> Parsed(raw).None? || TargetQty(Parsed(raw).value) == qty
    ensures delta.Some? ==> delta.value != 0 && qty + delta.value == TargetQty(Parsed(raw).value)
    ensures raw == Blank ==> delta == if qty == 0 then None else Some(-qty)
  {
    var parsed := if raw.Blank? then Some(0.0) else raw.number;
    if parsed.None? {
      return None;
    }
    var newQty := parsed.value.Floor;
    if newQty < 0 {
      newQty := 0;
    }
    if newQty > 100 {
      newQty := 100;
    }
    var d := newQty - qty;
    if d == 0 {
      return None;
    }
    return Some(d);
  }

  /** Typing into the quantity box of product `id`. */
  method HandleQtyInput(shop: ShopContext, id: ProductId, raw: QtyInput)
    requires shop.Valid()
    modifies shop`cartItems
    ensures shop.Valid()
    ensures Parsed(raw).None? ==> shop.cartItems == old(shop.cartItems)
    ensures Parsed(raw).Some? ==> Qty(shop.cartItems, id) == TargetQty(Parsed(raw).value)
    ensures Parsed(raw).Some? && TargetQty(Parsed(raw).value) == Qty(old(shop.cartItems), id) ==> shop.cartItems == old(shop.cartItems)
    ensures Parsed(raw).Some? && TargetQty(Parsed(raw).value) != Qty(old(shop.cartItems), id) ==>
              shop.cartItems == AddDelta(old(shop.cartItems), id, TargetQty(Parsed(raw).value) - Qty(old(shop.cartItems), id))
    ensures forall k :: k != id ==> Qty(shop.cartItems, k) == Qty(old(shop.cartItems), k)
  {
    var qty := Qty(shop.cartItems, id);
    var delta := QtyInputDelta(raw, qty);
    if delta.Some? {
      shop.AddToCart(id, delta.value);
    }
  }

  /** The "-" button: a delta of exactly -1 (any floor at 0 is up to `addToCart`). */
  method Decrease(shop: ShopContext, id: ProductId)
    requires shop.Valid()
    modifies shop`cartItems
    ensures shop.Valid()
    ensures shop.cartItems == AddDelta(old(shop.cartItems), id, -1)
    ensures Qty(shop.cartItems, id) == Qty(old(shop.cartItems), id) - 1
  {
    shop.AddToCart(id, -1);
  }

  /** The "+" button: a delta of exactly +1. */
  method Increase(shop: ShopContext, id: ProductId)
    requires shop.Valid()
    modifies shop`cartItems
    ensures shop.Valid()
    ensures shop.cartItems == AddDelta(old(shop.cartItems), id, 1)
    ensures Qty(shop.cartItems, id) == Qty(old(shop.cartItems), id) + 1
  {
    shop.AddToCart(id, 1);
  }
}
