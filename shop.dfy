/** Shared storefront vocabulary: products, the client cart held by the
    shop context, shipping addresses and order line items.

    The client cart is a JavaScript object from product id to quantity.
    Its keys are enumerated in insertion order, which the checkout loop
    depends on, so it is modelled as a sequence of entries with distinct
    keys rather than as a map. */
module Shop {

  datatype Option<+T> = None | Some(value: T)

  type ProductId = string

  /** A catalog product; prices are exact reals (no floating-point rounding). */
  datatype Product = Product(id: ProductId, name: string, price: real, image: seq<string>)

  /** One key of the cart object and the quantity stored under it. */
  datatype Entry = Entry(id: ProductId, qty: int)

  type Cart = seq<Entry>

  /** The shipping form as submitted; company and gst may be empty. */
  datatype Address = Address(
    firstName: string, lastName: string, email: string, street: string,
    city: string, zip: string, company: string, phone: string, gst: string)

  /** A copy of a catalog product with the ordered quantity attached. */
  datatype OrderItem = OrderItem(product: Product, quantity: int)

  ghost predicate DistinctKeys(c: Cart) {
    forall i, j :: 0 <= i < j < |c| ==> c[i].id != c[j].id
  }

  function Keys(c: Cart): set<ProductId> {
    set e | e in c :: e.id
  }

  /** `cartItems[id] || 0`: the stored quantity, or 0 for a missing key. */
  function Qty(c: Cart, id: ProductId): (q: int)
    ensures id !in Keys(c) ==> q == 0
  {
    if c == [] then 0
    else
      KeysCons(c[0], c[1..]);
      if c[0].id == id then c[0].qty else Qty(c[1..], id)
  }

  lemma KeysCons(e: Entry, c: Cart)
    ensures Keys([e] + c) == {e.id} + Keys(c)
  {
    assert forall x :: x in [e] + c <==> x == e || x in c;
  }

  lemma QtyCons(e: Entry, c: Cart)
    ensures forall k :: Qty([e] + c, k) == if e.id == k then e.qty else Qty(c, k)
  {
    assert ([e] + c)[1..] == c;
  }

  lemma DistinctCons(e: Entry, c: Cart)
    ensures DistinctKeys([e] + c) <==> e.id !in Keys(c) && DistinctKeys(c)
  {
    var ec := [e] + c;
    assert forall i :: 0 <= i < |c| ==> ec[i + 1] == c[i];
    if DistinctKeys(ec) {
      forall x | x in c ensures x.id != e.id {
        var j :| 0 <= j < |c| && c[j] == x;
        assert ec[0].id != ec[j + 1].id;
      }
    }
    if e.id !in Keys(c) && DistinctKeys(c) {
      forall i, j | 0 <= i < j < |ec| ensures ec[i].id != ec[j].id {
        if i == 0 {
          assert ec[j] in c;
        } else {
          assert ec[i] == c[i - 1] && ec[j] == c[j - 1];
        }
      }
    }
  }

  /** The cart after adding `delta` to the quantity under `id`: an existing
      key is updated where it stands, a new key is appended at the end. */
  function AddDelta(c: Cart, id: ProductId, delta: int): (r: Cart)
    ensures Qty(r, id) == Qty(c, id) + delta
    ensures forall k :: k != id ==> Qty(r, k) == Qty(c, k)
    ensures Keys(r) == Keys(c) + {id}
  {
    if c == [] then
      QtyCons(Entry(id, delta), []);
      KeysCons(Entry(id, delta), []);
      [Entry(id, delta)]
    else
      var e := c[0];
      assert c == [e] + c[1..];
      KeysCons(e, c[1..]);
      QtyCons(e, c[1..]);
      if e.id == id then
        var e' := e.(qty := e.qty + delta);
        KeysCons(e', c[1..]);
        QtyCons(e', c[1..]);
        [e'] + c[1..]
      else
        var rest := AddDelta(c[1..], id, delta);
        KeysCons(e, rest);
        QtyCons(e, rest);
        [e] + rest
  }

  /** Adding to a quantity never creates a second entry for a key. */
  lemma {:induction false} AddDeltaKeepsKeysDistinct(c: Cart, id: ProductId, delta: int)
    requires DistinctKeys(c)
    ensures DistinctKeys(AddDelta(c, id, delta))
  {
    if c == [] {
      DistinctCons(Entry(id, delta), []);
    } else {
      var e := c[0];
      assert c == [e] + c[1..];
      DistinctCons(e, c[1..]);
      if e.id == id {
        DistinctCons(e.(qty := e.qty + delta), c[1..]);
      } else {
        AddDeltaKeepsKeysDistinct(c[1..], id, delta);
        DistinctCons(e, AddDelta(c[1..], id, delta));
      }
    }
  }

  /** A non-zero quantity is read from an entry stored under that id. */
  lemma {:induction false} QtyWitness(c: Cart, id: ProductId)
    requires Qty(c, id) != 0
    ensures exists e :: e in c && e.id == id && e.qty == Qty(c, id)
  {
    if c[0].id != id {
      QtyWitness(c[1..], id);
      var e :| e in c[1..] && e.id == id && e.qty == Qty(c[1..], id);
      assert e in c;
    }
  }

  /** With distinct keys, every entry's quantity is what a lookup returns. */
  lemma {:induction false} QtyOfEntry(c: Cart, e: Entry)
    requires DistinctKeys(c) && e in c
    ensures Qty(c, e.id) == e.qty
  {
    assert c == [c[0]] + c[1..];
    DistinctCons(c[0], c[1..]);
    if c[0] != e {
      assert e in c[1..];
      assert e.id in Keys(c[1..]);
      QtyOfEntry(c[1..], e);
    }
  }

  /** The client-side shop context. Its cart total, its fetches and its
      persistence are not part of this model; `addToCart` is taken to add
      the delta to the stored quantity, with no clamping of its own. */
  class ShopContext {
    var products: seq<Product>
    var cartItems: Cart
    var token: string

    /** The cart is a JavaScript object: no key occurs twice. */
    ghost predicate Valid()
      reads this
    {
      DistinctKeys(cartItems)
    }

    constructor (products: seq<Product>, token: string)
      ensures Valid()
      ensures this.products == products && this.token == token && cartItems == []
    {
      this.products := products;
      this.token := token;
      cartItems := [];
    }

    method AddToCart(id: ProductId, delta: int)
      requires Valid()
      modifies this`cartItems
      ensures Valid()
      ensures cartItems == AddDelta(old(cartItems), id, delta)
    {
      AddDeltaKeepsKeysDistinct(cartItems, id, delta);
      cartItems := AddDelta(cartItems, id, delta);
    }

    method SetCartItems(c: Cart)
      requires DistinctKeys(c)
      modifies this`cartItems
      ensures Valid()
      ensures cartItems == c
    {
      cartItems := c;
    }
  }
}
