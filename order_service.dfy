/** The order controller on the server: placing an order, listing a user's
    orders, listing all orders, and overwriting an order's status.

    The document store is an in-memory sequence of orders plus each user's
    stored cart. Store-assigned ids come from a counter, the clock is a
    parameter, and a failing store call is a parameter that says which call
    fails and with what message. The caller's id is the one the
    authentication middleware attached to the request. */
module OrderService {
  import opened Shop

  type UserId = string
  type OrderId = nat

  datatype Order = Order(
    id: OrderId, userId: UserId, items: seq<OrderItem>, address: Address, amount: real,
    paymentMethod: string, payment: bool, status: string, date: int)

  /** The body of a place-order request. `claimedUserId` is any user id a
      client might put in the body; the handler never reads it. */
  datatype PlaceOrderBody = PlaceOrderBody(
    items: Option<seq<OrderItem>>, amount: real, address: Address, claimedUserId: Option<UserId>)

  datatype PlaceResponse = PlaceResponse(success: bool, message: string, order: Option<Order>)
  datatype ListResponse = ListResponse(success: bool, message: string, orders: seq<Order>)
  datatype StatusResponse = StatusResponse(success: bool, message: string)

  /** Which store call of a placement throws, if any, and its error message. */
  datatype PlaceFault = NoFault | CreateFails(message: string) | ClearFails(message: string)

  const EmptyCartMessage: string := "Cart is empty"
  const PlacedMessage: string := "Order Placed"
  const PlacedStatus: string := "Order Placed"
  const TestingPaymentMethod: string := "Testing order"
  const StatusUpdatedMessage: string := "Status Updated Successfully"

  /** Sorted by date, newest first. */
  ghost predicate NewestFirst(s: seq<Order>) {
    forall i, j :: 0 <= i < j < |s| ==> s[i].date >= s[j].date
  }

  function InsertByDate(o: Order, s: seq<Order>): (r: seq<Order>)
    requires NewestFirst(s)
    ensures NewestFirst(r)
    ensures multiset(r) == multiset(s) + multiset{o}
  {
    if s == [] then [o]
    else if o.date >= s[0].date then [o] + s
    else
      var rest := InsertByDate(o, s[1..]);
      assert s == [s[0]] + s[1..];
      forall k | 0 <= k < |rest| ensures rest[k].date <= s[0].date {
        assert rest[k] in multiset(rest);
        if rest[k] != o {
          var j :| 0 <= j < |s[1..]| && s[1..][j] == rest[k];
          assert s[j + 1] == rest[k];
        }
      }
      [s[0]] + rest
  }

  /** The store's answer to `sort({ date: -1 })`. Orders with equal dates may
      come back in any order; callers rely only on the contract. */
  function SortNewestFirst(s: seq<Order>): (r: seq<Order>)
    ensures NewestFirst(r)
    ensures multiset(r) == multiset(s)
  {
    if s == [] then []
    else
      assert s == [s[0]] + s[1..];
      InsertByDate(s[0], SortNewestFirst(s[1..]))
  }

  /** The store's answer to `find({ userId })`. */
  function OwnedBy(orders: seq<Order>, user: UserId): (r: seq<Order>)
    ensures forall o :: o in r <==> o in orders && o.userId == user
  {
    if orders == [] then []
    else
      var rest := OwnedBy(orders[1..], user);
      assert forall o :: o in orders <==> o == orders[0] || o in orders[1..];
      if orders[0].userId == user then [orders[0]] + rest else rest
  }

  lemma {:induction false} OwnedByAppend(a: seq<Order>, b: seq<Order>, user: UserId)
    ensures OwnedBy(a + b, user) == OwnedBy(a, user) + OwnedBy(b, user)
  {
    if a == [] {
      assert a + b == b;
    } else {
      assert (a + b)[1..] == a[1..] + b;
      OwnedByAppend(a[1..], b, user);
    }
  }

  /** A new order shows up in its owner's listing and in nobody else's. */
  lemma AppendedOrderVisibility(orders: seq<Order>, o: Order, user: UserId)
    ensures OwnedBy(orders + [o], user) == OwnedBy(orders, user) + (if o.userId == user then [o] else [])
  {
    OwnedByAppend(orders, [o], user);
    assert OwnedBy([o], user) == (if o.userId == user then [o] else []) by {
      assert [o][1..] == [];
    }
  }

  /** `findByIdAndUpdate(orderId, { status })` on the order collection. */
  function WithStatus(orders: seq<Order>, id: OrderId, status: string): (r: seq<Order>)
    ensures |r| == |orders|
    ensures forall i :: 0 <= i < |r| ==> r[i].id == orders[i].id && r[i].userId == orders[i].userId
  {
    seq(|orders|, i requires 0 <= i < |orders| =>
      if orders[i].id == id then orders[i].(status := status) else orders[i])
  }

  ghost predicate DistinctIds(orders: seq<Order>) {
    forall i, j :: 0 <= i < j < |orders| ==> orders[i].id != orders[j].id
  }

  /** Only the status field of the order with that id changes; every other
      field and every other order stays as it was. */
  lemma WithStatusFrame(orders: seq<Order>, id: OrderId, status: string)
    ensures |WithStatus(orders, id, status)| == |orders|
    ensures forall i :: 0 <= i < |orders| ==>
              WithStatus(orders, id, status)[i].(status := orders[i].status) == orders[i]
    ensures forall i :: 0 <= i < |orders| && orders[i].id == id ==> WithStatus(orders, id, status)[i].status == status
    ensures forall i :: 0 <= i < |orders| && orders[i].id != id ==> WithStatus(orders, id, status)[i] == orders[i]
  {
  }

  /** An unknown id matches nothing and changes nothing. */
  lemma WithStatusUnknownId(orders: seq<Order>, id: OrderId, status: string)
    requires forall o :: o in orders ==> o.id != id
    ensures WithStatus(orders, id, status) == orders
  {
  }

  /** With distinct ids, at most one order is touched. */
  lemma WithStatusTouchesAtMostOne(orders: seq<Order>, id: OrderId, status: string, i: int, j: int)
    requires DistinctIds(orders)
    requires 0 <= i < |orders| && 0 <= j < |orders|
    requires WithStatus(orders, id, status)[i] != orders[i] && WithStatus(orders, id, status)[j] != orders[j]
    ensures i == j
  {
  }

  class OrderStore {
    var orders: seq<Order>
    var carts: map<UserId, map<ProductId, int>>
    var nextId: OrderId

    /** Ids are handed out in increasing order and never reused. */
    ghost predicate Valid()
      reads this
    {
      && (forall i :: 0 <= i < |orders| ==> orders[i].id < nextId)
      && (forall i, j :: 0 <= i < j < |orders| ==> orders[i].id < orders[j].id)
    }

    lemma ValidIdsDistinct()
      requires Valid()
      ensures DistinctIds(orders)
    {
    }

    constructor (carts: map<UserId, map<ProductId, int>>)
      ensures Valid() && orders == [] && this.carts == carts
    {
      orders := [];
      this.carts := carts;
      nextId := 0;
    }

    /** `placeOrder` for the authenticated `caller` at time `now`. */
    method PlaceOrder(caller: UserId, body: PlaceOrderBody, now: int, fault: PlaceFault) returns (res: PlaceResponse)
      requires Valid()
      modifies this
      ensures Valid()
      ensures body.items.None? || body.items == Some([]) ==>
                && res == PlaceResponse(false, EmptyCartMessage, None)
                && orders == old(orders) && carts == old(carts)
      ensures body.items.Some? && body.items.value != [] && fault.CreateFails? ==>
                && res == PlaceResponse(false, fault.message, None)
                && orders == old(orders) && carts == old(carts)
      ensures body.items.Some? && body.items.value != [] && !fault.CreateFails? ==>
                && |orders| == |old(orders)| + 1
                && orders[..|old(orders)|] == old(orders)
                && var o := orders[|old(orders)|];
                && o.userId == caller
                && o.items == body.items.value && o.address == body.address && o.amount == body.amount
                && o.paymentMethod == TestingPaymentMethod && !o.payment && o.status == PlacedStatus
                && o.date == now
                && (forall p :: p in old(orders) ==> p.id != o.id)
                && (fault.NoFault? ==> res == PlaceResponse(true, PlacedMessage, Some(o)))
                && (fault.ClearFails? ==> res == PlaceResponse(false, fault.message, None))
      ensures body.items.Some? && body.items.value != [] && fault.NoFault? ==>
                carts == if caller in old(carts) then old(carts)[caller := map[]] else old(carts)
      ensures !fault.NoFault? ==> carts == old(carts)
    {
      if body.items.None? || body.items.value == [] {
        return PlaceResponse(false, EmptyCartMessage, None);
      }
      if fault.CreateFails? {
        return PlaceResponse(false, fault.message, None);
      }
      var newOrder := Order(nextId, caller, body.items.value, body.address, body.amount,
                            TestingPaymentMethod, false, PlacedStatus, now);
      orders := orders + [newOrder];
      nextId := nextId + 1;
      if fault.ClearFails? {
        return PlaceResponse(false, fault.message, None);
      }
      if caller in carts {
        carts := carts[caller := map[]];
      }
      res := PlaceResponse(true, PlacedMessage, Some(newOrder));
    }

    /** `allOrders`: every stored order, newest first. */
    method AllOrders(fault: Option<string>) returns (res: ListResponse)
      ensures fault.Some? ==> res == ListResponse(false, fault.value, [])
      ensures fault.None? ==> res.success && NewestFirst(res.orders)
      ensures fault.None? ==> multiset(res.orders) == multiset(orders)
    {
      if fault.Some? {
        return ListResponse(false, fault.value, []);
      }
      res := ListResponse(true, "", SortNewestFirst(orders));
    }

    /** `userOrders`: the caller's orders and no one else's, newest first. */
    method UserOrders(caller: UserId, fault: Option<string>) returns (res: ListResponse)
      ensures fault.Some? ==> res == ListResponse(false, fault.value, [])
      ensures fault.None? ==> res.success && NewestFirst(res.orders)
      ensures fault.None? ==> multiset(res.orders) == multiset(OwnedBy(orders, caller))
      ensures fault.None? ==> forall o :: o in res.orders <==> o in orders && o.userId == caller
    {
      if fault.Some? {
        return ListResponse(false, fault.value, []);
      }
      var found := SortNewestFirst(OwnedBy(orders, caller));
      assert forall o :: o in found <==> o in multiset(OwnedBy(orders, caller));
      res := ListResponse(true, "", found);
    }

    /** `updateStatus`: overwrites the status of the order with that id, and
        reports success whether or not such an order exists. */
    method UpdateStatus(orderId: OrderId, status: string, fault: Option<string>) returns (res: StatusResponse)
      requires Valid()
      modifies this`orders
      ensures Valid()
      ensures fault.Some? ==> res == StatusResponse(false, fault.value) && orders == old(orders)
      ensures fault.None? ==> res == StatusResponse(true, StatusUpdatedMessage)
      ensures fault.None? ==> orders == WithStatus(old(orders), orderId, status)
    {
      if fault.Some? {
        return StatusResponse(false, fault.value);
      }
      orders := WithStatus(orders, orderId, status);
      res := StatusResponse(true, StatusUpdatedMessage);
    }
  }
}
