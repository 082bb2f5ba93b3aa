/**
 * The order service's in-memory table and its handlers: create, get by id,
 * list by user and status update.
 */
module OrderService {
  import opened Common

  datatype Order = Order(
    id: string,
    userId: string,
    products: Json,
    totalAmount: real,
    status: string,
    createdAt: int)

  const OrderNotFound: string := "Order not found"

  class Orders {
    var orders: seq<Order>

    constructor ()
      ensures orders == []
    {
      orders := [];
    }

    /** `orders.findIndex(o => o.id === id)`. */
    function IndexOf(id: string): (r: Option<nat>)
      reads this
      ensures r.Some? ==> r.value < |orders| && orders[r.value].id == id
      ensures r.Some? ==> forall j :: 0 <= j < r.value ==> orders[j].id != id
      ensures r.None? <==> forall j :: 0 <= j < |orders| ==> orders[j].id != id
    {
      FindIndex(orders, (o: Order) => o.id == id)
    }

    /**
      * POST /api/orders. Unless the injected failure fires, appends one
      * pending order with the fresh id.
      */
    method Create(userId: string, products: Json, totalAmount: real, injectedFailure: bool,
                  freshId: string, now: int) returns (r: Reply<Order>)
      modifies this
      ensures injectedFailure ==> r == Fail(400, "Invalid order data") && orders == old(orders)
      ensures !injectedFailure ==>
        && r.Ok? && r.status == 201
        && orders == old(orders) + [r.value]
        && r.value == Order(freshId, userId, products, totalAmount, "pending", now)
      ensures !injectedFailure && old(IndexOf(freshId)).None? ==> Get(freshId) == Ok(200, r.value)
    {
      if injectedFailure {
        return Fail(400, "Invalid order data");
      }
      var order := Order(freshId, userId, products, totalAmount, "pending", now);
      FindIndexAppend(orders, order, (o: Order) => o.id == freshId);
      orders := orders + [order];
      r := Ok(201, order);
    }

    /** GET /api/orders/:id: the first order with that id, or 404. */
    function Get(id: string): (r: Reply<Order>)
      reads this
      ensures r.Ok? <==> exists i :: 0 <= i < |orders| && orders[i].id == id
      ensures r.Ok? ==> r.status == 200 && r.value.id == id
      ensures r.Ok? ==> exists i :: 0 <= i < |orders| && orders[i] == r.value && forall j :: 0 <= j < i ==> orders[j].id != id
      ensures !r.Ok? ==> r == Fail(404, OrderNotFound)
    {
      match IndexOf(id)
      case Some(i) => Ok(200, orders[i])
      case None => Fail(404, OrderNotFound)
    }

    /** GET /api/orders/user/:userId: exactly that user's orders, in table order. */
    function ListByUser(userId: string): (r: seq<Order>)
      reads this
      ensures IsSubsequence(r, orders)
      ensures forall i :: 0 <= i < |r| ==> r[i].userId == userId
      ensures forall i :: 0 <= i < |orders| && orders[i].userId == userId ==> orders[i] in r
      ensures forall i :: 0 <= i < |orders| ==>
        multiset(r)[orders[i]] == if orders[i].userId == userId then multiset(orders)[orders[i]] else 0
    {
      Filter(orders, (o: Order) => o.userId == userId)
    }

    /** PUT /api/orders/:id/status: sets the status as given, without validation. */
    method UpdateStatus(id: string, status: string) returns (r: Reply<Order>)
      modifies this
      ensures old(IndexOf(id)).None? ==> r == Fail(404, OrderNotFound) && orders == old(orders)
      ensures old(IndexOf(id)).Some? ==>
        var i := old(IndexOf(id)).value;
        && orders == old(orders)[i := old(orders)[i].(status := status)]
        && r == Ok(200, orders[i])
      ensures forall id' :: IndexOf(id') == old(IndexOf(id'))
    {
      var index := IndexOf(id);
      if index.None? {
        return Fail(404, OrderNotFound);
      }
      var i := index.value;
      var updated := orders[i].(status := status);
      forall id' ensures FindIndex(orders[i := updated], (o: Order) => o.id == id') == IndexOf(id') {
        FindIndexReplace(orders, i, updated, (o: Order) => o.id == id');
      }
      orders := orders[i := updated];
      r := Ok(200, orders[i]);
    }
  }
}
