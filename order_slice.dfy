/**
 * The client's order slice: a list of orders that the chef view and the
 * tracking view keep, replaced wholesale by `setOrders` and edited in place
 * by `updateOrderStatus`.
 */
module OrderSlice {
  import opened Wrappers
  import opened ArrayFind
  import OrderSchema

  /** An order as the slice stores it; `refusedReason` is an optional field. */
  datatype Order = Order(id: int, status: string, refusedReason: Option<string>)


  /** The predicate `o => o.id === id` handed to `find`. */
  function HasId(id: int): Order -> bool
  {
    (o: Order) => o.id == id
  }

  /** What the reducer does to the order it found. */
  function WithNewStatus(o: Order, status: string, reason: Option<string>): (r: Order)
    ensures r.id == o.id && r.status == status
    ensures r.refusedReason == if status == OrderSchema.Refused then reason else o.refusedReason
  {
    if status == OrderSchema.Refused then o.(status := status, refusedReason := reason)
    else o.(status := status)
  }

  /** The orders list after `updateOrderStatus({id, status, refusedReason})`. */
  function StatusUpdated(orders: seq<Order>, id: int, status: string, reason: Option<string>): (r: seq<Order>)
    ensures |r| == |orders|
    ensures forall j :: 0 <= j < |orders| ==> r[j].id == orders[j].id
    ensures forall j :: 0 <= j < |orders| && orders[j].id != id ==> r[j] == orders[j]
    ensures forall j :: 0 <= j < |orders| && FirstIndex(orders, HasId(id)) != Some(j) ==> r[j] == orders[j]
  {
    match FirstIndex(orders, HasId(id))
    case None => orders
    case Some(k) => orders[k := WithNewStatus(orders[k], status, reason)]
  }

  /** The slice's state: `state.orders`. */
  class OrderStore {
    var orders: seq<Order>

    /** `initialState`: no orders. */
    constructor ()
      ensures orders == []
    {
      orders := [];
    }

    /** `setOrders`: the payload becomes the whole list. */
    method SetOrders(payload: seq<Order>)
      modifies this
      ensures orders == payload
    {
      orders := payload;
    }

    /** `updateOrderStatus`: find the order by id and overwrite its status (and, for a refusal, its reason). */
    method UpdateOrderStatus(id: int, status: string, reason: Option<string>)
      modifies this
      ensures orders == StatusUpdated(old(orders), id, status, reason)
    {
      var found := Find(orders, HasId(id));
      if found.Some? {
        var k := found.value;
        var order := orders[k].(status := status);
        if status == OrderSchema.Refused {
          order := order.(refusedReason := reason);
        }
        orders := orders[k := order];
      }
    }
  }

  /** An id that matches no order leaves the list as it was. */
  lemma UnknownIdUnchanged(orders: seq<Order>, id: int, status: string, reason: Option<string>)
    requires forall j :: 0 <= j < |orders| ==> orders[j].id != id
    ensures StatusUpdated(orders, id, status, reason) == orders
  {
    assert FirstIndex(orders, HasId(id)).None?;
  }

  /**
   * With a matching id, the first matching order, and it alone, takes the new status;
   * its reason becomes the payload's (even an absent one) on a refusal and is kept otherwise.
   */
  lemma FirstMatchUpdated(orders: seq<Order>, id: int, status: string, reason: Option<string>, k: nat)
    requires k < |orders| && orders[k].id == id
    requires forall j :: 0 <= j < k ==> orders[j].id != id
    ensures var r := StatusUpdated(orders, id, status, reason);
      |r| == |orders| &&
      r[k] == Order(id, status, if status == OrderSchema.Refused then reason else orders[k].refusedReason) &&
      forall j :: 0 <= j < |orders| && j != k ==> r[j] == orders[j]
  {
    assert HasId(id)(orders[k]);
  }

  /** The list keeps its length and every id; orders other than the one edited are untouched. */
  lemma ShapePreserved(orders: seq<Order>, id: int, status: string, reason: Option<string>)
    ensures var r := StatusUpdated(orders, id, status, reason);
      |r| == |orders| &&
      (forall j :: 0 <= j < |orders| ==> r[j].id == orders[j].id) &&
      (forall j :: 0 <= j < |orders| && orders[j].id != id ==> r[j] == orders[j])
  {
  }

  /** Leaving `refused` never clears a recorded reason. */
  lemma ReasonKeptUnlessRefused(orders: seq<Order>, id: int, status: string, reason: Option<string>)
    requires status != OrderSchema.Refused
    ensures var r := StatusUpdated(orders, id, status, reason);
      forall j :: 0 <= j < |orders| ==> r[j].refusedReason == orders[j].refusedReason
  {
  }

  /** Dispatching the same `updateOrderStatus` action twice has the effect of dispatching it once. */
  lemma StatusUpdateIdempotent(orders: seq<Order>, id: int, status: string, reason: Option<string>)
    ensures var once := StatusUpdated(orders, id, status, reason);
      StatusUpdated(once, id, status, reason) == once
  {
    var once := StatusUpdated(orders, id, status, reason);
    FirstIndexDependsOnVerdicts(orders, once, HasId(id));
  }
}
