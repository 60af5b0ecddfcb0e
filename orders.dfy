/** The order row shared by the admin console, the customer view and the
    dashboard, and its seven-value status. */
module Orders {
  import opened Collections

  datatype Status = Pending | Accepted | Rejected | Preparing | Ready | Delivered | Cancelled

  /** The status as it is stored and interpolated into messages. */
  function StatusName(s: Status): string
  {
    match s
    case Pending => "pending"
    case Accepted => "accepted"
    case Rejected => "rejected"
    case Preparing => "preparing"
    case Ready => "ready"
    case Delivered => "delivered"
    case Cancelled => "cancelled"
  }

  /** Distinct statuses are stored under distinct names. */
  lemma StatusNameInjective(a: Status, b: Status)
    ensures StatusName(a) == StatusName(b) ==> a == b
  {
  }

  /** A row of the `orders` table. Money is whole ETB; timestamps are opaque strings. */
  datatype Order = Order(
    id: int,
    customerId: string,
    customerName: string,
    customerPhone: string,
    orderDetails: string,
    totalAmount: int,
    status: Status,
    adminNotes: string,
    processedBy: Option<string>,
    processedAt: Option<string>,
    createdAt: string,
    updatedAt: string)

  /** The `type` column of the `notifications` table. */
  datatype NotificationType = Info | Success | Warning | Error

  /** Order ids are pairwise distinct, as the table's primary key guarantees. */
  predicate UniqueIds(orders: seq<Order>)
  {
    forall i, j :: 0 <= i < j < |orders| ==> orders[i].id != orders[j].id
  }

  /** `orders.find(o => o.id === id)`: the first order with that id. */
  function FindOrder(orders: seq<Order>, id: int): (r: Option<Order>)
    ensures r.Some? ==> r.value in orders && r.value.id == id
    ensures r.None? ==> forall i :: 0 <= i < |orders| ==> orders[i].id != id
  {
    if orders == [] then None
    else if orders[0].id == id then Some(orders[0])
    else FindOrder(orders[1..], id)
  }

  /** With unique ids, looking up an order of the list by its id finds that order. */
  lemma {:induction false} FindUnique(orders: seq<Order>, o: Order)
    requires UniqueIds(orders)
    requires o in orders
    ensures FindOrder(orders, o.id) == Some(o)
  {
    if orders[0] != o {
      assert orders[0].id != o.id by {
        var k :| 0 <= k < |orders| && orders[k] == o;
        assert k > 0;
      }
      assert o in orders[1..] by {
        var k :| 0 <= k < |orders| && orders[k] == o;
        assert orders[1..][k - 1] == o;
      }
      FindUnique(orders[1..], o);
    }
  }
}
