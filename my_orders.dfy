/** The customer's live view of their orders and notifications: the reducers
    run on each pushed event, marking a notification read, the unread badge and
    the per-status message. */
module MyOrders {
  import opened Collections
  import opened Orders
  import ManageOrders

  /** A row of the `notifications` table as the customer view holds it. */
  datatype Notification = Notification(
    id: int,
    title: string,
    message: string,
    kind: NotificationType,
    read: bool,
    relatedOrderId: Option<int>,
    createdAt: string)

  // ---------------------------------------------------------------------------
  // Order-update events

  /** `prev.map(order => order.id === row.id ? row : order)`. */
  function ReplaceOrder(orders: seq<Order>, row: Order): seq<Order>
  {
    if orders == [] then []
    else [if orders[0].id == row.id then row else orders[0]] + ReplaceOrder(orders[1..], row)
  }

  /** The pushed row replaces every order with its id wholesale; the others stay. */
  lemma {:induction false} ReplaceOrderEffect(orders: seq<Order>, row: Order)
    ensures var r := ReplaceOrder(orders, row);
      && |r| == |orders|
      && (forall i :: 0 <= i < |orders| ==> r[i] == if orders[i].id == row.id then row else orders[i])
  {
    if orders != [] {
      ReplaceOrderEffect(orders[1..], row);
    }
  }

  /** An event for an order the view does not hold changes nothing. */
  lemma {:induction false} ReplaceOrderAbsent(orders: seq<Order>, row: Order)
    requires forall i :: 0 <= i < |orders| ==> orders[i].id != row.id
    ensures ReplaceOrder(orders, row) == orders
  {
    if orders != [] {
      ReplaceOrderAbsent(orders[1..], row);
    }
  }

  // ---------------------------------------------------------------------------
  // Notifications

  /** `prev.map(n => n.id === id ? {...n, read: true} : n)`. */
  function MarkRead(ns: seq<Notification>, id: int): seq<Notification>
  {
    if ns == [] then []
    else [if ns[0].id == id then ns[0].(read := true) else ns[0]] + MarkRead(ns[1..], id)
  }

  /** Only the notifications with the given id change, and in them only `read`. */
  lemma {:induction false} MarkReadEffect(ns: seq<Notification>, id: int)
    ensures var r := MarkRead(ns, id);
      && |r| == |ns|
      && (forall i :: 0 <= i < |ns| && ns[i].id != id ==> r[i] == ns[i])
      && (forall i :: 0 <= i < |ns| && ns[i].id == id ==> r[i] == ns[i].(read := true) && r[i].read)
  {
    if ns != [] {
      MarkReadEffect(ns[1..], id);
    }
  }

  /** Marking the same notification twice is the same as marking it once. */
  lemma {:induction false} MarkReadIdempotent(ns: seq<Notification>, id: int)
    ensures MarkRead(MarkRead(ns, id), id) == MarkRead(ns, id)
  {
    if ns != [] {
      MarkReadIdempotent(ns[1..], id);
    }
  }

  predicate Unread(n: Notification)
  {
    !n.read
  }

  /** `notifications.filter(n => !n.read).length`. */
  function UnreadCount(ns: seq<Notification>): nat
  {
    Count(ns, Unread)
  }

  predicate UniqueNotificationIds(ns: seq<Notification>)
  {
    forall i, j :: 0 <= i < j < |ns| ==> ns[i].id != ns[j].id
  }

  lemma {:induction false} MarkReadAbsent(ns: seq<Notification>, id: int)
    requires forall i :: 0 <= i < |ns| ==> ns[i].id != id
    ensures MarkRead(ns, id) == ns
  {
    if ns != [] {
      MarkReadAbsent(ns[1..], id);
    }
  }

  /** With unique ids, marking an unread notification lowers the badge by exactly one;
      marking a read or absent one leaves it as it was. */
  lemma {:induction false} MarkReadUnreadCount(ns: seq<Notification>, id: int)
    requires UniqueNotificationIds(ns)
    ensures (exists i :: 0 <= i < |ns| && ns[i].id == id && !ns[i].read) ==>
              UnreadCount(MarkRead(ns, id)) == UnreadCount(ns) - 1
    ensures !(exists i :: 0 <= i < |ns| && ns[i].id == id && !ns[i].read) ==>
              UnreadCount(MarkRead(ns, id)) == UnreadCount(ns)
  {
    if ns != [] {
      var tail := ns[1..];
      assert UniqueNotificationIds(tail);
      MarkReadUnreadCount(tail, id);
      if ns[0].id == id {
        MarkReadAbsent(tail, id);
        assert !(exists i :: 0 <= i < |tail| && tail[i].id == id && !tail[i].read);
      } else {
        assert (exists i :: 0 <= i < |ns| && ns[i].id == id && !ns[i].read) <==>
               (exists i :: 0 <= i < |tail| && tail[i].id == id && !tail[i].read) by {
          if exists i :: 0 <= i < |ns| && ns[i].id == id && !ns[i].read {
            var i :| 0 <= i < |ns| && ns[i].id == id && !ns[i].read;
            assert tail[i - 1] == ns[i];
          }
          if exists i :: 0 <= i < |tail| && tail[i].id == id && !tail[i].read {
            var i :| 0 <= i < |tail| && tail[i].id == id && !tail[i].read;
            assert ns[i + 1] == tail[i];
          }
        }
      }
    }
  }

  /** A pushed notification raises the badge by one exactly when it is unread. */
  lemma PrependUnreadCount(n: Notification, ns: seq<Notification>)
    ensures UnreadCount([n] + ns) == UnreadCount(ns) + (if n.read then 0 else 1)
  {
    assert ([n] + ns)[1..] == ns;
  }

  // ---------------------------------------------------------------------------
  // Status messages

  function StatusMessage(s: Status): string
  {
    match s
    case Pending => "Your order is waiting for confirmation"
    case Accepted => "Your order has been accepted and will be prepared soon"
    case Rejected => "Your order has been rejected"
    case Preparing => "Your order is being prepared"
    case Ready => "Your order is ready for pickup/delivery"
    case Delivered => "Your order has been delivered"
    case _ => "Order status unknown"
  }

  /** Every status the console can reach has its own message; only `cancelled`
      falls through to the unknown text. */
  lemma StatusMessagesDistinct(a: Status, b: Status)
    ensures StatusMessage(a) == StatusMessage(b) ==> a == b
    ensures StatusMessage(a) == "Order status unknown" <==> a == Cancelled
  {
  }

  // ---------------------------------------------------------------------------
  // Pull and push agree

  /** What `fetchOrders` returns for a customer: their rows, in store order. */
  function CustomerOrders(store: seq<Order>, customer: string): seq<Order>
  {
    Filter(store, (o: Order) => o.customerId == customer)
  }

  lemma {:induction false} CustomerOrdersAbsent(store: seq<Order>, customer: string, id: int)
    requires forall i :: 0 <= i < |store| ==> store[i].id != id
    ensures forall i :: 0 <= i < |CustomerOrders(store, customer)| ==> CustomerOrders(store, customer)[i].id != id
  {
    var v := CustomerOrders(store, customer);
    forall i | 0 <= i < |v| ensures v[i].id != id {
      assert v[i] in store;
    }
  }

  lemma {:induction false} StatusUpdateAbsent(store: seq<Order>, id: int, status: Status, notes: string,
                                              processor: Option<string>, at: ManageOrders.Stamps)
    requires forall i :: 0 <= i < |store| ==> store[i].id != id
    ensures ManageOrders.ApplyStatusUpdate(store, id, status, notes, processor, at) == store
  {
    if store != [] {
      StatusUpdateAbsent(store[1..], id, status, notes, processor, at);
    }
  }

  /** After an admin status update, applying the pushed row to the customer's view
      gives the same list as fetching the customer's orders again; a customer whose
      orders were not touched gets no event and already holds the fresh list. */
  lemma {:induction false} PushMatchesPull(store: seq<Order>, customer: string, o: Order, status: Status,
                                           notes: string, processor: Option<string>, at: ManageOrders.Stamps)
    requires UniqueIds(store)
    requires o in store
    ensures var after := ManageOrders.ApplyStatusUpdate(store, o.id, status, notes, processor, at);
      var row := ManageOrders.Stamp(o, status, notes, processor, at);
      && (o.customerId == customer ==>
            ReplaceOrder(CustomerOrders(store, customer), row) == CustomerOrders(after, customer))
      && (o.customerId != customer ==>
            CustomerOrders(store, customer) == CustomerOrders(after, customer))
  {
    var tail := store[1..];
    var after := ManageOrders.ApplyStatusUpdate(store, o.id, status, notes, processor, at);
    var row := ManageOrders.Stamp(o, status, notes, processor, at);
    assert UniqueIds(tail);
    if store[0] == o {
      assert forall i :: 0 <= i < |tail| ==> tail[i].id != o.id by {
        forall i | 0 <= i < |tail| ensures tail[i].id != o.id {
          assert store[i + 1] == tail[i];
        }
      }
      StatusUpdateAbsent(tail, o.id, status, notes, processor, at);
      assert after == [row] + tail;
      CustomerOrdersAbsent(tail, customer, o.id);
      ReplaceOrderAbsent(CustomerOrders(tail, customer), row);
    } else {
      assert store[0].id != o.id by {
        var k :| 0 <= k < |store| && store[k] == o;
        assert k != 0;
      }
      assert o in tail by {
        var k :| 0 <= k < |store| && store[k] == o;
        assert tail[k - 1] == o;
      }
      PushMatchesPull(tail, customer, o, status, notes, processor, at);
      assert after == [store[0]] + ManageOrders.ApplyStatusUpdate(tail, o.id, status, notes, processor, at);
    }
  }

  // ---------------------------------------------------------------------------
  // The view state

  /** The `notifications` update `markNotificationAsRead` sends: `read` set for one id. */
  datatype ReadWrite = ReadWrite(notificationId: int, read: bool)

  class CustomerView {
    var orders: seq<Order>
    var notifications: seq<Notification>

    constructor ()
      ensures orders == [] && notifications == []
    {
      orders := [];
      notifications := [];
    }

    /** `fetchOrders` / `fetchNotifications`: fetched rows replace the list; an error keeps it. */
    method LoadOrders(ok: bool, data: seq<Order>)
      modifies this`orders
      ensures orders == if ok then data else old(orders)
    {
      if ok {
        orders := data;
      }
    }

    method LoadNotifications(ok: bool, data: seq<Notification>)
      modifies this`notifications
      ensures notifications == if ok then data else old(notifications)
    {
      if ok {
        notifications := data;
      }
    }

    /** An order UPDATE event: replace the pushed row by id. */
    method OnOrderUpdate(row: Order)
      modifies this`orders
      ensures orders == ReplaceOrder(old(orders), row)
      ensures |orders| == |old(orders)|
      ensures forall i :: 0 <= i < |orders| ==>
                orders[i] == if old(orders)[i].id == row.id then row else old(orders)[i]
    {
      ReplaceOrderEffect(orders, row);
      orders := ReplaceOrder(orders, row);
    }

    /** A notification INSERT event: prepend the new row. */
    method OnNotificationInsert(n: Notification)
      modifies this`notifications
      ensures notifications == [n] + old(notifications)
      ensures |notifications| == |old(notifications)| + 1 && notifications[1..] == old(notifications)
      ensures UnreadCount(notifications) == UnreadCount(old(notifications)) + (if n.read then 0 else 1)
    {
      PrependUnreadCount(n, notifications);
      notifications := [n] + notifications;
    }

    /** `markNotificationAsRead`: the local list changes only after the store update succeeds. */
    method MarkNotificationAsRead(id: int, storeOk: bool) returns (write: ReadWrite)
      modifies this`notifications
      ensures write == ReadWrite(id, true)
      ensures notifications == if storeOk then MarkRead(old(notifications), id) else old(notifications)
    {
      write := ReadWrite(id, true);
      if storeOk {
        notifications := MarkRead(notifications, id);
      }
    }

    /** A click on a notification card marks it only when it is unread. */
    method OnNotificationClick(n: Notification, storeOk: bool) returns (write: Option<ReadWrite>)
      modifies this`notifications
      ensures write == if n.read then None else Some(ReadWrite(n.id, true))
      ensures notifications == if !n.read && storeOk then MarkRead(old(notifications), n.id)
                               else old(notifications)
    {
      if n.read {
        write := None;
      } else {
        var w := MarkNotificationAsRead(n.id, storeOk);
        write := Some(w);
      }
    }

    function UnreadBadge(): nat
      reads this
    {
      UnreadCount(notifications)
    }
  }
}
