/** The admin order console: the status graph its buttons expose, the status
    update with its local list rewrite, the customer notification it requests,
    and the client-side filter and per-status tiles. */
module ManageOrders {
  import opened Collections
  import opened Text
  import opened Orders

  // ---------------------------------------------------------------------------
  // The status graph

  /** The statuses the console lets an admin move an order to from status `s`. */
  function NextActions(s: Status): set<Status>
  {
    match s
    case Pending => {Accepted, Rejected}
    case Accepted => {Preparing}
    case Preparing => {Ready}
    case Ready => {Delivered}
    case Rejected => {}
    case Delivered => {}
    case Cancelled => {}
  }

  /** How far along the lifecycle a status is. */
  function Stage(s: Status): nat
  {
    match s
    case Pending => 0
    case Cancelled => 0
    case Accepted => 1
    case Rejected => 1
    case Preparing => 2
    case Ready => 3
    case Delivered => 4
  }

  /** Every offered move goes exactly one stage forward: the graph has no back-edges or loops. */
  lemma NextActionsAdvance(s: Status, t: Status)
    requires t in NextActions(s)
    ensures Stage(t) == Stage(s) + 1
    ensures t != Pending && t != Cancelled
  {
  }

  /** Rejected, delivered and cancelled orders offer no further move; every other status offers one. */
  lemma TerminalStatuses(s: Status)
    ensures NextActions(s) == {} <==> s in {Rejected, Delivered, Cancelled}
  {
  }

  /** A run of statuses each reached from the previous by an offered move. */
  predicate OfferedRun(run: seq<Status>)
  {
    forall i :: 0 < i < |run| ==> run[i] in NextActions(run[i - 1])
  }

  /** Along any run of offered moves the stage grows by one per move, so no status
      is ever revisited and a run has at most five statuses. */
  lemma {:induction false} OfferedRunProgresses(run: seq<Status>)
    requires |run| >= 1
    requires OfferedRun(run)
    ensures Stage(run[|run| - 1]) == Stage(run[0]) + |run| - 1
    ensures |run| <= 5
    ensures NoDuplicates(run)
  {
    if |run| > 1 {
      var init := run[..|run| - 1];
      assert OfferedRun(init);
      OfferedRunProgresses(init);
      NextActionsAdvance(run[|run| - 2], run[|run| - 1]);
      forall i | 0 <= i < |run| ensures Stage(run[i]) == Stage(run[0]) + i {
        StageAlongRun(run, i);
      }
    }
  }

  lemma {:induction false} StageAlongRun(run: seq<Status>, i: nat)
    requires OfferedRun(run)
    requires i < |run|
    ensures Stage(run[i]) == Stage(run[0]) + i
  {
    if i > 0 {
      StageAlongRun(run, i - 1);
      NextActionsAdvance(run[i - 1], run[i]);
    }
  }

  /** An order placed as pending never reaches `cancelled` through the console. */
  lemma {:induction false} CancelledUnreachable(run: seq<Status>)
    requires |run| >= 1 && run[0] == Pending
    requires OfferedRun(run)
    ensures Cancelled !in run
  {
    forall i | 0 < i < |run| ensures run[i] != Cancelled {
      NextActionsAdvance(run[i - 1], run[i]);
    }
  }

  // ---------------------------------------------------------------------------
  // The buttons

  datatype Button = AcceptOrder | RejectOrder | StartPreparing | MarkReady | MarkDelivered

  /** The action buttons rendered under an order card. */
  function Buttons(s: Status): seq<Button>
  {
    match s
    case Pending => [AcceptOrder, RejectOrder]
    case Accepted => [StartPreparing]
    case Preparing => [MarkReady]
    case Ready => [MarkDelivered]
    case _ => []
  }

  /** The status a button requests directly; Accept and Reject only open the notes modal. */
  function DirectTarget(b: Button): Option<Status>
  {
    match b
    case AcceptOrder => None
    case RejectOrder => None
    case StartPreparing => Some(Preparing)
    case MarkReady => Some(Ready)
    case MarkDelivered => Some(Delivered)
  }

  /** The two choices of the notes modal. */
  const ModalChoices: set<Status> := {Accepted, Rejected}

  /** The statuses a button leads to, directly or through the modal. */
  function ButtonTargets(b: Button): set<Status>
  {
    match DirectTarget(b)
    case Some(t) => {t}
    case None => ModalChoices
  }

  function TargetsOf(bs: seq<Button>): set<Status>
  {
    if bs == [] then {} else ButtonTargets(bs[0]) + TargetsOf(bs[1..])
  }

  /** The buttons of an order card lead to exactly the moves of the status graph. */
  lemma ButtonsMatchGraph(s: Status)
    ensures TargetsOf(Buttons(s)) == NextActions(s)
  {
    var bs := Buttons(s);
    if |bs| == 2 {
      assert TargetsOf(bs) == ButtonTargets(bs[0]) + TargetsOf(bs[1..]);
      assert TargetsOf(bs[1..]) == ButtonTargets(bs[1]) + TargetsOf(bs[2..]);
    } else if |bs| == 1 {
      assert TargetsOf(bs) == ButtonTargets(bs[0]) + TargetsOf(bs[1..]);
    }
  }

  // ---------------------------------------------------------------------------
  // The status update

  /** The two timestamps of a status change. Each is its own read of the clock, so the
      two may differ, and the store's may differ from the local copy's. */
  datatype Stamps = Stamps(processedAt: string, updatedAt: string)

  /** The local copy of an order after a status change. */
  function Stamp(o: Order, status: Status, notes: string, processor: Option<string>, at: Stamps): (r: Order)
  {
    o.(status := status, adminNotes := notes, processedBy := processor,
       processedAt := Some(at.processedAt), updatedAt := at.updatedAt)
  }

  /** `prev.map(order => order.id === orderId ? {...stamped} : order)`. */
  function ApplyStatusUpdate(orders: seq<Order>, id: int, status: Status, notes: string,
                             processor: Option<string>, at: Stamps): seq<Order>
  {
    if orders == [] then []
    else
      var head := if orders[0].id == id then Stamp(orders[0], status, notes, processor, at) else orders[0];
      [head] + ApplyStatusUpdate(orders[1..], id, status, notes, processor, at)
  }

  /** The update rewrites only the orders with the given id, and in them only status,
      notes, processor and the two timestamps; everything else stays as it was. */
  lemma {:induction false} ApplyStatusUpdateEffect(orders: seq<Order>, id: int, status: Status,
                                                   notes: string, processor: Option<string>, at: Stamps)
    ensures var r := ApplyStatusUpdate(orders, id, status, notes, processor, at);
      && |r| == |orders|
      && (forall i :: 0 <= i < |orders| && orders[i].id != id ==> r[i] == orders[i])
      && (forall i :: 0 <= i < |orders| && orders[i].id == id ==>
            && r[i].status == status && r[i].adminNotes == notes
            && r[i].processedBy == processor && r[i].processedAt == Some(at.processedAt) && r[i].updatedAt == at.updatedAt
            && r[i].id == orders[i].id && r[i].customerId == orders[i].customerId
            && r[i].customerName == orders[i].customerName && r[i].customerPhone == orders[i].customerPhone
            && r[i].orderDetails == orders[i].orderDetails && r[i].totalAmount == orders[i].totalAmount
            && r[i].createdAt == orders[i].createdAt)
  {
    if orders != [] {
      ApplyStatusUpdateEffect(orders[1..], id, status, notes, processor, at);
    }
  }

  /** The update keeps every id, so a list with unique ids keeps them. */
  lemma {:induction false} ApplyStatusUpdateIds(orders: seq<Order>, id: int, status: Status,
                                                notes: string, processor: Option<string>, at: Stamps)
    ensures var r := ApplyStatusUpdate(orders, id, status, notes, processor, at);
      |r| == |orders| && forall i :: 0 <= i < |r| ==> r[i].id == orders[i].id
  {
    ApplyStatusUpdateEffect(orders, id, status, notes, processor, at);
  }

  /** `user?.id || null`: the processor written into the local list. */
  function LocalProcessor(actor: Option<string>): (r: Option<string>)
    ensures r.Some? <==> actor.Some? && actor.value != ""
    ensures r.Some? ==> r == actor
  {
    match actor
    case Some(id) => if id == "" then None else Some(id)
    case None => None
  }

  /** The fields written to the store in one update call. */
  datatype StatusWrite = StatusWrite(
    status: Status, adminNotes: string, processedBy: Option<string>, processedAt: string, updatedAt: string)

  // ---------------------------------------------------------------------------
  // The notification

  /** The arguments of the `create_notification` call. */
  datatype NotificationRequest = NotificationRequest(
    userId: string, title: string, message: string, kind: NotificationType, orderId: int)

  function NotificationKind(s: Status): NotificationType
  {
    if s == Accepted then Success else if s == Rejected then Error else Info
  }

  /** Accepted is announced as success and rejected as error; every other status as info. */
  lemma NotificationKindCases(s: Status)
    ensures NotificationKind(s) == Success <==> s == Accepted
    ensures NotificationKind(s) == Error <==> s == Rejected
    ensures NotificationKind(s) == Info <==> s !in {Accepted, Rejected}
    ensures NotificationKind(s) != Warning
  {
  }

  function MessageHead(orderId: int, s: Status): string
  {
    "Your order #" + IntToString(orderId) + " has been " + StatusName(s) + ". "
  }

  /** The notification text; the note part is present only for non-empty notes. */
  function NotificationMessage(orderId: int, s: Status, notes: string): string
  {
    MessageHead(orderId, s) + (if notes != "" then "Note: " + notes else "")
  }

  /** The message names the order and the new status, and ends with "Note: <notes>"
      exactly when the notes are non-empty. */
  lemma NotificationMessageContents(orderId: int, s: Status, notes: string)
    ensures StartsWith(NotificationMessage(orderId, s, notes), "Your order #" + IntToString(orderId) + " ")
    ensures Includes(NotificationMessage(orderId, s, notes), StatusName(s))
    ensures EndsWith(NotificationMessage(orderId, s, notes), "Note: " + notes) <==> notes != ""
  {
    var m := NotificationMessage(orderId, s, notes);
    var pre := "Your order #" + IntToString(orderId) + " has been ";
    var post := ". " + (if notes != "" then "Note: " + notes else "");
    assert m == pre + StatusName(s) + post;
    IncludesMiddle(pre, StatusName(s), post);
    assert m[..|"Your order #" + IntToString(orderId) + " "|] == "Your order #" + IntToString(orderId) + " ";
    if notes == "" {
      assert m[|m| - 2] == '.';
      assert ("Note: " + notes)[0] == 'N';
    } else {
      assert m[|m| - |"Note: " + notes|..] == "Note: " + notes;
    }
  }

  function OrderNotification(customerId: string, orderId: int, s: Status, notes: string): NotificationRequest
  {
    NotificationRequest(customerId, "Order Status Updated", NotificationMessage(orderId, s, notes),
                        NotificationKind(s), orderId)
  }

  /** The notification requested after a successful update: one for the order's
      customer when the order is in the list, none otherwise. */
  function NotificationFor(orders: seq<Order>, orderId: int, s: Status, notes: string): (r: Option<NotificationRequest>)
    ensures r.Some? <==> exists i :: 0 <= i < |orders| && orders[i].id == orderId
    ensures r.Some? ==> exists i :: 0 <= i < |orders| && orders[i].id == orderId
                                    && r.value.userId == orders[i].customerId
    ensures r.Some? ==> r.value.orderId == orderId && r.value.kind == NotificationKind(s)
  {
    match FindOrder(orders, orderId)
    case None => None
    case Some(o) => Some(OrderNotification(o.customerId, orderId, s, notes))
  }

  /** The console lets the admin request `status` for `orderId`: the move is in the graph
      for the listed order (the function itself does no check, so an id not in the list
      is not constrained). */
  predicate Offered(orders: seq<Order>, orderId: int, status: Status)
  {
    match FindOrder(orders, orderId)
    case None => true
    case Some(o) => status in NextActions(o.status)
  }

  // ---------------------------------------------------------------------------
  // Filtering and tiles

  datatype OrderFilter = AllOrders | OnlyStatus(status: Status)

  /** The filter state's type offers 'all' and every status but `cancelled`. */
  predicate Selectable(f: OrderFilter)
  {
    f.AllOrders? || f.status != Cancelled
  }

  predicate Shown(f: OrderFilter, o: Order)
  {
    match f
    case AllOrders => true
    case OnlyStatus(s) => o.status == s
  }

  function FilteredOrders(orders: seq<Order>, f: OrderFilter): seq<Order>
  {
    Filter(orders, (o: Order) => Shown(f, o))
  }

  /** `orders.filter(o => o.status === s).length`. */
  function StatusCount(orders: seq<Order>, s: Status): nat
  {
    Count(orders, (o: Order) => o.status == s)
  }

  /** The six tiles; `cancelled` has none. */
  datatype StatusCounts = StatusCounts(
    pending: nat, accepted: nat, rejected: nat, preparing: nat, ready: nat, delivered: nat)

  function Tiles(orders: seq<Order>): StatusCounts
  {
    StatusCounts(StatusCount(orders, Pending), StatusCount(orders, Accepted), StatusCount(orders, Rejected),
                 StatusCount(orders, Preparing), StatusCount(orders, Ready), StatusCount(orders, Delivered))
  }

  /** 'All' shows every order; a status filter shows exactly the orders with that status,
      in list order. */
  lemma FilteredOrdersSpec(orders: seq<Order>, f: OrderFilter)
    ensures f == AllOrders ==> FilteredOrders(orders, f) == orders
    ensures forall o :: o in FilteredOrders(orders, f) <==> o in orders && Shown(f, o)
    ensures IsSublist(FilteredOrders(orders, f), orders)
    ensures forall o :: multiset(FilteredOrders(orders, f))[o] == if Shown(f, o) then multiset(orders)[o] else 0
  {
    forall o ensures multiset(FilteredOrders(orders, f))[o] == if Shown(f, o) then multiset(orders)[o] else 0 {
      FilterMultiset(orders, (o: Order) => Shown(f, o), o);
    }
    if f == AllOrders {
      FilterKeepsAll(orders, (o: Order) => Shown(f, o));
    }
    forall o ensures o in FilteredOrders(orders, f) <==> o in orders && Shown(f, o) {
      FilterMembership(orders, (o: Order) => Shown(f, o), o);
    }
    FilterIsSublist(orders, (o: Order) => Shown(f, o));
  }

  /** A status filter shows as many orders as its tile counts. */
  lemma {:induction false} FilterMatchesTile(orders: seq<Order>, s: Status)
    ensures |FilteredOrders(orders, OnlyStatus(s))| == StatusCount(orders, s)
  {
    if orders != [] {
      FilterMatchesTile(orders[1..], s);
    }
  }

  /** The six tiles and the cancelled orders together count every order once. */
  lemma {:induction false} TilesPartition(orders: seq<Order>)
    ensures var t := Tiles(orders);
      t.pending + t.accepted + t.rejected + t.preparing + t.ready + t.delivered
        + StatusCount(orders, Cancelled) == |orders|
  {
    if orders != [] {
      TilesPartition(orders[1..]);
    }
  }

  // ---------------------------------------------------------------------------
  // The console state

  class Console {
    var orders: seq<Order>
    var filter: OrderFilter
    var selectedOrder: Option<Order>
    var adminNotes: string

    /** Ids are unique, the filter is one the screen offers, and an open modal belongs
        to a listed pending order. */
    ghost predicate Valid()
      reads this
    {
      && UniqueIds(orders)
      && Selectable(filter)
      && (selectedOrder.Some? ==>
            FindOrder(orders, selectedOrder.value.id) == Some(selectedOrder.value)
            && selectedOrder.value.status == Pending)
    }

    constructor ()
      ensures Valid()
      ensures orders == [] && filter == AllOrders && selectedOrder == None && adminNotes == ""
    {
      orders := [];
      filter := AllOrders;
      selectedOrder := None;
      adminNotes := "";
    }

    /** `fetchOrders`: the fetched rows replace the list; a failed fetch keeps it. */
    method Load(ok: bool, data: seq<Order>)
      requires Valid() && selectedOrder.None?
      requires UniqueIds(data)
      modifies this`orders
      ensures Valid()
      ensures orders == if ok then data else old(orders)
    {
      if ok {
        orders := data;
      }
    }

    method SetFilter(f: OrderFilter)
      requires Valid() && Selectable(f)
      modifies this`filter
      ensures Valid()
      ensures filter == f
    {
      filter := f;
    }

    /** Accept or Reject on a pending card: open the modal with empty notes. */
    method OpenActionModal(order: Order)
      requires Valid()
      requires order in orders && order.status == Pending
      modifies this`selectedOrder, this`adminNotes
      ensures Valid()
      ensures selectedOrder == Some(order) && adminNotes == ""
    {
      FindUnique(orders, order);
      selectedOrder := Some(order);
      adminNotes := "";
    }

    method EditNotes(text: string)
      modifies this`adminNotes
      ensures adminNotes == text
    {
      adminNotes := text;
    }

    /** The modal's Cancel button. */
    method CancelModal()
      requires Valid()
      modifies this`selectedOrder, this`adminNotes
      ensures Valid()
      ensures selectedOrder == None && adminNotes == ""
    {
      selectedOrder := None;
      adminNotes := "";
    }

    /** `updateOrderStatus`: write the new status to the store; on success rewrite the
        local list, request the customer notification and close the modal; on a store
        error change nothing. `actor` is the signed-in user's id. The handler reads the
        clock four times: `storeClock` holds the two reads sent to the store and
        `localClock` the two taken afterwards for the local copy. */
    method UpdateOrderStatus(orderId: int, status: Status, notes: string, actor: Option<string>,
                             storeClock: Stamps, localClock: Stamps, storeOk: bool)
      returns (write: StatusWrite, notice: Option<NotificationRequest>)
      requires Valid()
      requires Offered(orders, orderId, status)
      modifies this`orders, this`selectedOrder, this`adminNotes
      ensures Valid()
      ensures write == StatusWrite(status, notes, actor, storeClock.processedAt, storeClock.updatedAt)
      ensures storeOk ==>
        && orders == ApplyStatusUpdate(old(orders), orderId, status, notes, LocalProcessor(actor), localClock)
        && notice == NotificationFor(old(orders), orderId, status, notes)
        && selectedOrder == None && adminNotes == ""
      ensures !storeOk ==>
        && orders == old(orders) && notice == None
        && selectedOrder == old(selectedOrder) && adminNotes == old(adminNotes)
    {
      write := StatusWrite(status, notes, actor, storeClock.processedAt, storeClock.updatedAt);
      notice := None;
      if storeOk {
        var before := orders;
        ApplyStatusUpdateIds(before, orderId, status, notes, LocalProcessor(actor), localClock);
        orders := ApplyStatusUpdate(before, orderId, status, notes, LocalProcessor(actor), localClock);
        notice := NotificationFor(before, orderId, status, notes);
        selectedOrder := None;
        adminNotes := "";
      }
    }

    /** The modal's Accept or Reject button: update the selected order with the typed notes. */
    method ConfirmModal(choice: Status, actor: Option<string>, storeClock: Stamps, localClock: Stamps,
                        storeOk: bool)
      returns (write: StatusWrite, notice: Option<NotificationRequest>)
      requires Valid()
      requires selectedOrder.Some? && choice in ModalChoices
      modifies this`orders, this`selectedOrder, this`adminNotes
      ensures Valid()
      ensures write == StatusWrite(choice, old(adminNotes), actor, storeClock.processedAt, storeClock.updatedAt)
      ensures storeOk ==>
        && orders == ApplyStatusUpdate(old(orders), old(selectedOrder).value.id, choice, old(adminNotes),
                                       LocalProcessor(actor), localClock)
        && notice == Some(OrderNotification(old(selectedOrder).value.customerId, old(selectedOrder).value.id,
                                            choice, old(adminNotes)))
        && selectedOrder == None && adminNotes == ""
      ensures !storeOk ==>
        && orders == old(orders) && notice == None
        && selectedOrder == old(selectedOrder) && adminNotes == old(adminNotes)
    {
      var order := selectedOrder.value;
      write, notice := UpdateOrderStatus(order.id, choice, adminNotes, actor, storeClock, localClock, storeOk);
    }

    /** Start Preparing, Mark as Ready or Mark as Delivered: request the card's next
        status directly, with empty notes. */
    method Advance(order: Order, button: Button, actor: Option<string>, storeClock: Stamps,
                   localClock: Stamps, storeOk: bool)
      returns (write: StatusWrite, notice: Option<NotificationRequest>)
      requires Valid()
      requires order in orders && button in Buttons(order.status) && DirectTarget(button).Some?
      modifies this`orders, this`selectedOrder, this`adminNotes
      ensures Valid()
      ensures write == StatusWrite(DirectTarget(button).value, "", actor, storeClock.processedAt,
                                   storeClock.updatedAt)
      ensures storeOk ==>
        && orders == ApplyStatusUpdate(old(orders), order.id, DirectTarget(button).value, "",
                                       LocalProcessor(actor), localClock)
        && notice == Some(OrderNotification(order.customerId, order.id, DirectTarget(button).value, ""))
        && selectedOrder == None && adminNotes == ""
      ensures !storeOk ==>
        && orders == old(orders) && notice == None
        && selectedOrder == old(selectedOrder) && adminNotes == old(adminNotes)
    {
      FindUnique(orders, order);
      write, notice := UpdateOrderStatus(order.id, DirectTarget(button).value, "", actor, storeClock,
                                         localClock, storeOk);
    }

    function Visible(): seq<Order>
      reads this
    {
      FilteredOrders(orders, filter)
    }
  }
}
