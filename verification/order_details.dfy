/**
 * The logic of the order-details screen
 * (src/screens/orders/OrderDetailsScreen.tsx): finding the order, the next
 * action the driver is offered, the reject button, and the payment summary.
 */
module OrderDetails {
  import opened Wrappers
  import opened Types
  import Lists
  import OrdersSlice

  // ---------------------------------------------------------------------
  // Lookup

  /**
   * `[...activeOrders, ...orderHistory].find(o => o.id === orderId)`; `None`
   * renders the "Order not found" branch.
   */
  function LookupOrder(activeOrders: seq<Order>, orderHistory: seq<Order>, orderId: string): (r: Option<Order>)
    ensures r.Some? ==> r.value.id == orderId && (r.value in activeOrders || r.value in orderHistory)
    ensures r.None? <==> (forall o :: o in activeOrders ==> o.id != orderId) &&
                         (forall o :: o in orderHistory ==> o.id != orderId)
    ensures (forall o :: o in activeOrders ==> o.id != orderId) ==>
              r == Lists.Find(orderHistory, OrdersSlice.HasId(orderId))
  {
    var all := activeOrders + orderHistory;
    var p := OrdersSlice.HasId(orderId);
    var r := Lists.Find(all, p);
    assert forall o :: o in all <==> o in activeOrders || o in orderHistory;
    assert r.None? <==> forall j :: 0 <= j < |all| ==> all[j].id != orderId;
    if forall o :: o in activeOrders ==> o.id != orderId then
      Lists.FindSkipsNonMatchingPrefix(activeOrders, orderHistory, p);
      r
    else
      r
  }

  /**
   * The active list is searched first: when an active order has the id, the
   * result is the first such active order, whatever the history holds.
   */
  lemma LookupPrefersActive(activeOrders: seq<Order>, orderHistory: seq<Order>, orderId: string, i: nat)
    requires i < |activeOrders| && activeOrders[i].id == orderId
    ensures LookupOrder(activeOrders, orderHistory, orderId) == Lists.Find(activeOrders, OrdersSlice.HasId(orderId))
    ensures LookupOrder(activeOrders, orderHistory, orderId).Some?
    ensures LookupOrder(activeOrders, orderHistory, orderId).value in activeOrders
  {
    var all := activeOrders + orderHistory;
    var p := OrdersSlice.HasId(orderId);
    var k := Lists.FindIndex(activeOrders, p);
    assert p(activeOrders[i]);
    assert k.Some?;
    assert Lists.IsFirstMatch(all, p, k.value);
    assert Lists.FindIndex(all, p) == k;
  }

  // ---------------------------------------------------------------------
  // Next action

  /** What the main button does: accept the order, or ask for a new status. */
  datatype ActionKind = AcceptOrder | UpdateStatus(target: OrderStatus)

  datatype NextAction = NextAction(title: string, kind: ActionKind)

  /**
   * `getNextAction`: assigned orders can be accepted; accepted, picked and
   * en-route orders can be moved one status on; delivered and cancelled
   * orders offer no action.
   */
  function GetNextAction(status: OrderStatus): (r: Option<NextAction>)
    ensures r.None? <==> status == Delivered || status == Cancelled
    ensures r.Some? && r.value.kind.UpdateStatus? ==> r.value.kind.target != Cancelled
    ensures r.Some? && r.value.kind.AcceptOrder? <==> status == Assigned
  {
    match status
    case Assigned => Some(NextAction("Accept Order", AcceptOrder))
    case Accepted => Some(NextAction("Mark as Picked", UpdateStatus(Picked)))
    case Picked => Some(NextAction("Start Delivery", UpdateStatus(EnRoute)))
    case EnRoute => Some(NextAction("Mark as Delivered", UpdateStatus(Delivered)))
    case _ => None
  }

  /** The fixed order lifecycle, in order. */
  const Lifecycle: seq<OrderStatus> := [Assigned, Accepted, Picked, EnRoute, Delivered]

  /** The position of a status in the lifecycle; cancelled has none. */
  function Position(s: OrderStatus): (r: Option<nat>)
    ensures r.Some? ==> r.value < |Lifecycle| && Lifecycle[r.value] == s
    ensures r.None? <==> s == Cancelled
  {
    match s
    case Assigned => Some(0)
    case Accepted => Some(1)
    case Picked => Some(2)
    case EnRoute => Some(3)
    case Delivered => Some(4)
    case Cancelled => None
  }

  /** The status an action asks for: accepting asks for `accepted`. */
  function Requested(k: ActionKind): OrderStatus {
    match k
    case AcceptOrder => Accepted
    case UpdateStatus(t) => t
  }

  /**
   * Every action offered asks for the immediate successor in the lifecycle:
   * it never goes back, never skips a status, and never cancels.
   */
  lemma NextActionIsSuccessor(status: OrderStatus)
    requires GetNextAction(status).Some?
    ensures Position(status).Some? && Position(status).value + 1 < |Lifecycle|
    ensures Lifecycle[Position(status).value + 1] == Requested(GetNextAction(status).value.kind)
  {
  }

  /** Conversely, every non-final lifecycle status offers exactly its successor. */
  lemma SuccessorIsOffered(i: nat)
    requires i + 1 < |Lifecycle|
    ensures GetNextAction(Lifecycle[i]).Some?
    ensures Requested(GetNextAction(Lifecycle[i]).value.kind) == Lifecycle[i + 1]
  {
  }

  /** Following the offered actions `n` times, if they last that long. */
  function Follow(status: OrderStatus, n: nat): Option<OrderStatus>
    decreases n
  {
    if n == 0 then Some(status)
    else match GetNextAction(status)
      case None => None
      case Some(a) => Follow(Requested(a.kind), n - 1)
  }

  /** From lifecycle position `i`, following the actions reaches `delivered` after `4 - i` steps. */
  lemma {:induction false} FollowReachesDelivered(i: nat)
    requires i < |Lifecycle|
    ensures Follow(Lifecycle[i], |Lifecycle| - 1 - i) == Some(Delivered)
    decreases |Lifecycle| - i
  {
    if i + 1 < |Lifecycle| {
      SuccessorIsOffered(i);
      FollowReachesDelivered(i + 1);
    }
  }

  /**
   * A new order is delivered after exactly four actions, not sooner, and
   * nothing is offered after that.
   */
  lemma AssignedToDeliveredInFour()
    ensures Follow(Assigned, 4) == Some(Delivered)
    ensures forall n: nat :: n < 4 ==> Follow(Assigned, n) != Some(Delivered)
    ensures GetNextAction(Delivered).None?
  {
    FollowReachesDelivered(0);
    assert Follow(Assigned, 1) == Some(Accepted);
    assert Follow(Assigned, 2) == Some(Picked);
    assert Follow(Assigned, 3) == Some(EnRoute);
  }

  /**
   * The reject button sits inside the block shown only when there is a next
   * action, and is shown only for assigned orders.
   */
  function ShowRejectButton(status: OrderStatus): (r: bool)
    ensures r <==> status == Assigned
  {
    GetNextAction(status).Some? && status == Assigned
  }

  // ---------------------------------------------------------------------
  // Payment summary

  /** Each item line shows price times quantity. */
  function LineTotal(item: OrderItem): (r: int)
    ensures item.price >= 0 && item.quantity >= 0 ==> r >= 0
    ensures item.quantity == 0 ==> r == 0
    ensures item.quantity == 1 ==> r == item.price
  {
    item.price * item.quantity
  }

  /** The sum of the item lines. */
  function ItemsTotal(items: seq<OrderItem>): int {
    if items == [] then 0 else LineTotal(items[0]) + ItemsTotal(items[1..])
  }

  /** Items with non-negative prices and quantities never add up to a negative sum. */
  lemma {:induction false} ItemsTotalNonNegative(items: seq<OrderItem>)
    requires forall i :: 0 <= i < |items| ==> items[i].price >= 0 && items[i].quantity >= 0
    ensures ItemsTotal(items) >= 0
  {
    if items != [] {
      ItemsTotalNonNegative(items[1..]);
    }
  }

  /** The subtotal row: the total amount less the delivery fee, so the two rows add up to the total. */
  function Subtotal(o: Order): (r: int)
    ensures r + o.deliveryFee == o.totalAmount
  {
    o.totalAmount - o.deliveryFee
  }

  /**
   * The subtotal is derived from the total, not from the items: it matches
   * the item lines exactly when the order's total is items plus delivery fee.
   */
  lemma SubtotalMatchesItemsIff(o: Order)
    ensures Subtotal(o) == ItemsTotal(o.items) <==> o.totalAmount == ItemsTotal(o.items) + o.deliveryFee
  {
  }
}
