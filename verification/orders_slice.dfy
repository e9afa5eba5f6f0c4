/**
 * The orders slice of the store (src/store/slices/ordersSlice.ts): active
 * orders, order history, the order on screen, and the reducers that apply
 * backend responses to them.
 */
module OrdersSlice {
  import opened Wrappers
  import opened Types
  import Lists

  /** The `order.id === id` test the reducers and screens search with. */
  function HasId(id: string): Order -> bool {
    (o: Order) => o.id == id
  }

  /** Every action the orders slice can be sent: its own reducers and the lifecycle actions of its thunks. */
  datatype OrdersAction =
    | SetCurrentOrderAction(current: Option<Order>)
    | ClearErrorAction
    | AddNewOrderAction(order: Order)
    | UpdateOrderInListAction(order: Order)
    | FetchActivePending
    | FetchActiveFulfilled(orders: ApiResponse<seq<Order>>)
    | FetchActiveRejected(message: Option<string>)
    | FetchHistoryPending
    | FetchHistoryFulfilled(orders: ApiResponse<seq<Order>>)
    | FetchHistoryRejected(message: Option<string>)
    | AcceptPending
    | AcceptFulfilled(result: ApiResponse<Order>)
    | AcceptRejected(message: Option<string>)
    | RejectPending
    | RejectFulfilled(ack: ApiResponse<Order>)
    | RejectRejected(message: Option<string>)
    | UpdateStatusPending
    | UpdateStatusFulfilled(result: ApiResponse<Order>)
    | UpdateStatusRejected(message: Option<string>)

  /** The actions the slice has a case for; every other action leaves the state as it is. */
  predicate Handled(a: OrdersAction) {
    a.SetCurrentOrderAction? || a.ClearErrorAction? || a.AddNewOrderAction? || a.UpdateOrderInListAction? ||
    a.FetchActivePending? || a.FetchActiveFulfilled? || a.FetchActiveRejected? ||
    a.FetchHistoryFulfilled? || a.AcceptFulfilled? || a.UpdateStatusFulfilled?
  }

  /** No case reacts to `rejectOrder`: a rejected order is not removed from the active list. */
  lemma RejectOrderIsUnhandled(a: OrdersAction)
    requires a.RejectPending? || a.RejectFulfilled? || a.RejectRejected?
    ensures !Handled(a)
  {
  }

  /** Sending the same `updateOrderInList` payload twice has the effect of sending it once. */
  lemma UpdateOrderInListIdempotent(active: seq<Order>, order: Order)
    ensures Lists.ReplaceFirst(Lists.ReplaceFirst(active, HasId(order.id), order), HasId(order.id), order)
         == Lists.ReplaceFirst(active, HasId(order.id), order)
  {
    Lists.ReplaceFirstIdempotent(active, HasId(order.id), order);
  }

  class OrdersState {
    var activeOrders: seq<Order>
    var orderHistory: seq<Order>
    var currentOrder: Option<Order>
    var isLoading: bool
    var error: Option<string>

    /** `initialState`: no orders, nothing on screen, idle, no error. */
    constructor ()
      ensures activeOrders == [] && orderHistory == [] && currentOrder == None
      ensures !isLoading && error == None
    {
      activeOrders := [];
      orderHistory := [];
      currentOrder := None;
      isLoading := false;
      error := None;
    }

    /** `setCurrentOrder`. */
    method SetCurrentOrder(current: Option<Order>)
      modifies this
      ensures currentOrder == current
      ensures activeOrders == old(activeOrders) && orderHistory == old(orderHistory)
      ensures isLoading == old(isLoading) && error == old(error)
    {
      currentOrder := current;
    }

    /** `clearError`: forgets the error and nothing else. */
    method ClearError()
      modifies this
      ensures error == None
      ensures activeOrders == old(activeOrders) && orderHistory == old(orderHistory)
      ensures currentOrder == old(currentOrder) && isLoading == old(isLoading)
    {
      error := None;
    }

    /** `addNewOrder`: the new order goes to the head of the active list; the history is untouched. */
    method AddNewOrder(order: Order)
      modifies this
      ensures activeOrders == [order] + old(activeOrders)
      ensures |activeOrders| == |old(activeOrders)| + 1 && activeOrders[0] == order
      ensures orderHistory == old(orderHistory) && currentOrder == old(currentOrder)
      ensures isLoading == old(isLoading) && error == old(error)
    {
      activeOrders := [order] + activeOrders;
    }

    /**
     * The shared `findIndex` + indexed assignment: the first active order
     * with the same id is replaced; without one nothing changes.
     */
    method ReplaceActive(order: Order)
      modifies this`activeOrders
      ensures activeOrders == Lists.ReplaceFirst(old(activeOrders), HasId(order.id), order)
    {
      var index := Lists.FindIndex(activeOrders, HasId(order.id));
      if index.Some? {
        activeOrders := activeOrders[index.value := order];
      }
    }

    /**
     * `updateOrderInList`: replaces the first active order with the
     * payload's id; the length and every other position stay as they were,
     * and an unknown id changes nothing.
     */
    method UpdateOrderInList(order: Order)
      modifies this
      ensures activeOrders == Lists.ReplaceFirst(old(activeOrders), HasId(order.id), order)
      ensures orderHistory == old(orderHistory) && currentOrder == old(currentOrder)
      ensures isLoading == old(isLoading) && error == old(error)
    {
      ReplaceActive(order);
    }

    /** `fetchActiveOrders.pending`. */
    method FetchActivePendingCase()
      modifies this
      ensures isLoading
      ensures activeOrders == old(activeOrders) && orderHistory == old(orderHistory)
      ensures currentOrder == old(currentOrder) && error == old(error)
    {
      isLoading := true;
    }

    /**
     * `fetchActiveOrders.fulfilled`: stops loading; on success the active
     * list becomes the returned list, or empty when none came back.
     */
    method FetchActiveFulfilledCase(response: ApiResponse<seq<Order>>)
      modifies this
      ensures !isLoading
      ensures response.success ==> activeOrders == response.data.GetOr([])
      ensures !response.success ==> activeOrders == old(activeOrders)
      ensures orderHistory == old(orderHistory) && currentOrder == old(currentOrder) && error == old(error)
    {
      isLoading := false;
      if response.success {
        activeOrders := response.data.GetOr([]);
      }
    }

    /** `fetchActiveOrders.rejected`: stops loading and records a non-empty error message. */
    method FetchActiveRejectedCase(message: Option<string>)
      modifies this
      ensures !isLoading
      ensures error == Some(OrElse(message, "Failed to fetch orders")) && error.value != ""
      ensures activeOrders == old(activeOrders) && orderHistory == old(orderHistory)
      ensures currentOrder == old(currentOrder)
    {
      isLoading := false;
      error := Some(OrElse(message, "Failed to fetch orders"));
    }

    /**
     * `fetchOrderHistory.fulfilled`: on success the history becomes the
     * returned list, or empty when none came back; the active list is untouched.
     */
    method FetchHistoryFulfilledCase(response: ApiResponse<seq<Order>>)
      modifies this
      ensures response.success ==> orderHistory == response.data.GetOr([])
      ensures !response.success ==> orderHistory == old(orderHistory)
      ensures activeOrders == old(activeOrders) && currentOrder == old(currentOrder)
      ensures isLoading == old(isLoading) && error == old(error)
    {
      if response.success {
        orderHistory := response.data.GetOr([]);
      }
    }

    /**
     * `acceptOrder.fulfilled`: with a successful response carrying an order,
     * the matching active order is replaced and the returned order becomes the
     * current one, even when it is not in the active list. Any other response
     * changes nothing.
     */
    method AcceptFulfilledCase(response: ApiResponse<Order>)
      modifies this
      ensures response.success && response.data.Some? ==>
                var order := response.data.value;
                activeOrders == Lists.ReplaceFirst(old(activeOrders), HasId(order.id), order) &&
                currentOrder == Some(order)
      ensures !(response.success && response.data.Some?) ==>
                activeOrders == old(activeOrders) && currentOrder == old(currentOrder)
      ensures orderHistory == old(orderHistory) && isLoading == old(isLoading) && error == old(error)
    {
      if response.success && response.data.Some? {
        var order := response.data.value;
        ReplaceActive(order);
        currentOrder := Some(order);
      }
    }

    /**
     * `updateOrderStatus.fulfilled`: with a successful response carrying an
     * order, the matching active order is replaced, and the current order is
     * replaced only when it has the same id. No transition is checked, and a
     * delivered order stays in the active list (nothing moves to the history).
     */
    method UpdateStatusFulfilledCase(response: ApiResponse<Order>)
      modifies this
      ensures response.success && response.data.Some? ==>
                var order := response.data.value;
                activeOrders == Lists.ReplaceFirst(old(activeOrders), HasId(order.id), order) &&
                currentOrder == (if old(currentOrder).Some? && old(currentOrder).value.id == order.id
                                 then Some(order) else old(currentOrder))
      ensures !(response.success && response.data.Some?) ==>
                activeOrders == old(activeOrders) && currentOrder == old(currentOrder)
      ensures orderHistory == old(orderHistory) && isLoading == old(isLoading) && error == old(error)
    {
      if response.success && response.data.Some? {
        var order := response.data.value;
        ReplaceActive(order);
        if currentOrder.Some? && currentOrder.value.id == order.id {
          currentOrder := Some(order);
        }
      }
    }

    /**
     * The slice's reducer: routes each handled action to its case; an
     * action without a case (every `rejectOrder` action among them) leaves
     * every field as it was.
     */
    method Dispatch(a: OrdersAction)
      modifies this
      ensures !Handled(a) ==>
                activeOrders == old(activeOrders) && orderHistory == old(orderHistory) &&
                currentOrder == old(currentOrder) && isLoading == old(isLoading) && error == old(error)
    {
      match a
      case SetCurrentOrderAction(current) => SetCurrentOrder(current);
      case ClearErrorAction => ClearError();
      case AddNewOrderAction(order) => AddNewOrder(order);
      case UpdateOrderInListAction(order) => UpdateOrderInList(order);
      case FetchActivePending => FetchActivePendingCase();
      case FetchActiveFulfilled(response) => FetchActiveFulfilledCase(response);
      case FetchActiveRejected(message) => FetchActiveRejectedCase(message);
      case FetchHistoryFulfilled(response) => FetchHistoryFulfilledCase(response);
      case AcceptFulfilled(response) => AcceptFulfilledCase(response);
      case UpdateStatusFulfilled(response) => UpdateStatusFulfilledCase(response);
      case _ =>
    }
  }
}
