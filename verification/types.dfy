/**
 * The records the app exchanges with its backend (src/types/index.ts).
 * Money is kept in integer minor units (paise); timestamps are integers.
 * Records keep the fields that the modelled logic reads or stores.
 */
module Types {
  import opened Wrappers

  datatype VehicleType = Bike | Scooter | Car

  datatype User = User(
    id: string,
    name: string,
    email: string,
    phone: string,
    avatar: Option<string>,
    vehicleType: VehicleType,
    isOnline: bool,
    rating: real,
    totalDeliveries: int)

  /** The six order statuses of the `OrderStatus` enum. */
  datatype OrderStatus = Assigned | Accepted | Picked | EnRoute | Delivered | Cancelled

  /** The string value each enum member stands for. */
  function StatusName(s: OrderStatus): string {
    match s
    case Assigned => "assigned"
    case Accepted => "accepted"
    case Picked => "picked"
    case EnRoute => "en_route"
    case Delivered => "delivered"
    case Cancelled => "cancelled"
  }

  /** The enum member a status string names, if any. */
  function ParseStatus(name: string): (r: Option<OrderStatus>)
    ensures r.Some? ==> StatusName(r.value) == name
    ensures forall s: OrderStatus :: StatusName(s) == name ==> r == Some(s)
  {
    if name == "assigned" then Some(Assigned)
    else if name == "accepted" then Some(Accepted)
    else if name == "picked" then Some(Picked)
    else if name == "en_route" then Some(EnRoute)
    else if name == "delivered" then Some(Delivered)
    else if name == "cancelled" then Some(Cancelled)
    else None
  }

  datatype OrderItem = OrderItem(id: string, name: string, quantity: int, price: int)

  datatype OrderPayment = CashPayment | CardPayment | UpiPayment

  /**
   * A delivery order. `createdAt` is the parsed creation time; `None` stands
   * for a date string that does not parse (an Invalid Date).
   */
  datatype Order = Order(
    id: string,
    orderNumber: string,
    status: OrderStatus,
    customerName: string,
    customerPhone: string,
    items: seq<OrderItem>,
    totalAmount: int,
    deliveryFee: int,
    createdAt: Option<int>,
    paymentMethod: OrderPayment)

  /** The kind of a ledger entry (the `type` field of `Earnings`). */
  datatype EarningKind = DeliveryFee | Tip | Bonus | Penalty

  datatype PaymentMethod = Cash | Digital

  datatype SettlementStatus = Pending | Paid

  /** One ledger entry (`Earnings` in the source). */
  datatype Earning = Earning(
    id: string,
    orderId: string,
    amount: int,
    kind: EarningKind,
    date: string,
    paymentMethod: PaymentMethod,
    status: SettlementStatus)

  datatype Wallet = Wallet(balance: int, pendingAmount: int, totalEarnings: int, cashInHand: int)

  datatype TicketCategory = OrderIssue | Payment | Technical | OtherCategory
  datatype TicketStatus = Open | InProgress | Resolved | Closed
  datatype TicketPriority = Low | Medium | High

  datatype Ticket = Ticket(
    id: string,
    title: string,
    description: string,
    category: TicketCategory,
    status: TicketStatus,
    priority: TicketPriority,
    createdAt: string,
    updatedAt: string)

  /** The uniform envelope every backend call resolves to. */
  datatype ApiResponse<T> = ApiResponse(
    success: bool,
    data: Option<T>,
    message: Option<string>,
    error: Option<string>)
}
