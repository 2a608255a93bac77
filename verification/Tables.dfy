/**
 The database rows the dispatch and billing services share, and the small
 predicates over their status columns. No table ever loses a row, so a table is
 a sequence and the id of a row is its position. Money is in integer cents and
 time in integer milliseconds.
 */
module Tables {

  datatype Option<+T> = None | Some(value: T)

  datatype Error = NotFound | Forbidden | Conflict | BadRequest

  datatype Result<+T> = Ok(value: T) | Err(error: Error)

  type OrderId = nat
  type DriverId = nat
  type VehicleId = nat
  type AssignmentId = nat
  type OfferId = nat
  type PaymentId = nat
  type RefundId = nat
  type CustomerId = nat

  datatype OrderStatus =
    | Draft | PendingQuote | PendingCustomerConfirmation | PendingPayment | Confirmed
    | AssigningDriver | Requested | Assigned | Accepted | InProgress
    | Delivered | Cancelled | Failed

  datatype PaymentStatus = Pending | Processing | Authorized | Paid | Refunded | Failed | Cancelled | Expired

  datatype DriverStatus = Available | Busy | Offline | Suspended | Vacation

  datatype AssignmentStatus = Pending | Accepted | Rejected | Cancelled | Completed

  datatype OfferStatus = Pending | Accepted | Rejected | Expired | Cancelled

  datatype OfferMode = Manual | Auto

  datatype Service = Immediate | Scheduled(at: Option<int>)

  datatype Order = Order(
    customer: CustomerId,
    status: OrderStatus,
    paymentStatus: PaymentStatus,
    total: Option<int>,
    service: Service)

  datatype Driver = Driver(status: DriverStatus, approved: bool)

  datatype Assignment = Assignment(order: OrderId, driver: DriverId, vehicle: VehicleId, status: AssignmentStatus)

  datatype Offer = Offer(
    order: OrderId,
    driver: DriverId,
    vehicle: VehicleId,
    mode: OfferMode,
    status: OfferStatus,
    expiresAt: int,
    assignment: Option<AssignmentId>)

  datatype Means = Card | Cash | Transfer | Wallet | Check | CorporateCredit

  /** How a payment row is driven: booked by staff, by a generic provider
      checkout, or by a CardNET session. The flag tells whether the provider's
      first answer is stored yet. */
  datatype Channel = Booked | Checkout(answered: bool) | Cardnet(open: bool)

  datatype Payment = Payment(
    order: OrderId,
    means: Means,
    channel: Channel,
    amount: int,
    status: PaymentStatus)

  datatype TransactionKind = Authorization | Capture | Void | RefundOut

  datatype TransactionStatus = Pending | Success | Failed

  datatype Transaction = Transaction(payment: PaymentId, kind: TransactionKind, amount: int, status: TransactionStatus)

  datatype RefundStatus = Pending | Success | Failed

  datatype Refund = Refund(payment: PaymentId, order: OrderId, amount: int, status: RefundStatus)

  datatype CreditStatus = Pending | Active | Blocked | Rejected | Closed

  datatype CreditAccount = CreditAccount(limit: int, used: int, status: CreditStatus)

  datatype MovementKind = Authorization | Closed

  datatype Movement = Movement(customer: CustomerId, kind: MovementKind, amount: int, balanceAfter: int)

  datatype Db = Db(
    orders: seq<Order>,
    drivers: seq<Driver>,
    assignments: seq<Assignment>,
    offers: seq<Offer>,
    payments: seq<Payment>,
    transactions: seq<Transaction>,
    refunds: seq<Refund>,
    accounts: map<CustomerId, CreditAccount>,
    movements: seq<Movement>)

  // ----- status sets -----

  /** Paid orders still without a driver. */
  predicate Waiting(status: OrderStatus) {
    status.Requested? || status.AssigningDriver?
  }

  predicate Dispatchable(status: PaymentStatus) {
    status.Paid? || status.Authorized?
  }

  predicate Live(status: AssignmentStatus) {
    status.Pending? || status.Accepted?
  }

  predicate AwaitingPayment(status: OrderStatus) {
    status.Draft? || status.PendingQuote? || status.PendingCustomerConfirmation?
    || status.PendingPayment? || status.Confirmed?
  }

  predicate Terminal(status: PaymentStatus) {
    status.Paid? || status.Refunded?
  }

  predicate ManualMeans(m: Means) {
    m.Check? || m.CorporateCredit?
  }

  /** Money an order may be dispatched on. */
  predicate Settled(p: Payment) {
    p.status.Paid? || (p.status.Authorized? && ManualMeans(p.means))
  }

  predicate HasLiveAssignment(db: Db, o: OrderId) {
    exists i :: 0 <= i < |db.assignments| && db.assignments[i].order == o && Live(db.assignments[i].status)
  }

  predicate HasPendingOffer(db: Db, o: OrderId) {
    exists f :: 0 <= f < |db.offers| && db.offers[f].order == o && db.offers[f].status.Pending?
  }

  /** Scheduled orders enter the automatic cascade this long before pickup. */
  const SCHEDULED_LEAD_MS := 30 * 60_000

  /** Immediate orders, and scheduled ones already inside the lead window. */
  predicate DueNow(order: Order, now: int) {
    match order.service
    case Immediate => true
    case Scheduled(at) => at.Some? && at.value <= now + SCHEDULED_LEAD_MS
  }
}
