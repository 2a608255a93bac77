/**
 Every committed transaction of the money side as one atomic update: payments,
 their transactions and refunds, the payment status of the order, and the
 corporate credit lines.
 */
module Billing {
  import opened Tables
  import opened Sums

  // ----- what an order owes -----

  function SettledWeight(o: OrderId): Payment -> int {
    (p: Payment) => if p.order == o && Settled(p) then p.amount else 0
  }

  function SettledTotal(db: Db, o: OrderId): int {
    Sum(db.payments, SettledWeight(o))
  }

  predicate CoveredBy(order: Order, settled: int) {
    order.total.Some? && order.total.value > 0 && settled >= order.total.value
  }

  predicate CustomerPayable(status: OrderStatus) {
    status.PendingPayment? || status.Confirmed?
  }

  predicate AcceptsPayment(status: OrderStatus, staff: bool) {
    if staff then !status.Cancelled? && !status.Failed? else CustomerPayable(status)
  }

  /** The amount to authorize now: the pending balance, or less if asked for. */
  function PayableAmount(order: Order, settled: int, requested: Option<int>): Result<int> {
    if order.total.None? || order.total.value <= 0 then Err(BadRequest)
    else
      var remaining := if order.total.value - settled > 0 then order.total.value - settled else 0;
      var amount := if requested.Some? then requested.value else remaining;
      if amount <= 0 then Err(BadRequest)
      else if amount > remaining then Err(Conflict)
      else Ok(amount)
  }

  /** The checks that hold under the order's row lock. */
  function Price(db: Db, o: OrderId, staff: bool, requested: Option<int>): Result<int> {
    if o >= |db.orders| then Err(NotFound)
    else
      var order := db.orders[o];
      var settled := SettledTotal(db, o);
      if !AcceptsPayment(order.status, staff) then Err(Conflict)
      else if Dispatchable(order.paymentStatus) || CoveredBy(order, settled) then Err(Conflict)
      else PayableAmount(order, settled, requested)
  }

  // ----- the order follows its payments -----

  predicate HasPayment(db: Db, o: OrderId, statuses: set<PaymentStatus>) {
    exists p :: 0 <= p < |db.payments| && db.payments[p].order == o && db.payments[p].status in statuses
  }

  predicate HasAuthorizedManual(db: Db, o: OrderId) {
    exists p :: 0 <= p < |db.payments| && db.payments[p].order == o && db.payments[p].status.Authorized?
                && ManualMeans(db.payments[p].means)
  }

  function SyncedOrder(db: Db, o: OrderId): Order
    requires o < |db.orders|
  {
    var order := db.orders[o];
    var covered := CoveredBy(order, SettledTotal(db, o));
    var status :=
      if covered then (if HasAuthorizedManual(db, o) then Authorized else Paid)
      else if HasPayment(db, o, {PaymentStatus.Pending, Processing}) then Processing
      else PaymentStatus.Pending;
    order.(paymentStatus := status,
           status := if covered && AwaitingPayment(order.status) then Requested else order.status)
  }

  function SyncTx(db: Db, o: OrderId): Db {
    if o < |db.orders| then db.(orders := db.orders[o := SyncedOrder(db, o)]) else db
  }

  // ----- payments booked by staff -----

  function Book(db: Db, o: OrderId, means: Means, amount: int): Db {
    db.(payments := db.payments + [Payment(o, means, Booked, amount, Authorized)],
        transactions := db.transactions + [Transaction(|db.payments|, TransactionKind.Authorization, amount, TransactionStatus.Success)])
  }

  function RegisterCheckTx(db: Db, o: OrderId, staff: bool, requested: Option<int>): Db {
    match Price(db, o, staff, requested)
    case Err(_) => db
    case Ok(amount) => SyncTx(Book(db, o, Check, amount), o)
  }

  /** The conditional update of the credit line; `seenLimit` was read before
      the transaction. */
  predicate CreditFits(db: Db, customer: CustomerId, seenLimit: int, amount: int) {
    && customer in db.accounts
    && db.accounts[customer].status.Active?
    && db.accounts[customer].limit == seenLimit
    && db.accounts[customer].used <= seenLimit - amount
  }

  function DrawCredit(db: Db, customer: CustomerId, amount: int): Db
    requires customer in db.accounts
  {
    var used := db.accounts[customer].used + amount;
    db.(accounts := db.accounts[customer := db.accounts[customer].(used := used)],
        movements := db.movements + [Movement(customer, MovementKind.Authorization, amount, used)])
  }

  function ApproveCreditTx(db: Db, o: OrderId, staff: bool, requested: Option<int>, seenLimit: int): Db {
    match Price(db, o, staff, requested)
    case Err(_) => db
    case Ok(amount) =>
      if CreditFits(db, db.orders[o].customer, seenLimit, amount)
      then SyncTx(DrawCredit(Book(db, o, CorporateCredit, amount), db.orders[o].customer, amount), o)
      else db
  }

  // ----- provider checkouts and CardNET sessions -----

  /** A card payment row is inserted before the provider is asked. */
  function OpenCardTx(db: Db, o: OrderId, amount: int, cardnet: bool): Db {
    if o < |db.orders| && amount > 0 then
      db.(payments := db.payments + [Payment(o, Card, if cardnet then Cardnet(false) else Checkout(false), amount, PaymentStatus.Pending)])
    else db
  }

  predicate CheckoutAnswer(status: PaymentStatus) {
    status.Pending? || status.Authorized? || status.Paid? || status.Failed?
  }

  function AnswerStatus(status: PaymentStatus): TransactionStatus {
    match status
    case Paid => TransactionStatus.Success
    case Authorized => TransactionStatus.Success
    case Failed => TransactionStatus.Failed
    case _ => TransactionStatus.Pending
  }

  /** The provider's answer to a generic checkout; the order is synchronised by
      a later commit. */
  function AnswerCheckoutTx(db: Db, p: PaymentId, status: PaymentStatus): Db {
    if p < |db.payments| && db.payments[p].channel == Checkout(false) && CheckoutAnswer(status) then
      db.(payments := db.payments[p := db.payments[p].(status := status, channel := Checkout(true))],
          transactions := db.transactions + [Transaction(p, TransactionKind.Authorization, db.payments[p].amount, AnswerStatus(status))])
    else db
  }

  function OpenSessionTx(db: Db, p: PaymentId, created: bool): Db {
    if p < |db.payments| && db.payments[p].channel == Cardnet(false) && db.payments[p].status.Pending? then
      if created then
        db.(payments := db.payments[p := db.payments[p].(status := Processing, channel := Cardnet(true))],
            transactions := db.transactions + [Transaction(p, TransactionKind.Authorization, db.payments[p].amount, TransactionStatus.Pending)])
      else
        db.(payments := db.payments[p := db.payments[p].(status := PaymentStatus.Failed)])
    else db
  }

  datatype ResponseCode = Approved | InFlight | Declined

  function PaymentStatusOf(code: ResponseCode): PaymentStatus {
    match code
    case Approved => Paid
    case InFlight => Processing
    case Declined => PaymentStatus.Failed
  }

  function CaptureStatusOf(status: PaymentStatus): TransactionStatus {
    match status
    case Paid => TransactionStatus.Success
    case Processing => TransactionStatus.Pending
    case Pending => TransactionStatus.Pending
    case _ => TransactionStatus.Failed
  }

  /** A session that is not settled yet; whoever settles it first wins. */
  predicate SessionOpen(db: Db, p: PaymentId) {
    p < |db.payments| && db.payments[p].channel == Cardnet(true) && !Terminal(db.payments[p].status)
  }

  /** What the other payments of the order of `p` have settled. */
  function SettledByOthers(db: Db, p: PaymentId): int
    requires p < |db.payments|
  {
    var o := db.payments[p].order;
    SettledTotal(db, o) - SettledWeight(o)(db.payments[p])
  }

  /** A confirmed capture the order cannot use: it is set aside for a refund. */
  predicate RejectedCapture(db: Db, p: PaymentId)
    requires p < |db.payments| && db.payments[p].order < |db.orders|
  {
    var order := db.orders[db.payments[p].order];
    !CustomerPayable(order.status) || CoveredBy(order, SettledByOthers(db, p))
  }

  /** One pending refund per capture, for the whole amount. */
  function RefundCapture(db: Db, p: PaymentId): Db
    requires p < |db.payments|
  {
    if exists r :: 0 <= r < |db.refunds| && db.refunds[r].payment == p then db
    else db.(refunds := db.refunds + [Refund(p, db.payments[p].order, db.payments[p].amount, RefundStatus.Pending)])
  }

  function Captured(db: Db, p: PaymentId, status: PaymentStatus): Db
    requires p < |db.payments|
  {
    db.(payments := db.payments[p := db.payments[p].(status := status)],
        transactions := db.transactions + [Transaction(p, Capture, db.payments[p].amount, CaptureStatusOf(status))])
  }

  function VerifyTx(db: Db, p: PaymentId, code: ResponseCode): Db {
    if SessionOpen(db, p) && db.payments[p].order < |db.orders| then
      var status := PaymentStatusOf(code);
      var captured := Captured(db, p, status);
      if status.Paid? && RejectedCapture(captured, p) then RefundCapture(captured, p)
      else SyncTx(captured, db.payments[p].order)
    else db
  }

  /** The customer came back through the cancel link. */
  function CancelRedirectTx(db: Db, p: PaymentId): Db {
    if SessionOpen(db, p) then
      var cancelled := db.(payments := db.payments[p := db.payments[p].(status := PaymentStatus.Cancelled)]);
      SyncTx(cancelled, db.payments[p].order).(
        transactions := db.transactions + [Transaction(p, Void, db.payments[p].amount, TransactionStatus.Failed)])
    else db
  }

  // ----- refunds -----

  function CommittedWeight(p: PaymentId): Refund -> int {
    (r: Refund) => if r.payment == p && !r.status.Failed? then r.amount else 0
  }

  function ReturnedWeight(p: PaymentId): Refund -> int {
    (r: Refund) => if r.payment == p && r.status.Success? then r.amount else 0
  }

  /** Pending refunds count too: two open ones must not both be paid out. */
  function Refundable(db: Db, p: PaymentId): int
    requires p < |db.payments|
  {
    db.payments[p].amount - Sum(db.refunds, CommittedWeight(p))
  }

  function RefundError(db: Db, p: PaymentId, amount: int): Option<Error> {
    if p >= |db.payments| then Some(NotFound)
    else if db.payments[p].means.CorporateCredit? then Some(Conflict)
    else if !db.payments[p].status.Paid? && !db.payments[p].status.Authorized? then Some(Conflict)
    else if amount <= 0 || amount > Refundable(db, p) then Some(BadRequest)
    else None
  }

  function RequestRefundTx(db: Db, p: PaymentId, amount: int): Db {
    if RefundError(db, p, amount).None?
    then db.(refunds := db.refunds + [Refund(p, db.payments[p].order, amount, RefundStatus.Pending)])
    else db
  }

  /** The money is back with the customer: the payment is Refunded once nothing
      of it is left, and a cancelled order that holds no more money says so. */
  function ApplyRefund(db: Db, r: RefundId): Db
    requires r < |db.refunds|
  {
    var p := db.refunds[r].payment;
    var booked := db.(transactions := db.transactions + [Transaction(p, RefundOut, db.refunds[r].amount, TransactionStatus.Success)]);
    var returned :=
      if p < |db.payments| && Sum(db.refunds, ReturnedWeight(p)) >= db.payments[p].amount
      then booked.(payments := db.payments[p := db.payments[p].(status := Refunded)])
      else booked;
    var o := db.refunds[r].order;
    if o < |db.orders| && db.orders[o].status.Cancelled? && !HasPayment(returned, o, {Paid, Authorized})
    then returned.(orders := db.orders[o := db.orders[o].(paymentStatus := Refunded)])
    else returned
  }

  function SettleRefundTx(db: Db, r: RefundId, success: bool): Db {
    if r < |db.refunds| && db.refunds[r].status.Pending? then
      var moved := db.(refunds := db.refunds[r := db.refunds[r].(status := if success then RefundStatus.Success else RefundStatus.Failed)]);
      if success then ApplyRefund(moved, r) else moved
    else db
  }

  // ----- corporate credit lines -----

  /** An operator sets the limit, never under what is already used. */
  function UpsertCreditTx(db: Db, c: CustomerId, limit: int, status: CreditStatus): Db {
    var used := if c in db.accounts then db.accounts[c].used else 0;
    if limit < used then db else db.(accounts := db.accounts[c := CreditAccount(limit, used, status)])
  }

  /** A customer asks for a line; an active one only leaves a note. */
  function RequestCreditTx(db: Db, c: CustomerId, limit: int): Db {
    if c in db.accounts && (db.accounts[c].status.Active? || db.accounts[c].status.Blocked?) then db
    else
      var used := if c in db.accounts then db.accounts[c].used else 0;
      db.(accounts := db.accounts[c := CreditAccount(limit, used, CreditStatus.Pending)])
  }

  function CloseCreditTx(db: Db, c: CustomerId): Db {
    if c !in db.accounts || db.accounts[c].status.Closed? then db
    else
      db.(accounts := db.accounts[c := db.accounts[c].(status := CreditStatus.Closed)],
          movements := db.movements + [Movement(c, MovementKind.Closed, 0, db.accounts[c].used)])
  }
}
