/**
 What each billing step does to the tables, said in terms of the rows and of the
 money on the order.
 */
module BillingOutcomes {
  import opened Tables
  import opened Sums
  import opened Billing
  import opened LedgerInvariants
  import opened LedgerSteps
  import opened Protocol
  import opened Transitions

  // ----- the money on an order -----

  /** A paid payment counts, and an authorized check or credit. */
  predicate Counts(p: Payment) {
    p.status.Paid? || (p.status.Authorized? && (p.means.Check? || p.means.CorporateCredit?))
  }

  function MoneyOn(payments: seq<Payment>, o: OrderId): int {
    if payments == [] then 0
    else
      var last := payments[|payments| - 1];
      MoneyOn(payments[..|payments| - 1], o) + (if last.order == o && Counts(last) then last.amount else 0)
  }

  lemma {:induction false} MoneyIsSum(payments: seq<Payment>, o: OrderId)
    ensures MoneyOn(payments, o) == Sum(payments, SettledWeight(o))
  {
    if payments != [] { MoneyIsSum(payments[..|payments| - 1], o); }
  }

  predicate Covers(order: Order, money: int) { order.total.Some? && 0 < order.total.value <= money }

  predicate HasManual(payments: seq<Payment>, o: OrderId) {
    exists q :: 0 <= q < |payments| && payments[q].order == o && payments[q].status.Authorized?
                && (payments[q].means.Check? || payments[q].means.CorporateCredit?)
  }

  predicate HasOpen(payments: seq<Payment>, o: OrderId) {
    exists q :: 0 <= q < |payments| && payments[q].order == o && (payments[q].status.Pending? || payments[q].status.Processing?)
  }

  /** The order as its payments say: paid for or not, and in the queue once it is. */
  predicate Follows(before: Order, after: Order, payments: seq<Payment>, o: OrderId) {
    var covered := Covers(before, MoneyOn(payments, o));
    && after == before.(status := after.status, paymentStatus := after.paymentStatus)
    && (covered ==> after.paymentStatus == if HasManual(payments, o) then Authorized else Paid)
    && (!covered ==> after.paymentStatus == if HasOpen(payments, o) then Processing else PaymentStatus.Pending)
    && (after.status == if covered && Unpaid(before.status) then Requested else before.status)
  }

  predicate OrderFollows(db: Db, next: Db, o: OrderId) {
    && o < |db.orders| == |next.orders|
    && next.orders == db.orders[o := next.orders[o]] && Follows(db.orders[o], next.orders[o], next.payments, o)
  }

  lemma SyncFollows(db: Db, o: OrderId)
    requires o < |db.orders|
    ensures OrderFollows(db, SyncTx(db, o), o)
    ensures SyncTx(db, o) == db.(orders := SyncTx(db, o).orders)
  {
    MoneyIsSum(db.payments, o);
    ManualIsManual(db, o);
    OpenIsOpen(db, o);
  }

  lemma ManualIsManual(db: Db, o: OrderId)
    ensures HasManual(db.payments, o) <==> HasAuthorizedManual(db, o)
  {
  }

  lemma OpenIsOpen(db: Db, o: OrderId)
    ensures HasOpen(db.payments, o) <==> HasPayment(db, o, {PaymentStatus.Pending, Processing})
  {
  }

  /** Synchronising an order makes it follow its payments, and changes nothing else. */
  lemma OrderIsSynchronised(s: State, o: OrderId)
    requires o < |s.db.orders|
    ensures var next := Next(s, SyncOrder(o)).db; OrderFollows(s.db, next, o) && next == s.db.(orders := next.orders)
  {
    SyncFollows(s.db, o);
  }

  // ----- what may be authorized -----

  /** The order takes a payment of this amount from this person. */
  predicate MayAuthorize(db: Db, o: OrderId, staff: bool, requested: Option<int>, amount: int) {
    && o < |db.orders|
    && var order := db.orders[o];
    && var money := MoneyOn(db.payments, o);
    && (if staff then !order.status.Cancelled? && !order.status.Failed? else order.status.PendingPayment? || order.status.Confirmed?)
    && !order.paymentStatus.Paid? && !order.paymentStatus.Authorized?
    && order.total.Some? && 0 < order.total.value && 0 < amount && money + amount <= order.total.value
    && amount == (if requested.Some? then requested.value else order.total.value - money)
  }

  lemma PriceIff(db: Db, o: OrderId, staff: bool, requested: Option<int>, amount: int)
    ensures Price(db, o, staff, requested) == Ok(amount) <==> MayAuthorize(db, o, staff, requested, amount)
  {
    MoneyIsSum(db.payments, o);
  }

  predicate Booked(db: Db, next: Db, o: OrderId, means: Means, amount: int) {
    && next.payments == db.payments + [Payment(o, means, Channel.Booked, amount, Authorized)]
    && next.transactions == db.transactions + [Transaction(|db.payments|, TransactionKind.Authorization, amount, TransactionStatus.Success)]
    && OrderFollows(db, next, o)
  }

  /** A check is booked for what the order may take, or nothing happens. */
  lemma CheckIsBooked(s: State, o: OrderId, staff: bool, requested: Option<int>, amount: int)
    requires MayAuthorize(s.db, o, staff, requested, amount)
    ensures var next := Next(s, RegisterCheck(o, staff, requested)).db;
            && Booked(s.db, next, o, Check, amount)
            && next == s.db.(orders := next.orders, payments := next.payments, transactions := next.transactions)
  {
    PriceIff(s.db, o, staff, requested, amount);
    SyncFollows(Book(s.db, o, Check, amount), o);
  }

  lemma CheckIsRefused(s: State, o: OrderId, staff: bool, requested: Option<int>)
    requires forall amount :: !MayAuthorize(s.db, o, staff, requested, amount)
    ensures Next(s, RegisterCheck(o, staff, requested)).db == s.db
  {
    var price := Price(s.db, o, staff, requested);
    if price.Ok? { PriceIff(s.db, o, staff, requested, price.value); }
  }

  /** The line has room for the amount, and its limit is still the one that was seen. */
  predicate HasRoom(db: Db, c: CustomerId, seenLimit: int, amount: int) {
    c in db.accounts && db.accounts[c].status.Active? && db.accounts[c].limit == seenLimit && db.accounts[c].used + amount <= seenLimit
  }

  lemma CreditNext(s: State, o: OrderId, staff: bool, requested: Option<int>, seenLimit: int)
    ensures Next(s, ApproveCredit(o, staff, requested, seenLimit)).db == ApproveCreditTx(s.db, o, staff, requested, seenLimit)
  {
  }

  /** Credit is booked and drawn together, or nothing happens. */
  lemma CreditIsDrawn(s: State, o: OrderId, staff: bool, requested: Option<int>, seenLimit: int, amount: int)
    requires MayAuthorize(s.db, o, staff, requested, amount) && HasRoom(s.db, s.db.orders[o].customer, seenLimit, amount)
    ensures var c, next := s.db.orders[o].customer, Next(s, ApproveCredit(o, staff, requested, seenLimit)).db;
            var used := s.db.accounts[c].used + amount;
            && Booked(s.db, next, o, CorporateCredit, amount)
            && next.accounts == s.db.accounts[c := s.db.accounts[c].(used := used)]
            && next.movements == s.db.movements + [Movement(c, MovementKind.Authorization, amount, used)]
            && next == s.db.(orders := next.orders, payments := next.payments, transactions := next.transactions,
                             accounts := next.accounts, movements := next.movements)
  {
    CreditNext(s, o, staff, requested, seenLimit);
    PriceIff(s.db, o, staff, requested, amount);
    SyncFollows(DrawCredit(Book(s.db, o, CorporateCredit, amount), s.db.orders[o].customer, amount), o);
  }

  lemma CreditHasNoRoom(s: State, o: OrderId, staff: bool, requested: Option<int>, seenLimit: int, amount: int)
    requires MayAuthorize(s.db, o, staff, requested, amount) && !HasRoom(s.db, s.db.orders[o].customer, seenLimit, amount)
    ensures Next(s, ApproveCredit(o, staff, requested, seenLimit)).db == s.db
  {
    CreditNext(s, o, staff, requested, seenLimit);
    PriceIff(s.db, o, staff, requested, amount);
  }

  lemma CreditIsRefused(s: State, o: OrderId, staff: bool, requested: Option<int>, seenLimit: int)
    requires forall amount :: !MayAuthorize(s.db, o, staff, requested, amount)
    ensures Next(s, ApproveCredit(o, staff, requested, seenLimit)).db == s.db
  {
    CreditNext(s, o, staff, requested, seenLimit);
    var price := Price(s.db, o, staff, requested);
    if price.Ok? { PriceIff(s.db, o, staff, requested, price.value); }
  }

  // ----- card payments -----

  predicate SessionIsOpen(db: Db, p: PaymentId) {
    p < |db.payments| && db.payments[p].channel == Cardnet(true) && !db.payments[p].status.Paid? && !db.payments[p].status.Refunded?
  }

  /** An order can use a capture: the customer may still pay it, and what counts
      without the capture does not cover it. */
  predicate CanUse(db: Db, o: OrderId)
    requires o < |db.orders|
  {
    && (db.orders[o].status.PendingPayment? || db.orders[o].status.Confirmed?)
    && !Covers(db.orders[o], MoneyOn(db.payments, o))
  }

  /** The payment's row and the transaction of its capture. */
  predicate CaptureBooked(db: Db, next: Db, p: PaymentId, status: PaymentStatus, booked: TransactionStatus)
    requires p < |db.payments|
  {
    && next.payments == db.payments[p := db.payments[p].(status := status)]
    && next.transactions == db.transactions + [Transaction(p, Capture, db.payments[p].amount, booked)]
  }

  lemma OpenCountsNothing(db: Db, p: PaymentId, status: PaymentStatus)
    requires LedgerInv(db) && SessionIsOpen(db, p)
    ensures var o := db.payments[p].order;
            MoneyOn(db.payments[p := db.payments[p].(status := status)], o)
            == MoneyOn(db.payments, o) + (if status.Paid? then db.payments[p].amount else 0)
  {
    var o := db.payments[p].order;
    var later := db.payments[p := db.payments[p].(status := status)];
    MoneyIsSum(db.payments, o);
    MoneyIsSum(later, o);
    SumUpdate(db.payments, SettledWeight(o), p, db.payments[p].(status := status));
    assert db.payments[p].means.Card?;
  }

  lemma RejectedIffCannotUse(db: Db, p: PaymentId)
    requires LedgerInv(db) && SessionIsOpen(db, p)
    ensures RejectedCapture(Captured(db, p, Paid), p) <==> !CanUse(db, db.payments[p].order)
  {
    var o := db.payments[p].order;
    OpenCountsNothing(db, p, Paid);
    MoneyIsSum(db.payments, o);
    MoneyIsSum(Captured(db, p, Paid).payments, o);
  }

  /** An approved capture the order can use pays it: no refund is asked for, and the
      order follows its payments, the capture included. Once they reach its total it
      is in the queue, and Paid unless a check or credit is only authorized. */
  lemma UsableCapturePays(s: State, p: PaymentId)
    requires LedgerInv(s.db) && SessionIsOpen(s.db, p) && CanUse(s.db, s.db.payments[p].order)
    ensures var o, next := s.db.payments[p].order, Next(s, Verify(p, Approved)).db;
            && CaptureBooked(s.db, next, p, Paid, TransactionStatus.Success) && OrderFollows(s.db, next, o)
            && next == s.db.(orders := next.orders, payments := next.payments, transactions := next.transactions)
            && (Covers(s.db.orders[o], MoneyOn(s.db.payments, o) + s.db.payments[p].amount) ==>
                  next.orders[o].status.Requested? && next.orders[o].paymentStatus == (if HasManual(next.payments, o) then Authorized else Paid))
  {
    var o := s.db.payments[p].order;
    RejectedIffCannotUse(s.db, p);
    OpenCountsNothing(s.db, p, Paid);
    SyncFollows(Captured(s.db, p, Paid), o);
  }

  /** An approved capture the order cannot use is set aside: the orders stay as they
      were, and one pending refund of the whole capture is asked for. */
  lemma UnusableCaptureIsSetAside(s: State, p: PaymentId)
    requires LedgerInv(s.db) && SessionIsOpen(s.db, p) && !CanUse(s.db, s.db.payments[p].order)
    ensures var next := Next(s, Verify(p, Approved)).db;
            && CaptureBooked(s.db, next, p, Paid, TransactionStatus.Success)
            && next == s.db.(payments := next.payments, transactions := next.transactions,
                             refunds := s.db.refunds + [Refund(p, s.db.payments[p].order, s.db.payments[p].amount, RefundStatus.Pending)])
  {
    RejectedIffCannotUse(s.db, p);
    NoRefundYet(s.db, p);
  }

  /** A capture that is in flight or declined leaves the payment so. */
  lemma UnsettledCapture(s: State, p: PaymentId, code: ResponseCode)
    requires LedgerInv(s.db) && SessionIsOpen(s.db, p) && !code.Approved?
    ensures var o, next := s.db.payments[p].order, Next(s, Verify(p, code)).db;
            && (if code.InFlight? then CaptureBooked(s.db, next, p, Processing, TransactionStatus.Pending)
                else CaptureBooked(s.db, next, p, PaymentStatus.Failed, TransactionStatus.Failed))
            && OrderFollows(s.db, next, o)
            && next == s.db.(orders := next.orders, payments := next.payments, transactions := next.transactions)
  {
    var status := if code.InFlight? then Processing else PaymentStatus.Failed;
    SyncFollows(Captured(s.db, p, status), s.db.payments[p].order);
  }

  /** Once settled, neither a result nor the cancel link changes anything. */
  lemma SettledSessionStays(s: State, p: PaymentId, code: ResponseCode)
    requires !SessionIsOpen(s.db, p)
    ensures Next(s, Verify(p, code)).db == s.db && Next(s, CancelRedirect(p)).db == s.db
  {
  }

  lemma CancelLinkCancels(s: State, p: PaymentId)
    requires LedgerInv(s.db) && SessionIsOpen(s.db, p)
    ensures var o, next := s.db.payments[p].order, Next(s, CancelRedirect(p)).db;
            && next.payments == s.db.payments[p := s.db.payments[p].(status := PaymentStatus.Cancelled)]
            && next.transactions == s.db.transactions + [Transaction(p, Void, s.db.payments[p].amount, TransactionStatus.Failed)]
            && OrderFollows(s.db, next, o)
            && next == s.db.(orders := next.orders, payments := next.payments, transactions := next.transactions)
  {
    SyncFollows(s.db.(payments := s.db.payments[p := s.db.payments[p].(status := PaymentStatus.Cancelled)]), s.db.payments[p].order);
  }

  /** The row of a card payment, before the provider is asked. */
  lemma CardIsOpened(s: State, o: OrderId, amount: int, cardnet: bool)
    ensures var next := Next(s, OpenCard(o, amount, cardnet)).db;
            if o < |s.db.orders| && amount > 0 then
              next == s.db.(payments := s.db.payments + [Payment(o, Card, if cardnet then Cardnet(false) else Checkout(false), amount, PaymentStatus.Pending)])
            else next == s.db
  {
  }

  predicate IsCheckoutAnswer(answer: PaymentStatus) { answer in {PaymentStatus.Pending, Authorized, Paid, PaymentStatus.Failed} }

  /** The provider's first answer to a checkout: an authorization that succeeded, is
      pending or failed, as the payment. */
  lemma CheckoutIsAnswered(s: State, p: PaymentId, answer: PaymentStatus)
    ensures var next := Next(s, AnswerCheckout(p, answer)).db;
            if p < |s.db.payments| && s.db.payments[p].channel == Checkout(false) && IsCheckoutAnswer(answer) then
              next == s.db.(payments := s.db.payments[p := s.db.payments[p].(status := answer, channel := Checkout(true))],
                            transactions := s.db.transactions + [Transaction(p, TransactionKind.Authorization, s.db.payments[p].amount,
                                                                             if answer.Paid? || answer.Authorized? then TransactionStatus.Success
                                                                             else if answer.Failed? then TransactionStatus.Failed
                                                                             else TransactionStatus.Pending)])
            else next == s.db
  {
  }

  /** A CardNET session is processing once it is created, with its authorization
      pending; one that cannot be created fails its payment. */
  lemma SessionIsOpened(s: State, p: PaymentId, created: bool)
    ensures var next := Next(s, OpenSession(p, created)).db;
            if p < |s.db.payments| && s.db.payments[p].channel == Cardnet(false) && s.db.payments[p].status.Pending? then
              var row := s.db.payments[p];
              if created then
                next == s.db.(payments := s.db.payments[p := row.(status := Processing, channel := Cardnet(true))],
                              transactions := s.db.transactions + [Transaction(p, TransactionKind.Authorization, row.amount, TransactionStatus.Pending)])
              else next == s.db.(payments := s.db.payments[p := row.(status := PaymentStatus.Failed)])
            else next == s.db
  {
  }

  // ----- refunds -----

  function AskedFor(refunds: seq<Refund>, p: PaymentId): int {
    if refunds == [] then 0
    else
      var last := refunds[|refunds| - 1];
      AskedFor(refunds[..|refunds| - 1], p) + (if last.payment == p && (last.status.Pending? || last.status.Success?) then last.amount else 0)
  }

  function PaidOut(refunds: seq<Refund>, p: PaymentId): int {
    if refunds == [] then 0
    else
      var last := refunds[|refunds| - 1];
      PaidOut(refunds[..|refunds| - 1], p) + (if last.payment == p && last.status.Success? then last.amount else 0)
  }

  lemma {:induction false} RefundsAreSums(refunds: seq<Refund>, p: PaymentId)
    ensures AskedFor(refunds, p) == Sum(refunds, CommittedWeight(p)) && PaidOut(refunds, p) == Sum(refunds, ReturnedWeight(p))
  {
    if refunds != [] { RefundsAreSums(refunds[..|refunds| - 1], p); }
  }

  /** Money that was not credit, is still held, and is not asked back already. */
  predicate MayRefund(db: Db, p: PaymentId, amount: int) {
    && p < |db.payments| && !db.payments[p].means.CorporateCredit?
    && (db.payments[p].status.Paid? || db.payments[p].status.Authorized?)
    && 0 < amount && AskedFor(db.refunds, p) + amount <= db.payments[p].amount
  }

  lemma RefundIsAskedFor(s: State, p: PaymentId, amount: int)
    ensures var next := Next(s, RequestRefund(p, amount)).db;
            if MayRefund(s.db, p, amount)
            then next == s.db.(refunds := s.db.refunds + [Refund(p, s.db.payments[p].order, amount, RefundStatus.Pending)])
            else next == s.db
  {
    RefundsAreSums(s.db.refunds, p);
  }

  predicate HoldsMoney(payments: seq<Payment>, o: OrderId) {
    exists q :: 0 <= q < |payments| && payments[q].order == o && (payments[q].status.Paid? || payments[q].status.Authorized?)
  }

  lemma HoldsIsHolds(db: Db, o: OrderId)
    ensures HoldsMoney(db.payments, o) <==> HasPayment(db, o, {Paid, Authorized})
  {
  }

  /** A confirmed refund is booked; its payment is Refunded once all of it is back;
      and a cancelled order that holds no money any more shows it. */
  lemma RefundIsConfirmed(s: State, r: RefundId)
    requires LedgerInv(s.db) && r < |s.db.refunds| && s.db.refunds[r].status.Pending?
    ensures var refund, next := s.db.refunds[r], Next(s, SettleRefund(r, true)).db;
            var p, o := refund.payment, refund.order;
            && p < |s.db.payments| && o < |s.db.orders|
            && next.refunds == s.db.refunds[r := refund.(status := RefundStatus.Success)]
            && next.transactions == s.db.transactions + [Transaction(p, RefundOut, refund.amount, TransactionStatus.Success)]
            && next.payments == (if PaidOut(s.db.refunds, p) + refund.amount >= s.db.payments[p].amount
                                 then s.db.payments[p := s.db.payments[p].(status := Refunded)] else s.db.payments)
            && next.orders == (if s.db.orders[o].status.Cancelled? && !HoldsMoney(next.payments, o)
                               then s.db.orders[o := s.db.orders[o].(paymentStatus := Refunded)] else s.db.orders)
            && next == s.db.(orders := next.orders, payments := next.payments, transactions := next.transactions, refunds := next.refunds)
  {
    var p := s.db.refunds[r].payment;
    RefundsAreSums(s.db.refunds, p);
    RefundMarked(s.db, r, RefundStatus.Success, p);
    HoldsIsHolds(Next(s, SettleRefund(r, true)).db, s.db.refunds[r].order);
  }

  lemma RefundFails(s: State, r: RefundId)
    requires r < |s.db.refunds| && s.db.refunds[r].status.Pending?
    ensures Next(s, SettleRefund(r, false)).db == s.db.(refunds := s.db.refunds[r := s.db.refunds[r].(status := RefundStatus.Failed)])
  {
  }

  lemma SettledRefundStays(s: State, r: RefundId, success: bool)
    requires r < |s.db.refunds| ==> !s.db.refunds[r].status.Pending?
    ensures Next(s, SettleRefund(r, success)).db == s.db
  {
  }

  // ----- credit lines -----

  function Used(db: Db, c: CustomerId): int { if c in db.accounts then db.accounts[c].used else 0 }

  /** Setting a line keeps what is used of it, and does not go under it. */
  lemma LineIsSet(s: State, c: CustomerId, limit: int, status: CreditStatus)
    ensures Next(s, UpsertCredit(c, limit, status)).db ==
            if Used(s.db, c) <= limit then s.db.(accounts := s.db.accounts[c := CreditAccount(limit, Used(s.db, c), status)]) else s.db
  {
  }

  /** Asking for a line leaves one that is in force or blocked. */
  lemma LineIsAskedFor(s: State, c: CustomerId, limit: int)
    ensures Next(s, RequestCredit(c, limit)).db ==
            if c in s.db.accounts && s.db.accounts[c].status in {Active, Blocked} then s.db
            else s.db.(accounts := s.db.accounts[c := CreditAccount(limit, Used(s.db, c), CreditStatus.Pending)])
  {
  }

  /** A line is closed once, with what was used of it. */
  lemma LineIsClosed(s: State, c: CustomerId)
    ensures Next(s, CloseCredit(c)).db ==
            if c in s.db.accounts && !s.db.accounts[c].status.Closed?
            then s.db.(accounts := s.db.accounts[c := CreditAccount(s.db.accounts[c].limit, Used(s.db, c), CreditStatus.Closed)],
                       movements := s.db.movements + [Movement(c, MovementKind.Closed, 0, Used(s.db, c))])
            else s.db
  {
  }
}
