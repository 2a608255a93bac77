/**
 The dispatch and billing services as one state machine: every committed
 transaction is one atomic step, steps of any number of requests interleave
 freely, and a step whose guard fails changes nothing.
 */
module Protocol {
  import opened Tables
  import opened Dispatch
  import opened Billing
  import opened DispatchInvariants
  import opened OfferInvariants
  import opened LedgerInvariants
  import opened LedgerSteps

  /** The tables, and the manual picks between their two commits. */
  datatype State = State(db: Db, picks: set<AssignmentId>)

  datatype Step =
    // rows that enter the system
    | PlaceOrder(order: Order)
    | RegisterDriver
    | ApproveDriver(driver: DriverId)
    // assignments, drivers, trips
    | Create(orderId: OrderId, driver: DriverId, vehicle: VehicleId)
    | Pick(orderId: OrderId, driver: DriverId, vehicle: VehicleId)
    | AuditPick(assignment: AssignmentId)
    | Claim(orderId: OrderId, driver: DriverId, vehicle: VehicleId)
    | AcceptAssignment(assignment: AssignmentId)
    | RejectAssignment(assignment: AssignmentId)
    | CompleteAssignment(assignment: AssignmentId)
    | SetAvailability(driver: DriverId, to: DriverStatus)
    | StartTrip(orderId: OrderId)
    | CancelOrder(orderId: OrderId, read: OrderStatus)
    | DeliverOrder(orderId: OrderId, completed: Option<AssignmentId>)
    // offers
    | OpenOffer(orderId: OrderId, driver: DriverId, vehicle: VehicleId, expiresAt: int)
    | OfferNext(orderId: OrderId, best: Option<(DriverId, VehicleId)>, expiresAt: int, now: int)
    | AcceptOffer(offer: OfferId, driver: DriverId, now: int)
    | RejectOffer(offer: OfferId, driver: DriverId)
    | ExpireOffer(offer: OfferId, now: int)
    | CancelOffer(offer: OfferId)
    | MarkOffering(orderId: OrderId)
    | MarkWaiting(orderId: OrderId)
    | Requeue
    // money
    | OpenCard(orderId: OrderId, amount: int, cardnet: bool)
    | AnswerCheckout(payment: PaymentId, answer: PaymentStatus)
    | OpenSession(payment: PaymentId, created: bool)
    | RegisterCheck(orderId: OrderId, staff: bool, requested: Option<int>)
    | ApproveCredit(orderId: OrderId, staff: bool, requested: Option<int>, seenLimit: int)
    | Verify(payment: PaymentId, code: ResponseCode)
    | CancelRedirect(payment: PaymentId)
    | SyncOrder(orderId: OrderId)
    | RequestRefund(payment: PaymentId, amount: int)
    | SettleRefund(refund: RefundId, success: bool)
    | UpsertCredit(customer: CustomerId, limit: int, creditStatus: CreditStatus)
    | RequestCredit(customer: CustomerId, limit: int)
    | CloseCredit(customer: CustomerId)

  function PlaceOrderTx(db: Db, order: Order): Db {
    if AwaitingPayment(order.status) && order.paymentStatus.Pending? then db.(orders := db.orders + [order]) else db
  }

  function ApproveDriverTx(db: Db, d: DriverId): Db {
    if d < |db.drivers| then db.(drivers := db.drivers[d := db.drivers[d].(approved := true)]) else db
  }

  /** Steps that touch orders, drivers, assignments and offers. */
  function DispatchNext(db: Db, step: Step): Db {
    match step
    case RegisterDriver => db.(drivers := db.drivers + [Driver(Offline, false)])
    case ApproveDriver(d) => ApproveDriverTx(db, d)
    case Create(o, d, v) => CreateTx(db, o, d, v)
    case Pick(o, d, v) => CreateTx(db, o, d, v)
    case Claim(o, d, v) => ClaimTx(db, o, d, v)
    case AcceptAssignment(a) => AcceptTx(db, a)
    case RejectAssignment(a) => RejectTx(db, a)
    case CompleteAssignment(a) => CompleteTx(db, a)
    case SetAvailability(d, to) => AvailabilityTx(db, d, to)
    case StartTrip(o) => StartTx(db, o)
    case CancelOrder(o, read) => CancelOrderTx(db, o, read)
    case DeliverOrder(o, a) => DeliverTx(db, o, a)
    case OpenOffer(o, d, v, expiresAt) => OpenOfferTx(db, o, d, v, expiresAt)
    case OfferNext(o, best, expiresAt, now) => OfferNextTx(db, o, best, expiresAt, now)
    case AcceptOffer(f, d, now) => AcceptOfferTx(db, f, d, now)
    case RejectOffer(f, d) => RejectOfferTx(db, f, d)
    case ExpireOffer(f, now) => ExpireOfferTx(db, f, now)
    case CancelOffer(f) => CancelOfferTx(db, f)
    case MarkOffering(o) => MoveOrder(db, o, Requested, AssigningDriver)
    case MarkWaiting(o) => MoveOrder(db, o, AssigningDriver, Requested)
    case Requeue => RequeueTx(db)
    case _ => db
  }

  /** Steps that touch payments, refunds, credit and the order's payment status. */
  function BillingNext(db: Db, step: Step): Db {
    match step
    case PlaceOrder(order) => PlaceOrderTx(db, order)
    case OpenCard(o, amount, cardnet) => OpenCardTx(db, o, amount, cardnet)
    case AnswerCheckout(p, answer) => AnswerCheckoutTx(db, p, answer)
    case OpenSession(p, created) => OpenSessionTx(db, p, created)
    case RegisterCheck(o, staff, requested) => RegisterCheckTx(db, o, staff, requested)
    case ApproveCredit(o, staff, requested, seenLimit) => ApproveCreditTx(db, o, staff, requested, seenLimit)
    case Verify(p, code) => VerifyTx(db, p, code)
    case CancelRedirect(p) => CancelRedirectTx(db, p)
    case SyncOrder(o) => SyncTx(db, o)
    case RequestRefund(p, amount) => RequestRefundTx(db, p, amount)
    case SettleRefund(r, success) => SettleRefundTx(db, r, success)
    case UpsertCredit(c, limit, status) => UpsertCreditTx(db, c, limit, status)
    case RequestCredit(c, limit) => RequestCreditTx(db, c, limit)
    case CloseCredit(c) => CloseCreditTx(db, c)
    case _ => db
  }

  predicate IsBilling(step: Step) {
    || step.PlaceOrder? || step.OpenCard? || step.AnswerCheckout? || step.OpenSession? || step.RegisterCheck?
    || step.ApproveCredit? || step.Verify? || step.CancelRedirect? || step.SyncOrder? || step.RequestRefund?
    || step.SettleRefund? || step.UpsertCredit? || step.RequestCredit? || step.CloseCredit?
  }

  function Next(s: State, step: Step): State {
    if IsBilling(step) then s.(db := BillingNext(s.db, step))
    else match step
      case Pick(o, d, v) =>
        State(CreateTx(s.db, o, d, v), if CanTake(s.db, o, d) then s.picks + {|s.db.assignments|} else s.picks)
      case AuditPick(a) =>
        if a in s.picks && a < |s.db.assignments| then State(AuditPickTx(s.db, a), s.picks - {a}) else s
      case _ => s.(db := DispatchNext(s.db, step))
  }

  function Run(s: State, steps: seq<Step>): State {
    if steps == [] then s else Next(Run(s, steps[..|steps| - 1]), steps[|steps| - 1])
  }

  const EMPTY: State := State(Db([], [], [], [], [], [], [], map[], []), {})

  // ----- the invariant -----

  ghost predicate Inv(s: State) {
    DispatchInv(s.db) && OfferInv(s.db, s.picks) && LedgerInv(s.db)
  }

  ghost predicate History(s: State, next: State) {
    HistoryKept(s.db, next.db) && LedgerHistory(s.db, next.db)
  }

  // ----- frames: each half of the machine leaves the other half's tables alone -----

  ghost predicate BillingFrame(db: Db, next: Db) {
    && next.drivers == db.drivers && next.assignments == db.assignments && next.offers == db.offers
    && |db.orders| <= |next.orders|
    && (forall o :: 0 <= o < |db.orders| ==> HarmlessMove(db.orders[o].status, next.orders[o].status))
    && (forall o :: |db.orders| <= o < |next.orders| ==> AwaitingPayment(next.orders[o].status))
  }

  lemma SyncFramed(db: Db, o: OrderId)
    ensures BillingFrame(db, SyncTx(db, o))
  {
  }

  lemma BookedFramed(db: Db, o: OrderId, staff: bool, requested: Option<int>, seenLimit: int)
    ensures BillingFrame(db, RegisterCheckTx(db, o, staff, requested))
    ensures BillingFrame(db, ApproveCreditTx(db, o, staff, requested, seenLimit))
  {
    match Price(db, o, staff, requested)
    case Err(_) =>
    case Ok(amount) =>
      SyncFramed(Book(db, o, Check, amount), o);
      var customer := db.orders[o].customer;
      if CreditFits(db, customer, seenLimit, amount) {
        SyncFramed(DrawCredit(Book(db, o, CorporateCredit, amount), customer, amount), o);
      }
  }

  lemma SessionFramed(db: Db, p: PaymentId, code: ResponseCode)
    ensures BillingFrame(db, VerifyTx(db, p, code))
    ensures BillingFrame(db, CancelRedirectTx(db, p))
  {
    if SessionOpen(db, p) {
      SyncFramed(Captured(db, p, PaymentStatusOf(code)), db.payments[p].order);
      SyncFramed(db.(payments := db.payments[p := db.payments[p].(status := PaymentStatus.Cancelled)]), db.payments[p].order);
    }
  }

  lemma RefundFramed(db: Db, r: RefundId, success: bool)
    ensures BillingFrame(db, SettleRefundTx(db, r, success))
  {
  }

  lemma BillingFramed(db: Db, step: Step)
    requires IsBilling(step)
    ensures BillingFrame(db, BillingNext(db, step))
  {
    match step
    case RegisterCheck(o, staff, requested) => BookedFramed(db, o, staff, requested, 0);
    case ApproveCredit(o, staff, requested, seenLimit) => BookedFramed(db, o, staff, requested, seenLimit);
    case Verify(p, code) => SessionFramed(db, p, code);
    case CancelRedirect(p) => SessionFramed(db, p, Declined);
    case SyncOrder(o) => SyncFramed(db, o);
    case SettleRefund(r, success) => RefundFramed(db, r, success);
    case _ =>
  }

  lemma BillingKeepsDispatch(db: Db, next: Db, picks: set<AssignmentId>)
    requires DispatchInv(db) && OfferInv(db, picks) && BillingFrame(db, next)
    ensures DispatchInv(next) && OfferInv(next, picks) && HistoryKept(db, next)
  {
    KeepBusy(db, next, {});
    KeepAssigned(db, next, {});
    OffersUntouched(db, next, picks);
  }

  ghost predicate DispatchFrame(db: Db, next: Db) {
    && next == db.(orders := next.orders, drivers := next.drivers, assignments := next.assignments, offers := next.offers)
    && |next.orders| == |db.orders|
    && (forall o :: 0 <= o < |db.orders| ==> next.orders[o] == db.orders[o].(status := next.orders[o].status))
  }

  lemma AssignmentsFramed(db: Db, step: Step)
    requires step.Create? || step.Pick? || step.Claim? || step.AcceptAssignment? || step.RejectAssignment? || step.CompleteAssignment?
    ensures DispatchFrame(db, DispatchNext(db, step))
  {
  }

  lemma OffersFramed(db: Db, step: Step)
    requires TouchesOffers(step)
    ensures DispatchFrame(db, DispatchNext(db, step))
  {
  }

  lemma OthersFramed(db: Db, step: Step)
    requires !IsBilling(step) && !TouchesOffers(step)
    requires !TouchesAssignments(step) || step.CancelOrder? || step.DeliverOrder?
    ensures DispatchFrame(db, DispatchNext(db, step))
  {
  }

  lemma DispatchFramed(db: Db, step: Step)
    ensures !IsBilling(step) ==> DispatchFrame(db, DispatchNext(db, step))
  {
    if IsBilling(step) {
    } else if TouchesOffers(step) {
      OffersFramed(db, step);
    } else if TouchesAssignments(step) && !step.CancelOrder? && !step.DeliverOrder? {
      AssignmentsFramed(db, step);
    } else {
      OthersFramed(db, step);
    }
  }

  lemma DispatchKeepsLedger(db: Db, next: Db)
    requires LedgerInv(db) && DispatchFrame(db, next)
    ensures LedgerInv(next) && LedgerHistory(db, next)
  {
    forall p: nat | p < |next.payments| ensures PaymentBalanced(next, p) {
      assert PaymentBalanced(db, p);
    }
    BackedStays(db, next);
  }

  // ----- one step -----

  predicate IsCardStep(step: Step) {
    step.OpenCard? || step.AnswerCheckout? || step.OpenSession? || step.Verify? || step.CancelRedirect?
  }

  predicate IsCreditStep(step: Step) {
    step.ApproveCredit? || step.UpsertCredit? || step.RequestCredit? || step.CloseCredit?
  }

  // One lemma a step: each keeps the ledger as its transaction does.

  lemma PlaceOrderNextKeeps(db: Db, order: Order)
    requires LedgerInv(db)
    ensures Keeps(db, BillingNext(db, PlaceOrder(order)))
  {
    OrdersTouched(db, PlaceOrderTx(db, order));
  }

  lemma OpenCardNextKeeps(db: Db, o: OrderId, amount: int, cardnet: bool)
    requires LedgerInv(db)
    ensures Keeps(db, BillingNext(db, OpenCard(o, amount, cardnet)))
  {
    OpenCardKeeps(db, o, amount, cardnet);
  }

  lemma AnswerCheckoutNextKeeps(db: Db, p: PaymentId, answer: PaymentStatus)
    requires LedgerInv(db)
    ensures Keeps(db, BillingNext(db, AnswerCheckout(p, answer)))
  {
    AnswerCheckoutKeeps(db, p, answer);
  }

  lemma OpenSessionNextKeeps(db: Db, p: PaymentId, created: bool)
    requires LedgerInv(db)
    ensures Keeps(db, BillingNext(db, OpenSession(p, created)))
  {
    OpenSessionKeeps(db, p, created);
  }

  lemma RegisterCheckNextKeeps(db: Db, o: OrderId, staff: bool, requested: Option<int>)
    requires LedgerInv(db)
    ensures Keeps(db, BillingNext(db, RegisterCheck(o, staff, requested)))
  {
    RegisterCheckKeeps(db, o, staff, requested);
  }

  lemma ApproveCreditNextKeeps(db: Db, o: OrderId, staff: bool, requested: Option<int>, seenLimit: int)
    requires LedgerInv(db)
    ensures Keeps(db, BillingNext(db, ApproveCredit(o, staff, requested, seenLimit)))
  {
    ApproveCreditKeeps(db, o, staff, requested, seenLimit);
  }

  lemma VerifyNextKeeps(db: Db, p: PaymentId, code: ResponseCode)
    requires LedgerInv(db)
    ensures Keeps(db, BillingNext(db, Verify(p, code)))
  {
    VerifyKeeps(db, p, code);
  }

  lemma CancelRedirectNextKeeps(db: Db, p: PaymentId)
    requires LedgerInv(db)
    ensures Keeps(db, BillingNext(db, CancelRedirect(p)))
  {
    CancelRedirectKeeps(db, p);
  }

  lemma SyncOrderNextKeeps(db: Db, o: OrderId)
    requires LedgerInv(db)
    ensures Keeps(db, BillingNext(db, SyncOrder(o)))
  {
    SyncKeeps(db, o);
  }

  lemma RequestRefundNextKeeps(db: Db, p: PaymentId, amount: int)
    requires LedgerInv(db)
    ensures Keeps(db, BillingNext(db, RequestRefund(p, amount)))
  {
    RequestRefundKeeps(db, p, amount);
  }

  lemma SettleRefundNextKeeps(db: Db, r: RefundId, success: bool)
    requires LedgerInv(db)
    ensures Keeps(db, BillingNext(db, SettleRefund(r, success)))
  {
    SettleRefundKeeps(db, r, success);
  }

  lemma UpsertCreditNextKeeps(db: Db, c: CustomerId, limit: int, status: CreditStatus)
    requires LedgerInv(db)
    ensures Keeps(db, BillingNext(db, UpsertCredit(c, limit, status)))
  {
    UpsertCreditKeeps(db, c, limit, status);
  }

  lemma RequestCreditNextKeeps(db: Db, c: CustomerId, limit: int)
    requires LedgerInv(db)
    ensures Keeps(db, BillingNext(db, RequestCredit(c, limit)))
  {
    RequestCreditKeeps(db, c, limit);
  }

  lemma CloseCreditNextKeeps(db: Db, c: CustomerId)
    requires LedgerInv(db)
    ensures Keeps(db, BillingNext(db, CloseCredit(c)))
  {
    CloseCreditKeeps(db, c);
  }

  lemma BillingStepKeeps(db: Db, step: Step)
    requires LedgerInv(db) && IsBilling(step)
    ensures Keeps(db, BillingNext(db, step))
  {
    match step
    case PlaceOrder(order) => PlaceOrderNextKeeps(db, order);
    case OpenCard(o, amount, cardnet) => OpenCardNextKeeps(db, o, amount, cardnet);
    case AnswerCheckout(p, answer) => AnswerCheckoutNextKeeps(db, p, answer);
    case OpenSession(p, created) => OpenSessionNextKeeps(db, p, created);
    case RegisterCheck(o, staff, requested) => RegisterCheckNextKeeps(db, o, staff, requested);
    case ApproveCredit(o, staff, requested, seenLimit) => ApproveCreditNextKeeps(db, o, staff, requested, seenLimit);
    case Verify(p, code) => VerifyNextKeeps(db, p, code);
    case CancelRedirect(p) => CancelRedirectNextKeeps(db, p);
    case SyncOrder(o) => SyncOrderNextKeeps(db, o);
    case RequestRefund(p, amount) => RequestRefundNextKeeps(db, p, amount);
    case SettleRefund(r, success) => SettleRefundNextKeeps(db, r, success);
    case UpsertCredit(c, limit, status) => UpsertCreditNextKeeps(db, c, limit, status);
    case RequestCredit(c, limit) => RequestCreditNextKeeps(db, c, limit);
    case CloseCredit(c) => CloseCreditNextKeeps(db, c);
  }

  lemma MoveOrderKeeps(db: Db, o: OrderId, from: OrderStatus, to: OrderStatus)
    requires DispatchInv(db) && HarmlessMove(from, to)
    ensures DispatchInv(MoveOrder(db, o, from, to))
  {
    OrdersMoveKeeps(db, MoveOrder(db, o, from, to));
  }

  lemma OfferNextKeepsDispatch(db: Db, o: OrderId, best: Option<(DriverId, VehicleId)>, expiresAt: int, now: int)
    requires DispatchInv(db)
    ensures DispatchInv(OfferNextTx(db, o, best, expiresAt, now))
  {
    OrdersMoveKeeps(db, OfferNextTx(db, o, best, expiresAt, now));
  }

  lemma DriversJoin(db: Db, next: Db)
    requires DispatchInv(db)
    requires next == db.(drivers := next.drivers) && |db.drivers| <= |next.drivers|
    requires forall d :: 0 <= d < |db.drivers| ==> next.drivers[d].status == db.drivers[d].status
    requires forall d :: |db.drivers| <= d < |next.drivers| ==> !next.drivers[d].status.Busy?
    ensures DispatchInv(next)
  {
    KeepBusy(db, next, {});
    KeepAssigned(db, next, {});
  }

  lemma AcceptOfferKeepsDispatch(db: Db, f: OfferId, d: DriverId, now: int)
    requires DispatchInv(db)
    ensures DispatchInv(AcceptOfferTx(db, f, d, now))
  {
    if CanAcceptOffer(db, f, d, now) {
      var claimed := ClaimTx(db, db.offers[f].order, d, db.offers[f].vehicle);
      TakeKeeps(db, db.offers[f].order, d, db.offers[f].vehicle, OrderStatus.Accepted, AssignmentStatus.Accepted);
      OrdersMoveKeeps(claimed, AcceptOfferTx(db, f, d, now));
    }
  }

  lemma AssignmentStepKeeps(db: Db, step: Step)
    requires DispatchInv(db) && TouchesAssignments(step)
    ensures DispatchInv(DispatchNext(db, step))
  {
    match step
    case Create(o, d, v) => if CanTake(db, o, d) { TakeKeeps(db, o, d, v, Assigned, AssignmentStatus.Pending); }
    case Pick(o, d, v) => if CanTake(db, o, d) { TakeKeeps(db, o, d, v, Assigned, AssignmentStatus.Pending); }
    case Claim(o, d, v) => if CanTake(db, o, d) { TakeKeeps(db, o, d, v, OrderStatus.Accepted, AssignmentStatus.Accepted); }
    case AcceptAssignment(a) => AcceptKeeps(db, a);
    case RejectAssignment(a) => RejectKeeps(db, a);
    case CompleteAssignment(a) => CompleteKeeps(db, a);
    case CancelOrder(o, read) => CancelOrderKeeps(db, o, read);
    case DeliverOrder(o, a) => DeliverKeeps(db, o, a);
  }

  lemma OfferedStepKeeps(db: Db, step: Step)
    requires DispatchInv(db) && TouchesOffers(step)
    ensures DispatchInv(DispatchNext(db, step))
  {
    match step
    case OfferNext(o, best, expiresAt, now) => OfferNextKeepsDispatch(db, o, best, expiresAt, now);
    case AcceptOffer(f, d, now) => AcceptOfferKeepsDispatch(db, f, d, now);
    case AuditPick(a) =>
    case OpenOffer(_, _, _, _) => OfferRowsOnly(db, step);
    case RejectOffer(_, _) => OfferRowsOnly(db, step);
    case ExpireOffer(_, _) => OfferRowsOnly(db, step);
    case CancelOffer(_) => OfferRowsOnly(db, step);
  }

  lemma OfferRowsOnly(db: Db, step: Step)
    requires DispatchInv(db) && (step.OpenOffer? || step.RejectOffer? || step.ExpireOffer? || step.CancelOffer?)
    ensures DispatchInv(DispatchNext(db, step))
  {
    OrdersMoveKeeps(db, DispatchNext(db, step));
  }

  lemma PlainStepKeeps(db: Db, step: Step)
    requires DispatchInv(db) && !IsBilling(step) && !TouchesOffers(step) && !TouchesAssignments(step)
    ensures DispatchInv(DispatchNext(db, step))
  {
    match step
    case RegisterDriver => DriversJoin(db, DispatchNext(db, step));
    case ApproveDriver(d) => DriversJoin(db, DispatchNext(db, step));
    case SetAvailability(d, to) => AvailabilityKeeps(db, d, to);
    case StartTrip(o) => MoveOrderKeeps(db, o, OrderStatus.Accepted, InProgress);
    case MarkOffering(o) => MoveOrderKeeps(db, o, Requested, AssigningDriver);
    case MarkWaiting(o) => MoveOrderKeeps(db, o, AssigningDriver, Requested);
    case Requeue => OrdersMoveKeeps(db, RequeueTx(db));
  }

  lemma DispatchStepKeeps(db: Db, step: Step)
    requires DispatchInv(db) && !IsBilling(step)
    ensures DispatchInv(DispatchNext(db, step))
  {
    if TouchesAssignments(step) {
      AssignmentStepKeeps(db, step);
    } else if TouchesOffers(step) {
      OfferedStepKeeps(db, step);
    } else {
      PlainStepKeeps(db, step);
    }
  }

  predicate TouchesOffers(step: Step) {
    || step.OpenOffer? || step.OfferNext? || step.AcceptOffer? || step.RejectOffer? || step.ExpireOffer?
    || step.CancelOffer? || step.AuditPick?
  }

  predicate TouchesAssignments(step: Step) {
    || step.Create? || step.Pick? || step.Claim? || step.AcceptAssignment? || step.RejectAssignment?
    || step.CompleteAssignment? || step.CancelOrder? || step.DeliverOrder?
  }

  /** Steps on assignments only ever change their status, or add one. */
  lemma AssignmentsGrow(db: Db, step: Step)
    requires TouchesAssignments(step)
    ensures DispatchNext(db, step).offers == db.offers && HistoryKept(db, DispatchNext(db, step))
  {
    if step.Create? || step.Pick? || step.Claim? { TakeGrows(db, step); } else { AnswersGrow(db, step); }
  }

  lemma TakeGrows(db: Db, step: Step)
    requires step.Create? || step.Pick? || step.Claim?
    ensures DispatchNext(db, step).offers == db.offers && HistoryKept(db, DispatchNext(db, step))
  {
  }

  lemma AnswersGrow(db: Db, step: Step)
    requires TouchesAssignments(step) && !step.Create? && !step.Pick? && !step.Claim?
    ensures DispatchNext(db, step).offers == db.offers && HistoryKept(db, DispatchNext(db, step))
  {
    if step.CancelOrder? || step.DeliverOrder? { ClosingGrows(db, step); } else { AnswerGrows(db, step); }
  }

  lemma AnswerGrows(db: Db, step: Step)
    requires step.AcceptAssignment? || step.RejectAssignment? || step.CompleteAssignment?
    ensures DispatchNext(db, step).offers == db.offers && HistoryKept(db, DispatchNext(db, step))
  {
    if step.AcceptAssignment? {
      AcceptGrows(db, step.assignment);
    } else if step.RejectAssignment? {
      RejectGrows(db, step.assignment);
    } else {
      CompleteGrows(db, step.assignment);
    }
  }

  lemma AcceptGrows(db: Db, a: AssignmentId)
    ensures var next := DispatchNext(db, AcceptAssignment(a)); next.offers == db.offers && HistoryKept(db, next)
  {
  }

  lemma RejectGrows(db: Db, a: AssignmentId)
    ensures var next := DispatchNext(db, RejectAssignment(a)); next.offers == db.offers && HistoryKept(db, next)
  {
  }

  lemma CompleteGrows(db: Db, a: AssignmentId)
    ensures var next := DispatchNext(db, CompleteAssignment(a)); next.offers == db.offers && HistoryKept(db, next)
  {
  }

  lemma ClosingGrows(db: Db, step: Step)
    requires step.CancelOrder? || step.DeliverOrder?
    ensures DispatchNext(db, step).offers == db.offers && HistoryKept(db, DispatchNext(db, step))
  {
  }

  lemma OthersQuiet(db: Db, step: Step)
    requires !TouchesOffers(step) && !TouchesAssignments(step) && !IsBilling(step)
    ensures DispatchNext(db, step).offers == db.offers && HistoryKept(db, DispatchNext(db, step))
  {
  }

  lemma MoveOrderQuiet(db: Db, picks: set<AssignmentId>, o: OrderId, from: OrderStatus, to: OrderStatus)
    requires OfferInv(db, picks)
    ensures OfferInv(MoveOrder(db, o, from, to), picks) && HistoryKept(db, MoveOrder(db, o, from, to))
  {
    OffersUntouched(db, MoveOrder(db, o, from, to), picks);
  }

  lemma OfferNextKeeps(db: Db, picks: set<AssignmentId>, o: OrderId, best: Option<(DriverId, VehicleId)>, expiresAt: int, now: int)
    requires OfferInv(db, picks)
    ensures OfferInv(OfferNextTx(db, o, best, expiresAt, now), picks)
    ensures HistoryKept(db, OfferNextTx(db, o, best, expiresAt, now))
  {
    if best.None? {
      MoveOrderQuiet(db, picks, o, AssigningDriver, Requested);
    } else {
      var opening := OpenOfferTx(db, o, best.value.0, best.value.1, expiresAt);
      OpenOfferKeeps(db, picks, o, best.value.0, best.value.1, expiresAt);
      MoveOrderQuiet(opening, picks, o, Requested, AssigningDriver);
      HistoryTransitive(db, opening, MoveOrder(opening, o, Requested, AssigningDriver));
    }
  }

  lemma OfferRowStepKeeps(db: Db, picks: set<AssignmentId>, step: Step)
    requires OfferInv(db, picks) && TouchesOffers(step) && !step.AuditPick?
    ensures OfferInv(DispatchNext(db, step), picks) && HistoryKept(db, DispatchNext(db, step))
  {
    match step
    case OpenOffer(o, d, v, expiresAt) => OpenNextKeeps(db, picks, o, d, v, expiresAt);
    case OfferNext(o, best, expiresAt, now) => AttemptNextKeeps(db, picks, o, best, expiresAt, now);
    case AcceptOffer(f, d, now) => AcceptNextKeeps(db, picks, f, d, now);
    case RejectOffer(f, d) => RejectNextKeeps(db, picks, f, d);
    case ExpireOffer(f, now) => ExpireNextKeeps(db, picks, f, now);
    case CancelOffer(f) => CancelNextKeeps(db, picks, f);
  }

  lemma OpenNextKeeps(db: Db, picks: set<AssignmentId>, o: OrderId, d: DriverId, v: VehicleId, expiresAt: int)
    requires OfferInv(db, picks)
    ensures var next := DispatchNext(db, OpenOffer(o, d, v, expiresAt)); OfferInv(next, picks) && HistoryKept(db, next)
  {
    OpenOfferKeeps(db, picks, o, d, v, expiresAt);
  }

  lemma AttemptNextKeeps(db: Db, picks: set<AssignmentId>, o: OrderId, best: Option<(DriverId, VehicleId)>, expiresAt: int, now: int)
    requires OfferInv(db, picks)
    ensures var next := DispatchNext(db, OfferNext(o, best, expiresAt, now)); OfferInv(next, picks) && HistoryKept(db, next)
  {
    OfferNextKeeps(db, picks, o, best, expiresAt, now);
  }

  lemma AcceptNextKeeps(db: Db, picks: set<AssignmentId>, f: OfferId, d: DriverId, now: int)
    requires OfferInv(db, picks)
    ensures var next := DispatchNext(db, AcceptOffer(f, d, now)); OfferInv(next, picks) && HistoryKept(db, next)
  {
    AcceptOfferKeeps(db, picks, f, d, now);
  }

  lemma RejectNextKeeps(db: Db, picks: set<AssignmentId>, f: OfferId, d: DriverId)
    requires OfferInv(db, picks)
    ensures var next := DispatchNext(db, RejectOffer(f, d)); OfferInv(next, picks) && HistoryKept(db, next)
  {
    CloseOfferKeeps(db, picks, f, OfferStatus.Rejected);
  }

  lemma ExpireNextKeeps(db: Db, picks: set<AssignmentId>, f: OfferId, now: int)
    requires OfferInv(db, picks)
    ensures var next := DispatchNext(db, ExpireOffer(f, now)); OfferInv(next, picks) && HistoryKept(db, next)
  {
    CloseOfferKeeps(db, picks, f, OfferStatus.Expired);
  }

  lemma CancelNextKeeps(db: Db, picks: set<AssignmentId>, f: OfferId)
    requires OfferInv(db, picks)
    ensures var next := DispatchNext(db, CancelOffer(f)); OfferInv(next, picks) && HistoryKept(db, next)
  {
    CloseOfferKeeps(db, picks, f, OfferStatus.Cancelled);
  }

  lemma OfferStepKeeps(s: State, step: Step)
    requires DispatchInv(s.db) && OfferInv(s.db, s.picks) && !IsBilling(step)
    ensures OfferInv(Next(s, step).db, Next(s, step).picks) && HistoryKept(s.db, Next(s, step).db)
  {
    if step.AuditPick? {
      AuditNextKeeps(s, step.assignment);
    } else if TouchesOffers(step) {
      OfferRowStepKeeps(s.db, s.picks, step);
    } else {
      QuietStepKeeps(s, step);
    }
  }

  lemma AuditNextKeeps(s: State, a: AssignmentId)
    requires DispatchInv(s.db) && OfferInv(s.db, s.picks)
    ensures var next := Next(s, AuditPick(a)); OfferInv(next.db, next.picks) && HistoryKept(s.db, next.db)
  {
    if a in s.picks { AuditPickKeeps(s.db, s.picks, a); }
  }

  /** Steps that leave the offers alone. A pick reserves the row it adds. */
  lemma QuietStepKeeps(s: State, step: Step)
    requires OfferInv(s.db, s.picks) && !IsBilling(step) && !TouchesOffers(step)
    ensures OfferInv(Next(s, step).db, Next(s, step).picks) && HistoryKept(s.db, Next(s, step).db)
  {
    if TouchesAssignments(step) { AssignmentsGrow(s.db, step); } else { OthersQuiet(s.db, step); }
    OffersUntouched(s.db, DispatchNext(s.db, step), s.picks);
  }

  lemma StepKeeps(s: State, step: Step)
    requires Inv(s)
    ensures Inv(Next(s, step)) && History(s, Next(s, step))
  {
    var next := Next(s, step);
    if IsBilling(step) {
      BillingStepKeeps(s.db, step);
      BillingFramed(s.db, step);
      BillingKeepsDispatch(s.db, next.db, s.picks);
    } else {
      DispatchStepKeeps(s.db, step);
      OfferStepKeeps(s, step);
      DispatchFramed(s.db, step);
      if step.AuditPick? {
        if next != s { OrdersMoveKeeps(s.db, next.db); }
        DispatchKeepsLedger(s.db, next.db);
      } else {
        DispatchKeepsLedger(s.db, next.db);
      }
    }
  }

  // ----- whole runs -----

  lemma {:induction false} RunKeeps(s: State, steps: seq<Step>)
    requires Inv(s)
    ensures Inv(Run(s, steps)) && History(s, Run(s, steps))
  {
    if steps != [] {
      var before := Run(s, steps[..|steps| - 1]);
      RunKeeps(s, steps[..|steps| - 1]);
      StepKeeps(before, steps[|steps| - 1]);
      HistoryTransitive(s.db, before.db, Run(s, steps).db);
      LedgerHistoryTransitive(s.db, before.db, Run(s, steps).db);
    }
  }

  lemma EmptyInv()
    ensures Inv(EMPTY)
  {
  }

  lemma {:induction false} RunConcat(s: State, first: seq<Step>, second: seq<Step>)
    ensures Run(s, first + second) == Run(Run(s, first), second)
  {
    if second == [] {
      assert first + second == first;
    } else {
      var n := |second| - 1;
      assert (first + second)[..|first + second| - 1] == first + second[..n];
      RunConcat(s, first, second[..n]);
    }
  }
}
