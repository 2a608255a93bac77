/**
 Booking money on an order: checks, corporate credit and CardNET sessions. Every
 amount authorized is priced again under the order's lock, and every settlement
 of a session is a conditional update.
 */
module Payments {
  import opened Tables
  import opened Storage
  import opened Sums
  import opened Billing

  ghost predicate OrdersExist(db: Db) {
    forall p :: 0 <= p < |db.payments| ==> db.payments[p].order < |db.orders|
  }

  /** Why credit is not approved, in the order the checks are made. `seen` is the
      credit line as it was read before the transaction. */
  function CreditRefusal(db: Db, o: OrderId, staff: bool, ineligible: Option<Error>, requested: Option<int>, seen: Option<CreditAccount>): Option<Error> {
    if o >= |db.orders| then Some(NotFound)
    else if ineligible.Some? then ineligible
    else if seen.None? || !seen.value.status.Active? then Some(BadRequest)
    else
      match Price(db, o, staff, requested)
      case Err(error) => Some(error)
      case Ok(amount) =>
        if seen.value.used + amount > seen.value.limit || !CreditFits(db, db.orders[o].customer, seen.value.limit, amount) then Some(Conflict)
        else None
  }

  class PaymentsService {
    const db: Database

    constructor (db: Database)
      ensures this.db == db
    {
      this.db := db;
    }

    method DispatchAuthorizedAmount(o: OrderId) returns (total: int)
      ensures total == SettledTotal(db.Snapshot(), o)
    {
      total := 0;
      for i := 0 to |db.payments|
        invariant total == Sum(db.payments[..i], SettledWeight(o))
      {
        var payment := db.payments[i];
        SumAppend(db.payments[..i], SettledWeight(o), payment);
        assert db.payments[..i + 1] == db.payments[..i] + [payment];
        if payment.order == o && Settled(payment) { total := total + payment.amount; }
      }
      assert db.payments[..|db.payments|] == db.payments;
    }

    /** The same, without the payment `p`. */
    method AuthorizedByOthers(p: PaymentId) returns (total: int)
      requires p < |db.payments|
      ensures total == SettledByOthers(db.Snapshot(), p)
    {
      var o := db.payments[p].order;
      total := 0;
      for i := 0 to |db.payments|
        invariant total == Sum(db.payments[..i], SettledWeight(o)) - (if p < i then SettledWeight(o)(db.payments[p]) else 0)
      {
        var payment := db.payments[i];
        SumAppend(db.payments[..i], SettledWeight(o), payment);
        assert db.payments[..i + 1] == db.payments[..i] + [payment];
        if i != p && payment.order == o && Settled(payment) { total := total + payment.amount; }
      }
      assert db.payments[..|db.payments|] == db.payments;
    }

    /** The checks that hold, and the amount to authorize. */
    method LockAndPrice(o: OrderId, staff: bool, requested: Option<int>) returns (answer: Result<int>)
      ensures answer == Price(db.Snapshot(), o, staff, requested)
    {
      if o >= |db.orders| { return Err(NotFound); }
      var order := db.orders[o];
      if !AcceptsPayment(order.status, staff) { return Err(Conflict); }
      var settled := DispatchAuthorizedAmount(o);
      if Dispatchable(order.paymentStatus) || CoveredBy(order, settled) { return Err(Conflict); }
      answer := PayableAmount(order, settled, requested);
    }

    /** The order's payment status follows its payments. */
    method SyncOrderAfterPayment(o: OrderId)
      modifies db`orders
      ensures db.Snapshot() == SyncTx(old(db.Snapshot()), o)
    {
      if o >= |db.orders| { return; }
      var order := db.orders[o];
      var settled := DispatchAuthorizedAmount(o);
      var covered := order.total.Some? && order.total.value > 0 && settled >= order.total.value;
      var manual := HasAuthorizedManual(db.Snapshot(), o);
      var processing := HasPayment(db.Snapshot(), o, {PaymentStatus.Pending, Processing});
      var status := if covered then (if manual then Authorized else Paid) else if processing then Processing else PaymentStatus.Pending;
      order := order.(paymentStatus := status);
      if covered && AwaitingPayment(order.status) { order := order.(status := Requested); }
      db.orders := db.orders[o := order];
    }

    /** An authorized payment with its transaction. */
    method Insert(o: OrderId, means: Means, amount: int) returns (p: PaymentId)
      modifies db`payments, db`transactions
      ensures p == |old(db.payments)| && db.Snapshot() == Book(old(db.Snapshot()), o, means, amount)
    {
      p := |db.payments|;
      db.payments := db.payments + [Payment(o, means, Booked, amount, Authorized)];
      db.transactions := db.transactions + [Transaction(p, TransactionKind.Authorization, amount, TransactionStatus.Success)];
    }

    method RegisterCheck(o: OrderId, staff: bool, requested: Option<int>) returns (answer: Result<PaymentId>)
      modifies db
      ensures db.Snapshot() == RegisterCheckTx(old(db.Snapshot()), o, staff, requested)
      ensures answer == match Price(old(db.Snapshot()), o, staff, requested)
              case Err(error) => Err(error)
              case Ok(_) => Ok(|old(db.payments)|)
    {
      var priced := LockAndPrice(o, staff, requested);
      if priced.Err? { return Err(priced.error); }
      var p := Insert(o, Check, priced.value);
      SyncOrderAfterPayment(o);
      answer := Ok(p);
    }

    /** `seen` may be stale: the conditional update of the line decides, and when
        it finds no row everything is rolled back. */
    method ApproveCorporateCredit(o: OrderId, staff: bool, ineligible: Option<Error>, requested: Option<int>, seen: Option<CreditAccount>)
      returns (answer: Result<PaymentId>)
      modifies db
      ensures var before := old(db.Snapshot());
              match CreditRefusal(before, o, staff, ineligible, requested, seen)
              case Some(error) => answer == Err(error) && db.Snapshot() == before
              case None => answer == Ok(|before.payments|) && db.Snapshot() == ApproveCreditTx(before, o, staff, requested, seen.value.limit)
    {
      if o >= |db.orders| { return Err(NotFound); }
      if ineligible.Some? { return Err(ineligible.value); }
      if seen.None? || !seen.value.status.Active? { return Err(BadRequest); }
      var priced := LockAndPrice(o, staff, requested);
      if priced.Err? { return Err(priced.error); }
      var amount := priced.value;
      if seen.value.used + amount > seen.value.limit { return Err(Conflict); }

      var saved := db.Snapshot();
      var customer := db.orders[o].customer;
      var p := Insert(o, CorporateCredit, amount);
      var drawn := DrawCreditRow(customer, seen.value.limit, amount);
      if drawn != 1 {
        db.Rollback(saved);
        return Err(Conflict);
      }
      SyncOrderAfterPayment(o);
      answer := Ok(p);
    }

    /** The conditional update of the line, and its movement. */
    method DrawCreditRow(customer: CustomerId, seenLimit: int, amount: int) returns (count: nat)
      modifies db`accounts, db`movements
      ensures count == if CreditFits(old(db.Snapshot()), customer, seenLimit, amount) then 1 else 0
      ensures db.Snapshot() == if count == 1 then DrawCredit(old(db.Snapshot()), customer, amount) else old(db.Snapshot())
    {
      if customer !in db.accounts { return 0; }
      var account := db.accounts[customer];
      if !account.status.Active? || account.limit != seenLimit || account.used > seenLimit - amount { return 0; }
      db.accounts := db.accounts[customer := account.(used := account.used + amount)];
      db.movements := db.movements + [Movement(customer, MovementKind.Authorization, amount, db.accounts[customer].used)];
      count := 1;
    }

    /** The provider's result for an open session, arriving once or many times and
        racing the cancel redirect. `mismatch` is a result that is not for it. */
    method VerifyBySession(p: PaymentId, mismatch: Option<Error>, code: ResponseCode) returns (answer: Result<PaymentStatus>)
      requires OrdersExist(db.Snapshot())
      modifies db
      ensures var before := old(db.Snapshot());
              && answer == (if p >= |before.payments| || before.payments[p].channel != Cardnet(true) then Err(NotFound)
                            else if Terminal(before.payments[p].status) then Ok(before.payments[p].status)
                            else if mismatch.Some? then Err(mismatch.value)
                            else Ok(PaymentStatusOf(code)))
              && db.Snapshot() == (if answer.Err? then before else VerifyTx(before, p, code))
    {
      if p >= |db.payments| || db.payments[p].channel != Cardnet(true) { return Err(NotFound); }
      if Terminal(db.payments[p].status) { return Ok(db.payments[p].status); }
      if mismatch.Some? { return Err(mismatch.value); }
      var status := PaymentStatusOf(code);
      db.payments := db.payments[p := db.payments[p].(status := status)];
      db.transactions := db.transactions + [Transaction(p, Capture, db.payments[p].amount, CaptureStatusOf(status))];
      var rejected := false;
      if status.Paid? { rejected := CannotApplyCapture(p); }
      if rejected { RequestRefundForCapture(p); } else { SyncOrderAfterPayment(db.payments[p].order); }
      answer := Ok(status);
    }

    method CannotApplyCapture(p: PaymentId) returns (rejected: bool)
      requires p < |db.payments| && db.payments[p].order < |db.orders|
      ensures rejected == RejectedCapture(db.Snapshot(), p)
    {
      var order := db.orders[db.payments[p].order];
      if !CustomerPayable(order.status) { return true; }
      var others := AuthorizedByOthers(p);
      rejected := order.total.Some? && order.total.value > 0 && others >= order.total.value;
    }

    method RequestRefundForCapture(p: PaymentId)
      requires p < |db.payments|
      modifies db`refunds
      ensures db.refunds == if exists r :: 0 <= r < |old(db.refunds)| && old(db.refunds)[r].payment == p then old(db.refunds)
                            else old(db.refunds) + [Refund(p, db.payments[p].order, db.payments[p].amount, RefundStatus.Pending)]
      ensures db.Snapshot() == RefundCapture(old(db.Snapshot()), p)
    {
      for r := 0 to |db.refunds|
        invariant db.refunds == old(db.refunds)
        invariant forall s :: 0 <= s < r ==> db.refunds[s].payment != p
      {
        if db.refunds[r].payment == p { return; }
      }
      db.refunds := db.refunds + [Refund(p, db.payments[p].order, db.payments[p].amount, RefundStatus.Pending)];
    }

    /** The customer came back through the cancel link. */
    method CancelBySession(p: PaymentId) returns (status: Option<PaymentStatus>)
      modifies db
      ensures db.Snapshot() == CancelRedirectTx(old(db.Snapshot()), p)
      ensures status == if p < |db.payments| && db.payments[p].channel == Cardnet(true) then Some(db.payments[p].status) else None
    {
      if p >= |db.payments| || db.payments[p].channel != Cardnet(true) { return None; }
      if Terminal(db.payments[p].status) { return Some(db.payments[p].status); }
      db.payments := db.payments[p := db.payments[p].(status := PaymentStatus.Cancelled)];
      SyncOrderAfterPayment(db.payments[p].order);
      db.transactions := db.transactions + [Transaction(p, Void, db.payments[p].amount, TransactionStatus.Failed)];
      status := Some(PaymentStatus.Cancelled);
    }
  }
}
