/**
 Giving money back: a refund is asked for against what is left of a payment, and
 leaves Pending once.
 */
module Refunds {
  import opened Tables
  import opened Storage
  import opened Sums
  import opened Billing

  ghost predicate PaymentsExist(db: Db) {
    forall r :: 0 <= r < |db.refunds| ==> db.refunds[r].payment < |db.payments|
  }

  class RefundsService {
    const db: Database

    constructor (db: Database)
      ensures this.db == db
    {
      this.db := db;
    }

    /** Refunds of the payment that are pending or paid out. */
    method Committed(p: PaymentId) returns (total: int)
      ensures total == Sum(db.refunds, CommittedWeight(p))
    {
      total := 0;
      for i := 0 to |db.refunds|
        invariant total == Sum(db.refunds[..i], CommittedWeight(p))
      {
        var refund := db.refunds[i];
        SumAppend(db.refunds[..i], CommittedWeight(p), refund);
        assert db.refunds[..i + 1] == db.refunds[..i] + [refund];
        if refund.payment == p && !refund.status.Failed? { total := total + refund.amount; }
      }
      assert db.refunds[..|db.refunds|] == db.refunds;
    }

    method Returned(p: PaymentId) returns (total: int)
      ensures total == Sum(db.refunds, ReturnedWeight(p))
    {
      total := 0;
      for i := 0 to |db.refunds|
        invariant total == Sum(db.refunds[..i], ReturnedWeight(p))
      {
        var refund := db.refunds[i];
        SumAppend(db.refunds[..i], ReturnedWeight(p), refund);
        assert db.refunds[..i + 1] == db.refunds[..i] + [refund];
        if refund.payment == p && refund.status.Success? { total := total + refund.amount; }
      }
      assert db.refunds[..|db.refunds|] == db.refunds;
    }

    method Create(p: PaymentId, amount: int) returns (answer: Result<RefundId>)
      modifies db
      ensures answer == match RefundError(old(db.Snapshot()), p, amount)
              case Some(error) => Err(error)
              case None => Ok(|old(db.refunds)|)
      ensures db.Snapshot() == RequestRefundTx(old(db.Snapshot()), p, amount)
    {
      if p >= |db.payments| { return Err(NotFound); }
      var payment := db.payments[p];
      if payment.means.CorporateCredit? { return Err(Conflict); }
      if !payment.status.Paid? && !payment.status.Authorized? { return Err(Conflict); }
      var committed := Committed(p);
      if amount <= 0 || amount > payment.amount - committed { return Err(BadRequest); }
      answer := Ok(|db.refunds|);
      db.refunds := db.refunds + [Refund(p, payment.order, amount, RefundStatus.Pending)];
    }

    /** The outcome operations report. A success needs the provider's reference. */
    method UpdateStatus(r: RefundId, to: RefundStatus, referenced: bool) returns (answer: Result<RefundId>)
      requires PaymentsExist(db.Snapshot())
      modifies db
      ensures var before := old(db.Snapshot());
              && answer == (if to.Pending? || (to.Success? && !referenced) then Err(BadRequest)
                            else if r >= |before.refunds| then Err(NotFound)
                            else if !before.refunds[r].status.Pending? then Err(Conflict)
                            else Ok(r))
              && db.Snapshot() == (if answer.Ok? then SettleRefundTx(before, r, to.Success?) else before)
    {
      if to.Pending? || (to.Success? && !referenced) { return Err(BadRequest); }
      if r >= |db.refunds| { return Err(NotFound); }
      if !db.refunds[r].status.Pending? { return Err(Conflict); }
      db.refunds := db.refunds[r := db.refunds[r].(status := to)];
      if to.Success? { Apply(r); }
      answer := Ok(r);
    }

    /** The money is back with the customer. */
    method Apply(r: RefundId)
      requires r < |db.refunds| && db.refunds[r].payment < |db.payments|
      modifies db
      ensures db.Snapshot() == ApplyRefund(old(db.Snapshot()), r)
    {
      var refund := db.refunds[r];
      var p, o := refund.payment, refund.order;
      db.transactions := db.transactions + [Transaction(p, RefundOut, refund.amount, TransactionStatus.Success)];
      var returned := Returned(p);
      if returned >= db.payments[p].amount {
        db.payments := db.payments[p := db.payments[p].(status := Refunded)];
      }
      if o < |db.orders| && db.orders[o].status.Cancelled? {
        var holdsMoney := HasPayment(db.Snapshot(), o, {Paid, Authorized});
        if !holdsMoney { db.orders := db.orders[o := db.orders[o].(paymentStatus := Refunded)]; }
      }
    }
  }
}
