/** One lemma per billing transaction: it keeps the ledger and its history. */
module LedgerSteps {
  import opened Tables
  import opened Sums
  import opened Billing
  import opened LedgerInvariants

  ghost predicate Keeps(db: Db, next: Db) {
    LedgerInv(next) && LedgerHistory(db, next)
  }

  /** Only rows of other tables, or order columns other than the total, change. */
  lemma OrdersTouched(db: Db, next: Db)
    requires LedgerInv(db)
    requires next == db.(orders := next.orders) && |db.orders| <= |next.orders|
    requires forall o :: 0 <= o < |db.orders| ==>
                           next.orders[o].total == db.orders[o].total && next.orders[o].customer == db.orders[o].customer
    requires forall o: nat :: o < |next.orders| && Dispatchable(next.orders[o].paymentStatus) ==>
                               || (o < |db.orders| && Dispatchable(db.orders[o].paymentStatus))
                               || CoveredBy(next.orders[o], SettledTotal(db, o))
    ensures Keeps(db, next)
  {
    forall p: nat | p < |next.payments| ensures PaymentBalanced(next, p) {
      assert PaymentBalanced(db, p);
    }
    BackedStays(db, next);
  }

  lemma SyncKeeps(db: Db, o: OrderId)
    requires LedgerInv(db)
    ensures Keeps(db, SyncTx(db, o))
  {
    OrdersTouched(db, SyncTx(db, o));
  }

  /** A payment row is added together with transactions that book neither a
      capture nor a refund. */
  lemma PaymentAdded(db: Db, next: Db, payment: Payment)
    requires LedgerInv(db)
    requires next == db.(payments := db.payments + [payment], transactions := next.transactions)
    requires payment.order < |db.orders| && payment.amount > 0 && ChannelConsistent(payment)
    requires !Terminal(payment.status)
    requires next.transactions == db.transactions ||
             exists t :: next.transactions == db.transactions + [t] && t.payment == |db.payments| && t.kind.Authorization?
    ensures Keeps(db, next)
  {
    forall p: nat | p < |next.payments| ensures PaymentBalanced(next, p) {
      AuthorizationBooksNothing(db.transactions, next.transactions, p);
      if p < |db.payments| {
        assert PaymentBalanced(db, p);
      } else {
        NothingBookedYet(db, p);
      }
    }
    BackedStays(db, next);
  }

  lemma AuthorizationBooksNothing(before: seq<Transaction>, later: seq<Transaction>, p: PaymentId)
    requires later == before || exists t :: later == before + [t] && t.kind.Authorization?
    ensures Sum(later, CaptureWeight(p)) == Sum(before, CaptureWeight(p))
    ensures Sum(later, RefundOutWeight(p)) == Sum(before, RefundOutWeight(p))
  {
    if later != before {
      var t :| later == before + [t] && t.kind.Authorization?;
      SumAppend(before, CaptureWeight(p), t);
      SumAppend(before, RefundOutWeight(p), t);
    }
  }

  lemma NothingBookedYet(db: Db, p: PaymentId)
    requires LedgerRowsExist(db) && p == |db.payments|
    ensures Sum(db.transactions, CaptureWeight(p)) == 0 && Sum(db.transactions, RefundOutWeight(p)) == 0
    ensures Sum(db.refunds, CommittedWeight(p)) == 0 && Sum(db.refunds, ReturnedWeight(p)) == 0
  {
    SumZero(db.transactions, CaptureWeight(p));
    SumZero(db.transactions, RefundOutWeight(p));
    SumZero(db.refunds, CommittedWeight(p));
    SumZero(db.refunds, ReturnedWeight(p));
  }

  lemma BookKeeps(db: Db, o: OrderId, means: Means, amount: int)
    requires LedgerInv(db) && o < |db.orders| && amount > 0 && ManualMeans(means)
    ensures Keeps(db, Book(db, o, means, amount))
  {
    PaymentAdded(db, Book(db, o, means, amount), Payment(o, means, Booked, amount, Authorized));
  }

  /** A payment moves, with a transaction that books no refund. */
  lemma PaymentMoved(db: Db, next: Db, p: PaymentId, row: Payment, t: Transaction)
    requires LedgerInv(db) && p < |db.payments|
    requires next == db.(payments := db.payments[p := row], transactions := next.transactions)
    requires next.transactions == db.transactions || next.transactions == db.transactions + [t]
    requires t.payment == p && !t.kind.RefundOut?
    requires !Terminal(db.payments[p].status) && !Settled(db.payments[p]) && !row.status.Refunded?
    requires row == db.payments[p].(status := row.status, channel := row.channel) && ChannelConsistent(row)
    requires forall r :: 0 <= r < |db.refunds| ==> db.refunds[r].payment != p
    requires (row.channel.Cardnet? && row.status.Paid?) <==>
             (next.transactions == db.transactions + [t] && t.kind.Capture? && t.status.Success?)
    ensures Keeps(db, next)
  {
    forall q: nat | q < |next.payments| ensures PaymentBalanced(next, q) {
      assert PaymentBalanced(db, q);
      SumAppend(db.transactions, CaptureWeight(q), t);
      SumAppend(db.transactions, RefundOutWeight(q), t);
    }
    BackedStays(db, next);
  }

  /** No refund row exists for a payment that never held money. */
  lemma NoRefundYet(db: Db, p: PaymentId)
    requires LedgerInv(db) && p < |db.payments|
    requires !Terminal(db.payments[p].status) && !db.payments[p].status.Authorized?
    ensures forall r :: 0 <= r < |db.refunds| ==> db.refunds[r].payment != p
  {
    assert PaymentBalanced(db, p);
  }

  lemma CapturedKeeps(db: Db, p: PaymentId, code: ResponseCode)
    requires LedgerInv(db) && SessionOpen(db, p)
    ensures Keeps(db, Captured(db, p, PaymentStatusOf(code)))
  {
    var status := PaymentStatusOf(code);
    NoRefundYet(db, p);
    PaymentMoved(db, Captured(db, p, status), p, db.payments[p].(status := status),
                 Transaction(p, Capture, db.payments[p].amount, CaptureStatusOf(status)));
  }

  lemma RefundAdded(db: Db, next: Db, refund: Refund)
    requires LedgerInv(db)
    requires next == db.(refunds := db.refunds + [refund])
    requires refund.payment < |db.payments| && refund.order == db.payments[refund.payment].order
    requires refund.status.Pending? && 0 < refund.amount <= Refundable(db, refund.payment)
    requires !db.payments[refund.payment].means.CorporateCredit?
    requires Terminal(db.payments[refund.payment].status) || db.payments[refund.payment].status.Authorized?
    ensures Keeps(db, next)
  {
    forall p: nat | p < |next.payments| ensures PaymentBalanced(next, p) {
      assert PaymentBalanced(db, p);
      if p == refund.payment { RefundedPaymentBalanced(db, next, refund); } else { OtherPaymentBalanced(db, next, refund, p); }
    }
    BackedStays(db, next);
  }

  lemma RefundedPaymentBalanced(db: Db, next: Db, refund: Refund)
    requires next == db.(refunds := db.refunds + [refund]) && refund.payment < |db.payments| && refund.status.Pending?
    requires PaymentBalanced(db, refund.payment) && refund.amount <= Refundable(db, refund.payment)
    requires !db.payments[refund.payment].means.CorporateCredit?
    requires Terminal(db.payments[refund.payment].status) || db.payments[refund.payment].status.Authorized?
    ensures PaymentBalanced(next, refund.payment)
  {
    SumAppend(db.refunds, CommittedWeight(refund.payment), refund);
    SumAppend(db.refunds, ReturnedWeight(refund.payment), refund);
  }

  lemma OtherPaymentBalanced(db: Db, next: Db, refund: Refund, p: PaymentId)
    requires next == db.(refunds := db.refunds + [refund]) && p < |db.payments| && p != refund.payment && PaymentBalanced(db, p)
    ensures PaymentBalanced(next, p)
  {
    SumAppend(db.refunds, CommittedWeight(p), refund);
    SumAppend(db.refunds, ReturnedWeight(p), refund);
    if r :| 0 <= r < |next.refunds| && next.refunds[r].payment == p {
      assert r < |db.refunds| && db.refunds[r].payment == p;
    }
  }

  lemma VerifyKeeps(db: Db, p: PaymentId, code: ResponseCode)
    requires LedgerInv(db)
    ensures Keeps(db, VerifyTx(db, p, code))
  {
    if SessionOpen(db, p) {
      var captured := Captured(db, p, PaymentStatusOf(code));
      CapturedKeeps(db, p, code);
      if PaymentStatusOf(code).Paid? && RejectedCapture(captured, p) {
        RejectedKeeps(db, p, code);
        KeepsTransitive(db, captured, RefundCapture(captured, p));
      } else {
        SyncKeeps(captured, db.payments[p].order);
        KeepsTransitive(db, captured, SyncTx(captured, db.payments[p].order));
      }
    }
  }

  lemma RejectedKeeps(db: Db, p: PaymentId, code: ResponseCode)
    requires LedgerInv(db) && SessionOpen(db, p) && PaymentStatusOf(code).Paid?
    ensures var captured := Captured(db, p, PaymentStatusOf(code)); Keeps(captured, RefundCapture(captured, p))
  {
    var captured := Captured(db, p, PaymentStatusOf(code));
    NoRefundYet(db, p);
    CapturedKeeps(db, p, code);
    SumZero(db.refunds, CommittedWeight(p));
    RefundAdded(captured, RefundCapture(captured, p), Refund(p, db.payments[p].order, db.payments[p].amount, RefundStatus.Pending));
  }

  lemma CancelRedirectKeeps(db: Db, p: PaymentId)
    requires LedgerInv(db)
    ensures Keeps(db, CancelRedirectTx(db, p))
  {
    if SessionOpen(db, p) {
      NoRefundYet(db, p);
      var t := Transaction(p, Void, db.payments[p].amount, TransactionStatus.Failed);
      var voided := db.(payments := db.payments[p := db.payments[p].(status := PaymentStatus.Cancelled)],
                        transactions := db.transactions + [t]);
      PaymentMoved(db, voided, p, voided.payments[p], t);
      SyncKeeps(voided, db.payments[p].order);
      assert CancelRedirectTx(db, p) == SyncTx(voided, db.payments[p].order);
    }
  }

  lemma AnswerCheckoutKeeps(db: Db, p: PaymentId, status: PaymentStatus)
    requires LedgerInv(db)
    ensures Keeps(db, AnswerCheckoutTx(db, p, status))
  {
    var next := AnswerCheckoutTx(db, p, status);
    if next != db {
      NoRefundYet(db, p);
      PaymentMoved(db, next, p, next.payments[p],
                   Transaction(p, TransactionKind.Authorization, db.payments[p].amount, AnswerStatus(status)));
    }
  }

  lemma OpenSessionKeeps(db: Db, p: PaymentId, created: bool)
    requires LedgerInv(db)
    ensures Keeps(db, OpenSessionTx(db, p, created))
  {
    var next := OpenSessionTx(db, p, created);
    if next != db {
      NoRefundYet(db, p);
      PaymentMoved(db, next, p, next.payments[p],
                   Transaction(p, TransactionKind.Authorization, db.payments[p].amount, TransactionStatus.Pending));
    }
  }

  lemma OpenCardKeeps(db: Db, o: OrderId, amount: int, cardnet: bool)
    requires LedgerInv(db)
    ensures Keeps(db, OpenCardTx(db, o, amount, cardnet))
  {
    var next := OpenCardTx(db, o, amount, cardnet);
    if next != db {
      PaymentAdded(db, next, next.payments[|db.payments|]);
    }
  }

  lemma RequestRefundKeeps(db: Db, p: PaymentId, amount: int)
    requires LedgerInv(db)
    ensures Keeps(db, RequestRefundTx(db, p, amount))
  {
    if RefundError(db, p, amount).None? {
      RefundAdded(db, RequestRefundTx(db, p, amount), Refund(p, db.payments[p].order, amount, RefundStatus.Pending));
    }
  }

  lemma RegisterCheckKeeps(db: Db, o: OrderId, staff: bool, requested: Option<int>)
    requires LedgerInv(db)
    ensures Keeps(db, RegisterCheckTx(db, o, staff, requested))
  {
    match Price(db, o, staff, requested)
    case Err(_) =>
    case Ok(amount) =>
      BookKeeps(db, o, Check, amount);
      SyncKeeps(Book(db, o, Check, amount), o);
  }

  /** Tables of the credit lines change, nothing else. */
  lemma CreditTouched(db: Db, next: Db)
    requires LedgerInv(db) && CreditSound(next)
    requires next == db.(accounts := next.accounts, movements := next.movements) && db.movements <= next.movements
    ensures Keeps(db, next)
  {
    forall p: nat | p < |next.payments| ensures PaymentBalanced(next, p) {
      assert PaymentBalanced(db, p);
    }
    BackedStays(db, next);
  }

  /** A movement of one customer moves that customer's book only. */
  lemma MovementAdded(rows: seq<Movement>, m: Movement, c: CustomerId)
    ensures Sum(rows + [m], DrawnWeight(c)) == Sum(rows, DrawnWeight(c)) + DrawnWeight(c)(m)
    ensures LastBalance(rows + [m], c) == if m.customer == c then Some(m.balanceAfter) else LastBalance(rows, c)
  {
    SumAppend(rows, DrawnWeight(c), m);
    assert (rows + [m])[..|rows|] == rows;
  }

  lemma DrawCreditKeeps(db: Db, customer: CustomerId, seenLimit: int, amount: int)
    requires LedgerInv(db) && CreditFits(db, customer, seenLimit, amount)
    ensures Keeps(db, DrawCredit(db, customer, amount))
  {
    var next := DrawCredit(db, customer, amount);
    forall c | c in next.accounts ensures CreditLineSound(next, c) {
      assert CreditLineSound(db, c);
      MovementAdded(db.movements, next.movements[|db.movements|], c);
    }
    CreditTouched(db, next);
  }

  lemma ApproveCreditKeeps(db: Db, o: OrderId, staff: bool, requested: Option<int>, seenLimit: int)
    requires LedgerInv(db)
    ensures Keeps(db, ApproveCreditTx(db, o, staff, requested, seenLimit))
  {
    match Price(db, o, staff, requested)
    case Err(_) =>
    case Ok(amount) =>
      var customer := db.orders[o].customer;
      if CreditFits(db, customer, seenLimit, amount) { CreditBookedKeeps(db, o, customer, seenLimit, amount); }
  }

  lemma CreditBookedKeeps(db: Db, o: OrderId, customer: CustomerId, seenLimit: int, amount: int)
    requires LedgerInv(db) && o < |db.orders| && amount > 0 && CreditFits(db, customer, seenLimit, amount)
    ensures Keeps(db, SyncTx(DrawCredit(Book(db, o, CorporateCredit, amount), customer, amount), o))
  {
    var booked := Book(db, o, CorporateCredit, amount);
    BookKeeps(db, o, CorporateCredit, amount);
    DrawCreditKeeps(booked, customer, seenLimit, amount);
    KeepsTransitive(db, booked, DrawCredit(booked, customer, amount));
    SyncKeeps(DrawCredit(booked, customer, amount), o);
    KeepsTransitive(db, DrawCredit(booked, customer, amount), SyncTx(DrawCredit(booked, customer, amount), o));
  }

  lemma KeepsTransitive(a: Db, b: Db, c: Db)
    requires LedgerInv(a) && Keeps(a, b) && Keeps(b, c)
    ensures Keeps(a, c)
  {
    LedgerHistoryTransitive(a, b, c);
  }

  lemma UpsertCreditKeeps(db: Db, c: CustomerId, limit: int, status: CreditStatus)
    requires LedgerInv(db)
    ensures Keeps(db, UpsertCreditTx(db, c, limit, status))
  {
    var next := UpsertCreditTx(db, c, limit, status);
    if c !in db.accounts {
      NoAccountNoMovement(db, c);
    }
    CreditTouched(db, next);
  }

  lemma RequestCreditKeeps(db: Db, c: CustomerId, limit: int)
    requires LedgerInv(db)
    ensures Keeps(db, RequestCreditTx(db, c, limit))
  {
    if c !in db.accounts {
      NoAccountNoMovement(db, c);
    }
    CreditTouched(db, RequestCreditTx(db, c, limit));
  }

  lemma {:induction false} NoAccountNoMovement(db: Db, c: CustomerId)
    requires CreditSound(db) && c !in db.accounts
    ensures Sum(db.movements, DrawnWeight(c)) == 0 && LastBalance(db.movements, c).None?
  {
    SumZero(db.movements, DrawnWeight(c));
    NobodysBalance(db.movements, c);
  }

  lemma {:induction false} NobodysBalance(rows: seq<Movement>, c: CustomerId)
    requires forall m :: 0 <= m < |rows| ==> rows[m].customer != c
    ensures LastBalance(rows, c).None?
  {
    if rows != [] {
      NobodysBalance(rows[..|rows| - 1], c);
    }
  }

  lemma CloseCreditKeeps(db: Db, c: CustomerId)
    requires LedgerInv(db)
    ensures Keeps(db, CloseCreditTx(db, c))
  {
    var next := CloseCreditTx(db, c);
    if next != db {
      forall k | k in next.accounts ensures CreditLineSound(next, k) {
        assert CreditLineSound(db, k);
        MovementAdded(db.movements, next.movements[|db.movements|], k);
      }
      CreditTouched(db, next);
    }
  }

  /** A refund is marked: what stays committed and what was returned. */
  lemma RefundMarked(db: Db, r: RefundId, to: RefundStatus, p: PaymentId)
    requires LedgerInv(db) && r < |db.refunds| && db.refunds[r].status.Pending? && !to.Pending?
    ensures var refunds := db.refunds[r := db.refunds[r].(status := to)];
            && Sum(refunds, CommittedWeight(p)) == Sum(db.refunds, CommittedWeight(p)) -
                                                   (if db.refunds[r].payment == p && to.Failed? then db.refunds[r].amount else 0)
            && Sum(refunds, ReturnedWeight(p)) == Sum(db.refunds, ReturnedWeight(p)) +
                                                  (if db.refunds[r].payment == p && to.Success? then db.refunds[r].amount else 0)
            && Sum(refunds, ReturnedWeight(p)) <= Sum(refunds, CommittedWeight(p))
  {
    var row := db.refunds[r].(status := to);
    SumUpdate(db.refunds, CommittedWeight(p), r, row);
    SumUpdate(db.refunds, ReturnedWeight(p), r, row);
    SumMonotone(db.refunds[r := row], db.refunds[r := row], ReturnedWeight(p), CommittedWeight(p));
  }

  ghost predicate HasRefund(rows: seq<Refund>, p: PaymentId) {
    exists r :: 0 <= r < |rows| && rows[r].payment == p
  }

  lemma MarkedKeepsOwner(rows: seq<Refund>, r: RefundId, to: RefundStatus, p: PaymentId)
    requires r < |rows|
    ensures HasRefund(rows[r := rows[r].(status := to)], p) <==> HasRefund(rows, p)
  {
    var marked := rows[r := rows[r].(status := to)];
    if i :| 0 <= i < |rows| && rows[i].payment == p {
      assert marked[i].payment == p;
    }
    if i :| 0 <= i < |marked| && marked[i].payment == p {
      assert rows[i].payment == p;
    }
  }

  lemma RefundFailedKeeps(db: Db, r: RefundId)
    requires LedgerInv(db) && r < |db.refunds| && db.refunds[r].status.Pending?
    ensures Keeps(db, SettleRefundTx(db, r, false))
  {
    var next := SettleRefundTx(db, r, false);
    forall p: nat | p < |next.payments| ensures PaymentBalanced(next, p) {
      FailedStaysBalanced(db, r, p);
    }
    BackedStays(db, next);
  }

  lemma FailedStaysBalanced(db: Db, r: RefundId, p: PaymentId)
    requires LedgerInv(db) && r < |db.refunds| && db.refunds[r].status.Pending? && p < |db.payments|
    ensures PaymentBalanced(SettleRefundTx(db, r, false), p)
  {
    assert PaymentBalanced(db, p);
    RefundMarked(db, r, RefundStatus.Failed, p);
    MarkedKeepsOwner(db.refunds, r, RefundStatus.Failed, p);
    assert HasRefund(SettleRefundTx(db, r, false).refunds, p) ==> HasRefund(db.refunds, p);
  }

  /** The payment the money came from is Refunded exactly when all of it is back. */
  lemma RefundBooked(db: Db, r: RefundId, p: PaymentId)
    requires LedgerInv(db) && r < |db.refunds| && db.refunds[r].status.Pending? && p < |db.payments|
    ensures PaymentBalanced(SettleRefundTx(db, r, true), p)
  {
    assert PaymentBalanced(db, p);
    assert HasRefund(db.refunds, db.refunds[r].payment);
    BookedSums(db, r, p);
    ConfirmedRow(db, r, p);
    MarkedKeepsOwner(db.refunds, r, RefundStatus.Success, p);
    assert HasRefund(SettleRefundTx(db, r, true).refunds, p) <==> HasRefund(db.refunds, p);
  }

  /** The sums of a payment's book once the refund is confirmed. */
  lemma BookedSums(db: Db, r: RefundId, p: PaymentId)
    requires LedgerInv(db) && r < |db.refunds| && db.refunds[r].status.Pending?
    ensures var next := SettleRefundTx(db, r, true);
            var more := if db.refunds[r].payment == p then db.refunds[r].amount else 0;
            && next.refunds == db.refunds[r := db.refunds[r].(status := RefundStatus.Success)]
            && Sum(next.refunds, CommittedWeight(p)) == Sum(db.refunds, CommittedWeight(p))
            && Sum(next.refunds, ReturnedWeight(p)) == Sum(db.refunds, ReturnedWeight(p)) + more
            && Sum(next.refunds, ReturnedWeight(p)) <= Sum(next.refunds, CommittedWeight(p))
            && Sum(next.transactions, CaptureWeight(p)) == Sum(db.transactions, CaptureWeight(p))
            && Sum(next.transactions, RefundOutWeight(p)) == Sum(db.transactions, RefundOutWeight(p)) + more
  {
    RefundMarked(db, r, RefundStatus.Success, p);
    var t := Transaction(db.refunds[r].payment, RefundOut, db.refunds[r].amount, TransactionStatus.Success);
    SumAppend(db.transactions, CaptureWeight(p), t);
    SumAppend(db.transactions, RefundOutWeight(p), t);
  }

  /** The row of a payment once the refund is confirmed. */
  lemma ConfirmedRow(db: Db, r: RefundId, p: PaymentId)
    requires LedgerInv(db) && r < |db.refunds| && db.refunds[r].status.Pending? && p < |db.payments|
    ensures var next := SettleRefundTx(db, r, true);
            && |next.payments| == |db.payments|
            && next.payments[p] ==
               if db.refunds[r].payment == p && Sum(next.refunds, ReturnedWeight(p)) >= db.payments[p].amount
               then db.payments[p].(status := Refunded) else db.payments[p]
  {
  }

  /** Which rows a confirmed refund may change. */
  ghost predicate RefundShape(db: Db, next: Db, r: RefundId)
    requires r < |db.refunds| && db.refunds[r].payment < |db.payments| && |next.orders| == |db.orders|
  {
    var paid := db.refunds[r].payment;
    && db.transactions <= next.transactions
    && |next.transactions| == |db.transactions| + 1 && next.transactions[|db.transactions|].payment == paid
    && next.refunds == db.refunds[r := db.refunds[r].(status := RefundStatus.Success)]
    && (next.payments == db.payments || next.payments == db.payments[paid := db.payments[paid].(status := Refunded)])
    && (forall o :: 0 <= o < |db.orders| ==>
          next.orders[o] == db.orders[o] || next.orders[o] == db.orders[o].(paymentStatus := Refunded))
    && next.accounts == db.accounts && next.movements == db.movements
  }

  lemma ConfirmedShape(db: Db, r: RefundId)
    requires LedgerInv(db) && r < |db.refunds| && db.refunds[r].status.Pending?
    ensures |SettleRefundTx(db, r, true).orders| == |db.orders|
    ensures RefundShape(db, SettleRefundTx(db, r, true), r)
  {
  }

  lemma ShapeKeeps(db: Db, next: Db, r: RefundId)
    requires LedgerInv(db) && r < |db.refunds| && db.refunds[r].status.Pending? && |next.orders| == |db.orders|
    requires RefundShape(db, next, r) && PaymentsBalanced(next)
    ensures Keeps(db, next)
  {
    var paid := db.refunds[r].payment;
    assert HasRefund(db.refunds, paid);
    assert PaymentBalanced(db, paid);
    assert LedgerHistory(db, next);
    BackedStays(db, next);
  }

  lemma SettleRefundKeeps(db: Db, r: RefundId, success: bool)
    requires LedgerInv(db)
    ensures Keeps(db, SettleRefundTx(db, r, success))
  {
    if r < |db.refunds| && db.refunds[r].status.Pending? {
      if success {
        var next := SettleRefundTx(db, r, true);
        forall p: nat | p < |next.payments| ensures PaymentBalanced(next, p) {
          ConfirmedShape(db, r);
          RefundBooked(db, r, p);
        }
        ConfirmedShape(db, r);
        ShapeKeeps(db, next, r);
      } else {
        RefundFailedKeeps(db, r);
      }
    }
  }
}
