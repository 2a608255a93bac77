/**
 Which steps leave an order dispatchable without the money for it.
 */
module Coverage {
  import opened Tables
  import opened Sums
  import opened Billing
  import opened LedgerInvariants
  import opened LedgerSteps
  import opened Protocol
  import opened Dispatch
  import opened Theorems
  import opened Scenarios

  /** Paid for as far as dispatch looks, and paid for. */
  predicate Paying(db: Db, o: OrderId)
    requires o < |db.orders|
  {
    Dispatchable(db.orders[o].paymentStatus) && CoveredBy(db.orders[o], SettledTotal(db, o))
  }

  /** Paid for as far as dispatch looks only. */
  predicate Unbacked(db: Db, o: OrderId)
    requires o < |db.orders|
  {
    Dispatchable(db.orders[o].paymentStatus) && !CoveredBy(db.orders[o], SettledTotal(db, o))
  }

  /** Another payment of the order is paid or authorized. */
  predicate OtherHoldsMoney(db: Db, o: OrderId, p: PaymentId) {
    exists q :: 0 <= q < |db.payments| && q != p && db.payments[q].order == o
                && (db.payments[q].status.Paid? || db.payments[q].status.Authorized?)
  }

  /** The confirmation of a refund that completes the return of a settled payment
      the order needs, and that the order's status does not follow. */
  predicate Uncovers(db: Db, o: OrderId, step: Step)
    requires o < |db.orders| && db.orders[o].total.Some?
  {
    && step.SettleRefund? && step.success && step.refund < |db.refunds| && db.refunds[step.refund].status.Pending?
    && var refund := db.refunds[step.refund];
    && var p := refund.payment;
    && p < |db.payments| && db.payments[p].order == o && Settled(db.payments[p])
    && Sum(db.refunds, ReturnedWeight(p)) + refund.amount >= db.payments[p].amount
    && SettledTotal(db, o) - db.payments[p].amount < db.orders[o].total.value
    && (!db.orders[o].status.Cancelled? || OtherHoldsMoney(db, o, p))
  }

  // ----- no other step lowers what is settled -----

  lemma SettledStays(db: Db, next: Db, o: OrderId)
    requires LedgerRowsExist(next) && LedgerHistory(db, next)
    requires forall p :: 0 <= p < |next.payments| && next.payments[p].status.Refunded? ==>
               p < |db.payments| && db.payments[p].status.Refunded?
    ensures SettledTotal(db, o) <= SettledTotal(next, o)
  {
    SumMonotone(db.payments, next.payments, SettledWeight(o), SettledWeight(o));
  }

  lemma OtherStepsCover(s: State, step: Step, o: OrderId)
    requires Inv(s) && o < |s.db.orders| && CoveredBy(s.db.orders[o], SettledTotal(s.db, o))
    requires !(step.SettleRefund? && step.success)
    ensures o < |Next(s, step).db.orders| && CoveredBy(Next(s, step).db.orders[o], SettledTotal(Next(s, step).db, o))
  {
    StepKeeps(s, step);
    StepRefundsNothing(s, step);
    SettledStays(s.db, Next(s, step).db, o);
  }

  // ----- a confirmed refund -----

  /** The payment the confirmed refund completes. */
  predicate Completes(db: Db, r: RefundId)
    requires r < |db.refunds| && db.refunds[r].payment < |db.payments|
  {
    Sum(db.refunds, ReturnedWeight(db.refunds[r].payment)) + db.refunds[r].amount >= db.payments[db.refunds[r].payment].amount
  }

  lemma ConfirmedPayments(db: Db, r: RefundId)
    requires LedgerInv(db) && r < |db.refunds| && db.refunds[r].status.Pending?
    ensures var p := db.refunds[r].payment;
            SettleRefundTx(db, r, true).payments
            == if Completes(db, r) then db.payments[p := db.payments[p].(status := Refunded)] else db.payments
  {
    RefundMarked(db, r, RefundStatus.Success, db.refunds[r].payment);
  }

  lemma ConfirmedSettled(db: Db, r: RefundId, o: OrderId)
    requires LedgerInv(db) && r < |db.refunds| && db.refunds[r].status.Pending?
    ensures var p := db.refunds[r].payment;
            SettledTotal(SettleRefundTx(db, r, true), o)
            == SettledTotal(db, o) - (if Completes(db, r) then SettledWeight(o)(db.payments[p]) else 0)
  {
    var p := db.refunds[r].payment;
    ConfirmedPayments(db, r);
    SumUpdate(db.payments, SettledWeight(o), p, db.payments[p].(status := Refunded));
  }

  lemma ConfirmedOrder(db: Db, r: RefundId, o: OrderId)
    requires LedgerInv(db) && r < |db.refunds| && db.refunds[r].status.Pending? && o < |db.orders|
    ensures var next := SettleRefundTx(db, r, true);
            && |next.orders| == |db.orders| && next.orders[o].total == db.orders[o].total
            && next.orders[o].paymentStatus ==
               if o == db.refunds[r].order && db.orders[o].status.Cancelled? && !HasPayment(next, o, {Paid, Authorized})
               then Refunded else db.orders[o].paymentStatus
  {
  }

  lemma HoldersLeft(db: Db, r: RefundId)
    requires LedgerInv(db) && r < |db.refunds| && db.refunds[r].status.Pending? && Completes(db, r)
    ensures var p := db.refunds[r].payment;
            HasPayment(SettleRefundTx(db, r, true), db.refunds[r].order, {Paid, Authorized})
            <==> OtherHoldsMoney(db, db.refunds[r].order, p)
  {
    var p, o := db.refunds[r].payment, db.refunds[r].order;
    var next := SettleRefundTx(db, r, true);
    ConfirmedPayments(db, r);
    assert next.payments[p].status == Refunded;
    if q :| 0 <= q < |db.payments| && q != p && db.payments[q].order == o && (db.payments[q].status.Paid? || db.payments[q].status.Authorized?) {
      assert next.payments[q] == db.payments[q];
    }
    if q :| 0 <= q < |next.payments| && next.payments[q].order == o && next.payments[q].status in {Paid, Authorized} {
      assert q != p && next.payments[q] == db.payments[q];
    }
  }

  lemma RefundUncoversIff(db: Db, o: OrderId, r: RefundId)
    requires LedgerInv(db) && o < |db.orders| && Paying(db, o) && r < |db.refunds| && db.refunds[r].status.Pending?
    ensures |SettleRefundTx(db, r, true).orders| == |db.orders|
    ensures Unbacked(SettleRefundTx(db, r, true), o) <==> Uncovers(db, o, SettleRefund(r, true))
  {
    ConfirmedSettled(db, r, o);
    ConfirmedOrder(db, r, o);
    if Completes(db, r) { HoldersLeft(db, r); }
  }

  /** A step leaves a covered order dispatchable and uncovered if and only if it
      confirms a refund that completes the return of a settled payment the order
      needs, and the order is not cancelled or another payment still holds money. */
  lemma StepUncoversIff(s: State, step: Step, o: OrderId)
    requires Inv(s) && o < |s.db.orders| && Paying(s.db, o)
    ensures o < |Next(s, step).db.orders|
    ensures Unbacked(Next(s, step).db, o) <==> Uncovers(s.db, o, step)
  {
    if step.SettleRefund? && step.success {
      ConfirmationUncoversIff(s, step.refund, o);
    } else {
      OtherStepsCover(s, step, o);
    }
  }

  lemma ConfirmationUncoversIff(s: State, r: RefundId, o: OrderId)
    requires LedgerInv(s.db) && o < |s.db.orders| && Paying(s.db, o)
    ensures var next := Next(s, SettleRefund(r, true)).db;
            o < |next.orders| && (Unbacked(next, o) <==> Uncovers(s.db, o, SettleRefund(r, true)))
  {
    ConfirmationNext(s, r);
    if r < |s.db.refunds| && s.db.refunds[r].status.Pending? { RefundUncoversIff(s.db, o, r); }
  }

  lemma ConfirmationNext(s: State, r: RefundId)
    ensures Next(s, SettleRefund(r, true)).db == SettleRefundTx(s.db, r, true)
  {
  }

  // ----- whole runs -----

  /** The step at `i` uncovers an order that was covered. */
  ghost predicate UncoveredAt(steps: seq<Step>, i: nat, o: OrderId) {
    && i < |steps| && o < |Reached(steps[..i]).orders| && Paying(Reached(steps[..i]), o) && Uncovers(Reached(steps[..i]), o, steps[i])
  }

  /** Dispatchable only if it was before, or by what is settled now. */
  predicate EarnsStatus(db: Db, next: Db, o: OrderId) {
    o < |next.orders| && Dispatchable(next.orders[o].paymentStatus) ==>
      (o < |db.orders| && Dispatchable(db.orders[o].paymentStatus)) || CoveredBy(next.orders[o], SettledTotal(next, o))
  }

  lemma CardStepEarns(db: Db, step: Step, o: OrderId)
    requires IsCardStep(step)
    ensures EarnsStatus(db, BillingNext(db, step), o)
  {
  }

  lemma CreditStepEarns(db: Db, step: Step, o: OrderId)
    requires IsCreditStep(step)
    ensures EarnsStatus(db, BillingNext(db, step), o)
  {
  }

  lemma OrderMoneyStepEarns(db: Db, step: Step, o: OrderId)
    requires IsBilling(step) && !IsCardStep(step) && !IsCreditStep(step)
    ensures EarnsStatus(db, BillingNext(db, step), o)
  {
    if step.RegisterCheck? {
      CheckEarns(db, step.orderId, step.staff, step.requested, o);
    } else if step.RequestRefund? || step.SettleRefund? {
      RefundStepEarns(db, step, o);
    }
  }

  lemma CheckEarns(db: Db, check: OrderId, staff: bool, requested: Option<int>, o: OrderId)
    ensures EarnsStatus(db, BillingNext(db, RegisterCheck(check, staff, requested)), o)
  {
  }

  lemma RefundStepEarns(db: Db, step: Step, o: OrderId)
    requires step.RequestRefund? || step.SettleRefund?
    ensures EarnsStatus(db, BillingNext(db, step), o)
  {
  }

  lemma NewlyDispatchableIsCovered(s: State, step: Step, o: OrderId)
    requires o < |Next(s, step).db.orders| && Dispatchable(Next(s, step).db.orders[o].paymentStatus)
    requires o < |s.db.orders| ==> !Dispatchable(s.db.orders[o].paymentStatus)
    ensures CoveredBy(Next(s, step).db.orders[o], SettledTotal(Next(s, step).db, o))
  {
    if !IsBilling(step) {
      DispatchFramed(s.db, step);
    } else if IsCardStep(step) {
      CardStepEarns(s.db, step, o);
    } else if IsCreditStep(step) {
      CreditStepEarns(s.db, step, o);
    } else {
      OrderMoneyStepEarns(s.db, step, o);
    }
  }

  lemma UnbackedComesFrom(s: State, step: Step, o: OrderId)
    requires Inv(s) && o < |Next(s, step).db.orders| && Unbacked(Next(s, step).db, o)
    ensures o < |s.db.orders| && (Unbacked(s.db, o) || (Paying(s.db, o) && Uncovers(s.db, o, step)))
  {
    if o >= |s.db.orders| || !Dispatchable(s.db.orders[o].paymentStatus) {
      NewlyDispatchableIsCovered(s, step, o);
    } else if Paying(s.db, o) {
      StepUncoversIff(s, step, o);
    }
  }

  /** An order only becomes dispatchable and uncovered through such a step. */
  lemma {:induction false} UnbackedWasUncovered(steps: seq<Step>, o: OrderId)
    requires o < |Reached(steps).orders| && Unbacked(Reached(steps), o)
    ensures exists i: nat :: UncoveredAt(steps, i, o)
  {
    if steps == [] {
    } else {
      var before, n := steps[..|steps| - 1], |steps| - 1;
      ReachedInv(before);
      UnbackedComesFrom(Run(EMPTY, before), steps[n], o);
      if Unbacked(Reached(before), o) {
        UnbackedWasUncovered(before, o);
        UncoveredLater(before, steps, o);
      } else {
        assert UncoveredAt(steps, n, o);
      }
    }
  }

  lemma UncoveredLater(before: seq<Step>, steps: seq<Step>, o: OrderId)
    requires |before| <= |steps| && steps[..|before|] == before && exists i: nat :: UncoveredAt(before, i, o)
    ensures exists i: nat :: UncoveredAt(steps, i, o)
  {
    var i: nat :| UncoveredAt(before, i, o);
    assert before[..i] == steps[..i] && before[i] == steps[i];
    assert UncoveredAt(steps, i, o);
  }

  ghost predicate UnbackedAt(steps: seq<Step>, k: nat, o: OrderId) {
    k <= |steps| && o < |Reached(steps[..k]).orders| && Unbacked(Reached(steps[..k]), o)
  }

  lemma UncoveredIsUnbacked(steps: seq<Step>, i: nat, o: OrderId)
    requires UncoveredAt(steps, i, o)
    ensures UnbackedAt(steps, i + 1, o)
  {
    assert steps[..i + 1][..i] == steps[..i] && steps[..i + 1][i] == steps[i];
    ReachedInv(steps[..i]);
    StepUncoversIff(Run(EMPTY, steps[..i]), steps[i], o);
  }

  /** In any run an order is at some time dispatchable without the money for it if
      and only if such a refund was confirmed for it. */
  lemma EverUnbackedIff(steps: seq<Step>, o: OrderId)
    ensures (exists k: nat :: UnbackedAt(steps, k, o)) <==> (exists i: nat :: UncoveredAt(steps, i, o))
  {
    if k: nat :| UnbackedAt(steps, k, o) {
      UnbackedWasUncovered(steps[..k], o);
      UncoveredLater(steps[..k], steps, o);
    }
    if i: nat :| UncoveredAt(steps, i, o) {
      UncoveredIsUnbacked(steps, i, o);
    }
  }

  // ----- and that happens -----

  /** The check is asked back and returned, and a driver is sent. */
  function SentWithoutMoney(): seq<Step> {
    PreparingSteps() + ReturningSteps(State(Ready(), {}), 0, 0, 0)
  }

  function ReturningSteps(s: State, p: PaymentId, d: DriverId, v: VehicleId): seq<Step>
    requires p < |s.db.payments|
  {
    [RequestRefund(p, s.db.payments[p].amount), SettleRefund(|s.db.refunds|, true), Create(s.db.payments[p].order, d, v)]
  }

  lemma ReturningIsRun(s: State, p: PaymentId, d: DriverId, v: VehicleId)
    requires p < |s.db.payments|
    ensures Run(s, ReturningSteps(s, p, d, v)) == RefundedThenSent(s, p, d, v)
  {
    RunThree(s, RequestRefund(p, s.db.payments[p].amount), SettleRefund(|s.db.refunds|, true), Create(s.db.payments[p].order, d, v));
  }

  lemma RunThree(s: State, first: Step, second: Step, third: Step)
    ensures Run(s, [first, second, third]) == Next(Next(Next(s, first), second), third)
  {
    RunFollows([first, second, third], [s, Next(s, first), Next(Next(s, first), second), Next(Next(Next(s, first), second), third)]);
  }

  lemma SentIsRun()
    ensures Run(EMPTY, SentWithoutMoney()) == RefundedThenSent(State(Ready(), {}), 0, 0, 0)
  {
    ReadyIsReached();
    RunConcat(EMPTY, PreparingSteps(), ReturningSteps(State(Ready(), {}), 0, 0, 0));
    ReturningIsRun(State(Ready(), {}), 0, 0, 0);
  }

  lemma ReadyMeetsPremises()
    ensures Inv(State(Ready(), {})) && CanTake(Ready(), 0, 0)
    ensures SettledTotal(Ready(), 0) == 100 == Refundable(Ready(), 0)
  {
    ReadyIsReached();
    ReachedInv(PreparingSteps());
    ReadyIsSettled();
  }

  /** From the empty tables: an order is paid by check, the check is returned, and a
      driver is assigned to the order with nothing settled. */
  lemma DriverIsSentWithoutMoney()
    ensures var db := Reached(SentWithoutMoney());
            && |db.assignments| == 1 && db.assignments[0].order == 0
            && SettledTotal(db, 0) == 0 && 0 < |db.orders| && !CoveredBy(db.orders[0], SettledTotal(db, 0))
  {
    SentIsRun();
    ReadyMeetsPremises();
    RefundLeavesOrderDispatchable(State(Ready(), {}), 0, 0, 0);
  }
}
