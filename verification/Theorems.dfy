/** What holds in every state the dispatch and billing services can reach. */
module Theorems {
  import opened Tables
  import opened Sums
  import opened Dispatch
  import opened Billing
  import opened DispatchInvariants
  import opened OfferInvariants
  import opened LedgerInvariants
  import opened LedgerSteps
  import opened Protocol

  function Reached(steps: seq<Step>): Db {
    Run(EMPTY, steps).db
  }

  lemma ReachedInv(steps: seq<Step>)
    ensures Inv(Run(EMPTY, steps))
  {
    EmptyInv();
    RunKeeps(EMPTY, steps);
  }

  lemma ReachedLater(steps: seq<Step>, more: seq<Step>)
    ensures Inv(Run(EMPTY, steps)) && Inv(Run(EMPTY, steps + more))
    ensures History(Run(EMPTY, steps), Run(EMPTY, steps + more))
  {
    ReachedInv(steps);
    RunConcat(EMPTY, steps, more);
    RunKeeps(Run(EMPTY, steps), more);
  }

  // ----- drivers, orders and assignments -----

  /** Busy drivers and live assignments are in one-to-one correspondence. */
  lemma OneTripPerDriver(steps: seq<Step>)
    ensures var db := Reached(steps);
            && (forall d: nat :: d < |db.drivers| ==>
                  (db.drivers[d].status.Busy? <==> exists i: nat :: Holds(db.assignments, i, d)))
            && (forall i, j :: 0 <= i < j < |db.assignments| && Live(db.assignments[i].status) && Live(db.assignments[j].status) ==>
                  db.assignments[i].driver != db.assignments[j].driver && db.assignments[i].order != db.assignments[j].order)
            && |set d: nat | d < |db.drivers| && db.drivers[d].status.Busy?|
            == |set i: nat | i < |db.assignments| && Live(db.assignments[i].status)|
  {
    ReachedInv(steps);
    BusyDriversMatchLiveAssignments(Reached(steps));
  }

  /** An order is Assigned exactly while somebody has to answer, and an order
      with a live assignment is neither waiting for dispatch nor for payment. */
  lemma OrderFollowsAssignment(steps: seq<Step>, o: OrderId)
    requires o < |Reached(steps).orders|
    ensures var db := Reached(steps);
            && (db.orders[o].status.Assigned? <==> exists i: nat :: AwaitsAnswer(db.assignments, i, o))
            && (forall i :: 0 <= i < |db.assignments| && db.assignments[i].order == o && db.assignments[i].status.Accepted? ==>
                  db.orders[o].status.Accepted? || db.orders[o].status.InProgress?)
            && (HasLiveAssignment(db, o) ==> !Waiting(db.orders[o].status) && !AwaitingPayment(db.orders[o].status))
  {
    ReachedInv(steps);
    OrderAssignedIffPending(Reached(steps), o);
    if HasLiveAssignment(Reached(steps), o) { LiveNeverWaiting(Reached(steps), o); }
  }

  /** Rejecting always puts the order back in the queue and frees the driver,
      although the service looks at neither row count. */
  lemma RejectReopens(steps: seq<Step>, a: AssignmentId)
    requires a < |Reached(steps).assignments| && Reached(steps).assignments[a].status.Pending?
    ensures var db := Reached(steps);
            var row := db.assignments[a];
            && row.order < |db.orders| && row.driver < |db.drivers|
            && RejectTx(db, a) == db.(
                                  orders := db.orders[row.order := db.orders[row.order].(status := Requested)],
                                  drivers := db.drivers[row.driver := db.drivers[row.driver].(status := Available)],
                                  assignments := db.assignments[a := row.(status := AssignmentStatus.Rejected)])
            && db.orders[row.order].status.Assigned? && db.drivers[row.driver].status.Busy?
  {
    ReachedInv(steps);
  }

  // ----- offers -----

  lemma OffersAreSound(steps: seq<Step>)
    ensures var db := Reached(steps);
            && AcceptedPointsHome(db)
            && NoSharedAssignment(db.offers)
            && OnePendingPerOrder(db.offers)
  {
    ReachedInv(steps);
  }

  /** An offer is answered once; from then on its row never changes. */
  lemma AnswerIsFinal(steps: seq<Step>, more: seq<Step>, f: OfferId)
    requires f < |Reached(steps).offers| && !Reached(steps).offers[f].status.Pending?
    ensures f < |Reached(steps + more).offers| && Reached(steps + more).offers[f] == Reached(steps).offers[f]
  {
    ReachedLater(steps, more);
  }

  // ----- the automatic cascade -----

  /** Offers are opened by whole attempts only: no attempt inserts an offer on
      a ranking that another one has made stale. */
  predicate AtomicCascade(steps: seq<Step>) {
    forall i :: 0 <= i < |steps| ==> !steps[i].OpenOffer?
  }

  ghost predicate OfferedOnce(offers: seq<Offer>) {
    forall f, g :: 0 <= f < g < |offers| && offers[f].mode.Auto? && offers[g].mode.Auto? && offers[f].order == offers[g].order ==>
      offers[f].driver != offers[g].driver
  }

  /** No row is added, or one that is not automatic, or one for a new driver. */
  ghost predicate AddsNewOffer(db: Db, offers: seq<Offer>) {
    && |db.offers| <= |offers| <= |db.offers| + 1
    && (forall f :: 0 <= f < |db.offers| ==>
          offers[f] == db.offers[f].(status := offers[f].status, assignment := offers[f].assignment))
    && (|db.offers| < |offers| && offers[|db.offers|].mode.Auto?
        ==> !OfferedBefore(db, offers[|db.offers|].order, offers[|db.offers|].driver))
  }

  lemma OfferRowsAddNew(db: Db, step: Step)
    requires TouchesOffers(step) && !step.OpenOffer? && !step.AuditPick?
    ensures AddsNewOffer(db, DispatchNext(db, step).offers)
  {
  }

  lemma StepAddsNew(s: State, step: Step)
    requires !step.OpenOffer?
    ensures AddsNewOffer(s.db, Next(s, step).db.offers)
  {
    if IsBilling(step) {
      BillingFramed(s.db, step);
    } else if TouchesAssignments(step) {
      AssignmentsGrow(s.db, step);
    } else if !TouchesOffers(step) {
      OthersQuiet(s.db, step);
    } else if !step.AuditPick? {
      OfferRowsAddNew(s.db, step);
    }
  }

  lemma StepOffersOnce(s: State, step: Step)
    requires OfferedOnce(s.db.offers) && !step.OpenOffer?
    ensures OfferedOnce(Next(s, step).db.offers)
  {
    StepAddsNew(s, step);
    NewKeepsOnce(s.db, Next(s, step).db.offers);
  }

  lemma NewKeepsOnce(db: Db, offers: seq<Offer>)
    requires OfferedOnce(db.offers) && AddsNewOffer(db, offers)
    ensures OfferedOnce(offers)
  {
  }

  lemma {:induction false} CascadeOffersOnce(steps: seq<Step>)
    requires AtomicCascade(steps)
    ensures OfferedOnce(Reached(steps).offers)
  {
    if steps != [] {
      CascadeOffersOnce(steps[..|steps| - 1]);
      StepOffersOnce(Run(EMPTY, steps[..|steps| - 1]), steps[|steps| - 1]);
    }
  }

  predicate AutoOffered(db: Db, o: OrderId, d: DriverId) {
    exists f :: 0 <= f < |db.offers| && db.offers[f].mode.Auto? && db.offers[f].order == o && db.offers[f].driver == d
  }

  /** An insert, if this is one, for a driver without an automatic offer yet. */
  predicate NewAttempt(db: Db, step: Step) {
    step.OpenOffer? && CanOpenOffer(db, step.orderId, step.driver) ==> !AutoOffered(db, step.orderId, step.driver)
  }

  lemma OpenOffersOnceIff(s: State, step: Step)
    requires step.OpenOffer?
    ensures OfferedOnce(Next(s, step).db.offers) <==> OfferedOnce(s.db.offers) && NewAttempt(s.db, step)
  {
    var offers, later := s.db.offers, Next(s, step).db.offers;
    if CanOpenOffer(s.db, step.orderId, step.driver) {
      var added := later[|offers|];
      assert later == offers + [added] && added.mode.Auto? && added.order == step.orderId && added.driver == step.driver;
      AppendOnceIff(offers, added);
    }
  }

  lemma AppendOnceIff(offers: seq<Offer>, added: Offer)
    requires added.mode.Auto?
    ensures OfferedOnce(offers + [added]) <==>
            && OfferedOnce(offers)
            && !exists f :: 0 <= f < |offers| && offers[f].mode.Auto? && offers[f].order == added.order && offers[f].driver == added.driver
  {
    var later := offers + [added];
    forall f | 0 <= f < |offers| ensures later[f] == offers[f] {
    }
    if OfferedOnce(later) {
      forall f, g | 0 <= f < g < |offers| && offers[f].mode.Auto? && offers[g].mode.Auto? && offers[f].order == offers[g].order
        ensures offers[f].driver != offers[g].driver
      {
        assert later[f].driver != later[g].driver;
      }
      forall f | 0 <= f < |offers| && offers[f].mode.Auto? && offers[f].order == added.order ensures offers[f].driver != added.driver {
        assert later[f].driver != later[|offers|].driver;
      }
    }
  }

  lemma LaterOnceBefore(db: Db, offers: seq<Offer>)
    requires AddsNewOffer(db, offers) && OfferedOnce(offers)
    ensures OfferedOnce(db.offers)
  {
    forall f, g | 0 <= f < g < |db.offers| && db.offers[f].mode.Auto? && db.offers[g].mode.Auto? && db.offers[f].order == db.offers[g].order
      ensures db.offers[f].driver != db.offers[g].driver
    {
      assert offers[f].driver != offers[g].driver;
    }
  }

  lemma StepOnceIff(s: State, step: Step)
    ensures OfferedOnce(Next(s, step).db.offers) <==> OfferedOnce(s.db.offers) && NewAttempt(s.db, step)
  {
    if step.OpenOffer? {
      OpenOffersOnceIff(s, step);
    } else {
      StepAddsNew(s, step);
      if OfferedOnce(Next(s, step).db.offers) { LaterOnceBefore(s.db, Next(s, step).db.offers); }
      if OfferedOnce(s.db.offers) { StepOffersOnce(s, step); }
    }
  }

  function AutoOffers(db: Db, o: OrderId): set<nat> {
    set f: nat | f < |db.offers| && db.offers[f].mode.Auto? && db.offers[f].order == o
  }

  /** So an order gets at most one automatic offer per driver, and the cascade
      ends after as many offers as there are drivers. */
  lemma CascadeTerminates(steps: seq<Step>, o: OrderId)
    requires AtomicCascade(steps)
    ensures |AutoOffers(Reached(steps), o)| <= |Reached(steps).drivers|
  {
    var db := Reached(steps);
    ReachedInv(steps);
    CascadeOffersOnce(steps);
    var offered := set f: nat | f in AutoOffers(db, o) :: db.offers[f].driver;
    OfferedDriversDistinct(db.offers, AutoOffers(db, o));
    BoundedSet(offered, |db.drivers|);
  }

  lemma {:induction false} OfferedDriversDistinct(offers: seq<Offer>, some: set<nat>)
    requires forall f :: f in some ==> f < |offers|
    requires forall f, g :: f in some && g in some && f != g ==> offers[f].driver != offers[g].driver
    ensures |set f: nat | f in some :: offers[f].driver| == |some|
    decreases |some|
  {
    if some == {} {
    } else {
      var x: nat :| x in some;
      var rest := some - {x};
      OfferedDriversDistinct(offers, rest);
      assert (set f: nat | f in some :: offers[f].driver) == (set f: nat | f in rest :: offers[f].driver) + {offers[x].driver};
    }
  }

  lemma {:induction false} BoundedSet(s: set<nat>, n: nat)
    requires forall x :: x in s ==> x < n
    ensures |s| <= n
  {
    if n == 0 {
      assert s == {};
    } else {
      BoundedSet(s - {n - 1}, n - 1);
    }
  }

  /** Every attempt that opens an offer takes one more driver off the list. */
  lemma AttemptShrinksChoice(db: Db, o: OrderId, best: Option<(DriverId, VehicleId)>, expiresAt: int, now: int)
    requires |OfferNextTx(db, o, best, expiresAt, now).offers| != |db.offers|
    ensures best.Some?
    ensures !OfferedBefore(db, o, best.value.0)
    ensures forall d :: OfferedBefore(OfferNextTx(db, o, best, expiresAt, now), o, d) <==> OfferedBefore(db, o, d) || d == best.value.0
  {
    var next := OfferNextTx(db, o, best, expiresAt, now);
    forall d ensures OfferedBefore(next, o, d) <==> OfferedBefore(db, o, d) || d == best.value.0 {
      if f :| 0 <= f < |db.offers| && db.offers[f].order == o && db.offers[f].driver == d {
        assert next.offers[f] == db.offers[f];
      }
      assert next.offers[|db.offers|].driver == best.value.0;
    }
  }

  // ----- money -----

  /** Nothing is dispatched on money that was never collected: whatever opens an
      assignment, the order had collected its whole total. */
  lemma DispatchIsBacked(steps: seq<Step>, step: Step)
    requires |Reached(steps + [step]).assignments| > |Reached(steps).assignments|
    ensures var db := Reached(steps);
            var row := Reached(steps + [step]).assignments[|db.assignments|];
            && row.order < |db.orders|
            && CoveredBy(db.orders[row.order], SettledTotal(db, row.order) + Sum(db.payments, RefundedWeight(row.order)))
  {
    var s := Run(EMPTY, steps);
    assert (steps + [step])[..|steps|] == steps;
    ReachedInv(steps);
    if IsBilling(step) {
      BillingFramed(s.db, step);
    } else {
      var o := Next(s, step).db.assignments[|s.db.assignments|].order;
      OnlyTakeAdds(s, step);
      assert Backed(s.db, o);
      SettledIsCollected(s.db, o);
    }
  }

  lemma OnlyTakeAdds(s: State, step: Step)
    requires !IsBilling(step) && |Next(s, step).db.assignments| > |s.db.assignments|
    ensures var o := Next(s, step).db.assignments[|s.db.assignments|].order;
            o < |s.db.orders| && Waiting(s.db.orders[o].status) && Dispatchable(s.db.orders[o].paymentStatus)
            && !HasLiveAssignment(s.db, o)
  {
    if TouchesOffers(step) {
      OffersTake(s, step);
    } else if TouchesAssignments(step) {
      AssignmentsTake(s, step);
    } else {
      OthersAddNothing(s, step);
    }
  }

  lemma OthersAddNothing(s: State, step: Step)
    requires !IsBilling(step) && !TouchesOffers(step) && !TouchesAssignments(step)
    ensures |Next(s, step).db.assignments| == |s.db.assignments|
  {
  }

  lemma OffersTake(s: State, step: Step)
    requires TouchesOffers(step) && |Next(s, step).db.assignments| > |s.db.assignments|
    ensures CanTakeOrder(s.db, Next(s, step).db.assignments[|s.db.assignments|].order)
  {
  }

  lemma AssignmentsTake(s: State, step: Step)
    requires TouchesAssignments(step) && |Next(s, step).db.assignments| > |s.db.assignments|
    ensures CanTakeOrder(s.db, Next(s, step).db.assignments[|s.db.assignments|].order)
  {
  }

  predicate RefundFree(steps: seq<Step>) {
    forall i :: 0 <= i < |steps| ==> !(steps[i].SettleRefund? && steps[i].success)
  }

  ghost predicate NothingRefunded(db: Db) {
    forall p :: 0 <= p < |db.payments| ==> !db.payments[p].status.Refunded?
  }

  lemma StepRefundsNothing(s: State, step: Step)
    requires !(step.SettleRefund? && step.success)
    ensures forall p :: 0 <= p < |Next(s, step).db.payments| && Next(s, step).db.payments[p].status.Refunded? ==>
              p < |s.db.payments| && s.db.payments[p].status.Refunded?
  {
    if IsBilling(step) {
    } else {
      DispatchFramed(s.db, step);
    }
  }

  lemma {:induction false} RunRefundsNothing(steps: seq<Step>)
    requires RefundFree(steps)
    ensures NothingRefunded(Reached(steps))
  {
    if steps != [] {
      RunRefundsNothing(steps[..|steps| - 1]);
      StepRefundsNothing(Run(EMPTY, steps[..|steps| - 1]), steps[|steps| - 1]);
    }
  }

  /** In a refund-free run a dispatchable order is covered by settled payments. */
  lemma PaidMeansCovered(steps: seq<Step>, o: OrderId)
    requires RefundFree(steps) && o < |Reached(steps).orders|
    ensures var db := Reached(steps);
            Dispatchable(db.orders[o].paymentStatus) ==> CoveredBy(db.orders[o], SettledTotal(db, o))
  {
    var db := Reached(steps);
    ReachedInv(steps);
    RunRefundsNothing(steps);
    assert Backed(db, o);
    SettledIsCollected(db, o);
    SumZero(db.payments, RefundedWeight(o));
  }

  /** So in a refund-free run no driver is ever sent on an order that what is
      settled does not cover. */
  lemma DispatchIsCovered(steps: seq<Step>, step: Step)
    requires RefundFree(steps) && |Reached(steps + [step]).assignments| > |Reached(steps).assignments|
    ensures var db := Reached(steps);
            var row := Reached(steps + [step]).assignments[|db.assignments|];
            row.order < |db.orders| && CoveredBy(db.orders[row.order], SettledTotal(db, row.order))
  {
    DispatchIsBacked(steps, step);
    RunRefundsNothing(steps);
    var db := Reached(steps);
    SumZero(db.payments, RefundedWeight(Reached(steps + [step]).assignments[|db.assignments|].order));
  }

  /** All of an untouched check is asked back and returned. */
  lemma FullRefund(db: Db, p: PaymentId)
    requires LedgerInv(db) && p < |db.payments| && db.payments[p].means.Check? && db.payments[p].status.Authorized?
    requires Refundable(db, p) == db.payments[p].amount && !db.orders[db.payments[p].order].status.Cancelled?
    ensures var done := SettleRefundTx(RequestRefundTx(db, p, db.payments[p].amount), |db.refunds|, true);
            done == db.(payments := db.payments[p := db.payments[p].(status := Refunded)],
                        transactions := done.transactions, refunds := done.refunds)
  {
    var payment := db.payments[p];
    var refund := Refund(p, payment.order, payment.amount, RefundStatus.Pending);
    var asked := RequestRefundTx(db, p, payment.amount);
    assert asked.refunds == db.refunds + [refund];
    var settled := refund.(status := RefundStatus.Success);
    assert asked.refunds[|db.refunds| := settled] == db.refunds + [settled];
    SumAppend(db.refunds, ReturnedWeight(p), settled);
    SumMonotone(db.refunds, db.refunds, ReturnedWeight(p), CommittedWeight(p));
    SumNonNegative(db.refunds, ReturnedWeight(p));
  }

  /** The whole check is asked back and returned, and then a driver is sent. */
  function AskedBack(s: State, p: PaymentId): State
    requires p < |s.db.payments|
  {
    Next(s, RequestRefund(p, s.db.payments[p].amount))
  }

  function Returned(s: State, p: PaymentId): State
    requires p < |s.db.payments|
  {
    Next(AskedBack(s, p), SettleRefund(|s.db.refunds|, true))
  }

  function RefundedThenSent(s: State, p: PaymentId, d: DriverId, v: VehicleId): State
    requires p < |s.db.payments|
  {
    Next(Returned(s, p), Create(s.db.payments[p].order, d, v))
  }

  lemma CheckComesBack(s: State, p: PaymentId)
    requires LedgerInv(s.db) && p < |s.db.payments| && s.db.payments[p].means.Check? && s.db.payments[p].status.Authorized?
    requires Refundable(s.db, p) == s.db.payments[p].amount && !s.db.orders[s.db.payments[p].order].status.Cancelled?
    ensures var back := Returned(s, p).db;
            back == s.db.(payments := s.db.payments[p := s.db.payments[p].(status := Refunded)],
                          transactions := back.transactions, refunds := back.refunds)
  {
    FullRefund(s.db, p);
    AskedIsRequested(s, p);
    ReturnedIsSettled(s, p);
  }

  lemma AskedIsRequested(s: State, p: PaymentId)
    requires p < |s.db.payments|
    ensures AskedBack(s, p).db == RequestRefundTx(s.db, p, s.db.payments[p].amount)
  {
  }

  lemma ReturnedIsSettled(s: State, p: PaymentId)
    requires p < |s.db.payments|
    ensures Returned(s, p).db == SettleRefundTx(AskedBack(s, p).db, |s.db.refunds|, true)
  {
  }

  lemma SentNext(s: State, o: OrderId, d: DriverId, v: VehicleId)
    requires CanTake(s.db, o, d)
    ensures Next(s, Create(o, d, v)).db == Take(s.db, o, d, v, Assigned, AssignmentStatus.Pending)
  {
  }

  /** The premise of the refund-free theorem is needed: returning the check an order
      waits on leaves the order dispatchable, and a driver can still be sent although
      nothing settled is left. */
  lemma RefundLeavesOrderDispatchable(s: State, p: PaymentId, d: DriverId, v: VehicleId)
    requires Inv(s) && p < |s.db.payments| && s.db.payments[p].means.Check? && s.db.payments[p].status.Authorized?
    requires CanTake(s.db, s.db.payments[p].order, d)
    requires SettledTotal(s.db, s.db.payments[p].order) == s.db.payments[p].amount == Refundable(s.db, p)
    ensures var o, sent := s.db.payments[p].order, RefundedThenSent(s, p, d, v).db;
            && |sent.assignments| == |s.db.assignments| + 1 && sent.assignments[|s.db.assignments|].order == o
            && SettledTotal(sent, o) == 0
            && o < |sent.orders| && !CoveredBy(sent.orders[o], SettledTotal(sent, o))
  {
    var o, back := s.db.payments[p].order, Returned(s, p);
    CheckComesBack(s, p);
    RefundUncovers(s.db, back.db, p);
    SameClaim(s.db, back.db, o, d);
    SentNext(back, o, d, v);
  }

  lemma RefundUncovers(db: Db, returned: Db, p: PaymentId)
    requires p < |db.payments| && db.payments[p].means.Check? && db.payments[p].status.Authorized?
    requires returned.payments == db.payments[p := db.payments[p].(status := Refunded)]
    ensures SettledTotal(returned, db.payments[p].order) == SettledTotal(db, db.payments[p].order) - db.payments[p].amount
  {
    SumUpdate(db.payments, SettledWeight(db.payments[p].order), p, db.payments[p].(status := Refunded));
  }

  lemma SameClaim(db: Db, other: Db, o: OrderId, d: DriverId)
    requires db.orders == other.orders && db.drivers == other.drivers && db.assignments == other.assignments
    ensures CanTake(db, o, d) == CanTake(other, o, d)
  {
    assert HasLiveAssignment(other, o) == HasLiveAssignment(db, o);
  }

  /** The capture and refund book of every payment. */
  lemma LedgerBalances(steps: seq<Step>, p: PaymentId)
    requires p < |Reached(steps).payments|
    ensures var db := Reached(steps);
            var payment := db.payments[p];
            && Sum(db.transactions, CaptureWeight(p)) <= 1
            && Sum(db.refunds, CommittedWeight(p)) <= payment.amount
            && Sum(db.transactions, RefundOutWeight(p)) == Sum(db.refunds, ReturnedWeight(p)) <= payment.amount
            && (payment.status.Refunded? <==> Sum(db.refunds, ReturnedWeight(p)) == payment.amount)
  {
    var db := Reached(steps);
    ReachedInv(steps);
    assert PaymentBalanced(db, p);
    SumMonotone(db.refunds, db.refunds, ReturnedWeight(p), CommittedWeight(p));
  }

  /** A paid payment can only become refunded, and stays there; its order and
      amount never change. */
  lemma PaidIsSettled(steps: seq<Step>, more: seq<Step>, p: PaymentId)
    requires p < |Reached(steps).payments|
    ensures p < |Reached(steps + more).payments|
    ensures var before, after := Reached(steps).payments[p], Reached(steps + more).payments[p];
            && after.order == before.order && after.amount == before.amount
            && (before.status.Paid? ==> after.status.Paid? || after.status.Refunded?)
            && (before.status.Refunded? ==> after.status.Refunded?)
  {
    ReachedLater(steps, more);
  }

  /** A refund leaves Pending once. */
  lemma RefundIsFinal(steps: seq<Step>, more: seq<Step>, r: RefundId)
    requires r < |Reached(steps).refunds| && !Reached(steps).refunds[r].status.Pending?
    ensures r < |Reached(steps + more).refunds| && Reached(steps + more).refunds[r] == Reached(steps).refunds[r]
  {
    ReachedLater(steps, more);
  }

  /** What staff authorize never overshoots the order: the settled sum is at
      most its total, whatever was paid before, and reaches it unless less was
      asked for. */
  lemma ManualAuthorizationFits(db: Db, o: OrderId, staff: bool, requested: Option<int>, seenLimit: int, credit: bool)
    requires o < |db.orders|
    ensures var next := if credit then ApproveCreditTx(db, o, staff, requested, seenLimit) else RegisterCheckTx(db, o, staff, requested);
            next.payments != db.payments ==>
              && db.orders[o].total.Some?
              && SettledTotal(db, o) < SettledTotal(next, o) <= db.orders[o].total.value
              && SettledTotal(next, o) == (if requested.Some? then SettledTotal(db, o) + requested.value else db.orders[o].total.value)
  {
    match Price(db, o, staff, requested)
    case Err(_) =>
    case Ok(amount) =>
      SumAppend(db.payments, SettledWeight(o), Payment(o, Check, Booked, amount, Authorized));
      SumAppend(db.payments, SettledWeight(o), Payment(o, CorporateCredit, Booked, amount, Authorized));
  }

  /** An active line is never overdrawn, and its balance is what its movements say. */
  lemma CreditReplays(steps: seq<Step>, c: CustomerId)
    requires c in Reached(steps).accounts
    ensures var db := Reached(steps);
            && (db.accounts[c].status.Active? ==> db.accounts[c].used <= db.accounts[c].limit)
            && db.accounts[c].used == Sum(db.movements, DrawnWeight(c))
            && (LastBalance(db.movements, c).Some? ==> LastBalance(db.movements, c).value == db.accounts[c].used)
            && (LastBalance(db.movements, c).None? ==> db.accounts[c].used == 0)
  {
    ReachedInv(steps);
    assert CreditLineSound(Reached(steps), c);
  }
}
