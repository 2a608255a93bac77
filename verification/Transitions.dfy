/**
 Which step moves which status, from where to where. Every status of an order, a
 driver, an assignment and an offer only changes along these edges.
 */
module Transitions {
  import opened Tables
  import opened Dispatch
  import opened Billing
  import opened DispatchInvariants
  import opened OfferInvariants
  import opened Protocol
  import opened Theorems

  // ----- the edges -----

  predicate Queued(status: OrderStatus) { status.Requested? || status.AssigningDriver? }

  predicate Unpaid(status: OrderStatus) {
    status.Draft? || status.PendingQuote? || status.PendingCustomerConfirmation? || status.PendingPayment? || status.Confirmed?
  }

  predicate OrderEdge(db: Db, step: Step, o: OrderId, from: OrderStatus, to: OrderStatus) {
    match step
    case Create(order, _, _) => order == o && Queued(from) && to.Assigned?
    case Pick(order, _, _) => order == o && Queued(from) && to.Assigned?
    case Claim(order, _, _) => order == o && Queued(from) && to.Accepted?
    case AcceptOffer(f, _, _) => f < |db.offers| && db.offers[f].order == o && Queued(from) && to.Accepted?
    case AcceptAssignment(a) => a < |db.assignments| && db.assignments[a].order == o && from.Assigned? && to.Accepted?
    case RejectAssignment(a) => a < |db.assignments| && db.assignments[a].order == o && from.Assigned? && to.Requested?
    case StartTrip(order) => order == o && from.Accepted? && to.InProgress?
    case CancelOrder(order, read) => order == o && from == read && !from.Delivered? && !from.Failed? && to.Cancelled?
    case DeliverOrder(order, _) => order == o && to.Delivered?
    case OfferNext(order, best, _, _) =>
      order == o && (if best.Some? then from.Requested? && to.AssigningDriver? else from.AssigningDriver? && to.Requested?)
    case MarkOffering(order) => order == o && from.Requested? && to.AssigningDriver?
    case MarkWaiting(order) => order == o && from.AssigningDriver? && to.Requested?
    case Requeue => from.AssigningDriver? && to.Requested? && !HasPendingOffer(db, o)
    case RegisterCheck(order, _, _) => order == o && Unpaid(from) && to.Requested?
    case ApproveCredit(order, _, _, _) => order == o && Unpaid(from) && to.Requested?
    case SyncOrder(order) => order == o && Unpaid(from) && to.Requested?
    case Verify(p, _) => p < |db.payments| && db.payments[p].order == o && Unpaid(from) && to.Requested?
    case CancelRedirect(p) => p < |db.payments| && db.payments[p].order == o && Unpaid(from) && to.Requested?
    case _ => false
  }

  predicate DriverEdge(db: Db, step: Step, d: DriverId, from: DriverStatus, to: DriverStatus)
    requires d < |db.drivers|
  {
    match step
    case Create(_, driver, _) => driver == d && from.Available? && to.Busy?
    case Pick(_, driver, _) => driver == d && from.Available? && to.Busy?
    case Claim(_, driver, _) => driver == d && from.Available? && to.Busy?
    case AcceptOffer(_, driver, _) => driver == d && from.Available? && to.Busy?
    case RejectAssignment(a) => a < |db.assignments| && db.assignments[a].driver == d && from.Busy? && to.Available?
    case CompleteAssignment(a) => a < |db.assignments| && db.assignments[a].driver == d && from.Busy? && to.Available?
    case CancelOrder(o, _) => from.Busy? && to.Available? && HeldBy(db, o, d)
    case DeliverOrder(_, completed) =>
      completed.Some? && completed.value < |db.assignments| && db.assignments[completed.value].driver == d && to.Available?
    case SetAvailability(driver, status) =>
      driver == d && to == status && db.drivers[d].approved
      && (from.Available? || from.Offline?) && (to.Available? || to.Offline?)
    case _ => false
  }

  /** The driver holds a live assignment of the order. */
  predicate HeldBy(db: Db, o: OrderId, d: DriverId) {
    exists i :: 0 <= i < |db.assignments| && db.assignments[i].order == o && db.assignments[i].driver == d
                && (db.assignments[i].status.Pending? || db.assignments[i].status.Accepted?)
  }

  predicate AssignmentEdge(db: Db, step: Step, a: AssignmentId, from: AssignmentStatus, to: AssignmentStatus)
    requires a < |db.assignments|
  {
    match step
    case AcceptAssignment(row) => row == a && from.Pending? && to.Accepted?
    case RejectAssignment(row) => row == a && from.Pending? && to.Rejected?
    case CompleteAssignment(row) => row == a && from.Accepted? && to.Completed?
    case CancelOrder(o, _) => db.assignments[a].order == o && (from.Pending? || from.Accepted?) && to.Cancelled?
    case DeliverOrder(o, completed) => db.assignments[a].order == o && completed == Some(a) && (from.Pending? || from.Accepted?) && to.Completed?
    case _ => false
  }

  predicate OfferEdge(db: Db, step: Step, f: OfferId, to: OfferStatus)
    requires f < |db.offers|
  {
    match step
    case AcceptOffer(offer, d, now) => offer == f && db.offers[f].driver == d && now < db.offers[f].expiresAt && to.Accepted?
    case RejectOffer(offer, d) => offer == f && db.offers[f].driver == d && to.Rejected?
    case ExpireOffer(offer, now) => offer == f && db.offers[f].expiresAt <= now && to.Expired?
    case CancelOffer(offer) => offer == f && to.Cancelled?
    case _ => false
  }

  // ----- every step keeps to them -----

  ghost predicate OrdersKeepEdges(db: Db, step: Step, next: Db) {
    && |db.orders| <= |next.orders|
    && (forall o :: 0 <= o < |db.orders| ==>
          next.orders[o].status == db.orders[o].status || OrderEdge(db, step, o, db.orders[o].status, next.orders[o].status))
  }

  ghost predicate DriversKeepEdges(db: Db, step: Step, next: Db) {
    && |db.drivers| <= |next.drivers|
    && (forall d :: 0 <= d < |db.drivers| ==>
          next.drivers[d].status == db.drivers[d].status || DriverEdge(db, step, d, db.drivers[d].status, next.drivers[d].status))
  }

  ghost predicate AssignmentsKeepEdges(db: Db, step: Step, next: Db) {
    && |db.assignments| <= |next.assignments|
    && (forall a :: 0 <= a < |db.assignments| ==>
          next.assignments[a].status == db.assignments[a].status
          || AssignmentEdge(db, step, a, db.assignments[a].status, next.assignments[a].status))
  }

  ghost predicate OffersKeepEdges(db: Db, step: Step, next: Db) {
    && |db.offers| <= |next.offers|
    && (forall f :: 0 <= f < |db.offers| ==>
          next.offers[f].status == db.offers[f].status
          || (db.offers[f].status.Pending? && OfferEdge(db, step, f, next.offers[f].status)))
  }

  ghost predicate KeepsEdges(db: Db, step: Step, next: Db) {
    && OrdersKeepEdges(db, step, next) && DriversKeepEdges(db, step, next)
    && AssignmentsKeepEdges(db, step, next) && OffersKeepEdges(db, step, next)
  }

  lemma CreateKeepsEdges(s: State, o: OrderId, d: DriverId, v: VehicleId)
    ensures KeepsEdges(s.db, Create(o, d, v), Next(s, Create(o, d, v)).db)
  {
  }

  lemma PickKeepsEdges(s: State, o: OrderId, d: DriverId, v: VehicleId)
    ensures KeepsEdges(s.db, Pick(o, d, v), Next(s, Pick(o, d, v)).db)
  {
  }

  lemma ClaimKeepsEdges(s: State, o: OrderId, d: DriverId, v: VehicleId)
    ensures KeepsEdges(s.db, Claim(o, d, v), Next(s, Claim(o, d, v)).db)
  {
  }

  lemma AcceptAssignmentKeepsEdges(s: State, a: AssignmentId)
    ensures KeepsEdges(s.db, AcceptAssignment(a), Next(s, AcceptAssignment(a)).db)
  {
  }

  lemma RejectAssignmentKeepsEdges(s: State, a: AssignmentId)
    ensures KeepsEdges(s.db, RejectAssignment(a), Next(s, RejectAssignment(a)).db)
  {
  }

  lemma CompleteAssignmentKeepsEdges(s: State, a: AssignmentId)
    ensures KeepsEdges(s.db, CompleteAssignment(a), Next(s, CompleteAssignment(a)).db)
  {
  }

  lemma CancelOrderKeepsEdges(s: State, o: OrderId, read: OrderStatus)
    ensures KeepsEdges(s.db, CancelOrder(o, read), Next(s, CancelOrder(o, read)).db)
  {
  }

  lemma DeliverOrderKeepsEdges(s: State, o: OrderId, a: Option<AssignmentId>)
    ensures KeepsEdges(s.db, DeliverOrder(o, a), Next(s, DeliverOrder(o, a)).db)
  {
  }

  lemma OpenOfferKeepsEdges(s: State, o: OrderId, d: DriverId, v: VehicleId, expiresAt: int)
    ensures KeepsEdges(s.db, OpenOffer(o, d, v, expiresAt), Next(s, OpenOffer(o, d, v, expiresAt)).db)
  {
  }

  lemma OfferNextKeepsEdges(s: State, o: OrderId, best: Option<(DriverId, VehicleId)>, expiresAt: int, now: int)
    ensures KeepsEdges(s.db, OfferNext(o, best, expiresAt, now), Next(s, OfferNext(o, best, expiresAt, now)).db)
  {
  }

  lemma AcceptOfferKeepsEdges(s: State, f: OfferId, d: DriverId, now: int)
    ensures KeepsEdges(s.db, AcceptOffer(f, d, now), Next(s, AcceptOffer(f, d, now)).db)
  {
  }

  lemma RejectOfferKeepsEdges(s: State, f: OfferId, d: DriverId)
    ensures KeepsEdges(s.db, RejectOffer(f, d), Next(s, RejectOffer(f, d)).db)
  {
  }

  lemma ExpireOfferKeepsEdges(s: State, f: OfferId, now: int)
    ensures KeepsEdges(s.db, ExpireOffer(f, now), Next(s, ExpireOffer(f, now)).db)
  {
  }

  lemma CancelOfferKeepsEdges(s: State, f: OfferId)
    ensures KeepsEdges(s.db, CancelOffer(f), Next(s, CancelOffer(f)).db)
  {
  }

  lemma AuditPickKeepsEdges(s: State, a: AssignmentId)
    ensures KeepsEdges(s.db, AuditPick(a), Next(s, AuditPick(a)).db)
  {
  }

  lemma OthersKeepEdges(s: State, step: Step)
    requires !IsBilling(step) && !TouchesOffers(step) && !TouchesAssignments(step)
    ensures KeepsEdges(s.db, step, Next(s, step).db)
  {
  }

  lemma SessionsKeepEdges(s: State, step: Step)
    requires step.Verify? || step.CancelRedirect?
    ensures KeepsEdges(s.db, step, Next(s, step).db)
  {
    BillingFramed(s.db, step);
  }

  lemma BookingsKeepEdges(s: State, step: Step)
    requires step.RegisterCheck? || step.ApproveCredit? || step.SyncOrder?
    ensures KeepsEdges(s.db, step, Next(s, step).db)
  {
    BillingFramed(s.db, step);
  }

  lemma OtherMoneyKeepsEdges(s: State, step: Step)
    requires IsBilling(step) && !step.Verify? && !step.CancelRedirect? && !step.RegisterCheck? && !step.ApproveCredit? && !step.SyncOrder?
    ensures KeepsEdges(s.db, step, Next(s, step).db)
  {
    BillingFramed(s.db, step);
  }

  /** Whatever the state, a step moves statuses only along its edges. */
  lemma StepKeepsEdges(s: State, step: Step)
    ensures KeepsEdges(s.db, step, Next(s, step).db)
  {
    if TouchesOffers(step) || TouchesAssignments(step) {
      DispatchKeepsEdges(s, step);
    } else if step.Verify? || step.CancelRedirect? {
      SessionsKeepEdges(s, step);
    } else if step.RegisterCheck? || step.ApproveCredit? || step.SyncOrder? {
      BookingsKeepEdges(s, step);
    } else if IsBilling(step) {
      OtherMoneyKeepsEdges(s, step);
    } else {
      OthersKeepEdges(s, step);
    }
  }

  lemma DispatchKeepsEdges(s: State, step: Step)
    requires TouchesOffers(step) || TouchesAssignments(step)
    ensures KeepsEdges(s.db, step, Next(s, step).db)
  {
    match step
    case Create(o, d, v) => CreateKeepsEdges(s, o, d, v);
    case Pick(o, d, v) => PickKeepsEdges(s, o, d, v);
    case Claim(o, d, v) => ClaimKeepsEdges(s, o, d, v);
    case AcceptAssignment(a) => AcceptAssignmentKeepsEdges(s, a);
    case RejectAssignment(a) => RejectAssignmentKeepsEdges(s, a);
    case CompleteAssignment(a) => CompleteAssignmentKeepsEdges(s, a);
    case CancelOrder(o, read) => CancelOrderKeepsEdges(s, o, read);
    case DeliverOrder(o, a) => DeliverOrderKeepsEdges(s, o, a);
    case OpenOffer(o, d, v, expiresAt) => OpenOfferKeepsEdges(s, o, d, v, expiresAt);
    case OfferNext(o, best, expiresAt, now) => OfferNextKeepsEdges(s, o, best, expiresAt, now);
    case AcceptOffer(f, d, now) => AcceptOfferKeepsEdges(s, f, d, now);
    case RejectOffer(f, d) => RejectOfferKeepsEdges(s, f, d);
    case ExpireOffer(f, now) => ExpireOfferKeepsEdges(s, f, now);
    case CancelOffer(f) => CancelOfferKeepsEdges(s, f);
    case AuditPick(a) => AuditPickKeepsEdges(s, a);
  }

  // ----- over runs -----

  ghost predicate StartedAt(steps: seq<Step>, i: nat, o: OrderId) {
    && i < |steps| && steps[i] == StartTrip(o) && o < |Reached(steps[..i]).orders| && Reached(steps[..i]).orders[o].status.Accepted?
  }

  lemma NewOrderIsUnpaid(s: State, step: Step, o: OrderId)
    requires |s.db.orders| <= o < |Next(s, step).db.orders|
    ensures Unpaid(Next(s, step).db.orders[o].status)
  {
    if IsBilling(step) { BillingFramed(s.db, step); } else { DispatchFramed(s.db, step); }
  }

  lemma StartedLater(before: seq<Step>, last: Step, i: nat, o: OrderId)
    requires StartedAt(before, i, o)
    ensures StartedAt(before + [last], i, o)
  {
    assert (before + [last])[..i] == before[..i];
  }

  /** A trip is under way only because it was started, on an order its driver had
      accepted. */
  lemma {:induction false} TripsAreStarted(steps: seq<Step>, o: OrderId)
    requires o < |Reached(steps).orders| && Reached(steps).orders[o].status.InProgress?
    ensures exists i: nat :: StartedAt(steps, i, o)
  {
    if steps == [] {
    } else {
      var before, last := steps[..|steps| - 1], steps[|steps| - 1];
      var s := Run(EMPTY, before);
      assert steps == before + [last];
      if o >= |s.db.orders| {
        NewOrderIsUnpaid(s, last, o);
      } else {
        StepKeepsEdges(s, last);
        if s.db.orders[o].status.InProgress? {
          TripsAreStarted(before, o);
          var i: nat :| StartedAt(before, i, o);
          StartedLater(before, last, i, o);
        } else {
          assert OrderEdge(s.db, last, o, s.db.orders[o].status, OrderStatus.InProgress);
          assert steps[..|before|] == before && StartedAt(steps, |before|, o);
        }
      }
    }
  }
}
