/**
 What each dispatch step does to the tables in a reachable state, said in terms of
 the rows. In such a state weaker conditions suffice than those the transactions
 check, because the invariant gives the rest.
 */
module DispatchOutcomes {
  import opened Tables
  import opened Dispatch
  import opened Billing
  import opened DispatchInvariants
  import opened OfferInvariants
  import opened Protocol
  import opened Theorems
  import opened Transitions

  /** In the queue and paid for; that nobody has it follows. */
  predicate ReadyForDriver(db: Db, o: OrderId) {
    o < |db.orders| && Queued(db.orders[o].status) && (db.orders[o].paymentStatus.Paid? || db.orders[o].paymentStatus.Authorized?)
  }

  predicate Free(db: Db, d: DriverId) { d < |db.drivers| && db.drivers[d].status.Available? }

  lemma ReadyIsUnheld(db: Db, o: OrderId, d: DriverId)
    requires DispatchInv(db)
    ensures ReadyForDriver(db, o) && Free(db, d) <==> CanTake(db, o, d)
  {
    if o < |db.orders| && HasLiveAssignment(db, o) { LiveNeverWaiting(db, o); }
  }

  /** The tables with the order given to the driver. */
  predicate Given(db: Db, next: Db, o: OrderId, d: DriverId, v: VehicleId, status: OrderStatus, answer: AssignmentStatus) {
    && o < |db.orders| && d < |db.drivers|
    && next == db.(orders := db.orders[o := db.orders[o].(status := status)],
                   drivers := db.drivers[d := db.drivers[d].(status := Busy)],
                   assignments := db.assignments + [Assignment(o, d, v, answer)])
  }

  /** An operator's assignment takes a free driver for any queued paid order, and
      does nothing else. */
  lemma CreateAssigns(s: State, o: OrderId, d: DriverId, v: VehicleId)
    requires Inv(s)
    ensures var next := Next(s, Create(o, d, v)).db;
            if ReadyForDriver(s.db, o) && Free(s.db, d)
            then Given(s.db, next, o, d, v, Assigned, AssignmentStatus.Pending) else next == s.db
  {
    ReadyIsUnheld(s.db, o, d);
  }

  /** A manual pick assigns like that, and is written down for its audit row. */
  lemma PickAssigns(s: State, o: OrderId, d: DriverId, v: VehicleId)
    requires Inv(s)
    ensures Next(s, Pick(o, d, v)) ==
            if ReadyForDriver(s.db, o) && Free(s.db, d) then State(Next(s, Create(o, d, v)).db, s.picks + {|s.db.assignments|}) else s
  {
    ReadyIsUnheld(s.db, o, d);
  }

  lemma ClaimAccepts(s: State, o: OrderId, d: DriverId, v: VehicleId)
    requires Inv(s)
    ensures var next := Next(s, Claim(o, d, v)).db;
            if ReadyForDriver(s.db, o) && Free(s.db, d)
            then Given(s.db, next, o, d, v, OrderStatus.Accepted, AssignmentStatus.Accepted) else next == s.db
  {
    ReadyIsUnheld(s.db, o, d);
  }

  /** Accepting a pending assignment moves its order and its row, and nothing else;
      any other assignment is left alone. */
  lemma AcceptMovesBoth(s: State, a: AssignmentId)
    requires Inv(s)
    ensures var next := Next(s, AcceptAssignment(a)).db;
            if a < |s.db.assignments| && s.db.assignments[a].status.Pending? then
              var o := s.db.assignments[a].order;
              && o < |s.db.orders|
              && next == s.db.(orders := s.db.orders[o := s.db.orders[o].(status := OrderStatus.Accepted)],
                               assignments := s.db.assignments[a := s.db.assignments[a].(status := AssignmentStatus.Accepted)])
            else next == s.db
  {
  }

  /** Completing an accepted assignment frees its driver, and leaves the order. */
  lemma CompleteFrees(s: State, a: AssignmentId)
    requires Inv(s)
    ensures var next := Next(s, CompleteAssignment(a)).db;
            if a < |s.db.assignments| && s.db.assignments[a].status.Accepted? then
              var d := s.db.assignments[a].driver;
              && d < |s.db.drivers|
              && next == s.db.(drivers := s.db.drivers[d := s.db.drivers[d].(status := Available)],
                               assignments := s.db.assignments[a := s.db.assignments[a].(status := Completed)])
            else next == s.db
  {
  }

  lemma TripStarts(s: State, o: OrderId)
    ensures var next := Next(s, StartTrip(o)).db;
            if o < |s.db.orders| && s.db.orders[o].status.Accepted?
            then next == s.db.(orders := s.db.orders[o := s.db.orders[o].(status := InProgress)]) else next == s.db
  {
  }

  /** An approved driver who is not on a trip goes on or off duty; nobody else does,
      and nowhere else. */
  lemma DutyChanges(s: State, d: DriverId, to: DriverStatus)
    ensures var next := Next(s, SetAvailability(d, to)).db;
            if d < |s.db.drivers| && s.db.drivers[d].approved && s.db.drivers[d].status in {Available, Offline} && to in {Available, Offline}
            then next == s.db.(drivers := s.db.drivers[d := s.db.drivers[d].(status := to)]) else next == s.db
  {
  }

  /** An order enters unpaid, a driver off duty and not approved. */
  lemma RowsEnter(s: State, order: Order, d: DriverId)
    ensures Next(s, PlaceOrder(order)).db ==
            if Unpaid(order.status) && order.paymentStatus.Pending? then s.db.(orders := s.db.orders + [order]) else s.db
    ensures Next(s, RegisterDriver).db == s.db.(drivers := s.db.drivers + [Driver(Offline, false)])
    ensures Next(s, ApproveDriver(d)).db ==
            if d < |s.db.drivers| then s.db.(drivers := s.db.drivers[d := Driver(s.db.drivers[d].status, true)]) else s.db
  {
  }

  // ----- orders that close -----

  lemma HolderIsReleased(db: Db, o: OrderId, d: DriverId)
    requires DispatchInv(db) && d < |db.drivers|
    ensures Releases(db, o, d) <==> HeldBy(db, o, d)
  {
    if HeldBy(db, o, d) {
      var i: nat :| i < |db.assignments| && db.assignments[i].order == o && db.assignments[i].driver == d && Live(db.assignments[i].status);
    }
  }

  /** Cancelling an open order cancels its live assignments and frees exactly the
      drivers who held them. */
  lemma CancelReleasesHolders(s: State, o: OrderId, read: OrderStatus)
    requires Inv(s) && o < |s.db.orders| && s.db.orders[o].status == read && read !in {Delivered, OrderStatus.Cancelled, OrderStatus.Failed}
    ensures var next := Next(s, CancelOrder(o, read)).db;
            && next == s.db.(orders := s.db.orders[o := s.db.orders[o].(status := OrderStatus.Cancelled)],
                             drivers := next.drivers, assignments := next.assignments)
            && |next.drivers| == |s.db.drivers| && |next.assignments| == |s.db.assignments|
            && (forall d :: 0 <= d < |s.db.drivers| ==>
                  next.drivers[d] == if HeldBy(s.db, o, d) then s.db.drivers[d].(status := Available) else s.db.drivers[d])
            && (forall a :: 0 <= a < |s.db.assignments| ==>
                  var row := s.db.assignments[a];
                  next.assignments[a] ==
                  if row.order == o && (row.status.Pending? || row.status.Accepted?) then row.(status := AssignmentStatus.Cancelled) else row)
  {
    forall d: DriverId | d < |s.db.drivers| ensures Releases(s.db, o, d) <==> HeldBy(s.db, o, d) {
      HolderIsReleased(s.db, o, d);
    }
  }

  lemma ClosedOrderStays(s: State, o: OrderId, read: OrderStatus)
    requires read in {Delivered, OrderStatus.Cancelled, OrderStatus.Failed} || o >= |s.db.orders| || s.db.orders[o].status != read
    ensures Next(s, CancelOrder(o, read)).db == s.db
  {
  }

  /** Delivering an order completes the assignment it has and frees its driver. */
  lemma DeliverCompletes(s: State, a: AssignmentId)
    requires Inv(s) && a < |s.db.assignments| && (s.db.assignments[a].status.Pending? || s.db.assignments[a].status.Accepted?)
    ensures var o, d := s.db.assignments[a].order, s.db.assignments[a].driver;
            && o < |s.db.orders| && d < |s.db.drivers|
            && Next(s, DeliverOrder(o, Some(a))).db ==
               s.db.(orders := s.db.orders[o := s.db.orders[o].(status := Delivered)],
                     drivers := s.db.drivers[d := s.db.drivers[d].(status := Available)],
                     assignments := s.db.assignments[a := s.db.assignments[a].(status := Completed)])
  {
  }

  lemma DeliverUnassigned(s: State, o: OrderId)
    requires o < |s.db.orders| && forall d :: !HeldBy(s.db, o, d)
    ensures Next(s, DeliverOrder(o, None)).db == s.db.(orders := s.db.orders[o := s.db.orders[o].(status := Delivered)])
  {
    if HasLiveAssignment(s.db, o) {
      var i :| 0 <= i < |s.db.assignments| && s.db.assignments[i].order == o && Live(s.db.assignments[i].status);
      assert HeldBy(s.db, o, s.db.assignments[i].driver);
    }
  }

  /** A delivery that misses the assignment the order has, or names another, is
      none. */
  lemma DeliveryNeedsItsAssignment(s: State, o: OrderId, a: Option<AssignmentId>)
    requires match a
             case None => o >= |s.db.orders| || exists d :: HeldBy(s.db, o, d)
             case Some(a) => a >= |s.db.assignments| || s.db.assignments[a].order != o || s.db.assignments[a].status !in {AssignmentStatus.Pending, AssignmentStatus.Accepted}
    ensures Next(s, DeliverOrder(o, a)).db == s.db
  {
  }

  // ----- offers -----

  /** The driver of a pending offer takes it in time: everything moves together. */
  lemma OfferIsTaken(s: State, f: OfferId, d: DriverId, now: int)
    requires Inv(s)
    ensures var next := Next(s, AcceptOffer(f, d, now)).db;
            if f < |s.db.offers| && s.db.offers[f].status.Pending? && s.db.offers[f].driver == d && now < s.db.offers[f].expiresAt
               && ReadyForDriver(s.db, s.db.offers[f].order) && Free(s.db, d) then
              var offer := s.db.offers[f];
              && Given(s.db, next.(offers := s.db.offers), offer.order, d, offer.vehicle, OrderStatus.Accepted, AssignmentStatus.Accepted)
              && next.offers == s.db.offers[f := offer.(status := OfferStatus.Accepted, assignment := Some(|s.db.assignments|))]
            else next == s.db
  {
    if f < |s.db.offers| { ReadyIsUnheld(s.db, s.db.offers[f].order, d); }
  }

  predicate Closed(db: Db, next: Db, f: OfferId, to: OfferStatus) {
    f < |db.offers| && next == db.(offers := db.offers[f := db.offers[f].(status := to)])
  }

  lemma OfferIsRejected(s: State, f: OfferId, d: DriverId)
    ensures var next := Next(s, RejectOffer(f, d)).db;
            if f < |s.db.offers| && s.db.offers[f].status.Pending? && s.db.offers[f].driver == d
            then Closed(s.db, next, f, OfferStatus.Rejected) else next == s.db
  {
  }

  lemma OfferExpires(s: State, f: OfferId, now: int)
    ensures var next := Next(s, ExpireOffer(f, now)).db;
            if f < |s.db.offers| && s.db.offers[f].status.Pending? && s.db.offers[f].expiresAt <= now
            then Closed(s.db, next, f, OfferStatus.Expired) else next == s.db
  {
  }

  lemma OfferIsCancelled(s: State, f: OfferId)
    ensures var next := Next(s, CancelOffer(f)).db;
            if f < |s.db.offers| && s.db.offers[f].status.Pending?
            then Closed(s.db, next, f, OfferStatus.Cancelled) else next == s.db
  {
  }

  /** An order has one open offer at most. */
  lemma OfferIsInserted(s: State, o: OrderId, d: DriverId, v: VehicleId, expiresAt: int)
    ensures var next := Next(s, OpenOffer(o, d, v, expiresAt)).db;
            if o < |s.db.orders| && d < |s.db.drivers| && (forall f :: 0 <= f < |s.db.offers| && s.db.offers[f].status.Pending? ==> s.db.offers[f].order != o)
            then next == s.db.(offers := s.db.offers + [Offer(o, d, v, Auto, OfferStatus.Pending, expiresAt, None)]) else next == s.db
  {
  }

  predicate Moved(db: Db, next: Db, o: OrderId, from: OrderStatus, to: OrderStatus) {
    if o < |db.orders| && db.orders[o].status == from then next == db.(orders := db.orders[o := db.orders[o].(status := to)]) else next == db
  }

  lemma OfferingIsMarked(s: State, o: OrderId)
    ensures Moved(s.db, Next(s, MarkOffering(o)).db, o, Requested, AssigningDriver)
    ensures Moved(s.db, Next(s, MarkWaiting(o)).db, o, AssigningDriver, Requested)
  {
  }

  /** Immediate, or scheduled at most half an hour ahead. */
  predicate TimeHasCome(order: Order, now: int) {
    match order.service
    case Immediate => true
    case Scheduled(at) => at.Some? && at.value - 30 * 60 * 1000 <= now
  }

  /** The queue of the cascade: ready, due, and with no offer open. */
  predicate InCascade(db: Db, o: OrderId, now: int) {
    && ReadyForDriver(db, o) && TimeHasCome(db.orders[o], now)
    && forall f :: 0 <= f < |db.offers| && db.offers[f].status.Pending? ==> db.offers[f].order != o
  }

  lemma InCascadeIffWaiting(db: Db, o: OrderId, now: int)
    requires DispatchInv(db)
    ensures InCascade(db, o, now) <==> WaitingForOffer(db, o, now)
  {
    if o < |db.orders| && HasLiveAssignment(db, o) { LiveNeverWaiting(db, o); }
  }

  /** An attempt on an order of the cascade offers it to a driver who was not asked
      before, and marks it; with nobody left it goes back to the queue. */
  lemma AttemptOffers(s: State, o: OrderId, best: Option<(DriverId, VehicleId)>, expiresAt: int, now: int)
    requires Inv(s) && InCascade(s.db, o, now)
    requires best.Some? ==> best.value.0 < |s.db.drivers|
                            && forall f :: 0 <= f < |s.db.offers| && s.db.offers[f].order == o ==> s.db.offers[f].driver != best.value.0
    ensures var next := Next(s, OfferNext(o, best, expiresAt, now)).db;
            if best.Some? then
              next == s.db.(orders := s.db.orders[o := s.db.orders[o].(status := AssigningDriver)],
                            offers := s.db.offers + [Offer(o, best.value.0, best.value.1, Auto, OfferStatus.Pending, expiresAt, None)])
            else next == s.db.(orders := s.db.orders[o := s.db.orders[o].(status := Requested)])
  {
    InCascadeIffWaiting(s.db, o, now);
    var same := s.db.orders[o];
    assert s.db.orders[o := same] == s.db.orders;
  }

  lemma NoAttemptOutsideCascade(s: State, o: OrderId, best: Option<(DriverId, VehicleId)>, expiresAt: int, now: int)
    requires Inv(s) && !InCascade(s.db, o, now)
    ensures Next(s, OfferNext(o, best, expiresAt, now)).db == s.db
  {
    InCascadeIffWaiting(s.db, o, now);
  }

  /** Orders marked as being offered, with no offer open, go back to the queue. */
  lemma RequeueReturns(s: State, o: OrderId)
    requires o < |s.db.orders|
    ensures var next := Next(s, Requeue).db;
            && next == s.db.(orders := next.orders) && |next.orders| == |s.db.orders|
            && next.orders[o] ==
               if s.db.orders[o].status.AssigningDriver? && (forall f :: 0 <= f < |s.db.offers| && s.db.offers[f].status.Pending? ==> s.db.offers[f].order != o)
               then s.db.orders[o].(status := Requested) else s.db.orders[o]
  {
  }

  /** The audit row of a manual pick points at its assignment. */
  lemma PickIsAudited(s: State, a: AssignmentId)
    requires Inv(s) && a in s.picks
    ensures a < |s.db.assignments|
    ensures var row, next := s.db.assignments[a], Next(s, AuditPick(a));
            && next.picks == s.picks - {a}
            && |next.db.offers| == |s.db.offers| + 1 && next.db == s.db.(offers := next.db.offers)
            && next.db.offers[..|s.db.offers|] == s.db.offers
            && var offer := next.db.offers[|s.db.offers|];
               offer == Offer(row.order, row.driver, row.vehicle, Manual, OfferStatus.Accepted, offer.expiresAt, Some(a))
  {
  }
}
