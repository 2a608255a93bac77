/**
 Giving an order to a driver, and the driver's answer. Each transaction updates
 the order, the driver and the assignment one after the other.
 */
module Assignments {
  import opened Tables
  import opened Storage
  import opened Dispatch
  import opened DispatchInvariants

  /** What runs before and after the claim, in its transaction: nothing, or the
      move of the offer that is being accepted. */
  datatype ClaimHooks = NoHooks | ViaOffer(offer: OfferId, now: int)

  predicate DispatchableOrder(order: Order) { Waiting(order.status) && Dispatchable(order.paymentStatus) }

  /** The answer to a creation: the checks before the transaction, then the race. */
  function CreateAnswer(db: Db, o: OrderId, d: DriverId, unfit: Option<Error>): Result<AssignmentId> {
    if o >= |db.orders| then Err(NotFound)
    else if !DispatchableOrder(db.orders[o]) then Err(Forbidden)
    else if unfit.Some? then Err(unfit.value)
    else if CanTake(db, o, d) then Ok(|db.assignments|)
    else Err(Conflict)
  }

  /** Why a driver may not claim at all: what is known before the transaction. */
  function ClaimRefusal(db: Db, driver: Option<DriverId>, o: OrderId, selfDispatch: bool, viaOffer: bool, notReady: Option<Error>, unfit: Option<Error>): Option<Error> {
    if !viaOffer && !selfDispatch then Some(Forbidden)
    else if driver.None? then Some(NotFound)
    else if notReady.Some? then notReady
    else if o >= |db.orders| then Some(NotFound)
    else if !DispatchableOrder(db.orders[o]) then Some(Forbidden)
    else unfit
  }

  predicate OfferOpen(db: Db, hooks: ClaimHooks, d: DriverId) {
    hooks.ViaOffer? ==> OfferMatches(db, hooks.offer, Some(d), Some(hooks.now), None)
  }

  class AssignmentsService {
    const db: Database

    constructor (db: Database)
      ensures this.db == db
    {
      this.db := db;
    }

    /** An operator gives the order to a driver. `unfit` is what the driver,
        licence and vehicle checks found. */
    method Create(o: OrderId, d: DriverId, v: VehicleId, unfit: Option<Error>) returns (answer: Result<AssignmentId>)
      modifies db
      ensures answer == CreateAnswer(old(db.Snapshot()), o, d, unfit)
      ensures db.Snapshot() == if answer.Ok? then CreateTx(old(db.Snapshot()), o, d, v) else old(db.Snapshot())
    {
      if o >= |db.orders| { return Err(NotFound); }
      if !DispatchableOrder(db.orders[o]) { return Err(Forbidden); }
      if unfit.Some? { return Err(unfit.value); }
      var saved := db.Snapshot();
      var claimedOrder := db.ClaimOrderRow(o, Assigned);
      if claimedOrder != 1 { return Err(Conflict); }
      var claimedDriver := db.MoveDriverRow(d, Available, Busy);
      if claimedDriver != 1 {
        db.Rollback(saved);
        return Err(Conflict);
      }
      answer := Ok(|db.assignments|);
      db.assignments := db.assignments + [Assignment(o, d, v, AssignmentStatus.Pending)];
    }

    /** The driver takes the order. Through an offer, the offer moves in the same
        transaction and is told its assignment. */
    method ClaimOrder(driver: Option<DriverId>, o: OrderId, v: VehicleId, hooks: ClaimHooks, selfDispatch: bool, notReady: Option<Error>, unfit: Option<Error>)
      returns (answer: Result<AssignmentId>)
      requires hooks.ViaOffer? ==> hooks.offer < |db.offers| && db.offers[hooks.offer].order == o && db.offers[hooks.offer].vehicle == v
      modifies db
      ensures var before := old(db.Snapshot());
              var refusal := ClaimRefusal(before, driver, o, selfDispatch, hooks.ViaOffer?, notReady, unfit);
              && (answer.Ok? <==> refusal.None? && OfferOpen(before, hooks, driver.value) && CanTake(before, o, driver.value))
              && (answer.Ok? ==> answer.value == |before.assignments|)
              && (refusal.Some? ==> answer == Err(refusal.value))
              && (refusal.None? && answer.Err? ==> answer.error == Conflict)
              && db.Snapshot() == (
                   if answer.Err? then before
                   else if hooks.ViaOffer? then AcceptOfferTx(before, hooks.offer, driver.value, hooks.now)
                   else ClaimTx(before, o, driver.value, v))
    {
      if !hooks.ViaOffer? && !selfDispatch { return Err(Forbidden); }
      if driver.None? { return Err(NotFound); }
      if notReady.Some? { return Err(notReady.value); }
      if o >= |db.orders| { return Err(NotFound); }
      if !DispatchableOrder(db.orders[o]) { return Err(Forbidden); }
      if unfit.Some? { return Err(unfit.value); }
      answer := Take(driver.value, o, v, hooks);
    }

    /** The transaction of a claim. */
    method Take(d: DriverId, o: OrderId, v: VehicleId, hooks: ClaimHooks) returns (answer: Result<AssignmentId>)
      requires hooks.ViaOffer? ==> hooks.offer < |db.offers| && db.offers[hooks.offer].order == o && db.offers[hooks.offer].vehicle == v
      modifies db
      ensures var before := old(db.Snapshot());
              && answer == (if OfferOpen(before, hooks, d) && CanTake(before, o, d) then Ok(|before.assignments|) else Err(Conflict))
              && db.Snapshot() == (
                   if answer.Err? then before
                   else if hooks.ViaOffer? then AcceptOfferTx(before, hooks.offer, d, hooks.now)
                   else ClaimTx(before, o, d, v))
    {
      var saved := db.Snapshot();
      if hooks.ViaOffer? {
        var moved := db.MoveOfferRow(hooks.offer, Some(d), Some(hooks.now), None, OfferStatus.Accepted);
        if moved != 1 { return Err(Conflict); }
      }
      var claimedOrder := db.ClaimOrderRow(o, OrderStatus.Accepted);
      if claimedOrder != 1 {
        db.Rollback(saved);
        return Err(Conflict);
      }
      var claimedDriver := db.MoveDriverRow(d, Available, Busy);
      if claimedDriver != 1 {
        db.Rollback(saved);
        return Err(Conflict);
      }
      var a := |db.assignments|;
      db.assignments := db.assignments + [Assignment(o, d, v, AssignmentStatus.Accepted)];
      if hooks.ViaOffer? {
        db.offers := db.offers[hooks.offer := db.offers[hooks.offer].(assignment := Some(a))];
      }
      answer := Ok(a);
    }

    /** The driver accepts an order an operator gave. */
    method Accept(a: AssignmentId, forbidden: Option<Error>) returns (answer: Result<AssignmentId>)
      modifies db
      ensures forbidden.Some? ==> answer == Err(forbidden.value)
      ensures forbidden.None? ==>
                var before := old(db.Snapshot());
                answer == if a >= |before.assignments| then Err(NotFound)
                          else if CanAcceptAssignment(before, a) then Ok(a) else Err(Conflict)
      ensures db.Snapshot() == if answer.Ok? then AcceptTx(old(db.Snapshot()), a) else old(db.Snapshot())
    {
      if forbidden.Some? { return Err(forbidden.value); }
      if a >= |db.assignments| { return Err(NotFound); }
      if !db.assignments[a].status.Pending? { return Err(Conflict); }
      var moved := db.MoveOrderRow(db.assignments[a].order, Assigned, OrderStatus.Accepted);
      if moved != 1 { return Err(Conflict); }
      var count := db.MoveAssignmentRow(a, AssignmentStatus.Pending, AssignmentStatus.Accepted);
      answer := Ok(a);
    }

    /** The driver turns it down. `moved` is the count the source does not look
        at: in a reachable state it is one. */
    method Reject(a: AssignmentId, forbidden: Option<Error>) returns (answer: Result<AssignmentId>, moved: nat)
      modifies db
      ensures forbidden.Some? ==> answer == Err(forbidden.value)
      ensures forbidden.None? ==>
                var before := old(db.Snapshot());
                answer == if a >= |before.assignments| then Err(NotFound)
                          else if before.assignments[a].status.Pending? then Ok(a) else Err(Conflict)
      ensures db.Snapshot() == if answer.Ok? then RejectTx(old(db.Snapshot()), a) else old(db.Snapshot())
      ensures answer.Ok? && DispatchInv(old(db.Snapshot())) ==> moved == 1
    {
      moved := 0;
      if forbidden.Some? { return Err(forbidden.value), 0; }
      if a >= |db.assignments| { return Err(NotFound), 0; }
      if !db.assignments[a].status.Pending? { return Err(Conflict), 0; }
      ghost var before := db.Snapshot();
      moved := db.MoveOrderRow(db.assignments[a].order, Assigned, Requested);
      var count := db.MoveAssignmentRow(a, AssignmentStatus.Pending, AssignmentStatus.Rejected);
      count := db.MoveDriverRow(db.assignments[a].driver, Busy, Available);
      answer := Ok(a);
    }

    method Complete(a: AssignmentId) returns (answer: Result<AssignmentId>)
      modifies db
      ensures answer == if a >= |old(db.assignments)| then Err(NotFound)
                        else if old(db.assignments)[a].status.Accepted? then Ok(a) else Err(Conflict)
      ensures db.Snapshot() == CompleteTx(old(db.Snapshot()), a)
    {
      var count := db.MoveAssignmentRow(a, AssignmentStatus.Accepted, Completed);
      if count != 1 { return Err(if a < |db.assignments| then Conflict else NotFound); }
      count := db.MoveDriverRow(db.assignments[a].driver, Busy, Available);
      answer := Ok(a);
    }
  }
}
