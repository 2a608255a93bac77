/**
 Every committed transaction of the dispatch protocol as one guarded atomic
 update of the tables. A guard that fails leaves the tables as they are, which
 is what a rolled-back transaction does.
 */
module Dispatch {
  import opened Tables

  // ----- assignments -----

  predicate CanTakeOrder(db: Db, o: OrderId) {
    && o < |db.orders|
    && Waiting(db.orders[o].status)
    && Dispatchable(db.orders[o].paymentStatus)
    && !HasLiveAssignment(db, o)
  }

  /** The two conditional updates every claim makes: the order is waiting, paid
      for and free, and the driver is available. */
  predicate CanTake(db: Db, o: OrderId, d: DriverId) {
    && CanTakeOrder(db, o)
    && d < |db.drivers|
    && db.drivers[d].status.Available?
  }

  function Take(db: Db, o: OrderId, d: DriverId, v: VehicleId, orderTo: OrderStatus, assignmentStatus: AssignmentStatus): Db
    requires o < |db.orders| && d < |db.drivers|
  {
    db.(orders := db.orders[o := db.orders[o].(status := orderTo)],
        drivers := db.drivers[d := db.drivers[d].(status := Busy)],
        assignments := db.assignments + [Assignment(o, d, v, assignmentStatus)])
  }

  /** An operator gives the order to a driver, who still has to accept. */
  function CreateTx(db: Db, o: OrderId, d: DriverId, v: VehicleId): Db {
    if CanTake(db, o, d) then Take(db, o, d, v, Assigned, AssignmentStatus.Pending) else db
  }

  /** The driver takes the order directly. */
  function ClaimTx(db: Db, o: OrderId, d: DriverId, v: VehicleId): Db {
    if CanTake(db, o, d) then Take(db, o, d, v, OrderStatus.Accepted, AssignmentStatus.Accepted) else db
  }

  predicate CanAcceptAssignment(db: Db, a: AssignmentId) {
    && a < |db.assignments|
    && db.assignments[a].status.Pending?
    && db.assignments[a].order < |db.orders|
    && db.orders[db.assignments[a].order].status.Assigned?
  }

  function AcceptTx(db: Db, a: AssignmentId): Db {
    if CanAcceptAssignment(db, a) then
      var o := db.assignments[a].order;
      db.(orders := db.orders[o := db.orders[o].(status := OrderStatus.Accepted)],
          assignments := db.assignments[a := db.assignments[a].(status := AssignmentStatus.Accepted)])
    else db
  }

  /** Moves the order's status only when it is `from`; the count is not looked at. */
  function MoveOrder(db: Db, o: OrderId, from: OrderStatus, to: OrderStatus): Db {
    if o < |db.orders| && db.orders[o].status == from
    then db.(orders := db.orders[o := db.orders[o].(status := to)])
    else db
  }

  function FreeDriver(db: Db, d: DriverId): Db {
    if d < |db.drivers| && db.drivers[d].status.Busy?
    then db.(drivers := db.drivers[d := db.drivers[d].(status := Available)])
    else db
  }

  function SetAssignment(db: Db, a: AssignmentId, to: AssignmentStatus): Db
    requires a < |db.assignments|
  {
    db.(assignments := db.assignments[a := db.assignments[a].(status := to)])
  }

  /** The order update is not checked: see OrderAssignedIffPending for why it
      always moves the row. */
  function RejectTx(db: Db, a: AssignmentId): Db {
    if a < |db.assignments| && db.assignments[a].status.Pending? then
      var row := db.assignments[a];
      FreeDriver(SetAssignment(MoveOrder(db, row.order, Assigned, Requested), a, AssignmentStatus.Rejected), row.driver)
    else db
  }

  function CompleteTx(db: Db, a: AssignmentId): Db {
    if a < |db.assignments| && db.assignments[a].status.Accepted? then
      FreeDriver(SetAssignment(db, a, Completed), db.assignments[a].driver)
    else db
  }

  // ----- drivers and trips -----

  predicate SelfService(s: DriverStatus) { s.Available? || s.Offline? }

  predicate CanSetAvailability(db: Db, d: DriverId, to: DriverStatus) {
    SelfService(to) && d < |db.drivers| && db.drivers[d].approved && SelfService(db.drivers[d].status)
  }

  function AvailabilityTx(db: Db, d: DriverId, to: DriverStatus): Db {
    if CanSetAvailability(db, d, to) then db.(drivers := db.drivers[d := db.drivers[d].(status := to)]) else db
  }

  /** Both entry points of a trip make this compare-and-set. */
  function StartTx(db: Db, o: OrderId): Db {
    MoveOrder(db, o, OrderStatus.Accepted, InProgress)
  }

  // ----- orders leaving dispatch (assignments, drivers and order row only) -----

  /** Every live assignment of the order is cancelled. */
  function CloseAssignments(rows: seq<Assignment>, o: OrderId): (r: seq<Assignment>)
    ensures |r| == |rows|
    ensures forall i :: 0 <= i < |rows| ==> r[i] ==
                                            if rows[i].order == o && Live(rows[i].status)
                                            then rows[i].(status := AssignmentStatus.Cancelled) else rows[i]
  {
    if rows == [] then []
    else
      var last := rows[|rows| - 1];
      CloseAssignments(rows[..|rows| - 1], o) +
      [if last.order == o && Live(last.status) then last.(status := AssignmentStatus.Cancelled) else last]
  }

  predicate ActiveTrip(status: OrderStatus) { status.Assigned? || status.Accepted? || status.InProgress? }

  /** Held an assignment of `o`, is busy, and has no other trip running. */
  predicate Releases(db: Db, o: OrderId, d: DriverId) {
    && d < |db.drivers|
    && db.drivers[d].status.Busy?
    && (exists i :: 0 <= i < |db.assignments| && db.assignments[i].order == o && db.assignments[i].driver == d
                    && Live(db.assignments[i].status))
    && !(exists i :: 0 <= i < |db.assignments| && db.assignments[i].order != o && db.assignments[i].driver == d
                     && Live(db.assignments[i].status) && db.assignments[i].order < |db.orders|
                     && ActiveTrip(db.orders[db.assignments[i].order].status))
  }

  function ReleasedDrivers(db: Db, o: OrderId): seq<Driver> {
    seq(|db.drivers|, d requires 0 <= d < |db.drivers| =>
      if Releases(db, o, d) then db.drivers[d].(status := Available) else db.drivers[d])
  }

  /** Compare-and-set on the status read before the transaction, then the
      driver and the assignment are let go. */
  function CancelOrderTx(db: Db, o: OrderId, read: OrderStatus): Db {
    if o < |db.orders| && db.orders[o].status == read && !read.Delivered? && !read.Cancelled? && !read.Failed? then
      db.(orders := db.orders[o := db.orders[o].(status := OrderStatus.Cancelled)],
          assignments := CloseAssignments(db.assignments, o),
          drivers := ReleasedDrivers(db, o))
    else db
  }

  /** Delivery writes the order whatever its status has become, and completes
      the assignment `a` it finds live, if any. */
  predicate CanDeliver(db: Db, o: OrderId, a: Option<AssignmentId>) {
    && o < |db.orders|
    && match a
       case None => !HasLiveAssignment(db, o)
       case Some(a) => a < |db.assignments| && db.assignments[a].order == o && Live(db.assignments[a].status)
                       && db.assignments[a].driver < |db.drivers|
  }

  function DeliverTx(db: Db, o: OrderId, a: Option<AssignmentId>): Db {
    if CanDeliver(db, o, a) then
      var moved := db.(orders := db.orders[o := db.orders[o].(status := Delivered)]);
      match a
      case None => moved
      case Some(a) =>
        var d := db.assignments[a].driver;
        SetAssignment(moved, a, Completed).(drivers := db.drivers[d := db.drivers[d].(status := Available)])
    else db
  }

  // ----- offers -----

  /** The insert of an automatic offer; the partial unique index refuses a
      second PENDING row for the order. */
  predicate CanOpenOffer(db: Db, o: OrderId, d: DriverId) {
    o < |db.orders| && d < |db.drivers| && !HasPendingOffer(db, o)
  }

  function OpenOfferTx(db: Db, o: OrderId, d: DriverId, v: VehicleId, expiresAt: int): Db {
    if CanOpenOffer(db, o, d)
    then db.(offers := db.offers + [Offer(o, d, v, Auto, OfferStatus.Pending, expiresAt, None)])
    else db
  }

  predicate CanAcceptOffer(db: Db, f: OfferId, d: DriverId, now: int) {
    && f < |db.offers|
    && db.offers[f].driver == d
    && db.offers[f].status.Pending?
    && db.offers[f].expiresAt > now
    && CanTake(db, db.offers[f].order, d)
  }

  /** Offer, order, driver and assignment move together. */
  function AcceptOfferTx(db: Db, f: OfferId, d: DriverId, now: int): Db {
    if CanAcceptOffer(db, f, d, now) then
      var offer := db.offers[f];
      ClaimTx(db, offer.order, d, offer.vehicle).(
        offers := db.offers[f := offer.(status := OfferStatus.Accepted, assignment := Some(|db.assignments|))])
    else db
  }

  function CloseOffer(db: Db, f: OfferId, to: OfferStatus): Db {
    if f < |db.offers| && db.offers[f].status.Pending?
    then db.(offers := db.offers[f := db.offers[f].(status := to)])
    else db
  }

  function RejectOfferTx(db: Db, f: OfferId, d: DriverId): Db {
    if f < |db.offers| && db.offers[f].driver == d then CloseOffer(db, f, OfferStatus.Rejected) else db
  }

  function ExpireOfferTx(db: Db, f: OfferId, now: int): Db {
    if f < |db.offers| && db.offers[f].expiresAt <= now then CloseOffer(db, f, OfferStatus.Expired) else db
  }

  function CancelOfferTx(db: Db, f: OfferId): Db {
    CloseOffer(db, f, OfferStatus.Cancelled)
  }

  /** Orders left in AssigningDriver without an open offer go back to the queue. */
  function Requeued(db: Db, o: OrderId): Order
    requires o < |db.orders|
  {
    if db.orders[o].status.AssigningDriver? && !HasPendingOffer(db, o)
    then db.orders[o].(status := Requested) else db.orders[o]
  }

  function RequeueTx(db: Db): Db {
    db.(orders := seq(|db.orders|, o requires 0 <= o < |db.orders| => Requeued(db, o)))
  }

  /** Paid, without a driver, without an open offer, and due now. */
  predicate WaitingForOffer(db: Db, o: OrderId, now: int) {
    && o < |db.orders|
    && DueNow(db.orders[o], now)
    && Waiting(db.orders[o].status)
    && Dispatchable(db.orders[o].paymentStatus)
    && !HasLiveAssignment(db, o)
    && !HasPendingOffer(db, o)
  }

  predicate OfferedBefore(db: Db, o: OrderId, d: DriverId) {
    exists f :: 0 <= f < |db.offers| && db.offers[f].order == o && db.offers[f].driver == d
  }

  function PreviousDrivers(db: Db, o: OrderId): set<DriverId> {
    set f | 0 <= f < |db.offers| && db.offers[f].order == o :: db.offers[f].driver
  }

  lemma PreviousAreOffered(db: Db, o: OrderId, d: DriverId)
    ensures d in PreviousDrivers(db, o) <==> OfferedBefore(db, o, d)
  {
  }

  /** One whole attempt of the cascade: `best` is the driver and vehicle the
      ranking of the drivers not offered before put first with a road ETA. */
  function OfferNextTx(db: Db, o: OrderId, best: Option<(DriverId, VehicleId)>, expiresAt: int, now: int): Db {
    if !WaitingForOffer(db, o, now) then db
    else match best
      case None => MoveOrder(db, o, AssigningDriver, Requested)
      case Some(b) =>
        if CanOpenOffer(db, o, b.0) && !OfferedBefore(db, o, b.0)
        then MoveOrder(OpenOfferTx(db, o, b.0, b.1, expiresAt), o, Requested, AssigningDriver)
        else db
  }

  /** The audit row of a manual pick, written after the assignment committed. */
  function AuditPickTx(db: Db, a: AssignmentId): Db
    requires a < |db.assignments|
  {
    var row := db.assignments[a];
    db.(offers := db.offers + [Offer(row.order, row.driver, row.vehicle, Manual, OfferStatus.Accepted, 0, Some(a))])
  }
}
