/**
 What every dispatch transaction keeps. None of this is written down in the
 services: it is what their unchecked updates rely on.
 */
module DispatchInvariants {
  import opened Tables
  import opened Dispatch

  ghost predicate Holds(rows: seq<Assignment>, i: nat, d: DriverId) {
    i < |rows| && rows[i].driver == d && Live(rows[i].status)
  }

  ghost predicate AwaitsAnswer(rows: seq<Assignment>, i: nat, o: OrderId) {
    i < |rows| && rows[i].order == o && rows[i].status.Pending?
  }

  ghost predicate RowsExist(db: Db) {
    forall i :: 0 <= i < |db.assignments| ==>
      db.assignments[i].order < |db.orders| && db.assignments[i].driver < |db.drivers|
  }

  ghost predicate OneLivePerDriver(rows: seq<Assignment>) {
    forall i, j :: 0 <= i < j < |rows| && Live(rows[i].status) && Live(rows[j].status) ==> rows[i].driver != rows[j].driver
  }

  ghost predicate OneLivePerOrder(rows: seq<Assignment>) {
    forall i, j :: 0 <= i < j < |rows| && Live(rows[i].status) && Live(rows[j].status) ==> rows[i].order != rows[j].order
  }

  ghost predicate LiveHoldsBusyDriver(db: Db)
    requires RowsExist(db)
  {
    forall i :: 0 <= i < |db.assignments| && Live(db.assignments[i].status) ==>
      db.drivers[db.assignments[i].driver].status.Busy?
  }

  ghost predicate BusyDriverHoldsLive(db: Db) {
    forall d :: 0 <= d < |db.drivers| && db.drivers[d].status.Busy? ==> exists i: nat :: Holds(db.assignments, i, d)
  }

  ghost predicate LiveMatchesOrder(db: Db)
    requires RowsExist(db)
  {
    forall i :: 0 <= i < |db.assignments| ==>
      (db.assignments[i].status.Pending? ==> db.orders[db.assignments[i].order].status.Assigned?) &&
      (db.assignments[i].status.Accepted? ==>
         db.orders[db.assignments[i].order].status.Accepted? || db.orders[db.assignments[i].order].status.InProgress?)
  }

  ghost predicate AssignedHasPending(db: Db) {
    forall o :: 0 <= o < |db.orders| && db.orders[o].status.Assigned? ==> exists i: nat :: AwaitsAnswer(db.assignments, i, o)
  }

  ghost predicate DispatchInv(db: Db) {
    && RowsExist(db)
    && OneLivePerDriver(db.assignments)
    && OneLivePerOrder(db.assignments)
    && LiveHoldsBusyDriver(db)
    && BusyDriverHoldsLive(db)
    && LiveMatchesOrder(db)
    && AssignedHasPending(db)
  }

  // ----- helpers: the two existential parts survive a change -----

  /** Busy drivers keep the row they hold; new ones get a witness. */
  lemma KeepBusy(db: Db, next: Db, taken: set<DriverId>)
    requires BusyDriverHoldsLive(db)
    requires |next.drivers| >= |db.drivers|
    requires forall d :: 0 <= d < |next.drivers| && next.drivers[d].status.Busy? && d !in taken ==>
                           d < |db.drivers| && db.drivers[d].status.Busy?
    requires forall d: nat, i: nat :: d !in taken && d < |next.drivers| && next.drivers[d].status.Busy? && Holds(db.assignments, i, d) ==>
                                   Holds(next.assignments, i, d)
    requires forall d :: d in taken ==> exists i: nat :: Holds(next.assignments, i, d)
    ensures BusyDriverHoldsLive(next)
  {
    forall d | 0 <= d < |next.drivers| && next.drivers[d].status.Busy?
      ensures exists i: nat :: Holds(next.assignments, i, d)
    {
      if d !in taken {
        var i: nat :| Holds(db.assignments, i, d);
        assert Holds(next.assignments, i, d);
      }
    }
  }

  lemma KeepAssigned(db: Db, next: Db, taken: set<OrderId>)
    requires AssignedHasPending(db)
    requires forall o :: 0 <= o < |next.orders| && next.orders[o].status.Assigned? && o !in taken ==>
                           o < |db.orders| && db.orders[o].status.Assigned?
    requires forall o: nat, i: nat :: o !in taken && o < |next.orders| && next.orders[o].status.Assigned? && AwaitsAnswer(db.assignments, i, o) ==>
                                   AwaitsAnswer(next.assignments, i, o)
    requires forall o :: o in taken ==> exists i: nat :: AwaitsAnswer(next.assignments, i, o)
    ensures AssignedHasPending(next)
  {
    forall o | 0 <= o < |next.orders| && next.orders[o].status.Assigned?
      ensures exists i: nat :: AwaitsAnswer(next.assignments, i, o)
    {
      if o !in taken {
        var i: nat :| AwaitsAnswer(db.assignments, i, o);
        assert AwaitsAnswer(next.assignments, i, o);
      }
    }
  }

  // ----- one lemma per transaction -----

  lemma TakeKeeps(db: Db, o: OrderId, d: DriverId, v: VehicleId, orderTo: OrderStatus, status: AssignmentStatus)
    requires DispatchInv(db) && CanTake(db, o, d)
    requires (orderTo == Assigned && status.Pending?) || (orderTo == OrderStatus.Accepted && status.Accepted?)
    ensures DispatchInv(Take(db, o, d, v, orderTo, status))
  {
    var next := Take(db, o, d, v, orderTo, status);
    assert Holds(next.assignments, |db.assignments|, d);
    assert status.Pending? ==> AwaitsAnswer(next.assignments, |db.assignments|, o);
    KeepBusy(db, next, {d});
    KeepAssigned(db, next, if status.Pending? then {o} else {});
  }

  lemma AcceptKeeps(db: Db, a: AssignmentId)
    requires DispatchInv(db)
    ensures DispatchInv(AcceptTx(db, a))
  {
    if CanAcceptAssignment(db, a) {
      var next := AcceptTx(db, a);
      KeepBusy(db, next, {});
      KeepAssigned(db, next, {});
    }
  }

  lemma RejectKeeps(db: Db, a: AssignmentId)
    requires DispatchInv(db)
    ensures DispatchInv(RejectTx(db, a))
  {
    if a < |db.assignments| && db.assignments[a].status.Pending? {
      var next := RejectTx(db, a);
      KeepBusy(db, next, {});
      KeepAssigned(db, next, {});
    }
  }

  lemma CompleteKeeps(db: Db, a: AssignmentId)
    requires DispatchInv(db)
    ensures DispatchInv(CompleteTx(db, a))
  {
    if a < |db.assignments| && db.assignments[a].status.Accepted? {
      var next := CompleteTx(db, a);
      KeepBusy(db, next, {});
      KeepAssigned(db, next, {});
    }
  }

  lemma AvailabilityKeeps(db: Db, d: DriverId, to: DriverStatus)
    requires DispatchInv(db)
    ensures DispatchInv(AvailabilityTx(db, d, to))
  {
    KeepBusy(db, AvailabilityTx(db, d, to), {});
    KeepAssigned(db, AvailabilityTx(db, d, to), {});
  }

  /** An order row may move freely among statuses that no live assignment
      allows, or from Accepted to InProgress. */
  ghost predicate HarmlessMove(from: OrderStatus, to: OrderStatus) {
    || from == to
    || (!ActiveTrip(from) && !ActiveTrip(to))
    || (from.Accepted? && to.InProgress?)
  }

  lemma OrdersMoveKeeps(db: Db, next: Db)
    requires DispatchInv(db)
    requires next.drivers == db.drivers && next.assignments == db.assignments && |next.orders| == |db.orders|
    requires forall o :: 0 <= o < |db.orders| ==> HarmlessMove(db.orders[o].status, next.orders[o].status)
    ensures DispatchInv(next)
  {
    KeepBusy(db, next, {});
    KeepAssigned(db, next, {});
  }

  /** A released driver held the closed assignment and no other. */
  lemma CancelFreesHolder(db: Db, o: OrderId, read: OrderStatus, i: nat)
    requires DispatchInv(db) && i < |db.assignments| && Live(db.assignments[i].status)
    ensures Releases(db, o, db.assignments[i].driver) <==> db.assignments[i].order == o
  {
    if db.assignments[i].order != o {
      assert ActiveTrip(db.orders[db.assignments[i].order].status);
    }
  }

  lemma CancelKeepsBusy(db: Db, o: OrderId, read: OrderStatus)
    requires DispatchInv(db) && CancelOrderTx(db, o, read) != db
    ensures BusyDriverHoldsLive(CancelOrderTx(db, o, read))
  {
    var next := CancelOrderTx(db, o, read);
    forall d: nat, i: nat | d < |next.drivers| && next.drivers[d].status.Busy? && Holds(db.assignments, i, d)
      ensures Holds(next.assignments, i, d)
    {
      CancelFreesHolder(db, o, read, i);
    }
    KeepBusy(db, next, {});
  }

  lemma CancelKeepsHolders(db: Db, o: OrderId, read: OrderStatus)
    requires DispatchInv(db) && CancelOrderTx(db, o, read) != db
    ensures RowsExist(CancelOrderTx(db, o, read)) && LiveHoldsBusyDriver(CancelOrderTx(db, o, read))
  {
    var next := CancelOrderTx(db, o, read);
    forall i | 0 <= i < |next.assignments| && Live(next.assignments[i].status)
      ensures next.drivers[next.assignments[i].driver].status.Busy?
    {
      CancelFreesHolder(db, o, read, i);
    }
  }

  lemma CancelOrderKeeps(db: Db, o: OrderId, read: OrderStatus)
    requires DispatchInv(db)
    ensures DispatchInv(CancelOrderTx(db, o, read))
  {
    var next := CancelOrderTx(db, o, read);
    if next != db {
      CancelKeepsBusy(db, o, read);
      CancelKeepsHolders(db, o, read);
      CancelKeepsOrders(db, o, read);
    }
  }

  lemma CancelKeepsOrders(db: Db, o: OrderId, read: OrderStatus)
    requires DispatchInv(db) && CancelOrderTx(db, o, read) != db
    ensures var next := CancelOrderTx(db, o, read);
            RowsExist(next) && OneLivePerDriver(next.assignments) && OneLivePerOrder(next.assignments)
            && LiveMatchesOrder(next) && AssignedHasPending(next)
  {
    CancelKeepsUnique(db, o, read);
    CancelKeepsAssigned(db, o, read);
  }

  lemma CancelKeepsUnique(db: Db, o: OrderId, read: OrderStatus)
    requires DispatchInv(db) && CancelOrderTx(db, o, read) != db
    ensures var next := CancelOrderTx(db, o, read);
            RowsExist(next) && OneLivePerDriver(next.assignments) && OneLivePerOrder(next.assignments)
  {
  }

  lemma CancelKeepsAssigned(db: Db, o: OrderId, read: OrderStatus)
    requires DispatchInv(db) && CancelOrderTx(db, o, read) != db
    ensures var next := CancelOrderTx(db, o, read); RowsExist(next) && LiveMatchesOrder(next) && AssignedHasPending(next)
  {
    KeepAssigned(db, CancelOrderTx(db, o, read), {});
  }

  lemma DeliverKeeps(db: Db, o: OrderId, a: Option<AssignmentId>)
    requires DispatchInv(db)
    ensures DispatchInv(DeliverTx(db, o, a))
  {
    if CanDeliver(db, o, a) {
      DeliverKeepsDrivers(db, o, a);
      DeliverKeepsOrders(db, o, a);
    }
  }

  lemma DeliverKeepsDrivers(db: Db, o: OrderId, a: Option<AssignmentId>)
    requires DispatchInv(db) && CanDeliver(db, o, a)
    ensures var next := DeliverTx(db, o, a); RowsExist(next) && LiveHoldsBusyDriver(next) && BusyDriverHoldsLive(next)
  {
    KeepBusy(db, DeliverTx(db, o, a), {});
  }

  lemma DeliverKeepsOrders(db: Db, o: OrderId, a: Option<AssignmentId>)
    requires DispatchInv(db) && CanDeliver(db, o, a)
    ensures var next := DeliverTx(db, o, a);
            RowsExist(next) && OneLivePerDriver(next.assignments) && OneLivePerOrder(next.assignments)
            && LiveMatchesOrder(next) && AssignedHasPending(next)
  {
    KeepAssigned(db, DeliverTx(db, o, a), {});
  }

  // ----- what the invariant means -----

  /** BUSY drivers and live assignments correspond one to one. */
  lemma {:induction false} BusyDriversMatchLiveAssignments(db: Db)
    requires DispatchInv(db)
    ensures |set d: nat | d < |db.drivers| && db.drivers[d].status.Busy?|
         == |set i: nat | i < |db.assignments| && Live(db.assignments[i].status)|
  {
    var busy := set d: nat | d < |db.drivers| && db.drivers[d].status.Busy?;
    var live := set i: nat | i < |db.assignments| && Live(db.assignments[i].status);
    var image := set i: nat | i in live :: db.assignments[i].driver;
    forall d ensures d in busy <==> d in image {
      if d in busy {
        var i: nat :| Holds(db.assignments, i, d);
        assert i in live;
      }
    }
    assert busy == image;
    ImageSize(db.assignments, live);
  }

  lemma {:induction false} ImageSize(rows: seq<Assignment>, live: set<nat>)
    requires forall i :: i in live ==> i < |rows|
    requires forall i, j :: i in live && j in live && i != j ==> rows[i].driver != rows[j].driver
    ensures |set i: nat | i in live :: rows[i].driver| == |live|
    decreases |live|
  {
    if live == {} {
    } else {
      var x: nat :| x in live;
      var rest := live - {x};
      ImageSize(rows, rest);
      assert (set i: nat | i in live :: rows[i].driver) == (set i: nat | i in rest :: rows[i].driver) + {rows[x].driver};
    }
  }

  /** The order update a rejection does not look at always moves the row. */
  lemma OrderAssignedIffPending(db: Db, o: OrderId)
    requires DispatchInv(db) && o < |db.orders|
    ensures db.orders[o].status.Assigned? <==> exists i: nat :: AwaitsAnswer(db.assignments, i, o)
  {
  }

  lemma LiveNeverWaiting(db: Db, o: OrderId)
    requires DispatchInv(db) && o < |db.orders| && HasLiveAssignment(db, o)
    ensures ActiveTrip(db.orders[o].status) && !Waiting(db.orders[o].status) && !AwaitingPayment(db.orders[o].status)
  {
  }
}
