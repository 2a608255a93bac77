/**
 The tables as mutable state. A service method is one request: it changes the
 rows step by step inside a transaction, by conditional updates that return how
 many rows they moved, and puts the snapshot taken at the start back when it has
 to roll back.
 */
module Storage {
  import opened Tables
  import opened Dispatch

  /** What a conditional update of one offer asks of it, besides being pending. */
  predicate OfferMatches(db: Db, f: OfferId, driver: Option<DriverId>, openAt: Option<int>, dueAt: Option<int>) {
    && f < |db.offers| && db.offers[f].status.Pending?
    && (driver.Some? ==> db.offers[f].driver == driver.value)
    && (openAt.Some? ==> db.offers[f].expiresAt > openAt.value)
    && (dueAt.Some? ==> db.offers[f].expiresAt <= dueAt.value)
  }

  class Database {
    var orders: seq<Order>
    var drivers: seq<Driver>
    var assignments: seq<Assignment>
    var offers: seq<Offer>
    var payments: seq<Payment>
    var transactions: seq<Transaction>
    var refunds: seq<Refund>
    var accounts: map<CustomerId, CreditAccount>
    var movements: seq<Movement>

    function Snapshot(): Db
      reads this
    {
      Db(orders, drivers, assignments, offers, payments, transactions, refunds, accounts, movements)
    }

    /** ROLLBACK: every table is again what it was in `saved`. */
    method Rollback(saved: Db)
      modifies this
      ensures Snapshot() == saved
    {
      orders, drivers, assignments, offers := saved.orders, saved.drivers, saved.assignments, saved.offers;
      payments, transactions, refunds := saved.payments, saved.transactions, saved.refunds;
      accounts, movements := saved.accounts, saved.movements;
    }

    /** The conditional update every claim starts with. */
    method ClaimOrderRow(o: OrderId, to: OrderStatus) returns (count: nat)
      modifies this`orders
      ensures count == if CanTakeOrder(old(Snapshot()), o) then 1 else 0
      ensures orders == if count == 1 then old(orders)[o := old(orders)[o].(status := to)] else old(orders)
    {
      if o >= |orders| || !Waiting(orders[o].status) || !Dispatchable(orders[o].paymentStatus) || HasLiveAssignment(Snapshot(), o) {
        return 0;
      }
      orders := orders[o := orders[o].(status := to)];
      count := 1;
    }

    method MoveOrderRow(o: OrderId, from: OrderStatus, to: OrderStatus) returns (count: nat)
      modifies this`orders
      ensures count == if o < |old(orders)| && old(orders)[o].status == from then 1 else 0
      ensures Snapshot() == MoveOrder(old(Snapshot()), o, from, to)
    {
      if o >= |orders| || orders[o].status != from { return 0; }
      orders := orders[o := orders[o].(status := to)];
      count := 1;
    }

    method MoveDriverRow(d: DriverId, from: DriverStatus, to: DriverStatus) returns (count: nat)
      modifies this`drivers
      ensures count == if d < |old(drivers)| && old(drivers)[d].status == from then 1 else 0
      ensures drivers == if count == 1 then old(drivers)[d := old(drivers)[d].(status := to)] else old(drivers)
    {
      if d >= |drivers| || drivers[d].status != from { return 0; }
      drivers := drivers[d := drivers[d].(status := to)];
      count := 1;
    }

    method MoveAssignmentRow(a: AssignmentId, from: AssignmentStatus, to: AssignmentStatus) returns (count: nat)
      modifies this`assignments
      ensures count == if a < |old(assignments)| && old(assignments)[a].status == from then 1 else 0
      ensures assignments == if count == 1 then old(assignments)[a := old(assignments)[a].(status := to)] else old(assignments)
    {
      if a >= |assignments| || assignments[a].status != from { return 0; }
      assignments := assignments[a := assignments[a].(status := to)];
      count := 1;
    }

    method MoveOfferRow(f: OfferId, driver: Option<DriverId>, openAt: Option<int>, dueAt: Option<int>, to: OfferStatus) returns (count: nat)
      modifies this`offers
      ensures count == if OfferMatches(old(Snapshot()), f, driver, openAt, dueAt) then 1 else 0
      ensures offers == if count == 1 then old(offers)[f := old(offers)[f].(status := to)] else old(offers)
    {
      if !OfferMatches(Snapshot(), f, driver, openAt, dueAt) { return 0; }
      offers := offers[f := offers[f].(status := to)];
      count := 1;
    }
  }
}
