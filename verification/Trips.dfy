/** The driver's own steps: going on and off duty, and starting the trip. */
module Trips {
  import opened Tables
  import opened Storage
  import opened Dispatch

  class DriversService {
    const db: Database

    constructor (db: Database)
      ensures this.db == db
    {
      this.db := db;
    }

    /** Only the driver's own, approved, idle profile moves. */
    method UpdateStatus(d: DriverId, own: bool, to: DriverStatus) returns (answer: Result<DriverStatus>)
      modifies db
      ensures answer == if own && CanSetAvailability(old(db.Snapshot()), d, to) then Ok(to) else Err(Forbidden)
      ensures db.Snapshot() == if own then AvailabilityTx(old(db.Snapshot()), d, to) else old(db.Snapshot())
    {
      if !SelfService(to) { return Err(Forbidden); }
      if d >= |db.drivers| || !own || !db.drivers[d].approved || !SelfService(db.drivers[d].status) { return Err(Forbidden); }
      db.drivers := db.drivers[d := db.drivers[d].(status := to)];
      answer := Ok(to);
    }
  }

  class TripsService {
    const db: Database

    constructor (db: Database)
      ensures this.db == db
    {
      this.db := db;
    }

    /** Only an accepted order starts; one already under way is left as it is. */
    method Start(o: OrderId, forbidden: Option<Error>) returns (answer: Result<OrderId>)
      modifies db
      ensures var before := old(db.Snapshot());
              && answer == (if forbidden.Some? then Err(forbidden.value)
                            else if o < |before.orders| && (before.orders[o].status.Accepted? || before.orders[o].status.InProgress?) then Ok(o)
                            else Err(Conflict))
              && db.Snapshot() == (if forbidden.Some? then before else StartTx(before, o))
    {
      if forbidden.Some? { return Err(forbidden.value); }
      var moved := db.MoveOrderRow(o, OrderStatus.Accepted, InProgress);
      if moved == 0 && (o >= |db.orders| || !db.orders[o].status.InProgress?) { return Err(Conflict); }
      answer := Ok(o);
    }
  }
}
