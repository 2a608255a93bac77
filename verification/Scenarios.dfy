/** A small run of the protocol from the empty tables, for the failing inputs. */
module Scenarios {
  import opened Tables
  import opened Billing
  import opened Protocol

  const ORDER := Order(0, PendingPayment, PaymentStatus.Pending, Some(100), Immediate)

  /** An order placed, and perhaps a driver. */
  function Placed(drivers: seq<Driver>): State { State(Db([ORDER], drivers, [], [], [], [], [], map[], []), {}) }

  /** The order covered by a check, and the driver on duty. */
  function Ready(): Db {
    Db([ORDER.(status := Requested, paymentStatus := Authorized)], [Driver(Available, true)], [], [],
       [Payment(0, Check, Booked, 100, Authorized)],
       [Transaction(0, TransactionKind.Authorization, 100, TransactionStatus.Success)], [], map[], [])
  }

  function PreparingSteps(): seq<Step> {
    [PlaceOrder(ORDER), RegisterDriver, ApproveDriver(0), SetAvailability(0, Available), RegisterCheck(0, true, None)]
  }

  /** The states these steps go through. */
  function PreparingStates(): seq<State> {
    [EMPTY, Placed([]), Placed([Driver(Offline, false)]), Placed([Driver(Offline, true)]), Placed([Driver(Available, true)]),
     State(Ready(), {})]
  }

  lemma OrderPlaced()
    ensures Next(EMPTY, PlaceOrder(ORDER)) == Placed([])
  {
  }

  lemma DriverRegistered()
    ensures Next(Placed([]), RegisterDriver) == Placed([Driver(Offline, false)])
  {
  }

  lemma DriverApproved()
    ensures Next(Placed([Driver(Offline, false)]), ApproveDriver(0)) == Placed([Driver(Offline, true)])
  {
  }

  lemma DriverOnDuty()
    ensures Next(Placed([Driver(Offline, true)]), SetAvailability(0, Available)) == Placed([Driver(Available, true)])
  {
  }

  lemma CheckIsPriced(drivers: seq<Driver>)
    ensures Price(Placed(drivers).db, 0, true, None) == Ok(100)
  {
    assert SettledTotal(Placed(drivers).db, 0) == 0;
  }

  lemma ReadyIsSettled()
    ensures SettledTotal(Ready(), 0) == 100
  {
    assert Ready().payments[..0] == [];
  }

  lemma CheckIsSynced(db: Db)
    requires db == Ready().(orders := [ORDER])
    ensures SyncTx(db, 0) == Ready()
  {
    ReadyIsSettled();
    assert SettledTotal(db, 0) == 100;
    assert db.payments[0].status.Authorized? && HasAuthorizedManual(db, 0);
  }

  lemma CheckRegistered()
    ensures Next(Placed([Driver(Available, true)]), RegisterCheck(0, true, None)) == State(Ready(), {})
  {
    var db := Placed([Driver(Available, true)]).db;
    CheckIsPriced(db.drivers);
    assert Book(db, 0, Check, 100) == Ready().(orders := [ORDER]);
    CheckIsSynced(Book(db, 0, Check, 100));
  }

  lemma PreparingStep(i: nat)
    requires i < 5
    ensures Next(PreparingStates()[i], PreparingSteps()[i]) == PreparingStates()[i + 1]
  {
    if i == 0 {
      OrderPlaced();
    } else if i == 1 {
      DriverRegistered();
    } else if i == 2 {
      DriverApproved();
    } else if i == 3 {
      DriverOnDuty();
    } else {
      CheckRegistered();
    }
  }

  /** A run that goes through these states ends in the last. */
  lemma {:induction false} RunFollows(steps: seq<Step>, states: seq<State>)
    requires |states| == |steps| + 1
    requires forall i :: 0 <= i < |steps| ==> Next(states[i], steps[i]) == states[i + 1]
    ensures Run(states[0], steps) == states[|steps|]
  {
    if steps != [] {
      RunFollows(steps[..|steps| - 1], states[..|steps|]);
    }
  }

  lemma ReadyIsReached()
    ensures Run(EMPTY, PreparingSteps()) == State(Ready(), {})
  {
    forall i | 0 <= i < 5 ensures Next(PreparingStates()[i], PreparingSteps()[i]) == PreparingStates()[i + 1] {
      PreparingStep(i);
    }
    RunFollows(PreparingSteps(), PreparingStates());
  }
}
