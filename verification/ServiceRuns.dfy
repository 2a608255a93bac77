/**
 Requests made of several commits, as runs of the protocol: whatever holds in
 every reachable state holds between their commits too.
 */
module ServiceRuns {
  import opened Tables
  import opened Dispatch
  import opened DispatchInvariants
  import opened OfferInvariants
  import opened Protocol
  import opened Offers

  function CancelSteps(rows: seq<OfferId>): seq<Step> {
    seq(|rows|, i requires 0 <= i < |rows| => CancelOffer(rows[i]))
  }

  function ExpireSteps(rows: seq<OfferId>, now: int): seq<Step> {
    seq(|rows|, i requires 0 <= i < |rows| => ExpireOffer(rows[i], now))
  }

  lemma CancelStepsAppend(rows: seq<OfferId>)
    requires rows != []
    ensures CancelSteps(rows) == CancelSteps(rows[..|rows| - 1]) + [CancelOffer(rows[|rows| - 1])]
  {
  }

  lemma ExpireStepsAppend(rows: seq<OfferId>, now: int)
    requires rows != []
    ensures ExpireSteps(rows, now) == ExpireSteps(rows[..|rows| - 1], now) + [ExpireOffer(rows[|rows| - 1], now)]
  {
  }

  lemma RunAppend(s: State, steps: seq<Step>, step: Step)
    ensures Run(s, steps + [step]) == Next(Run(s, steps), step)
  {
    assert (steps + [step])[..|steps|] == steps;
  }

  lemma Appended(s: State, steps: seq<Step>, step: Step, mid: State, next: State)
    requires Run(s, steps) == mid && Next(mid, step) == next
    ensures Run(s, steps + [step]) == next
  {
    RunAppend(s, steps, step);
  }

  /** What the steps of these requests do, one by one. */
  lemma CancelNext(s: State, f: OfferId)
    ensures Next(s, CancelOffer(f)) == s.(db := CancelOfferTx(s.db, f))
  {
  }

  lemma ExpireNext(s: State, f: OfferId, now: int)
    ensures Next(s, ExpireOffer(f, now)) == s.(db := ExpireOfferTx(s.db, f, now))
  {
  }

  lemma WaitingNext(s: State, o: OrderId)
    ensures Next(s, MarkWaiting(o)) == s.(db := MoveOrder(s.db, o, AssigningDriver, Requested))
  {
  }

  lemma PickNext(s: State, o: OrderId, d: DriverId, v: VehicleId)
    ensures Next(s, Step.Pick(o, d, v))
            == State(CreateTx(s.db, o, d, v), if CanTake(s.db, o, d) then s.picks + {|s.db.assignments|} else s.picks)
  {
  }

  lemma AuditNext(s: State, a: AssignmentId)
    requires a in s.picks && a < |s.db.assignments|
    ensures Next(s, AuditPick(a)) == State(AuditPickTx(s.db, a), s.picks - {a})
  {
  }

  lemma {:induction false} CancellingIsRun(s: State, rows: seq<OfferId>)
    ensures Run(s, CancelSteps(rows)) == s.(db := Cancelling(s.db, rows))
  {
    if rows != [] {
      var init, last := rows[..|rows| - 1], rows[|rows| - 1];
      CancellingIsRun(s, init);
      CancelStepsAppend(rows);
      CancelNext(s.(db := Cancelling(s.db, init)), last);
      Appended(s, CancelSteps(init), CancelOffer(last), s.(db := Cancelling(s.db, init)), s.(db := Cancelling(s.db, rows)));
    }
  }

  lemma {:induction false} ExpiringIsRun(s: State, rows: seq<OfferId>, now: int)
    ensures Run(s, ExpireSteps(rows, now)) == s.(db := Expiring(s.db, rows, now))
  {
    if rows != [] {
      var init, last := rows[..|rows| - 1], rows[|rows| - 1];
      ExpiringIsRun(s, init, now);
      ExpireStepsAppend(rows, now);
      ExpireNext(s.(db := Expiring(s.db, init, now)), last, now);
      Appended(s, ExpireSteps(init, now), ExpireOffer(last, now), s.(db := Expiring(s.db, init, now)), s.(db := Expiring(s.db, rows, now)));
    }
  }

  /** The commits of a manual assignment up to the one that creates it. */
  function PickSteps(o: OrderId, d: DriverId, v: VehicleId, rows: seq<OfferId>): seq<Step> {
    CancelSteps(rows) + [MarkWaiting(o)] + [Step.Pick(o, d, v)]
  }

  lemma SupersedingIsRun(s: State, o: OrderId, rows: seq<OfferId>)
    ensures Run(s, CancelSteps(rows) + [MarkWaiting(o)]) == s.(db := Superseded(s.db, o, rows))
  {
    CancellingIsRun(s, rows);
    RunAppend(s, CancelSteps(rows), MarkWaiting(o));
    WaitingNext(s.(db := Cancelling(s.db, rows)), o);
  }

  lemma PickingIsRun(s: State, o: OrderId, d: DriverId, v: VehicleId, rows: seq<OfferId>)
    ensures var ready := Superseded(s.db, o, rows);
            Run(s, PickSteps(o, d, v, rows))
            == State(CreateTx(ready, o, d, v), if CanTake(ready, o, d) then s.picks + {|s.db.assignments|} else s.picks)
  {
    SupersedingIsRun(s, o, rows);
    SupersededKeepsAssignments(s.db, o, rows);
    RunAppend(s, CancelSteps(rows) + [MarkWaiting(o)], Step.Pick(o, d, v));
    PickNext(s.(db := Superseded(s.db, o, rows)), o, d, v);
  }

  lemma AuditedIsRun(s: State, steps: seq<Step>, picked: Db)
    requires |s.db.assignments| !in s.picks && |s.db.assignments| < |picked.assignments|
    requires Run(s, steps) == State(picked, s.picks + {|s.db.assignments|})
    ensures Run(s, steps + [AuditPick(|s.db.assignments|)]) == s.(db := AuditPickTx(picked, |s.db.assignments|))
  {
    var a := |s.db.assignments|;
    RunAppend(s, steps, AuditPick(a));
    AuditNext(State(picked, s.picks + {a}), a);
    assert s.picks + {a} - {a} == s.picks;
  }

  /** A manual assignment is a run of the protocol: the offers it cancels, the
      order back in the queue, the assignment, and its audit row when there is one. */
  lemma ManualAssignIsRun(s: State, o: OrderId, d: DriverId, v: VehicleId, rows: seq<OfferId>)
    requires Inv(s)
    ensures var ready := Superseded(s.db, o, rows);
            && ready.assignments == s.db.assignments
            && (!CanTake(ready, o, d) ==> Run(s, PickSteps(o, d, v, rows)) == s.(db := ready))
            && (CanTake(ready, o, d) ==>
                  Run(s, PickSteps(o, d, v, rows) + [AuditPick(|s.db.assignments|)])
                  == s.(db := AuditPickTx(CreateTx(ready, o, d, v), |s.db.assignments|)))
  {
    PickingIsRun(s, o, d, v, rows);
    SupersededKeepsAssignments(s.db, o, rows);
    var ready := Superseded(s.db, o, rows);
    if CanTake(ready, o, d) {
      assert |s.db.assignments| !in s.picks;
      AuditedIsRun(s, PickSteps(o, d, v, rows), CreateTx(ready, o, d, v));
    }
  }

  lemma SupersededKeepsAssignments(db: Db, o: OrderId, rows: seq<OfferId>)
    ensures Superseded(db, o, rows).assignments == db.assignments
  {
    CancellingCloses(db, rows);
  }

  /** So the invariant holds again after it, audit row included. */
  lemma ManualAssignKeeps(s: State, o: OrderId, d: DriverId, v: VehicleId, rows: seq<OfferId>)
    requires Inv(s) && CanTake(Superseded(s.db, o, rows), o, d)
    ensures Superseded(s.db, o, rows).assignments == s.db.assignments
    ensures var db := AuditPickTx(CreateTx(Superseded(s.db, o, rows), o, d, v), |s.db.assignments|);
            DispatchInv(db) && OfferInv(db, s.picks)
  {
    ManualAssignIsRun(s, o, d, v, rows);
    RunKeeps(s, PickSteps(o, d, v, rows) + [AuditPick(|s.db.assignments|)]);
  }
}
