/**
 What every transaction keeps about offers. `picks` are the assignments whose
 manual pick committed but whose audit row is not written yet: the calls in
 flight between the two commits of a manual assignment.
 */
module OfferInvariants {
  import opened Tables
  import opened Dispatch

  ghost predicate SameTrip(offer: Offer, row: Assignment) {
    offer.order == row.order && offer.driver == row.driver && offer.vehicle == row.vehicle
  }

  ghost predicate OfferRowsExist(db: Db) {
    forall f :: 0 <= f < |db.offers| ==> db.offers[f].order < |db.orders| && db.offers[f].driver < |db.drivers|
  }

  /** An accepted offer, and no other, names the assignment it produced. */
  ghost predicate AcceptedPointsHome(db: Db) {
    forall f :: 0 <= f < |db.offers| ==>
      (db.offers[f].assignment.Some? <==> db.offers[f].status.Accepted?) &&
      (db.offers[f].assignment.Some? ==>
         db.offers[f].assignment.value < |db.assignments| &&
         SameTrip(db.offers[f], db.assignments[db.offers[f].assignment.value]))
  }

  ghost predicate NoSharedAssignment(offers: seq<Offer>) {
    forall f, g :: 0 <= f < g < |offers| && offers[f].assignment.Some? ==> offers[f].assignment != offers[g].assignment
  }

  ghost predicate OnePendingPerOrder(offers: seq<Offer>) {
    forall f, g :: 0 <= f < g < |offers| && offers[f].status.Pending? && offers[g].status.Pending? ==> offers[f].order != offers[g].order
  }

  ghost predicate PicksUnclaimed(db: Db, picks: set<AssignmentId>) {
    && (forall a :: a in picks ==> a < |db.assignments|)
    && (forall f :: 0 <= f < |db.offers| && db.offers[f].assignment.Some? ==> db.offers[f].assignment.value !in picks)
  }

  ghost predicate OfferInv(db: Db, picks: set<AssignmentId>) {
    && OfferRowsExist(db)
    && AcceptedPointsHome(db)
    && NoSharedAssignment(db.offers)
    && OnePendingPerOrder(db.offers)
    && PicksUnclaimed(db, picks)
  }

  /** From one state to a later one: rows are never lost, an assignment keeps
      its order, driver and vehicle, and an answered offer never changes. */
  ghost predicate HistoryKept(db: Db, next: Db) {
    && |db.orders| <= |next.orders| && |db.drivers| <= |next.drivers|
    && |db.assignments| <= |next.assignments| && |db.offers| <= |next.offers|
    && (forall a :: 0 <= a < |db.assignments| ==>
          next.assignments[a] == db.assignments[a].(status := next.assignments[a].status))
    && (forall f :: 0 <= f < |db.offers| ==>
          && next.offers[f] == db.offers[f].(status := next.offers[f].status, assignment := next.offers[f].assignment)
          && (!db.offers[f].status.Pending? ==> next.offers[f] == db.offers[f]))
  }

  lemma HistoryTransitive(a: Db, b: Db, c: Db)
    requires HistoryKept(a, b) && HistoryKept(b, c)
    ensures HistoryKept(a, c)
  {
  }

  /** Steps that leave the offers table alone. */
  lemma OffersUntouched(db: Db, next: Db, picks: set<AssignmentId>)
    requires OfferInv(db, picks) && next.offers == db.offers && HistoryKept(db, next)
    ensures OfferInv(next, picks)
  {
  }

  lemma OpenOfferKeeps(db: Db, picks: set<AssignmentId>, o: OrderId, d: DriverId, v: VehicleId, expiresAt: int)
    requires OfferInv(db, picks)
    ensures OfferInv(OpenOfferTx(db, o, d, v, expiresAt), picks)
    ensures HistoryKept(db, OpenOfferTx(db, o, d, v, expiresAt))
  {
  }

  lemma CloseOfferKeeps(db: Db, picks: set<AssignmentId>, f: OfferId, to: OfferStatus)
    requires OfferInv(db, picks) && !to.Accepted? && !to.Pending?
    ensures OfferInv(CloseOffer(db, f, to), picks)
    ensures HistoryKept(db, CloseOffer(db, f, to))
  {
  }

  lemma AcceptOfferKeeps(db: Db, picks: set<AssignmentId>, f: OfferId, d: DriverId, now: int)
    requires OfferInv(db, picks)
    ensures OfferInv(AcceptOfferTx(db, f, d, now), picks)
    ensures HistoryKept(db, AcceptOfferTx(db, f, d, now))
  {
  }

  /** The second commit of a manual pick. */
  lemma AuditPickKeeps(db: Db, picks: set<AssignmentId>, a: AssignmentId)
    requires OfferInv(db, picks) && a in picks
    requires db.assignments[a].order < |db.orders| && db.assignments[a].driver < |db.drivers|
    ensures OfferInv(AuditPickTx(db, a), picks - {a})
    ensures HistoryKept(db, AuditPickTx(db, a))
  {
  }
}
