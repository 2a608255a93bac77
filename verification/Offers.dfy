/**
 Offering an order to one driver after the other, the driver's answer, and the
 operator's pick. Every write of an offer is a conditional update, so whoever
 answers it first wins.
 */
module Offers {
  import opened Tables
  import opened Storage
  import opened Dispatch
  import opened Assignments
  import Matching
  import MatchingTheorems

  /** Whom the cascade offers to: the best-ranked driver not offered before. */
  function BestOf(db: Db, o: OrderId, request: Matching.Request): Option<Matching.Candidate>
    requires request.rings != []
  {
    MatchingTheorems.Best(Matching.RankingOf(request.(skip := PreviousDrivers(db, o))).candidates)
  }

  function PairOf(best: Option<Matching.Candidate>): Option<(DriverId, VehicleId)> {
    match best
    case None => None
    case Some(row) => Some((row.driver, row.vehicle))
  }

  /** The filters only know drivers that exist. */
  ghost predicate KnowsDrivers(request: Matching.Request, db: Db) {
    forall d: DriverId :: request.facts(d).profile.Some? ==> d < |db.drivers|
  }

  lemma BestIsNew(db: Db, o: OrderId, request: Matching.Request)
    requires request.rings != [] && KnowsDrivers(request, db)
    ensures BestOf(db, o, request).Some? ==>
              var best := BestOf(db, o, request).value;
              best.rank == 1 && best.driver < |db.drivers| && !OfferedBefore(db, o, best.driver)
  {
    var asked := request.(skip := PreviousDrivers(db, o));
    MatchingTheorems.BestIsFirst(asked);
    if BestOf(db, o, request).Some? {
      MatchingTheorems.CandidatesPass(asked, 0);
      PreviousAreOffered(db, o, BestOf(db, o, request).value.driver);
    }
  }

  /** The cascade offers to the first candidate of that ranking when it has a road
      ETA, and to nobody otherwise. */
  lemma BestIsFirstCandidate(db: Db, o: OrderId, request: Matching.Request)
    requires request.rings != []
    ensures var offered := set f | 0 <= f < |db.offers| && db.offers[f].order == o :: db.offers[f].driver;
            var rows := Matching.RankingOf(request.(skip := offered)).candidates;
            BestOf(db, o, request) == if |rows| > 0 && rows[0].etaStatus.EtaOk? then Some(rows[0]) else None
  {
    MatchingTheorems.BestIsFirst(request.(skip := PreviousDrivers(db, o)));
  }

  // ----- many offers at once -----

  function Cancelling(db: Db, rows: seq<OfferId>): Db {
    if rows == [] then db else CancelOfferTx(Cancelling(db, rows[..|rows| - 1]), rows[|rows| - 1])
  }

  function Expiring(db: Db, rows: seq<OfferId>, now: int): Db {
    if rows == [] then db else ExpireOfferTx(Expiring(db, rows[..|rows| - 1], now), rows[|rows| - 1], now)
  }

  /** Exactly the pending rows of the list are closed. */
  ghost predicate Closes(db: Db, next: Db, rows: seq<OfferId>, to: OfferStatus) {
    && next == db.(offers := next.offers) && |next.offers| == |db.offers|
    && (forall f :: 0 <= f < |db.offers| ==>
          next.offers[f] == if f in rows && db.offers[f].status.Pending? then db.offers[f].(status := to) else db.offers[f])
  }

  lemma {:induction false} CancellingCloses(db: Db, rows: seq<OfferId>)
    ensures Closes(db, Cancelling(db, rows), rows, OfferStatus.Cancelled)
  {
    if rows != [] {
      CancellingCloses(db, rows[..|rows| - 1]);
      assert rows == rows[..|rows| - 1] + [rows[|rows| - 1]];
    }
  }

  /** What the query for pending offers past their deadline may answer. */
  ghost predicate DueRows(db: Db, rows: seq<OfferId>, now: int, take: nat) {
    && (forall f :: f in rows ==> f < |db.offers| && db.offers[f].status.Pending? && db.offers[f].expiresAt <= now)
    && |rows| <= take
    && (|rows| < take ==> forall f: OfferId :: OfferMatches(db, f, None, None, Some(now)) ==> f in rows)
  }

  lemma {:induction false} ExpiringCloses(db: Db, rows: seq<OfferId>, now: int)
    requires forall f :: f in rows ==> f < |db.offers| && db.offers[f].expiresAt <= now
    ensures Closes(db, Expiring(db, rows, now), rows, OfferStatus.Expired)
  {
    if rows != [] {
      var init, last := rows[..|rows| - 1], rows[|rows| - 1];
      assert rows == init + [last];
      forall f | f in init ensures f < |db.offers| && db.offers[f].expiresAt <= now { assert f in rows; }
      ExpiringCloses(db, init, now);
    }
  }

  ghost predicate PendingRows(db: Db, rows: seq<OfferId>, o: OrderId) {
    forall f: OfferId :: f in rows <==> f < |db.offers| && db.offers[f].status.Pending? && db.offers[f].order == o
  }

  // ----- the operator's pick -----

  datatype Pick = Pick(driver: DriverId, vehicle: Option<VehicleId>, reasoned: bool)

  function CandidateFor(rows: seq<Matching.Candidate>, d: DriverId): Option<Matching.Candidate> {
    if rows == [] then None
    else if rows[0].driver == d then Some(rows[0])
    else CandidateFor(rows[1..], d)
  }

  function PickVehicle(ranking: Option<Matching.Ranking>, pick: Pick): Option<VehicleId> {
    if pick.vehicle.Some? then pick.vehicle
    else if ranking.Some? && CandidateFor(ranking.value.candidates, pick.driver).Some?
    then Some(CandidateFor(ranking.value.candidates, pick.driver).value.vehicle)
    else None
  }

  /** Refused before anything is written. */
  function PickRefusal(ranking: Option<Matching.Ranking>, pick: Pick, enforced: bool): Option<Error> {
    var enforce := enforced && ranking.Some? && Matching.PresenceDisabled !in ranking.value.alerts;
    if enforce && CandidateFor(ranking.value.candidates, pick.driver).None? then Some(Conflict)
    else if ranking.Some? && ranking.value.candidates != [] && ranking.value.candidates[0].driver != pick.driver && !pick.reasoned
    then Some(BadRequest)
    else if PickVehicle(ranking, pick).None? then Some(BadRequest)
    else None
  }

  /** The order without open offers, back in the queue: the commits that come
      before the assignment. */
  function Superseded(db: Db, o: OrderId, rows: seq<OfferId>): Db {
    MoveOrder(Cancelling(db, rows), o, AssigningDriver, Requested)
  }

  class OffersService {
    const db: Database
    const assignments: AssignmentsService
    /** Orders nobody could take, and until when they are left alone. */
    var cooldowns: map<OrderId, int>

    constructor (db: Database, assignments: AssignmentsService)
      ensures this.db == db && this.assignments == assignments && cooldowns == map[]
    {
      this.db := db;
      this.assignments := assignments;
      cooldowns := map[];
    }

    predicate CoolingDown(o: OrderId, now: int)
      reads this
    {
      o in cooldowns && now < cooldowns[o]
    }

    /** One attempt of the cascade, with nobody in between. */
    method OfferNext(o: OrderId, auto: bool, request: Matching.Request, ttlMs: nat, retryMs: nat, now: int) returns (offer: Option<OfferId>)
      requires request.rings != [] && KnowsDrivers(request, db.Snapshot())
      modifies db, this`cooldowns
      ensures !auto || old(CoolingDown(o, now)) ==> db.Snapshot() == old(db.Snapshot()) && offer == None && cooldowns == old(cooldowns)
      ensures auto && !old(CoolingDown(o, now)) ==>
                var before, best := old(db.Snapshot()), BestOf(old(db.Snapshot()), o, request);
                && db.Snapshot() == OfferNextTx(before, o, PairOf(best), now + ttlMs, now)
                && offer == (if WaitingForOffer(before, o, now) && best.Some? then Some(|before.offers|) else None)
                && cooldowns == (if WaitingForOffer(before, o, now) && best.None? then old(cooldowns)[o := now + retryMs] else old(cooldowns))
    {
      if !auto || CoolingDown(o, now) { return None; }
      if !WaitingForOffer(db.Snapshot(), o, now) { return None; }
      var ranking := Matching.RankForOrder(request.(skip := PreviousDrivers(db.Snapshot(), o)));
      var best := MatchingTheorems.Best(ranking.candidates);
      BestIsNew(db.Snapshot(), o, request);
      if best.None? {
        cooldowns := cooldowns[o := now + retryMs];
        var moved := db.MoveOrderRow(o, AssigningDriver, Requested);
        return None;
      }
      offer := Some(|db.offers|);
      db.offers := db.offers + [Offer(o, best.value.driver, best.value.vehicle, Auto, OfferStatus.Pending, now + ttlMs, None)];
      var moved := db.MoveOrderRow(o, Requested, AssigningDriver);
    }

    /** The driver takes the offer: offer, order, driver and assignment move
        together, or nothing does. */
    method Accept(driver: Option<DriverId>, f: OfferId, notReady: Option<Error>, unfit: Option<Error>, now: int) returns (answer: Result<AssignmentId>)
      requires assignments.db == db
      modifies db
      ensures var before := old(db.Snapshot());
              && (answer.Ok? <==> driver.Some? && notReady.None? && unfit.None? && CanAcceptOffer(before, f, driver.value, now))
              && (answer.Ok? ==> answer.value == |before.assignments|)
              && (driver.None? || f >= |before.offers| || before.offers[f].driver != driver.value ==> answer == Err(NotFound))
              && db.Snapshot() == (if answer.Ok? then AcceptOfferTx(before, f, driver.value, now) else before)
    {
      if driver.None? || f >= |db.offers| || db.offers[f].driver != driver.value { return Err(NotFound); }
      answer := assignments.ClaimOrder(driver, db.offers[f].order, db.offers[f].vehicle, ViaOffer(f, now), false, notReady, unfit);
    }

    method Reject(driver: DriverId, f: OfferId) returns (answer: Result<OfferId>)
      modifies db
      ensures answer == if OfferMatches(old(db.Snapshot()), f, Some(driver), None, None) then Ok(f) else Err(Conflict)
      ensures db.Snapshot() == RejectOfferTx(old(db.Snapshot()), f, driver)
    {
      var moved := db.MoveOfferRow(f, Some(driver), None, None, OfferStatus.Rejected);
      answer := if moved == 1 then Ok(f) else Err(Conflict);
    }

    method Expire(f: OfferId, now: int) returns (expired: bool)
      modifies db
      ensures expired == OfferMatches(old(db.Snapshot()), f, None, None, Some(now))
      ensures db.Snapshot() == ExpireOfferTx(old(db.Snapshot()), f, now)
    {
      var moved := db.MoveOfferRow(f, None, None, Some(now), OfferStatus.Expired);
      expired := moved == 1;
    }

    /** Expires what the query found. */
    method ExpireDue(rows: seq<OfferId>, now: int)
      requires DueRows(db.Snapshot(), rows, now, 100)
      modifies db
      ensures db.Snapshot() == Expiring(old(db.Snapshot()), rows, now)
      ensures Closes(old(db.Snapshot()), db.Snapshot(), rows, OfferStatus.Expired)
      ensures |rows| < 100 ==> forall f: OfferId :: !OfferMatches(db.Snapshot(), f, None, None, Some(now))
    {
      ghost var before := db.Snapshot();
      for i := 0 to |rows|
        invariant db.Snapshot() == Expiring(before, rows[..i], now)
      {
        assert rows[..i + 1][..i] == rows[..i];
        var expired := Expire(rows[i], now);
      }
      assert rows[..|rows|] == rows;
      ExpiringCloses(before, rows, now);
      if |rows| < 100 {
        forall f: OfferId ensures !OfferMatches(db.Snapshot(), f, None, None, Some(now)) {
          assert OfferMatches(before, f, None, None, Some(now)) ==> f in rows;
        }
      }
    }

    /** Cancels each offer still pending, and answers those it cancelled. */
    method CancelPendingOffers(rows: seq<OfferId>) returns (cancelled: seq<OfferId>)
      modifies db
      ensures db.Snapshot() == Cancelling(old(db.Snapshot()), rows)
      ensures Closes(old(db.Snapshot()), db.Snapshot(), rows, OfferStatus.Cancelled)
      ensures forall f :: f in cancelled <==> f in rows && f < |old(db.offers)| && old(db.offers)[f].status.Pending?
      ensures forall i, j :: 0 <= i < j < |cancelled| ==> cancelled[i] != cancelled[j]
    {
      cancelled := [];
      ghost var before := db.Snapshot();
      for i := 0 to |rows|
        invariant db.Snapshot() == Cancelling(before, rows[..i])
        invariant forall f :: f in cancelled <==> f in rows[..i] && f < |before.offers| && before.offers[f].status.Pending?
        invariant forall j, k :: 0 <= j < k < |cancelled| ==> cancelled[j] != cancelled[k]
      {
        CancellingCloses(before, rows[..i]);
        assert rows[..i + 1][..i] == rows[..i];
        var moved := db.MoveOfferRow(rows[i], None, None, None, OfferStatus.Cancelled);
        if moved == 1 { cancelled := cancelled + [rows[i]]; }
      }
      assert rows[..|rows|] == rows;
      CancellingCloses(before, rows);
    }

    /** The operator assigns a driver: the open offer is superseded, the order goes
        back to the queue, the assignment is created and the pick is written down,
        each in its own commit. When the creation fails, the first two stay. */
    method ManualAssign(o: OrderId, pick: Pick, ranking: Option<Matching.Ranking>, enforced: bool, unfit: Option<Error>, pending: seq<OfferId>)
      returns (answer: Result<AssignmentId>)
      requires assignments.db == db && PendingRows(db.Snapshot(), pending, o)
      modifies db
      ensures var before := old(db.Snapshot());
              var refusal := PickRefusal(ranking, pick, enforced);
              && (o >= |before.orders| ==> answer == Err(NotFound) && db.Snapshot() == before)
              && (o < |before.orders| && refusal.Some? ==> answer == Err(refusal.value) && db.Snapshot() == before)
              && (o < |before.orders| && refusal.None? ==>
                    var ready := Superseded(before, o, pending);
                    var vehicle := PickVehicle(ranking, pick).value;
                    && answer == CreateAnswer(ready, o, pick.driver, unfit)
                    && db.Snapshot() == (
                         if answer.Ok? then AuditPickTx(CreateTx(ready, o, pick.driver, vehicle), answer.value) else ready))
    {
      if o >= |db.orders| { return Err(NotFound); }
      var refusal := PickRefusal(ranking, pick, enforced);
      if refusal.Some? { return Err(refusal.value); }
      var vehicle := PickVehicle(ranking, pick).value;
      var superseded := CancelPendingOffers(pending);
      var moved := db.MoveOrderRow(o, AssigningDriver, Requested);
      answer := assignments.Create(o, pick.driver, vehicle, unfit);
      if answer.Ok? {
        db.offers := db.offers + [Offer(o, pick.driver, vehicle, Manual, OfferStatus.Accepted, 0, Some(answer.value))];
      }
    }
  }
}
