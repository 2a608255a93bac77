/**
 With which error a request is refused: the first of its conditions that does not
 hold.
 */
module Refusals {
  import opened Tables
  import opened Storage
  import opened Dispatch
  import opened Billing
  import opened BillingOutcomes
  import opened Transitions
  import opened DispatchInvariants
  import opened DispatchOutcomes
  import opened Assignments
  import opened Offers
  import opened Payments
  import Matching

  /** An operator's assignment. */
  lemma CreationIsRefused(db: Db, o: OrderId, d: DriverId, unfit: Option<Error>)
    requires DispatchInv(db)
    ensures var answer := CreateAnswer(db, o, d, unfit);
            && (answer.Ok? <==> ReadyForDriver(db, o) && unfit.None? && Free(db, d))
            && (answer.Ok? ==> answer.value == |db.assignments|)
            && (o >= |db.orders| ==> answer == Err(NotFound))
            && (o < |db.orders| && !ReadyForDriver(db, o) ==> answer == Err(Forbidden))
            && (ReadyForDriver(db, o) && unfit.Some? ==> answer == Err(unfit.value))
            && (ReadyForDriver(db, o) && unfit.None? && !Free(db, d) ==> answer == Err(Conflict))
  {
    ReadyIsUnheld(db, o, d);
  }

  /** A driver's claim, before its transaction. */
  lemma ClaimIsRefused(db: Db, driver: Option<DriverId>, o: OrderId, selfDispatch: bool, viaOffer: bool, notReady: Option<Error>, unfit: Option<Error>)
    ensures var refusal := ClaimRefusal(db, driver, o, selfDispatch, viaOffer, notReady, unfit);
            var mayClaim := viaOffer || selfDispatch;
            var known := mayClaim && driver.Some?;
            var ready := known && notReady.None?;
            && (!mayClaim ==> refusal == Some(Forbidden))
            && (mayClaim && driver.None? ==> refusal == Some(NotFound))
            && (known && notReady.Some? ==> refusal == notReady)
            && (ready && o >= |db.orders| ==> refusal == Some(NotFound))
            && (ready && o < |db.orders| && !ReadyForDriver(db, o) ==> refusal == Some(Forbidden))
            && (ready && ReadyForDriver(db, o) ==> refusal == unfit)
  {
  }

  /** A payment that staff or the customer authorize. */
  lemma PriceIsRefused(db: Db, o: OrderId, staff: bool, requested: Option<int>)
    ensures var price := Price(db, o, staff, requested);
            && (o >= |db.orders| ==> price == Err(NotFound))
            && (o < |db.orders| ==>
                  var order, money := db.orders[o], MoneyOn(db.payments, o);
                  var payable := if staff then !order.status.Cancelled? && !order.status.Failed? else order.status.PendingPayment? || order.status.Confirmed?;
                  var open := payable && !order.paymentStatus.Paid? && !order.paymentStatus.Authorized? && !Covers(order, money);
                  && (!open ==> price == Err(Conflict))
                  && (open && (order.total.None? || order.total.value <= 0) ==> price == Err(BadRequest))
                  && (open && order.total.Some? && order.total.value > 0 && requested.Some? && requested.value <= 0 ==> price == Err(BadRequest))
                  && (open && order.total.Some? && order.total.value > 0 && requested.Some? && 0 < requested.value && order.total.value < money + requested.value
                      ==> price == Err(Conflict)))
  {
    MoneyIsSum(db.payments, o);
  }

  /** Corporate credit. */
  lemma CreditIsRefusedFor(db: Db, o: OrderId, staff: bool, ineligible: Option<Error>, requested: Option<int>, seen: Option<CreditAccount>)
    ensures var refusal := CreditRefusal(db, o, staff, ineligible, requested, seen);
            var known := o < |db.orders|;
            var eligible := known && ineligible.None?;
            var lined := eligible && seen.Some? && seen.value.status.Active?;
            && (!known ==> refusal == Some(NotFound))
            && (known && ineligible.Some? ==> refusal == ineligible)
            && (eligible && !(seen.Some? && seen.value.status.Active?) ==> refusal == Some(BadRequest))
            && (lined && Price(db, o, staff, requested).Err? ==> refusal == Some(Price(db, o, staff, requested).error))
            && (lined && Price(db, o, staff, requested).Ok? ==>
                  var amount := Price(db, o, staff, requested).value;
                  if seen.value.used + amount <= seen.value.limit && HasRoom(db, db.orders[o].customer, seen.value.limit, amount)
                  then refusal == None else refusal == Some(Conflict))
  {
  }

  /** Asking money back. */
  lemma RefundIsRefused(db: Db, p: PaymentId, amount: int)
    ensures var refusal := RefundError(db, p, amount);
            && (refusal.None? <==> MayRefund(db, p, amount))
            && (p >= |db.payments| ==> refusal == Some(NotFound))
            && (p < |db.payments| ==>
                  var refundable := !db.payments[p].means.CorporateCredit? && (db.payments[p].status.Paid? || db.payments[p].status.Authorized?);
                  && (!refundable ==> refusal == Some(Conflict))
                  && (refundable && !MayRefund(db, p, amount) ==> refusal == Some(BadRequest)))
  {
    RefundsAreSums(db.refunds, p);
  }

  // ----- the operator's pick -----

  predicate IsCandidate(rows: seq<Matching.Candidate>, d: DriverId) { exists k :: 0 <= k < |rows| && rows[k].driver == d }

  lemma {:induction false} CandidateForFinds(rows: seq<Matching.Candidate>, d: DriverId)
    ensures CandidateFor(rows, d).Some? <==> IsCandidate(rows, d)
    ensures CandidateFor(rows, d).Some? ==> CandidateFor(rows, d).value in rows && CandidateFor(rows, d).value.driver == d
  {
    if rows != [] && rows[0].driver != d {
      CandidateForFinds(rows[1..], d);
      if IsCandidate(rows[1..], d) {
        var k :| 0 <= k < |rows[1..]| && rows[1..][k].driver == d;
        assert rows[k + 1].driver == d;
      }
      if IsCandidate(rows, d) {
        var k :| 0 <= k < |rows| && rows[k].driver == d;
        assert rows[1..][k - 1].driver == d;
      }
    }
  }

  /** Not an eligible candidate, while that is enforced and could be checked; not the
      first one, and no reason given; or with no vehicle to drive. */
  lemma PickIsRefused(ranking: Option<Matching.Ranking>, pick: Pick, enforced: bool)
    ensures var refusal := PickRefusal(ranking, pick, enforced);
            var listed := ranking.Some? && IsCandidate(ranking.value.candidates, pick.driver);
            var checked := enforced && ranking.Some? && Matching.PresenceDisabled !in ranking.value.alerts;
            var second := ranking.Some? && ranking.value.candidates != [] && ranking.value.candidates[0].driver != pick.driver;
            && (checked && !listed ==> refusal == Some(Conflict))
            && (!(checked && !listed) && ((second && !pick.reasoned) || (pick.vehicle.None? && !listed)) ==> refusal == Some(BadRequest))
            && (!(checked && !listed) && !(second && !pick.reasoned) && (pick.vehicle.Some? || listed) ==> refusal == None)
  {
    if ranking.Some? { CandidateForFinds(ranking.value.candidates, pick.driver); }
  }

  /** The vehicle is the one named, or else the candidate's. */
  lemma PickHasVehicle(ranking: Option<Matching.Ranking>, pick: Pick)
    ensures pick.vehicle.Some? ==> PickVehicle(ranking, pick) == pick.vehicle
    ensures pick.vehicle.None? && PickVehicle(ranking, pick).Some? ==>
              ranking.Some? && exists row :: row in ranking.value.candidates && row.driver == pick.driver && PickVehicle(ranking, pick) == Some(row.vehicle)
  {
    if ranking.Some? { CandidateForFinds(ranking.value.candidates, pick.driver); }
  }
}
