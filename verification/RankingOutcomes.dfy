/**
 What a ranking says about each driver, in terms of the answers it was given.
 */
module RankingOutcomes {
  import opened Tables
  import opened Numbers
  import opened Sorting
  import opened Scoring
  import opened Matching
  import opened MatchingTheorems

  // ----- the order of the candidates -----

  /** The better score first; on the same score the shorter ETA, and then the
      shorter straight line. Those with an ETA come before those without. */
  predicate RankedWell(a: Standing, b: Standing) {
    && (b.etaSeconds.Some? ==> a.etaSeconds.Some?)
    && (a.etaSeconds.Some? == b.etaSeconds.Some? ==>
          && a.score >= b.score
          && (a.score == b.score && a.etaSeconds.Some? ==> a.etaSeconds.value <= b.etaSeconds.value)
          && (a.score == b.score && a.etaSeconds == b.etaSeconds ==> a.straightMeters <= b.straightMeters))
  }

  lemma CandidatesAreRankedWell(request: Request, i: nat, j: nat)
    requires request.rings != [] && i < j < |RankingOf(request).candidates|
    ensures RankedWell(RankingOf(request).candidates[i].standing, RankingOf(request).candidates[j].standing)
    ensures RankingOf(request).candidates[i].rank == i + 1 && RankingOf(request).candidates[j].rank == j + 1
  {
    RanksFollowTheComparator(request, i, j);
  }

  // ----- what a candidate carries -----

  /** The first answer for this origin and the pickup. */
  predicate AnsweredBy(elements: seq<Element>, origin: int, answer: Answer) {
    exists k :: 0 <= k < |elements| && elements[k] == Element(origin, 0, answer)
                && forall e :: 0 <= e < k ==> !(elements[e].origin == origin && elements[e].destination == 0)
  }

  predicate Absent(elements: seq<Element>, origin: int) {
    forall e :: 0 <= e < |elements| ==> !(elements[e].origin == origin && elements[e].destination == 0)
  }

  lemma {:induction false} ElementIsFirst(elements: seq<Element>, origin: int)
    ensures match ElementFor(elements, origin)
            case None => Absent(elements, origin)
            case Some(answer) => AnsweredBy(elements, origin, answer)
  {
    if elements == [] {
    } else if elements[0].origin == origin && elements[0].destination == 0 {
      assert elements[0] == Element(origin, 0, elements[0].answer);
    } else {
      ElementIsFirst(elements[1..], origin);
      if ElementFor(elements[1..], origin).Some? {
        var answer := ElementFor(elements[1..], origin).value;
        var k :| 0 <= k < |elements[1..]| && elements[1..][k] == Element(origin, 0, answer)
                 && forall e :: 0 <= e < k ==> !(elements[1..][e].origin == origin && elements[1..][e].destination == 0);
        ShiftAnswer(elements, origin, answer, k);
      } else {
        forall e | 0 <= e < |elements| ensures !(elements[e].origin == origin && elements[e].destination == 0) {
          assert e > 0 ==> elements[e] == elements[1..][e - 1];
        }
      }
    }
  }

  lemma ShiftAnswer(elements: seq<Element>, origin: int, answer: Answer, k: nat)
    requires elements != [] && !(elements[0].origin == origin && elements[0].destination == 0)
    requires k < |elements[1..]| && elements[1..][k] == Element(origin, 0, answer)
    requires forall e :: 0 <= e < k ==> !(elements[1..][e].origin == origin && elements[1..][e].destination == 0)
    ensures AnsweredBy(elements, origin, answer)
  {
    assert elements[k + 1] == Element(origin, 0, answer);
    forall e | 0 <= e < k + 1 ensures !(elements[e].origin == origin && elements[e].destination == 0) {
      assert e > 0 ==> elements[e] == elements[1..][e - 1];
    }
  }

  /** The candidate is the driver sent to the matrix at that place: with the time
      and distance of its own answer when it was routed, and without an ETA when it
      was not answered. */
  ghost predicate CarriesAnswer(request: Request, row: Candidate, sent: Eligible, matrix: Option<seq<Element>>, origin: int) {
    && row.driver == sent.driver && row.vehicle == sent.vehicle && row.ring == sent.ring
    && row.standing.straightMeters == Round(sent.straightMeters)
    && if row.etaStatus.EtaOk? then CarriesRoute(request, row, sent, matrix, origin) else CarriesNoRoute(request, row, sent, matrix, origin)
  }

  ghost predicate CarriesRoute(request: Request, row: Candidate, sent: Eligible, matrix: Option<seq<Element>>, origin: int) {
    && matrix.Some? && row.standing.etaSeconds.Some?
    && exists meters :: AnsweredBy(matrix.value, origin, Routed(row.standing.etaSeconds.value, meters))
                        && row.standing.score == ScoreOf(request, sent, row.standing.etaSeconds, Some(meters))
  }

  predicate CarriesNoRoute(request: Request, row: Candidate, sent: Eligible, matrix: Option<seq<Element>>, origin: int) {
    && row.standing.etaSeconds.None? && row.standing.score == ScoreOf(request, sent, None, None)
    && (matrix.None? || Absent(matrix.value, origin) || AnsweredBy(matrix.value, origin, Answer.Unanswered))
  }

  /** The score of a driver with what the filters and the statistics found. */
  function ScoreOf(request: Request, sent: Eligible, seconds: Option<real>, meters: Option<real>): real {
    Score(Signals(seconds, meters, sent.straightMeters, sent.rating,
                  request.facts(sent.driver).acceptanceRate, request.facts(sent.driver).tripsToday), NormalizeWeights(request.weights))
  }

  lemma ScoredCarries(request: Request, sent: Eligible, matrix: Option<seq<Element>>, origin: int)
    requires !AnswerFor(matrix, origin).RouteNotFound?
    ensures CarriesAnswer(request, Scored(request, sent, AnswerFor(matrix, origin)), sent, matrix, origin)
  {
    if matrix.Some? { ElementIsFirst(matrix.value, origin); }
  }

  lemma CandidateCarriesItsAnswer(request: Request, k: nat)
    requires request.rings != [] && k < |RankingOf(request).candidates|
    ensures exists i :: 0 <= i < |Preselected(request)|
                        && CarriesAnswer(request, RankingOf(request).candidates[k], Preselected(request)[i], MatrixOf(request), i)
  {
    CandidatesArePreselected(request, k);
    var near, matrix := Preselected(request), MatrixOf(request);
    var i :| 0 <= i < |near| && !AnswerFor(matrix, i).RouteNotFound?
             && RankingOf(request).candidates[k].(rank := 0) == Scored(request, near[i], AnswerFor(matrix, i));
    ScoredCarries(request, near[i], matrix, i);
  }

  /** The vehicle of a candidate: the one being driven when its documents are valid,
      and else the first whose are. */
  predicate IsVehicleFor(facts: Facts, vehicle: VehicleId) {
    if facts.sight.Some? && facts.sight.value.vehicle.Some?
       && exists v :: 0 <= v < |facts.vehicles| && facts.vehicles[v].documentsValid && facts.vehicles[v].id == facts.sight.value.vehicle.value
    then vehicle == facts.sight.value.vehicle.value
    else
      exists v :: 0 <= v < |facts.vehicles| && facts.vehicles[v].documentsValid && facts.vehicles[v].id == vehicle
                  && forall earlier :: 0 <= earlier < v ==> !facts.vehicles[earlier].documentsValid
  }

  lemma {:induction false} FirstValid(vehicles: seq<Vehicle>)
    ensures Valid(vehicles) != [] ==>
              exists v :: 0 <= v < |vehicles| && vehicles[v].documentsValid && vehicles[v] == Valid(vehicles)[0]
                          && forall earlier :: 0 <= earlier < v ==> !vehicles[earlier].documentsValid
  {
    if vehicles != [] {
      var init := vehicles[..|vehicles| - 1];
      FirstValid(init);
      if Valid(init) != [] {
        var v :| 0 <= v < |init| && init[v].documentsValid && init[v] == Valid(init)[0]
                 && forall earlier :: 0 <= earlier < v ==> !init[earlier].documentsValid;
        assert vehicles[v] == Valid(vehicles)[0] && forall earlier :: 0 <= earlier < v ==> vehicles[earlier] == init[earlier];
      } else {
        ValidIsFilter(init);
        forall earlier | 0 <= earlier < |init| ensures !vehicles[earlier].documentsValid { assert init[earlier] in init; }
      }
    }
  }

  lemma FitHasItsVehicle(facts: Facts)
    requires Judge(facts).Fit?
    ensures IsVehicleFor(facts, Judge(facts).vehicle)
    ensures facts.profile.Some? && Judge(facts).rating == facts.profile.value.rating
    ensures facts.sight.Some? && Judge(facts).straightMeters == facts.sight.value.straightMeters
  {
    ValidIsFilter(facts.vehicles);
    FirstValid(facts.vehicles);
    var valid, driving := Valid(facts.vehicles), facts.sight.value.vehicle;
    if driving.Some? && exists v :: 0 <= v < |facts.vehicles| && facts.vehicles[v].documentsValid && facts.vehicles[v].id == driving.value {
      var v :| 0 <= v < |facts.vehicles| && facts.vehicles[v].documentsValid && facts.vehicles[v].id == driving.value;
      assert facts.vehicles[v] in valid;
    } else {
      assert forall i :: 0 <= i < |valid| ==> valid[i] in valid;
    }
  }

  lemma CandidateHasItsVehicle(request: Request, k: nat)
    requires request.rings != [] && k < |RankingOf(request).candidates|
    ensures IsVehicleFor(request.facts(RankingOf(request).candidates[k].driver), RankingOf(request).candidates[k].vehicle)
  {
    CandidatesPass(request, k);
    FitHasItsVehicle(request.facts(RankingOf(request).candidates[k].driver));
  }

  /** What is sent to the matrix, and scored, is what was found about the driver. */
  lemma SentIsWhatWasFound(request: Request, i: nat)
    requires request.rings != [] && i < |Preselected(request)|
    ensures var sent := Preselected(request)[i];
            var facts := request.facts(sent.driver);
            && facts.profile.Some? && sent.rating == facts.profile.value.rating
            && facts.sight.Some? && sent.straightMeters == facts.sight.value.straightMeters
            && IsVehicleFor(facts, sent.vehicle)
  {
    PreselectionIsClosest(request);
    FitHasItsVehicle(request.facts(Preselected(request)[i].driver));
  }

  // ----- why a driver is excluded -----

  predicate HasSight(facts: Facts) { facts.sight.Some? && facts.sight.value.current }

  /** The first of the filters that this driver fails. */
  predicate FirstFailure(facts: Facts, reason: Reason) {
    var known := facts.profile.Some?;
    var approved := known && facts.profile.value.approved;
    var available := approved && facts.profile.value.available;
    var licensed := available && facts.profile.value.licenceValid;
    var idle := licensed && !facts.onTrip;
    var unasked := idle && !facts.offered;
    var seen := unasked && HasSight(facts);
    match reason
    case DriverNotFound => !known
    case NotApproved => known && !facts.profile.value.approved
    case NotAvailable => approved && !facts.profile.value.available
    case LicenceExpired => available && !facts.profile.value.licenceValid
    case ActiveTrip => licensed && facts.onTrip
    case OfferPendingElsewhere => idle && facts.offered
    case PositionStale => unasked && !HasSight(facts)
    case NoActiveVehicle => seen && |facts.vehicles| == 0
    case VehicleDocumentsInvalid =>
      seen && |facts.vehicles| > 0 && forall v :: 0 <= v < |facts.vehicles| ==> !facts.vehicles[v].documentsValid
    case _ => false
  }

  lemma UnfitIffFails(facts: Facts, reason: Reason)
    ensures Judge(facts) == Unfit(reason) <==> FirstFailure(facts, reason)
  {
    ValidIsFilter(facts.vehicles);
    var valid := Valid(facts.vehicles);
    if valid != [] { assert valid[0] in valid; }
  }

  /** What the reason of an exclusion says of the driver. */
  ghost predicate Justified(request: Request, row: Exclusion) {
    match row.reason
    case AlreadyOffered => row.driver in request.skip
    case PositionLowAccuracy => request.facts(row.driver).sight.Some? && request.facts(row.driver).sight.value.accuracyRefused
    case PositionStale =>
      || FirstFailure(request.facts(row.driver), PositionStale)
      || request.facts(row.driver).sight.None? || !request.facts(row.driver).sight.value.accuracyRefused
    case OutsidePreselection => request.rings != [] && exists far :: far in PassedOver(request) && far.driver == row.driver
    case NoRouteToPickup =>
      && request.rings != [] && MatrixOf(request).Some?
      && exists i :: 0 <= i < |Preselected(request)| && Preselected(request)[i].driver == row.driver
                     && AnsweredBy(MatrixOf(request).value, i, RouteNotFound)
    case _ => FirstFailure(request.facts(row.driver), row.reason)
  }

  ghost predicate AllJustified(request: Request, rows: seq<Exclusion>) {
    forall k :: 0 <= k < |rows| ==> Justified(request, rows[k])
  }

  lemma {:induction false} OfferedJustified(request: Request, ids: seq<DriverId>, ring: nat)
    ensures AllJustified(request, Offered(ids, request.skip, ring))
  {
    if ids != [] { OfferedJustified(request, ids[..|ids| - 1], ring); }
  }

  lemma {:induction false} RefusedJustified(request: Request, ids: seq<DriverId>, ring: nat)
    ensures AllJustified(request, Refused(request.facts, ids, ring))
  {
    if ids != [] {
      var last := ids[|ids| - 1];
      RefusedJustified(request, ids[..|ids| - 1], ring);
      if Judge(request.facts(last)).Unfit? { UnfitIffFails(request.facts(last), Judge(request.facts(last)).reason); }
    }
  }

  lemma StaleJustified(request: Request, ids: seq<DriverId>, ring: nat)
    ensures AllJustified(request, Stale(request.facts, ids, ring))
  {
  }

  lemma ConcatJustified(request: Request, a: seq<Exclusion>, b: seq<Exclusion>)
    requires AllJustified(request, a) && AllJustified(request, b)
    ensures AllJustified(request, a + b)
  {
    forall k | 0 <= k < |a + b| ensures Justified(request, (a + b)[k]) {
      assert (a + b)[k] == if k < |a| then a[k] else b[k - |a|];
    }
  }

  lemma RingJustified(request: Request, search: Search, ring: nat)
    requires ring < |request.rings| && AllJustified(request, search.excluded)
    ensures AllJustified(request, SearchRing(request, search, ring).excluded)
  {
    var current := Unseen(request.rings[ring].current, search.seen);
    var stale := Unseen(request.rings[ring].stale, search.seen);
    var asked := Unseen(current, request.skip);
    OfferedJustified(request, current, ring);
    RefusedJustified(request, asked, ring);
    StaleJustified(request, stale, ring);
    var first := search.excluded + Offered(current, request.skip, ring);
    ConcatJustified(request, search.excluded, Offered(current, request.skip, ring));
    ConcatJustified(request, first, Refused(request.facts, asked, ring));
    ConcatJustified(request, first + Refused(request.facts, asked, ring), Stale(request.facts, stale, ring));
  }

  lemma {:induction false} SearchedJustified(request: Request, rings: nat)
    requires rings <= |request.rings|
    ensures AllJustified(request, Searched(request, rings).excluded)
  {
    if rings > 0 {
      SearchedJustified(request, rings - 1);
      RingJustified(request, Searched(request, rings - 1), rings - 1);
    }
  }

  lemma OutsideJustified(request: Request)
    requires request.rings != []
    ensures AllJustified(request, Outside(PassedOver(request)))
  {
    var far := PassedOver(request);
    forall k | 0 <= k < |far| ensures Justified(request, Outside(far)[k]) {
      assert far[k] in far;
    }
  }

  /** The row is a driver of these whose place in the matrix has no route. */
  ghost predicate NoRoad(rows: seq<Eligible>, matrix: Option<seq<Element>>, row: Exclusion) {
    && row.reason == NoRouteToPickup && matrix.Some?
    && exists i :: 0 <= i < |rows| && rows[i].driver == row.driver && AnsweredBy(matrix.value, i, RouteNotFound)
  }

  lemma NoRoadGrows(init: seq<Eligible>, rows: seq<Eligible>, matrix: Option<seq<Element>>, row: Exclusion)
    requires NoRoad(init, matrix, row) && |init| <= |rows| && rows[..|init|] == init
    ensures NoRoad(rows, matrix, row)
  {
    var i :| 0 <= i < |init| && init[i].driver == row.driver && AnsweredBy(matrix.value, i, RouteNotFound);
    assert rows[i] == rows[..|init|][i];
  }

  lemma {:induction false} UnroutableAnswered(rows: seq<Eligible>, matrix: Option<seq<Element>>)
    ensures forall row :: row in Unroutable(rows, matrix) ==> NoRoad(rows, matrix, row)
  {
    if rows != [] {
      var init, last := rows[..|rows| - 1], |rows| - 1;
      UnroutableAnswered(init, matrix);
      forall row | row in Unroutable(rows, matrix) ensures NoRoad(rows, matrix, row) {
        if row in Unroutable(init, matrix) {
          NoRoadGrows(init, rows, matrix, row);
        } else {
          ElementIsFirst(matrix.value, last);
          assert rows[last].driver == row.driver && AnsweredBy(matrix.value, last, RouteNotFound);
        }
      }
    }
  }

  lemma UnroutableJustified(request: Request)
    requires request.rings != []
    ensures AllJustified(request, Unroutable(Preselected(request), MatrixOf(request)))
  {
    var rows := Unroutable(Preselected(request), MatrixOf(request));
    UnroutableAnswered(Preselected(request), MatrixOf(request));
    forall k | 0 <= k < |rows| ensures Justified(request, rows[k]) {
      assert rows[k] in rows && NoRoad(Preselected(request), MatrixOf(request), rows[k]);
    }
  }

  /** Every exclusion of a ranking carries a reason that is true of the driver, and
      a failed filter is the first one the driver fails. */
  lemma ExclusionsAreJustified(request: Request)
    requires request.rings != []
    ensures AllJustified(request, RankingOf(request).excluded)
  {
    if request.presenceEnabled {
      SearchedJustified(request, RingsUsed(request));
      OutsideJustified(request);
      UnroutableJustified(request);
      ConcatJustified(request, Sighted(request).excluded, Outside(PassedOver(request)));
      ConcatJustified(request, Sighted(request).excluded + Outside(PassedOver(request)), Unroutable(Preselected(request), MatrixOf(request)));
    }
  }

  // ----- what each signal is worth -----

  /** Each weight's share of their sum; when one is negative or nothing is left to
      share, 55 hundredths for the ETA and 15 for each of the others. */
  lemma WeightsAreShares(merged: Weights)
    ensures var w, total := NormalizeWeights(merged), merged.eta + merged.distance + merged.reliability + merged.balance;
            if merged.eta >= 0.0 && merged.distance >= 0.0 && merged.reliability >= 0.0 && merged.balance >= 0.0 && total > 0.0 then
              && w.eta * total == merged.eta && w.distance * total == merged.distance
              && w.reliability * total == merged.reliability && w.balance * total == merged.balance
            else w == Weights(55.0 / 100.0, 15.0 / 100.0, 15.0 / 100.0, 15.0 / 100.0)
  {
    if Usable(merged) {
      var total := Total(merged);
      Quotient(merged.eta, total);
      Quotient(merged.distance, total);
      Quotient(merged.reliability, total);
      Quotient(merged.balance, total);
    }
  }

  /** The weighted sum before it is rounded. */
  function Raw(signals: Signals, w: Weights): real {
    Blend(w, EtaPart(signals), DistancePart(signals), ReliabilityPart(signals), BalancePart(signals))
  }

  lemma ScoreIsRawRounded(signals: Signals, w: Weights)
    ensures Raw(signals, w) - 0.00005 <= Score(signals, w) <= Raw(signals, w) + 0.00005
  {
    var blend := Raw(signals, w);
    var rounded := Round(blend * 10000.0);
    assert blend * 10000.0 - 0.5 <= rounded as real <= blend * 10000.0 + 0.5;
  }

  /** An ETA of some part of half an hour costs that part of its weight. */
  lemma EtaIsWorth(signals: Signals, w: Weights, part: real)
    requires 0.0 <= part <= 1.0
    ensures Raw(signals.(etaSeconds := Some(1800.0 * part)), w) - Raw(signals.(etaSeconds := None), w) == w.eta * (1.0 - part)
  {
    assert EtaPart(signals.(etaSeconds := Some(1800.0 * part))) == 1.0 - part;
  }

  /** So does a road of some part of 15 km. */
  lemma DistanceIsWorth(signals: Signals, w: Weights, part: real)
    requires 0.0 <= part <= 1.0
    ensures Raw(signals.(roadMeters := Some(15000.0 * part)), w) - Raw(signals.(roadMeters := Some(15000.0)), w) == w.distance * (1.0 - part)
    ensures Raw(signals.(roadMeters := None, straightMeters := 15000.0 * part), w) == Raw(signals.(roadMeters := Some(15000.0 * part)), w)
  {
    assert DistancePart(signals.(roadMeters := Some(15000.0 * part))) == 1.0 - part;
    assert DistancePart(signals.(roadMeters := Some(15000.0))) == 0.0;
  }

  /** Trips today count against a driver up to ten. */
  lemma BalanceIsWorth(signals: Signals, w: Weights, trips: nat)
    requires trips <= 10
    ensures Raw(signals.(tripsToday := trips), w) - Raw(signals.(tripsToday := 10), w) == w.balance * (1.0 - trips as real / 10.0)
  {
    assert BalancePart(signals.(tripsToday := trips)) == 1.0 - trips as real / 10.0;
    assert BalancePart(signals.(tripsToday := 10)) == 0.0;
  }

  /** A rating counts for its part of five stars, a missing one for four; with a
      history of answers it is seven tenths, and the accepted part the rest. */
  lemma ReliabilityIsWorth(signals: Signals, stars: real, rate: real)
    requires 0.0 < stars <= 5.0 && 0.0 <= rate <= 1.0
    ensures ReliabilityPart(signals.(rating := stars, acceptanceRate := None)) == stars / 5.0
    ensures ReliabilityPart(signals.(rating := 0.0, acceptanceRate := None)) == 4.0 / 5.0
    ensures ReliabilityPart(signals.(rating := stars, acceptanceRate := Some(rate))) == 0.7 * (stars / 5.0) + 0.3 * rate
  {
  }
}
