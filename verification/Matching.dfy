/**
 Ranking drivers for an order: rings of cells around the pickup are searched
 until there are enough eligible drivers, the closest few are sent to the route
 matrix, and those with a road are ranked. What the database, the presence index
 and the provider answer is given.
 */
module Matching {
  import opened Tables
  import opened Scoring
  import opened Sorting
  import opened Numbers

  /** What one ring's cells report: no driver twice. */
  datatype Ring = Ring(current: seq<DriverId>, stale: seq<DriverId>)

  datatype Vehicle = Vehicle(id: VehicleId, documentsValid: bool)

  datatype Profile = Profile(approved: bool, available: bool, licenceValid: bool, rating: real)

  datatype Sight = Sight(current: bool, vehicle: Option<VehicleId>, accuracyRefused: bool, straightMeters: real)

  /** What the filters find about one driver. */
  datatype Facts = Facts(
    profile: Option<Profile>, onTrip: bool, offered: bool, sight: Option<Sight>, vehicles: seq<Vehicle>,
    acceptanceRate: Option<real>, tripsToday: nat)

  datatype Answer = Routed(seconds: real, meters: real) | RouteNotFound | Unanswered

  datatype Element = Element(origin: int, destination: int, answer: Answer)

  datatype Request = Request(
    presenceEnabled: bool, rings: seq<Ring>, skip: set<DriverId>, minCandidates: nat, maxMatrixOrigins: nat, weights: Weights,
    facts: DriverId -> Facts, matrix: seq<DriverId> -> Option<seq<Element>>)

  datatype Reason =
    | AlreadyOffered | DriverNotFound | NotApproved | NotAvailable | LicenceExpired | ActiveTrip | OfferPendingElsewhere
    | PositionStale | PositionLowAccuracy | NoActiveVehicle | VehicleDocumentsInvalid | OutsidePreselection | NoRouteToPickup

  datatype Exclusion = Exclusion(driver: DriverId, reason: Reason, ring: nat)

  datatype Eligible = Eligible(driver: DriverId, vehicle: VehicleId, rating: real, ring: nat, straightMeters: real)

  datatype EtaStatus = EtaOk | EtaFailed

  datatype Candidate = Candidate(
    rank: nat, driver: DriverId, vehicle: VehicleId, ring: nat, etaStatus: EtaStatus, standing: Standing)

  datatype Alert = PresenceDisabled | RoutesProviderFailed | NoCandidates

  datatype Ranking = Ranking(ringsSearched: nat, candidates: seq<Candidate>, excluded: seq<Exclusion>, alerts: seq<Alert>)

  // ----- the filters -----

  function Valid(vehicles: seq<Vehicle>): seq<Vehicle> {
    if vehicles == [] then []
    else
      var rest := Valid(vehicles[..|vehicles| - 1]);
      if vehicles[|vehicles| - 1].documentsValid then rest + [vehicles[|vehicles| - 1]] else rest
  }

  /** The vehicle the app says it is driving when it is valid, else the first. */
  function Preferred(valid: seq<Vehicle>, driving: Option<VehicleId>): VehicleId
    requires valid != []
  {
    if driving.Some? && exists i :: 0 <= i < |valid| && valid[i].id == driving.value then driving.value else valid[0].id
  }

  datatype Verdict = Fit(vehicle: VehicleId, rating: real, straightMeters: real) | Unfit(reason: Reason)

  function Judge(facts: Facts): Verdict {
    if facts.profile.None? then Unfit(DriverNotFound)
    else if !facts.profile.value.approved then Unfit(NotApproved)
    else if !facts.profile.value.available then Unfit(NotAvailable)
    else if !facts.profile.value.licenceValid then Unfit(LicenceExpired)
    else if facts.onTrip then Unfit(ActiveTrip)
    else if facts.offered then Unfit(OfferPendingElsewhere)
    else if facts.sight.None? || !facts.sight.value.current then Unfit(PositionStale)
    else if facts.vehicles == [] then Unfit(NoActiveVehicle)
    else
      var valid := Valid(facts.vehicles);
      if valid == [] then Unfit(VehicleDocumentsInvalid)
      else Fit(Preferred(valid, facts.sight.value.vehicle), facts.profile.value.rating, facts.sight.value.straightMeters)
  }

  // ----- the specification, stage by stage -----

  function Unseen(ids: seq<DriverId>, seen: set<DriverId>): seq<DriverId> {
    if ids == [] then []
    else
      var rest := Unseen(ids[..|ids| - 1], seen);
      if ids[|ids| - 1] in seen then rest else rest + [ids[|ids| - 1]]
  }

  /** The drivers already offered the order, reported as such. */
  function Offered(ids: seq<DriverId>, skip: set<DriverId>, ring: nat): seq<Exclusion> {
    if ids == [] then []
    else
      var rest := Offered(ids[..|ids| - 1], skip, ring);
      if ids[|ids| - 1] in skip then rest + [Exclusion(ids[|ids| - 1], AlreadyOffered, ring)] else rest
  }

  function Found(facts: DriverId -> Facts, ids: seq<DriverId>, ring: nat): seq<Eligible> {
    if ids == [] then []
    else
      var rest, id := Found(facts, ids[..|ids| - 1], ring), ids[|ids| - 1];
      match Judge(facts(id))
      case Fit(vehicle, rating, straight) => rest + [Eligible(id, vehicle, rating, ring, straight)]
      case Unfit(_) => rest
  }

  function Refused(facts: DriverId -> Facts, ids: seq<DriverId>, ring: nat): seq<Exclusion> {
    if ids == [] then []
    else
      var rest, id := Refused(facts, ids[..|ids| - 1], ring), ids[|ids| - 1];
      match Judge(facts(id))
      case Fit(_, _, _) => rest
      case Unfit(reason) => rest + [Exclusion(id, reason, ring)]
  }

  function StaleReason(facts: Facts): Reason {
    if facts.sight.Some? && facts.sight.value.accuracyRefused then PositionLowAccuracy else PositionStale
  }

  function Stale(facts: DriverId -> Facts, ids: seq<DriverId>, ring: nat): seq<Exclusion> {
    seq(|ids|, i requires 0 <= i < |ids| => Exclusion(ids[i], StaleReason(facts(ids[i])), ring))
  }

  /** What the ring loop has gathered. */
  datatype Search = Search(seen: set<DriverId>, eligible: seq<Eligible>, excluded: seq<Exclusion>)

  function SearchRing(request: Request, search: Search, ring: nat): Search
    requires ring < |request.rings|
  {
    var current := Unseen(request.rings[ring].current, search.seen);
    var stale := Unseen(request.rings[ring].stale, search.seen);
    var asked := Unseen(current, request.skip);
    Search(
      search.seen + Ids(current) + Ids(stale),
      search.eligible + Found(request.facts, asked, ring),
      search.excluded + Offered(current, request.skip, ring) + Refused(request.facts, asked, ring) + Stale(request.facts, stale, ring))
  }

  function Ids(ids: seq<DriverId>): set<DriverId> { set id | id in ids }

  function Searched(request: Request, rings: nat): Search
    requires rings <= |request.rings|
  {
    if rings == 0 then Search({}, [], []) else SearchRing(request, Searched(request, rings - 1), rings - 1)
  }

  /** The rings searched when each is known to be enough or not. */
  function FirstStop(enough: seq<bool>): (used: nat)
    requires enough != []
    ensures 0 < used <= |enough|
    ensures forall k :: 0 <= k < used - 1 ==> !enough[k]
    ensures used < |enough| ==> enough[used - 1]
  {
    if enough[0] || |enough| == 1 then 1
    else
      var rest := FirstStop(enough[1..]);
      assert enough == [enough[0]] + enough[1..];
      1 + rest
  }

  /** How many rings are searched: up to the first with enough eligible drivers. */
  function RingsUsed(request: Request): (used: nat)
    requires request.rings != []
    ensures 0 < used <= |request.rings|
  {
    FirstStop(EnoughAfter(request))
  }

  /** Whether each ring brings enough. */
  function EnoughAfter(request: Request): (enough: seq<bool>)
    ensures |enough| == |request.rings|
  {
    seq(|request.rings|, i requires 0 <= i < |request.rings| => Enough(request, i + 1))
  }

  lemma EnoughAt(request: Request, rings: nat)
    requires 0 < rings <= |request.rings|
    ensures EnoughAfter(request)[rings - 1] == Enough(request, rings)
  {
  }

  predicate Enough(request: Request, rings: nat)
    requires rings <= |request.rings|
  {
    |Searched(request, rings).eligible| >= request.minCandidates
  }

  predicate Closer(a: Eligible, b: Eligible) { a.straightMeters <= b.straightMeters }

  function Outside(rows: seq<Eligible>): seq<Exclusion> {
    seq(|rows|, i requires 0 <= i < |rows| => Exclusion(rows[i].driver, OutsidePreselection, rows[i].ring))
  }

  function DriverOf(row: Eligible): DriverId { row.driver }

  function Drivers(rows: seq<Eligible>): seq<DriverId> { Image(rows, DriverOf) }

  /** The first element for this origin and the pickup. */
  function ElementFor(elements: seq<Element>, origin: int): Option<Answer> {
    if elements == [] then None
    else if elements[0].origin == origin && elements[0].destination == 0 then Some(elements[0].answer)
    else ElementFor(elements[1..], origin)
  }

  /** A missing element, like a missing matrix, is a failure. */
  function AnswerFor(matrix: Option<seq<Element>>, origin: int): Answer {
    if matrix.None? then Unanswered
    else
      match ElementFor(matrix.value, origin)
      case None => Unanswered
      case Some(answer) => answer
  }

  function Scored(request: Request, row: Eligible, answer: Answer): Candidate {
    var eta := if answer.Routed? then Some(answer.seconds) else None;
    var road := if answer.Routed? then Some(answer.meters) else None;
    var facts := request.facts(row.driver);
    var score := Score(Signals(eta, road, row.straightMeters, row.rating, facts.acceptanceRate, facts.tripsToday), NormalizeWeights(request.weights));
    Candidate(0, row.driver, row.vehicle, row.ring, if answer.Routed? then EtaOk else EtaFailed,
              Standing(eta, score, Round(row.straightMeters)))
  }

  function Ranked(request: Request, rows: seq<Eligible>, matrix: Option<seq<Element>>): seq<Candidate> {
    if rows == [] then []
    else
      var rest, row := Ranked(request, rows[..|rows| - 1], matrix), rows[|rows| - 1];
      var answer := AnswerFor(matrix, |rows| - 1);
      if answer.RouteNotFound? then rest else rest + [Scored(request, row, answer)]
  }

  function Unroutable(rows: seq<Eligible>, matrix: Option<seq<Element>>): seq<Exclusion> {
    if rows == [] then []
    else
      var rest, row := Unroutable(rows[..|rows| - 1], matrix), rows[|rows| - 1];
      if AnswerFor(matrix, |rows| - 1).RouteNotFound? then rest + [Exclusion(row.driver, NoRouteToPickup, row.ring)] else rest
  }

  predicate RanksBefore(a: Candidate, b: Candidate) { CompareRanked(a.standing, b.standing) <= 0.0 }

  function Numbered(rows: seq<Candidate>): seq<Candidate> {
    seq(|rows|, i requires 0 <= i < |rows| => rows[i].(rank := i + 1))
  }

  function Finished(ranking: Ranking): Ranking {
    if ranking.candidates == [] then ranking.(alerts := ranking.alerts + [NoCandidates]) else ranking
  }

  function Split(rows: seq<Eligible>, count: nat): (parts: (seq<Eligible>, seq<Eligible>)) {
    if |rows| <= count then (rows, []) else (rows[..count], rows[count..])
  }

  function Sighted(request: Request): Search
    requires request.rings != []
  {
    Searched(request, RingsUsed(request))
  }

  /** The rows that go to the route matrix. */
  function Preselected(request: Request): seq<Eligible>
    requires request.rings != []
  {
    Split(Sort(Sighted(request).eligible, Closer), request.maxMatrixOrigins).0
  }

  function PassedOver(request: Request): seq<Eligible>
    requires request.rings != []
  {
    Split(Sort(Sighted(request).eligible, Closer), request.maxMatrixOrigins).1
  }

  /** The provider's answer for the preselected. */
  function MatrixOf(request: Request): Option<seq<Element>>
    requires request.rings != []
  {
    request.matrix(Drivers(Preselected(request)))
  }

  function CandidatesOf(request: Request): seq<Candidate>
    requires request.rings != []
  {
    Numbered(Sort(Ranked(request, Preselected(request), MatrixOf(request)), RanksBefore))
  }

  function ExcludedOf(request: Request): seq<Exclusion>
    requires request.rings != []
  {
    Sighted(request).excluded + Outside(PassedOver(request)) + Unroutable(Preselected(request), MatrixOf(request))
  }

  function RankingOf(request: Request): Ranking
    requires request.rings != []
  {
    if !request.presenceEnabled then Finished(Ranking(0, [], [], [PresenceDisabled]))
    else
      Finished(Ranking(
        RingsUsed(request) - 1, CandidatesOf(request), ExcludedOf(request),
        if Preselected(request) != [] && MatrixOf(request).None? then [RoutesProviderFailed] else []))
  }

  // ----- the service -----

  method FilterEligible(facts: DriverId -> Facts, ids: seq<DriverId>, ring: nat, excluded: seq<Exclusion>)
    returns (eligible: seq<Eligible>, reported: seq<Exclusion>)
    ensures eligible == Found(facts, ids, ring)
    ensures reported == excluded + Refused(facts, ids, ring)
  {
    eligible, reported := [], excluded;
    for i := 0 to |ids|
      invariant eligible == Found(facts, ids[..i], ring)
      invariant reported == excluded + Refused(facts, ids[..i], ring)
    {
      assert ids[..i + 1][..i] == ids[..i];
      match Judge(facts(ids[i]))
      case Fit(vehicle, rating, straight) => eligible := eligible + [Eligible(ids[i], vehicle, rating, ring, straight)];
      case Unfit(reason) => reported := reported + [Exclusion(ids[i], reason, ring)];
    }
    assert ids[..|ids|] == ids;
  }

  method ReportStale(facts: DriverId -> Facts, ids: seq<DriverId>, ring: nat, excluded: seq<Exclusion>) returns (reported: seq<Exclusion>)
    ensures reported == excluded + Stale(facts, ids, ring)
  {
    reported := excluded;
    for i := 0 to |ids|
      invariant reported == excluded + Stale(facts, ids, ring)[..i]
    {
      reported := reported + [Exclusion(ids[i], StaleReason(facts(ids[i])), ring)];
    }
  }

  method FilterUnseen(ids: seq<DriverId>, seen: set<DriverId>) returns (unseen: seq<DriverId>)
    ensures unseen == Unseen(ids, seen)
  {
    unseen := [];
    for i := 0 to |ids|
      invariant unseen == Unseen(ids[..i], seen)
    {
      assert ids[..i + 1][..i] == ids[..i];
      if ids[i] !in seen { unseen := unseen + [ids[i]]; }
    }
    assert ids[..|ids|] == ids;
  }

  method ReportOffered(ids: seq<DriverId>, skip: set<DriverId>, ring: nat, excluded: seq<Exclusion>) returns (reported: seq<Exclusion>)
    ensures reported == excluded + Offered(ids, skip, ring)
  {
    reported := excluded;
    for i := 0 to |ids|
      invariant reported == excluded + Offered(ids[..i], skip, ring)
    {
      assert ids[..i + 1][..i] == ids[..i];
      if ids[i] in skip { reported := reported + [Exclusion(ids[i], AlreadyOffered, ring)]; }
    }
    assert ids[..|ids|] == ids;
  }

  method SearchOneRing(request: Request, before: Search, ring: nat) returns (search: Search)
    requires ring < |request.rings|
    ensures search == SearchRing(request, before, ring)
  {
    var current := FilterUnseen(request.rings[ring].current, before.seen);
    var stale := FilterUnseen(request.rings[ring].stale, before.seen);
    var seen := before.seen + (set id | id in current) + (set id | id in stale);
    var excluded := ReportOffered(current, request.skip, ring, before.excluded);
    var asked := FilterUnseen(current, request.skip);
    var found;
    found, excluded := FilterEligible(request.facts, asked, ring, excluded);
    excluded := ReportStale(request.facts, stale, ring, excluded);
    search := Search(seen, before.eligible + found, excluded);
  }

  method SearchRings(request: Request) returns (ringsSearched: nat, search: Search)
    requires request.rings != []
    ensures ringsSearched == RingsUsed(request) - 1
    ensures search == Sighted(request)
  {
    search := Search({}, [], []);
    ringsSearched := 0;
    var ring := 0;
    while ring < |request.rings|
      invariant 0 <= ring <= |request.rings|
      invariant search == Searched(request, ring)
      invariant ring > 0 ==> ringsSearched == ring - 1
      invariant forall fewer: nat :: 0 < fewer <= ring && fewer < |request.rings| ==> !Enough(request, fewer)
    {
      ringsSearched := ring;
      search := SearchOneRing(request, search, ring);
      SearchedNext(request, search, ring);
      ring := ring + 1;
      if |search.eligible| >= request.minCandidates {
        UsedIsFirst(request, ring);
        return;
      }
    }
    UsedIsFirst(request, |request.rings|);
  }

  lemma SearchedNext(request: Request, search: Search, ring: nat)
    requires ring < |request.rings| && search == SearchRing(request, Searched(request, ring), ring)
    ensures search == Searched(request, ring + 1)
    ensures Enough(request, ring + 1) <==> |search.eligible| >= request.minCandidates
  {
  }

  lemma UsedIsFirst(request: Request, used: nat)
    requires 0 < used <= |request.rings|
    requires forall fewer: nat :: 0 < fewer < used ==> !Enough(request, fewer)
    requires used < |request.rings| ==> Enough(request, used)
    ensures RingsUsed(request) == used
  {
    EnoughAt(request, FirstStop(EnoughAfter(request)));
    EnoughAt(request, used);
  }

  method ReportOutside(far: seq<Eligible>, excluded: seq<Exclusion>) returns (reported: seq<Exclusion>)
    ensures reported == excluded + Outside(far)
  {
    reported := excluded;
    for i := 0 to |far|
      invariant reported == excluded + Outside(far)[..i]
    {
      reported := reported + [Exclusion(far[i].driver, OutsidePreselection, far[i].ring)];
    }
  }

  method RankForOrder(request: Request) returns (ranking: Ranking)
    requires request.rings != []
    ensures ranking == RankingOf(request)
  {
    if !request.presenceEnabled { return Finished(Ranking(0, [], [], [PresenceDisabled])); }
    var ringsSearched, search := SearchRings(request);
    var eligible := Sort(search.eligible, Closer);
    var (preselected, far) := Split(eligible, request.maxMatrixOrigins);
    var excluded := ReportOutside(far, search.excluded);
    if preselected == [] { return Finished(Ranking(ringsSearched, [], excluded, [])); }

    var matrix := request.matrix(Drivers(preselected));
    var ranked;
    ranked, excluded := RankPreselected(request, preselected, matrix, excluded);
    ranked := Sort(ranked, RanksBefore);
    ranking := Finished(Ranking(ringsSearched, Numbered(ranked), excluded, if matrix.None? then [RoutesProviderFailed] else []));
  }

  method RankPreselected(request: Request, rows: seq<Eligible>, matrix: Option<seq<Element>>, excluded: seq<Exclusion>)
    returns (ranked: seq<Candidate>, reported: seq<Exclusion>)
    ensures ranked == Ranked(request, rows, matrix)
    ensures reported == excluded + Unroutable(rows, matrix)
  {
    ranked, reported := [], excluded;
    for i := 0 to |rows|
      invariant ranked == Ranked(request, rows[..i], matrix)
      invariant reported == excluded + Unroutable(rows[..i], matrix)
    {
      assert rows[..i + 1][..i] == rows[..i];
      var answer := AnswerFor(matrix, i);
      if answer.RouteNotFound? {
        reported := reported + [Exclusion(rows[i].driver, NoRouteToPickup, rows[i].ring)];
      } else {
        ranked := ranked + [Scored(request, rows[i], answer)];
      }
    }
    assert rows[..|rows|] == rows;
  }
}
