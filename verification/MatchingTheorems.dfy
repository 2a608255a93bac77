/**
 What a ranking promises, whatever the rings, the filters and the provider say.
 */
module MatchingTheorems {
  import opened Tables
  import opened Scoring
  import opened Sorting
  import opened Matching

  function ExcludedDriver(row: Exclusion): DriverId { row.driver }

  function CandidateDriver(row: Candidate): DriverId { row.driver }

  /** No driver is reported twice by one ring's cells. */
  ghost predicate Distinct(ids: seq<DriverId>) { forall i, j :: 0 <= i < j < |ids| ==> ids[i] != ids[j] }

  ghost predicate RingsDistinct(request: Request) {
    forall ring :: 0 <= ring < |request.rings| ==> Distinct(request.rings[ring].current + request.rings[ring].stale)
  }

  /** Everyone the first rings report. */
  function Reported(request: Request, rings: nat): set<DriverId>
    requires rings <= |request.rings|
  {
    set ring: nat, id | ring < rings && id in request.rings[ring].current + request.rings[ring].stale :: id
  }

  // ----- counting drivers -----

  lemma {:induction false} DistinctIsSet(ids: seq<DriverId>)
    requires Distinct(ids)
    ensures multiset(ids) == multiset(Ids(ids))
  {
    if ids != [] {
      var init, last := ids[..|ids| - 1], ids[|ids| - 1];
      DistinctIsSet(init);
      assert ids == init + [last];
      assert Ids(ids) == Ids(init) + {last} && last !in Ids(init);
    }
  }

  lemma {:induction false} UnseenIsRest(ids: seq<DriverId>, seen: set<DriverId>)
    ensures Ids(Unseen(ids, seen)) == Ids(ids) - seen
    ensures Distinct(ids) ==> Distinct(Unseen(ids, seen))
  {
    if ids != [] {
      var init, last := ids[..|ids| - 1], ids[|ids| - 1];
      UnseenIsRest(init, seen);
      assert ids == init + [last];
      assert Ids(ids) == Ids(init) + {last};
      assert forall id :: id in Unseen(init, seen) <==> id in Ids(Unseen(init, seen));
      if Distinct(ids) {
        assert Distinct(init) && last !in Ids(init);
        assert last !in Unseen(init, seen);
      }
    }
  }

  lemma {:induction false} SkippedOrAsked(ids: seq<DriverId>, skip: set<DriverId>, ring: nat)
    ensures multiset(Unseen(ids, skip)) + multiset(Image(Offered(ids, skip, ring), ExcludedDriver)) == multiset(ids)
  {
    if ids != [] {
      var init, last := ids[..|ids| - 1], ids[|ids| - 1];
      SkippedOrAsked(init, skip, ring);
      assert ids == init + [last];
      var row := Exclusion(last, AlreadyOffered, ring);
      ImageOfAppend(Offered(init, skip, ring), row, ExcludedDriver);
    }
  }

  lemma {:induction false} FoundOrRefused(facts: DriverId -> Facts, ids: seq<DriverId>, ring: nat)
    ensures multiset(Drivers(Found(facts, ids, ring))) + multiset(Image(Refused(facts, ids, ring), ExcludedDriver)) == multiset(ids)
  {
    if ids != [] {
      var init, last := ids[..|ids| - 1], ids[|ids| - 1];
      FoundOrRefused(facts, init, ring);
      assert ids == init + [last];
      match Judge(facts(last))
      case Fit(vehicle, rating, straight) =>
        var row := Eligible(last, vehicle, rating, ring, straight);
        ImageOfAppend(Found(facts, init, ring), row, DriverOf);
      case Unfit(reason) =>
        var row := Exclusion(last, reason, ring);
        ImageOfAppend(Refused(facts, init, ring), row, ExcludedDriver);
    }
  }

  lemma {:induction false} RankedOrUnroutable(request: Request, rows: seq<Eligible>, matrix: Option<seq<Element>>)
    ensures multiset(Image(Ranked(request, rows, matrix), CandidateDriver)) + multiset(Image(Unroutable(rows, matrix), ExcludedDriver))
            == multiset(Drivers(rows))
  {
    if rows != [] {
      var init, last := rows[..|rows| - 1], rows[|rows| - 1];
      RankedOrUnroutable(request, init, matrix);
      assert rows == init + [last];
      ImageOfAppend(init, last, DriverOf);
      var answer := AnswerFor(matrix, |rows| - 1);
      if answer.RouteNotFound? {
        var row := Exclusion(last.driver, NoRouteToPickup, last.ring);
        ImageOfAppend(Unroutable(init, matrix), row, ExcludedDriver);
      } else {
        var row := Scored(request, last, answer);
        ImageOfAppend(Ranked(request, init, matrix), row, CandidateDriver);
      }
    }
  }

  // ----- everyone seen is accounted for -----

  /** Each driver seen so far is exactly once among the eligible and excluded. */
  ghost predicate Accounted(search: Search) {
    multiset(Drivers(search.eligible)) + multiset(Image(search.excluded, ExcludedDriver)) == multiset(search.seen)
  }

  lemma DistinctParts(a: seq<DriverId>, b: seq<DriverId>)
    requires Distinct(a + b)
    ensures Distinct(a) && Distinct(b) && Ids(a) !! Ids(b)
  {
    var all := a + b;
    forall i, j | 0 <= i < j < |a| ensures a[i] != a[j] { assert all[i] != all[j]; }
    forall i, j | 0 <= i < j < |b| ensures b[i] != b[j] { assert all[|a| + i] != all[|a| + j]; }
    forall i, j | 0 <= i < |a| && 0 <= j < |b| ensures a[i] != b[j] { assert all[i] != all[|a| + j]; }
  }

  lemma NewDrivers(ring: Ring, seen: set<DriverId>)
    requires Distinct(ring.current + ring.stale)
    ensures multiset(seen + Ids(Unseen(ring.current, seen)) + Ids(Unseen(ring.stale, seen)))
            == multiset(seen) + multiset(Unseen(ring.current, seen)) + multiset(Unseen(ring.stale, seen))
  {
    DistinctParts(ring.current, ring.stale);
    UnseenIsRest(ring.current, seen);
    UnseenIsRest(ring.stale, seen);
    DistinctIsSet(Unseen(ring.current, seen));
    DistinctIsSet(Unseen(ring.stale, seen));
    DisjointUnion(seen, Ids(Unseen(ring.current, seen)), Ids(Unseen(ring.stale, seen)));
  }

  lemma DisjointUnion(a: set<DriverId>, b: set<DriverId>, c: set<DriverId>)
    requires a !! b && a !! c && b !! c
    ensures multiset(a + b + c) == multiset(a) + multiset(b) + multiset(c)
  {
  }

  lemma RingAccounts(request: Request, search: Search, ring: nat)
    requires ring < |request.rings| && RingsDistinct(request) && Accounted(search)
    ensures Accounted(SearchRing(request, search, ring))
  {
    var current := Unseen(request.rings[ring].current, search.seen);
    var stale := Unseen(request.rings[ring].stale, search.seen);
    var asked := Unseen(current, request.skip);
    NewDrivers(request.rings[ring], search.seen);
    SkippedOrAsked(current, request.skip, ring);
    FoundOrRefused(request.facts, asked, ring);
    var offered, refused, dated := Offered(current, request.skip, ring), Refused(request.facts, asked, ring), Stale(request.facts, stale, ring);
    ImageOfConcat(search.eligible, Found(request.facts, asked, ring), DriverOf);
    ImageOfConcat(search.excluded, offered, ExcludedDriver);
    ImageOfConcat(search.excluded + offered, refused, ExcludedDriver);
    ImageOfConcat(search.excluded + offered + refused, dated, ExcludedDriver);
    assert Image(dated, ExcludedDriver) == stale;
  }

  lemma {:induction false} SearchAccounts(request: Request, rings: nat)
    requires rings <= |request.rings| && RingsDistinct(request)
    ensures Accounted(Searched(request, rings))
  {
    if rings > 0 {
      SearchAccounts(request, rings - 1);
      RingAccounts(request, Searched(request, rings - 1), rings - 1);
    }
  }

  lemma ReportedGrows(request: Request, rings: nat)
    requires 0 < rings <= |request.rings|
    ensures Reported(request, rings)
            == Reported(request, rings - 1) + Ids(request.rings[rings - 1].current) + Ids(request.rings[rings - 1].stale)
  {
    var ring := request.rings[rings - 1];
    forall id ensures id in Reported(request, rings) <==> id in Reported(request, rings - 1) || id in ring.current || id in ring.stale {
      assert id in ring.current + ring.stale <==> id in ring.current || id in ring.stale;
    }
  }

  lemma {:induction false} SeenAreReported(request: Request, rings: nat)
    requires rings <= |request.rings|
    ensures Searched(request, rings).seen == Reported(request, rings)
  {
    if rings > 0 {
      SeenAreReported(request, rings - 1);
      var before, ring := Reported(request, rings - 1), request.rings[rings - 1];
      UnseenIsRest(ring.current, before);
      UnseenIsRest(ring.stale, before);
      ReportedGrows(request, rings);
    }
  }

  lemma RanksAccount(request: Request, near: seq<Eligible>, matrix: Option<seq<Element>>)
    ensures multiset(Image(Numbered(Sort(Ranked(request, near, matrix), RanksBefore)), CandidateDriver))
            + multiset(Image(Unroutable(near, matrix), ExcludedDriver)) == multiset(Drivers(near))
  {
    var rows := Ranked(request, near, matrix);
    RankedOrUnroutable(request, near, matrix);
    SortKeepsImage(rows, RanksBefore, CandidateDriver);
    NumberedKeepsDrivers(Sort(rows, RanksBefore));
  }

  lemma NumberedKeepsDrivers(rows: seq<Candidate>)
    ensures Image(Numbered(rows), CandidateDriver) == Image(rows, CandidateDriver)
  {
    var numbered := Numbered(rows);
    forall i | 0 <= i < |rows| ensures CandidateDriver(numbered[i]) == CandidateDriver(rows[i]) {
    }
    SameImage(numbered, rows, CandidateDriver, CandidateDriver);
  }

  lemma PreselectionAccounts(request: Request)
    requires request.rings != []
    ensures multiset(Drivers(Preselected(request))) + multiset(Image(Outside(PassedOver(request)), ExcludedDriver))
            == multiset(Drivers(Sighted(request).eligible))
  {
    SplitAccounts(Sort(Sighted(request).eligible, Closer), request.maxMatrixOrigins);
    SortKeepsImage(Sighted(request).eligible, Closer, DriverOf);
  }

  lemma SplitAccounts(rows: seq<Eligible>, count: nat)
    ensures multiset(Drivers(Split(rows, count).0)) + multiset(Image(Outside(Split(rows, count).1), ExcludedDriver))
            == multiset(Drivers(rows))
  {
    var (near, far) := Split(rows, count);
    assert rows == near + far;
    ImageOfConcat(near, far, DriverOf);
    var outside := Outside(far);
    forall i | 0 <= i < |far| ensures ExcludedDriver(outside[i]) == DriverOf(far[i]) {
    }
    SameImage(outside, far, ExcludedDriver, DriverOf);
  }

  lemma ExcludedAccounts(request: Request)
    requires request.rings != []
    ensures multiset(Image(ExcludedOf(request), ExcludedDriver))
            == multiset(Image(Sighted(request).excluded, ExcludedDriver)) + multiset(Image(Outside(PassedOver(request)), ExcludedDriver))
               + multiset(Image(Unroutable(Preselected(request), MatrixOf(request)), ExcludedDriver))
  {
    var first, second := Sighted(request).excluded, Outside(PassedOver(request));
    ImageOfConcat(first, second, ExcludedDriver);
    ImageOfConcat(first + second, Unroutable(Preselected(request), MatrixOf(request)), ExcludedDriver);
  }

  lemma PartsAccount(request: Request)
    requires request.rings != []
    ensures multiset(Image(CandidatesOf(request), CandidateDriver)) + multiset(Image(ExcludedOf(request), ExcludedDriver))
            == multiset(Drivers(Sighted(request).eligible)) + multiset(Image(Sighted(request).excluded, ExcludedDriver))
  {
    PreselectionAccounts(request);
    RanksAccount(request, Preselected(request), MatrixOf(request));
    ExcludedAccounts(request);
  }

  /** Every driver seen in a searched ring is once, and only once, among the
      candidates and the excluded; nobody else is. */
  lemma EveryoneIsAccountedFor(request: Request)
    requires request.rings != [] && RingsDistinct(request) && request.presenceEnabled
    ensures var ranking := RankingOf(request);
            && ranking.ringsSearched < |request.rings|
            && multiset(Image(ranking.candidates, CandidateDriver)) + multiset(Image(ranking.excluded, ExcludedDriver))
               == multiset(Reported(request, ranking.ringsSearched + 1))
  {
    SearchAccounts(request, RingsUsed(request));
    SeenAreReported(request, RingsUsed(request));
    PartsAccount(request);
  }

  // ----- who can be a candidate -----

  /** Found through a fresh entry, not skipped, and passing every filter. */
  predicate PassesFilters(request: Request, row: Eligible) {
    row.driver !in request.skip && Judge(request.facts(row.driver)) == Fit(row.vehicle, row.rating, row.straightMeters)
  }

  lemma {:induction false} FoundPass(facts: DriverId -> Facts, ids: seq<DriverId>, ring: nat)
    ensures forall row :: row in Found(facts, ids, ring) ==>
              row.driver in ids && Judge(facts(row.driver)) == Fit(row.vehicle, row.rating, row.straightMeters)
  {
    if ids != [] {
      FoundPass(facts, ids[..|ids| - 1], ring);
      assert ids == ids[..|ids| - 1] + [ids[|ids| - 1]];
    }
  }

  /** What holds of every row that may be found holds of every row that is. */
  ghost predicate HoldsOfFound(request: Request, holds: Eligible -> bool) {
    forall ids, ring, row :: row in Found(request.facts, Unseen(ids, request.skip), ring) ==> holds(row)
  }

  ghost predicate Each(rows: seq<Eligible>, holds: Eligible -> bool) {
    forall row :: row in rows ==> holds(row)
  }

  lemma RingHolds(request: Request, search: Search, ring: nat, holds: Eligible -> bool)
    requires ring < |request.rings| && HoldsOfFound(request, holds) && Each(search.eligible, holds)
    ensures Each(SearchRing(request, search, ring).eligible, holds)
  {
  }

  lemma {:induction false} SearchedHolds(request: Request, rings: nat, holds: Eligible -> bool)
    requires rings <= |request.rings| && HoldsOfFound(request, holds)
    ensures Each(Searched(request, rings).eligible, holds)
  {
    if rings > 0 {
      SearchedHolds(request, rings - 1, holds);
      RingHolds(request, Searched(request, rings - 1), rings - 1, holds);
    }
  }

  lemma AskedPass(request: Request, ids: seq<DriverId>, ring: nat, row: Eligible)
    requires row in Found(request.facts, Unseen(ids, request.skip), ring)
    ensures PassesFilters(request, row)
  {
    FoundPass(request.facts, Unseen(ids, request.skip), ring);
    UnseenIsRest(ids, request.skip);
    assert row.driver in Ids(Unseen(ids, request.skip));
  }

  lemma SearchedPass(request: Request, rings: nat)
    requires rings <= |request.rings|
    ensures forall row :: row in Searched(request, rings).eligible ==> PassesFilters(request, row)
  {
    var passes := (row: Eligible) => PassesFilters(request, row);
    forall ids, ring, row | row in Found(request.facts, Unseen(ids, request.skip), ring) ensures passes(row) {
      AskedPass(request, ids, ring, row);
    }
    SearchedHolds(request, rings, passes);
    forall row | row in Searched(request, rings).eligible ensures PassesFilters(request, row) {
      assert passes(row);
    }
  }

  lemma {:induction false} ValidIsFilter(vehicles: seq<Vehicle>)
    ensures forall vehicle :: vehicle in Valid(vehicles) <==> vehicle in vehicles && vehicle.documentsValid
  {
    if vehicles != [] {
      ValidIsFilter(vehicles[..|vehicles| - 1]);
      assert vehicles == vehicles[..|vehicles| - 1] + [vehicles[|vehicles| - 1]];
    }
  }

  /** Nothing compensates for a failed filter: a driver is fit exactly when all of
      them pass, and is offered a vehicle of the category with its documents in
      order, the one being driven when that is one of them. */
  lemma FitIffAllPass(facts: Facts)
    ensures Judge(facts).Fit? <==>
            && facts.profile.Some? && facts.profile.value.approved && facts.profile.value.available && facts.profile.value.licenceValid
            && !facts.onTrip && !facts.offered && facts.sight.Some? && facts.sight.value.current
            && (exists vehicle :: vehicle in facts.vehicles && vehicle.documentsValid)
    ensures Judge(facts).Fit? ==>
              exists vehicle :: vehicle in facts.vehicles && vehicle.documentsValid && vehicle.id == Judge(facts).vehicle
    ensures Judge(facts).Fit? ==>
              forall vehicle :: vehicle in facts.vehicles && vehicle.documentsValid && facts.sight.value.vehicle == Some(vehicle.id)
                                ==> Judge(facts).vehicle == vehicle.id
  {
    ValidIsFilter(facts.vehicles);
    var valid := Valid(facts.vehicles);
    if valid != [] { assert valid[0] in valid; }
  }

  lemma CloserIsPreorder()
    ensures TotalPreorder(Closer)
  {
  }

  lemma RanksBeforeIsPreorder()
    ensures TotalPreorder(RanksBefore)
  {
    forall a, b, c | RanksBefore(a, b) && RanksBefore(b, c) ensures RanksBefore(a, c) {
      CompareRankedIsWeakOrder(a.standing, b.standing, c.standing);
    }
    forall a, b ensures RanksBefore(a, b) || RanksBefore(b, a) {
      CompareRankedIsWeakOrder(a.standing, b.standing, b.standing);
    }
  }

  /** A candidate scored from one of the preselected rows, by its own answer. */
  ghost predicate ScoredFrom(request: Request, row: Candidate, rows: seq<Eligible>, matrix: Option<seq<Element>>) {
    exists i :: 0 <= i < |rows| && !AnswerFor(matrix, i).RouteNotFound? && row == Scored(request, rows[i], AnswerFor(matrix, i))
  }

  lemma {:induction false} RankedAreScored(request: Request, rows: seq<Eligible>, matrix: Option<seq<Element>>)
    ensures forall row :: row in Ranked(request, rows, matrix) ==> ScoredFrom(request, row, rows, matrix)
  {
    if rows != [] {
      var init := rows[..|rows| - 1];
      RankedAreScored(request, init, matrix);
      forall row | row in Ranked(request, rows, matrix) ensures ScoredFrom(request, row, rows, matrix) {
        if row in Ranked(request, init, matrix) {
          var i :| 0 <= i < |init| && !AnswerFor(matrix, i).RouteNotFound? && row == Scored(request, init[i], AnswerFor(matrix, i));
          assert rows[i] == init[i];
        }
      }
    }
  }

  /** Only the closest go to the matrix, at most as many as it takes, and all of
      them pass the filters. */
  lemma PreselectionIsClosest(request: Request)
    requires request.rings != []
    ensures |Preselected(request)| <= request.maxMatrixOrigins
    ensures PassedOver(request) != [] ==> |Preselected(request)| == request.maxMatrixOrigins
    ensures forall i, j :: 0 <= i < |Preselected(request)| && 0 <= j < |PassedOver(request)|
                           ==> Preselected(request)[i].straightMeters <= PassedOver(request)[j].straightMeters
    ensures forall i :: 0 <= i < |Preselected(request)| ==> PassesFilters(request, Preselected(request)[i])
  {
    SearchedPass(request, RingsUsed(request));
    SortedPass(request, Sighted(request).eligible);
  }

  lemma SortedPass(request: Request, rows: seq<Eligible>)
    requires forall row :: row in rows ==> PassesFilters(request, row)
    ensures Sorted(Sort(rows, Closer), Closer)
    ensures forall i :: 0 <= i < |Sort(rows, Closer)| ==> PassesFilters(request, Sort(rows, Closer)[i])
  {
    CloserIsPreorder();
    SortSorts(rows, Closer);
    var sorted := Sort(rows, Closer);
    forall i | 0 <= i < |sorted| ensures PassesFilters(request, sorted[i]) {
      assert sorted[i] in multiset(sorted);
      assert sorted[i] in rows;
    }
  }

  /** Every candidate is one of the preselected, with its own route answer. */
  lemma CandidatesArePreselected(request: Request, k: nat)
    requires request.rings != [] && k < |RankingOf(request).candidates|
    ensures Preselected(request) != []
    ensures ScoredFrom(request, RankingOf(request).candidates[k].(rank := 0), Preselected(request), MatrixOf(request))
  {
    assert RankingOf(request).candidates == CandidatesOf(request);
    SortedAreScored(request, Preselected(request), MatrixOf(request), k);
  }

  lemma SortedAreScored(request: Request, rows: seq<Eligible>, matrix: Option<seq<Element>>, k: nat)
    requires k < |Sort(Ranked(request, rows, matrix), RanksBefore)|
    ensures rows != []
    ensures var row := Sort(Ranked(request, rows, matrix), RanksBefore)[k];
            row.rank == 0 && ScoredFrom(request, row, rows, matrix)
  {
    var ranked := Ranked(request, rows, matrix);
    RanksBeforeIsPreorder();
    SortSorts(ranked, RanksBefore);
    RankedAreScored(request, rows, matrix);
    var sorted := Sort(ranked, RanksBefore);
    assert sorted[k] in multiset(sorted);
    assert sorted[k] in ranked;
  }

  /** A candidate was not skipped and passes every filter, with the vehicle the
      filters chose. */
  lemma CandidatesPass(request: Request, k: nat)
    requires request.rings != [] && k < |RankingOf(request).candidates|
    ensures var row := RankingOf(request).candidates[k];
            && row.driver !in request.skip
            && Judge(request.facts(row.driver)).Fit? && Judge(request.facts(row.driver)).vehicle == row.vehicle
  {
    CandidatesArePreselected(request, k);
    PreselectionIsClosest(request);
  }

  // ----- ranks -----

  /** Ranks are 1, 2, 3... in the order of the comparator. */
  lemma RanksFollowTheComparator(request: Request, i: nat, j: nat)
    requires request.rings != [] && i < j < |RankingOf(request).candidates|
    ensures var rows := RankingOf(request).candidates;
            && rows[i].rank == i + 1 && rows[j].rank == j + 1
            && CompareRanked(rows[i].standing, rows[j].standing) <= 0.0
  {
    var near := Preselected(request);
    RanksBeforeIsPreorder();
    SortSorts(Ranked(request, near, MatrixOf(request)), RanksBefore);
  }

  /** An ETA, and its status, come together. */
  lemma EtaStatusTellsEta(request: Request, k: nat)
    requires request.rings != [] && k < |RankingOf(request).candidates|
    ensures var row := RankingOf(request).candidates[k];
            row.etaStatus.EtaOk? <==> row.standing.etaSeconds.Some?
  {
    CandidatesArePreselected(request, k);
  }

  /** The first candidate with a road ETA, which the cascade offers to. */
  function Best(rows: seq<Candidate>): Option<Candidate> {
    if rows == [] then None
    else if rows[0].etaStatus.EtaOk? then Some(rows[0])
    else Best(rows[1..])
  }

  lemma {:induction false} BestIsNone(rows: seq<Candidate>)
    requires forall i :: 0 <= i < |rows| ==> !rows[i].etaStatus.EtaOk?
    ensures Best(rows) == None
  {
    if rows != [] { BestIsNone(rows[1..]); }
  }

  /** Candidates with a road ETA come before all those without, so the cascade
      offers to rank 1 or to nobody. */
  lemma BestIsFirst(request: Request)
    requires request.rings != []
    ensures var rows := RankingOf(request).candidates;
            && (forall i, j :: 0 <= i < j < |rows| && rows[j].etaStatus.EtaOk? ==> rows[i].etaStatus.EtaOk?)
            && (Best(rows).Some? ==> Best(rows).value == rows[0] && rows[0].rank == 1)
            && (Best(rows).None? <==> forall i :: 0 <= i < |rows| ==> !rows[i].etaStatus.EtaOk?)
  {
    var rows := RankingOf(request).candidates;
    forall i, j | 0 <= i < j < |rows| && rows[j].etaStatus.EtaOk? ensures rows[i].etaStatus.EtaOk? {
      RanksFollowTheComparator(request, i, j);
      EtaStatusTellsEta(request, i);
      EtaStatusTellsEta(request, j);
    }
    if rows != [] {
      if rows[0].etaStatus.EtaOk? {
        assert Best(rows) == Some(rows[0]);
      } else {
        BestIsNone(rows);
      }
    }
  }
}
