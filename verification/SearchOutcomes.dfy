/**
 What the search around the pickup finds, ring by ring, in terms of what the cells
 report.
 */
module SearchOutcomes {
  import opened Tables
  import opened Sorting
  import opened Matching
  import opened MatchingTheorems

  predicate InRing(request: Request, id: DriverId, ring: nat)
    requires ring < |request.rings|
  {
    id in request.rings[ring].current || id in request.rings[ring].stale
  }

  /** No smaller ring reports the driver. */
  predicate FirstIn(request: Request, id: DriverId, ring: nat) {
    && ring < |request.rings| && InRing(request, id, ring)
    && forall inner: nat :: inner < ring ==> !InRing(request, id, inner)
  }

  // ----- the ring a row carries -----

  lemma {:induction false} FoundRing(facts: DriverId -> Facts, ids: seq<DriverId>, ring: nat)
    ensures forall row :: row in Found(facts, ids, ring) ==> row.ring == ring && row.driver in ids
    ensures forall id :: id in ids && Judge(facts(id)).Fit? ==> exists row :: row in Found(facts, ids, ring) && row.driver == id
  {
    if ids != [] {
      var init, last := ids[..|ids| - 1], ids[|ids| - 1];
      FoundRing(facts, init, ring);
      assert ids == init + [last];
      forall id | id in ids && Judge(facts(id)).Fit? ensures exists row :: row in Found(facts, ids, ring) && row.driver == id {
        if id in init {
          var row :| row in Found(facts, init, ring) && row.driver == id;
          assert row in Found(facts, ids, ring);
        } else {
          assert Found(facts, ids, ring)[|Found(facts, init, ring)|].driver == id;
        }
      }
    }
  }

  lemma {:induction false} RefusedRing(facts: DriverId -> Facts, ids: seq<DriverId>, ring: nat)
    ensures forall row :: row in Refused(facts, ids, ring) ==> row.ring == ring && row.driver in ids
  {
    if ids != [] {
      RefusedRing(facts, ids[..|ids| - 1], ring);
      assert ids == ids[..|ids| - 1] + [ids[|ids| - 1]];
    }
  }

  lemma {:induction false} OfferedRing(ids: seq<DriverId>, skip: set<DriverId>, ring: nat)
    ensures forall row :: row in Offered(ids, skip, ring) ==> row.ring == ring && row.driver in ids
  {
    if ids != [] {
      OfferedRing(ids[..|ids| - 1], skip, ring);
      assert ids == ids[..|ids| - 1] + [ids[|ids| - 1]];
    }
  }

  /** Reported first by this ring's cells. */
  lemma UnseenIsFirst(request: Request, ring: nat, ids: seq<DriverId>, id: DriverId)
    requires ring < |request.rings| && (ids == request.rings[ring].current || ids == request.rings[ring].stale)
    ensures id in Unseen(ids, Searched(request, ring).seen) <==> id in ids && FirstIn(request, id, ring)
  {
    SeenAreReported(request, ring);
    UnseenIsRest(ids, Searched(request, ring).seen);
    assert id in Ids(Unseen(ids, Searched(request, ring).seen)) <==> id in Ids(ids) && id !in Reported(request, ring);
    ReportedIff(request, ring, id);
  }

  lemma ReportedIff(request: Request, rings: nat, id: DriverId)
    requires rings <= |request.rings|
    ensures id in Reported(request, rings) <==> exists inner: nat :: inner < rings && InRing(request, id, inner)
  {
    if id in Reported(request, rings) {
      var inner: nat :| inner < rings && id in request.rings[inner].current + request.rings[inner].stale;
      assert InRing(request, id, inner);
    } else if inner: nat :| inner < rings && InRing(request, id, inner) {
      assert id in request.rings[inner].current + request.rings[inner].stale;
    }
  }

  ghost predicate RingsFit(request: Request, search: Search, rings: nat) {
    && (forall row :: row in search.eligible ==> row.ring < rings && FirstIn(request, row.driver, row.ring))
    && (forall row :: row in search.excluded ==> row.ring < rings && FirstIn(request, row.driver, row.ring))
  }

  lemma {:induction false} SearchedFirst(request: Request, rings: nat)
    requires rings <= |request.rings|
    ensures RingsFit(request, Searched(request, rings), rings)
  {
    if rings > 0 {
      var ring := rings - 1;
      SearchedFirst(request, ring);
      RowsAreFirst(request, ring);
    }
  }

  lemma RowsAreFirst(request: Request, ring: nat)
    requires ring < |request.rings| && RingsFit(request, Searched(request, ring), ring)
    ensures RingsFit(request, SearchRing(request, Searched(request, ring), ring), ring + 1)
  {
    var before := Searched(request, ring);
    var current, stale := Unseen(request.rings[ring].current, before.seen), Unseen(request.rings[ring].stale, before.seen);
    var asked := Unseen(current, request.skip);
    UnseenIsRest(current, request.skip);
    forall id | id in asked ensures id in current { assert id in Ids(asked); }
    FoundRing(request.facts, asked, ring);
    OfferedRing(current, request.skip, ring);
    RefusedRing(request.facts, asked, ring);
    forall id | id in current ensures FirstIn(request, id, ring) { UnseenIsFirst(request, ring, request.rings[ring].current, id); }
    forall id | id in stale ensures FirstIn(request, id, ring) { UnseenIsFirst(request, ring, request.rings[ring].stale, id); }
  }

  /** Every candidate and every exclusion names the first ring that reports its
      driver, and no ring beyond the last searched. */
  lemma RingIsFirst(request: Request)
    requires request.rings != []
    ensures var ranking := RankingOf(request);
            && (forall k :: 0 <= k < |ranking.candidates| ==>
                  ranking.candidates[k].ring <= ranking.ringsSearched && FirstIn(request, ranking.candidates[k].driver, ranking.candidates[k].ring))
            && (forall row :: row in ranking.excluded ==> row.ring <= ranking.ringsSearched && FirstIn(request, row.driver, row.ring))
  {
    if request.presenceEnabled {
      SearchedFirst(request, RingsUsed(request));
      PartsAreEligible(request);
      forall k | 0 <= k < |RankingOf(request).candidates|
        ensures RankingOf(request).candidates[k].ring < RingsUsed(request)
        ensures FirstIn(request, RankingOf(request).candidates[k].driver, RankingOf(request).candidates[k].ring)
      {
        CandidatesArePreselected(request, k);
      }
      UnroutableArePreselected(Preselected(request), MatrixOf(request));
    }
  }

  lemma PartsAreEligible(request: Request)
    requires request.rings != []
    ensures forall row :: row in Preselected(request) || row in PassedOver(request) ==> row in Sighted(request).eligible
  {
    CloserIsPreorder();
    SortSorts(Sighted(request).eligible, Closer);
    var sorted := Sort(Sighted(request).eligible, Closer);
    forall row | row in sorted ensures row in Sighted(request).eligible { assert row in multiset(sorted); }
  }

  lemma {:induction false} UnroutableArePreselected(rows: seq<Eligible>, matrix: Option<seq<Element>>)
    ensures forall row :: row in Unroutable(rows, matrix) ==> exists i :: 0 <= i < |rows| && rows[i].driver == row.driver && rows[i].ring == row.ring
  {
    if rows != [] {
      var init := rows[..|rows| - 1];
      UnroutableArePreselected(init, matrix);
      forall row | row in Unroutable(rows, matrix) ensures exists i :: 0 <= i < |rows| && rows[i].driver == row.driver && rows[i].ring == row.ring {
        if row in Unroutable(init, matrix) {
          var i :| 0 <= i < |init| && init[i].driver == row.driver && init[i].ring == row.ring;
          assert rows[i] == init[i];
        }
      }
    }
  }

  // ----- when the search stops -----

  predicate Fits(facts: Facts) {
    && facts.profile.Some? && facts.profile.value.approved && facts.profile.value.available && facts.profile.value.licenceValid
    && !facts.onTrip && !facts.offered && facts.sight.Some? && facts.sight.value.current
    && exists v :: 0 <= v < |facts.vehicles| && facts.vehicles[v].documentsValid
  }

  /** A driver the ring finds: it is the first to see them and reports them as
      current, and they are not skipped, and fit. */
  predicate FoundAt(request: Request, ring: nat, id: DriverId)
    requires ring < |request.rings|
  {
    id in request.rings[ring].current && FirstIn(request, id, ring) && id !in request.skip && Fits(request.facts(id))
  }

  function FoundWithin(request: Request, rings: nat): set<DriverId>
    requires rings <= |request.rings|
  {
    set ring: nat, id | ring < rings && id in request.rings[ring].current && FoundAt(request, ring, id) :: id
  }

  lemma FitsIffFit(facts: Facts)
    ensures Fits(facts) <==> Judge(facts).Fit?
  {
    FitIffAllPass(facts);
    if Judge(facts).Fit? {
      var vehicle :| vehicle in facts.vehicles && vehicle.documentsValid;
    }
  }

  ghost predicate Has(rows: seq<Eligible>, id: DriverId) { exists i :: 0 <= i < |rows| && rows[i].driver == id }

  lemma FoundInRing(request: Request, ring: nat, id: DriverId)
    requires ring < |request.rings|
    ensures var asked := Unseen(Unseen(request.rings[ring].current, Searched(request, ring).seen), request.skip);
            Has(Found(request.facts, asked, ring), id) <==> FoundAt(request, ring, id)
  {
    var current := Unseen(request.rings[ring].current, Searched(request, ring).seen);
    var asked := Unseen(current, request.skip);
    UnseenIsFirst(request, ring, request.rings[ring].current, id);
    UnseenIsRest(current, request.skip);
    assert id in Ids(asked) <==> id in Ids(current) && id !in request.skip;
    FoundRing(request.facts, asked, ring);
    FoundPass(request.facts, asked, ring);
    FitsIffFit(request.facts(id));
  }

  lemma HasConcat(a: seq<Eligible>, b: seq<Eligible>, id: DriverId)
    ensures Has(a + b, id) <==> Has(a, id) || Has(b, id)
  {
    if Has(a, id) {
      var i :| 0 <= i < |a| && a[i].driver == id;
      assert (a + b)[i].driver == id;
    }
    if Has(b, id) {
      var i :| 0 <= i < |b| && b[i].driver == id;
      assert (a + b)[|a| + i].driver == id;
    }
  }

  lemma FoundWithinNext(request: Request, rings: nat, id: DriverId)
    requires 0 < rings <= |request.rings|
    ensures id in FoundWithin(request, rings) <==> id in FoundWithin(request, rings - 1) || FoundAt(request, rings - 1, id)
  {
    if id in FoundWithin(request, rings) {
      var ring: nat :| ring < rings && FoundAt(request, ring, id);
    }
  }

  lemma {:induction false} EligibleAreFound(request: Request, rings: nat, id: DriverId)
    requires rings <= |request.rings|
    ensures Has(Searched(request, rings).eligible, id) <==> id in FoundWithin(request, rings)
  {
    if rings > 0 {
      var ring := rings - 1;
      var before := Searched(request, ring);
      EligibleAreFound(request, ring, id);
      FoundInRing(request, ring, id);
      FoundWithinNext(request, rings, id);
      HasConcat(before.eligible, Found(request.facts, Unseen(Unseen(request.rings[ring].current, before.seen), request.skip), ring), id);
    }
  }

  lemma EligibleCount(request: Request, rings: nat)
    requires rings <= |request.rings| && RingsDistinct(request)
    ensures |Searched(request, rings).eligible| == |FoundWithin(request, rings)|
  {
    var search := Searched(request, rings);
    var drivers := Drivers(search.eligible);
    SearchAccounts(request, rings);
    forall id ensures id in drivers <==> id in FoundWithin(request, rings) {
      EligibleAreFound(request, rings, id);
      HasInImage(search.eligible, id);
    }
    NoDriverTwice(drivers, search.seen);
    assert Ids(drivers) == FoundWithin(request, rings);
  }

  lemma HasInImage(rows: seq<Eligible>, id: DriverId)
    ensures id in Drivers(rows) <==> Has(rows, id)
  {
    if Has(rows, id) {
      var i :| 0 <= i < |rows| && rows[i].driver == id;
      assert Drivers(rows)[i] == DriverOf(rows[i]);
    }
    if id in Drivers(rows) {
      var i :| 0 <= i < |rows| && Drivers(rows)[i] == id;
      assert DriverOf(rows[i]) == rows[i].driver;
    }
  }

  lemma NoDriverTwice(ids: seq<DriverId>, seen: set<DriverId>)
    requires multiset(ids) <= multiset(seen)
    ensures |ids| == |Ids(ids)|
  {
    assert multiset(ids) == multiset(Ids(ids));
    assert |multiset(ids)| == |ids| && |multiset(Ids(ids))| == |Ids(ids)|;
  }

  /** The search stops at the first ring that brings enough drivers, or at the last. */
  lemma SearchStopsWhenEnough(request: Request)
    requires request.rings != [] && RingsDistinct(request) && request.presenceEnabled
    ensures var last := RankingOf(request).ringsSearched;
            && (forall rings: nat :: 0 < rings <= last ==> |FoundWithin(request, rings)| < request.minCandidates)
            && (last + 1 < |request.rings| ==> |FoundWithin(request, last + 1)| >= request.minCandidates)
  {
    var used := RingsUsed(request);
    forall rings: nat | 0 < rings < used ensures |FoundWithin(request, rings)| < request.minCandidates {
      EnoughAt(request, rings);
      EligibleCount(request, rings);
    }
    EnoughAt(request, used);
    EligibleCount(request, used);
  }

  // ----- alerts -----

  lemma AlertsAreExact(request: Request)
    requires request.rings != []
    ensures var ranking := RankingOf(request);
            && (PresenceDisabled in ranking.alerts <==> !request.presenceEnabled)
            && (RoutesProviderFailed in ranking.alerts <==> request.presenceEnabled && Preselected(request) != [] && MatrixOf(request).None?)
            && (NoCandidates in ranking.alerts <==> |ranking.candidates| == 0)
            && (!request.presenceEnabled ==> |ranking.candidates| == 0 && |ranking.excluded| == 0)
  {
  }
}
