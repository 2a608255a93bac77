/**
 Ranking fed by the presence index: each ring is what one read of its cells
 reports.
 */
module PresenceRanking {
  import opened Tables
  import opened Sorting
  import Presence
  import opened Matching
  import opened MatchingTheorems

  /** The ids of a set, each once, in some order. */
  ghost predicate Lists(ids: seq<DriverId>, drivers: set<DriverId>) { multiset(ids) == multiset(drivers) }

  /** The ring lists what a read of these cells answers: the fresh, and the others
      that are kept. */
  ghost predicate ReadFrom(config: Presence.Config, index: Presence.Index, cells: seq<Presence.Cell>, ring: Ring) {
    exists recent: set<DriverId>, stale: set<DriverId> ::
      && Lists(ring.current, recent) && Lists(ring.stale, stale) && AnswerOf(config, index, cells, recent, stale)
  }

  /** What the contract of the read says of its answer. */
  ghost predicate AnswerOf(config: Presence.Config, index: Presence.Index, cells: seq<Presence.Cell>, recent: set<DriverId>, stale: set<DriverId>) {
    && (forall d :: d in recent <==> Presence.ReportedFresh(config, index, cells, d))
    && (forall d :: d in stale <==> Presence.Reported(config, index, cells, d) && d !in recent)
  }

  /** Reading the cells gives such an answer. */
  method ReadRing(presence: Presence.PresenceIndex, cells: seq<Presence.Cell>) returns (recent: set<DriverId>, stale: set<DriverId>)
    modifies presence`buckets
    ensures AnswerOf(presence.config, old(presence.State()), cells, recent, stale)
    ensures presence.State() == Presence.Pruning(presence.config, old(presence.State()), cells)
  {
    recent, stale := presence.MembersOfCells(cells);
  }

  lemma {:induction false} ListsOnce(ids: seq<DriverId>, drivers: set<DriverId>)
    requires Lists(ids, drivers)
    ensures Distinct(ids) && forall d :: d in ids <==> d in drivers
  {
    forall d ensures d in ids <==> d in drivers {
      assert d in multiset(ids) <==> d in multiset(drivers);
    }
    forall i, j | 0 <= i < j < |ids| ensures ids[i] != ids[j] {
      assert ids == ids[..i] + [ids[i]] + ids[i + 1..];
      assert ids[j] == ids[i + 1..][j - i - 1];
      assert multiset(ids)[ids[i]] <= 1;
    }
  }

  lemma ReadIsDistinct(config: Presence.Config, index: Presence.Index, cells: seq<Presence.Cell>, ring: Ring)
    requires ReadFrom(config, index, cells, ring)
    ensures Distinct(ring.current + ring.stale)
    ensures forall d :: d in ring.current + ring.stale
                        <==> Presence.ReportedFresh(config, index, cells, d) || Presence.Reported(config, index, cells, d)
  {
    var recent: set<DriverId>, stale: set<DriverId> :|
      Lists(ring.current, recent) && Lists(ring.stale, stale) && AnswerOf(config, index, cells, recent, stale);
    ListsOnce(ring.current, recent);
    ListsOnce(ring.stale, stale);
    DisjointLists(ring.current, ring.stale);
  }

  lemma DisjointLists(a: seq<DriverId>, b: seq<DriverId>)
    requires Distinct(a) && Distinct(b) && forall d :: d in a ==> d !in b
    ensures Distinct(a + b)
  {
    var all := a + b;
    forall i, j | 0 <= i < j < |all| ensures all[i] != all[j] {
      if i < |a| <= j { assert all[i] in a && all[j] in b; }
    }
  }

  /** What earlier rings pruned changes nothing about the answer for later cells. */
  lemma PruningKeepsAnswers(config: Presence.Config, index: Presence.Index, pruned: seq<Presence.Cell>, cells: seq<Presence.Cell>, d: DriverId)
    ensures var after := Presence.Pruning(config, index, pruned);
            && (Presence.ReportedFresh(config, after, cells, d) <==> Presence.ReportedFresh(config, index, cells, d))
            && (Presence.Reported(config, after, cells, d) <==> Presence.Reported(config, index, cells, d))
  {
    forall cell ensures
        && (Presence.FreshIn(config, Presence.Pruning(config, index, pruned), cell, d) <==> Presence.FreshIn(config, index, cell, d))
        && (Presence.KeptIn(config, Presence.Pruning(config, index, pruned), cell, d) <==> Presence.KeptIn(config, index, cell, d))
    {
      Presence.PruningKeeps(config, index, pruned, cell);
      assert d in Presence.KeptScores(config, index, cell) <==> Presence.KeptIn(config, index, cell, d);
    }
  }

  /** The rings of the request are read one after the other from the index. */
  ghost predicate RingsRead(config: Presence.Config, index: Presence.Index, cells: seq<seq<Presence.Cell>>, request: Request) {
    && |request.rings| == |cells|
    && (forall ring :: 0 <= ring < |cells| ==> ReadFrom(config, index, cells[ring], request.rings[ring]))
  }

  /** Kept in one of the cells of the first rings. */
  ghost predicate KeptNearby(config: Presence.Config, index: Presence.Index, cells: seq<seq<Presence.Cell>>, rings: nat, d: DriverId) {
    exists ring :: 0 <= ring < rings && ring < |cells| && Presence.Reported(config, index, cells[ring], d)
  }

  /** Whoever the index keeps in a searched ring is once, and only once, among the
      candidates and the excluded, and nobody else is. */
  lemma KeptDriversAreAccountedFor(config: Presence.Config, index: Presence.Index, cells: seq<seq<Presence.Cell>>, request: Request)
    requires request.rings != [] && request.presenceEnabled && RingsRead(config, index, cells, request)
    ensures RingsDistinct(request)
    ensures var ranking := RankingOf(request);
            && ranking.ringsSearched < |cells|
            && (forall d :: (multiset(Image(ranking.candidates, CandidateDriver)) + multiset(Image(ranking.excluded, ExcludedDriver)))[d]
                            == if KeptNearby(config, index, cells, ranking.ringsSearched + 1, d) then 1 else 0)
  {
    forall ring | 0 <= ring < |request.rings| ensures Distinct(request.rings[ring].current + request.rings[ring].stale) {
      ReadIsDistinct(config, index, cells[ring], request.rings[ring]);
    }
    EveryoneIsAccountedFor(request);
    var rings := RankingOf(request).ringsSearched + 1;
    forall d ensures d in MatchingTheorems.Reported(request, rings) <==> KeptNearby(config, index, cells, rings, d) {
      ReportedIsKept(config, index, cells, request, rings, d);
    }
  }

  lemma FreshIsKept(config: Presence.Config, index: Presence.Index, cells: seq<Presence.Cell>, d: DriverId)
    requires Presence.ReportedFresh(config, index, cells, d)
    ensures Presence.Reported(config, index, cells, d)
  {
    var cell :| cell in cells && Presence.FreshIn(config, index, cell, d);
    assert Presence.KeptIn(config, index, cell, d);
  }

  lemma ReportedIsKept(config: Presence.Config, index: Presence.Index, cells: seq<seq<Presence.Cell>>, request: Request, rings: nat, d: DriverId)
    requires RingsRead(config, index, cells, request) && rings <= |request.rings|
    ensures d in MatchingTheorems.Reported(request, rings) <==> KeptNearby(config, index, cells, rings, d)
  {
    if d in MatchingTheorems.Reported(request, rings) {
      var ring: nat :| ring < rings && d in request.rings[ring].current + request.rings[ring].stale;
      ReadIsDistinct(config, index, cells[ring], request.rings[ring]);
      if Presence.ReportedFresh(config, index, cells[ring], d) { FreshIsKept(config, index, cells[ring], d); }
    }
    if ring :| 0 <= ring < rings && ring < |cells| && Presence.Reported(config, index, cells[ring], d) {
      ReadIsDistinct(config, index, cells[ring], request.rings[ring]);
      assert d in request.rings[ring].current + request.rings[ring].stale;
    }
  }
}
