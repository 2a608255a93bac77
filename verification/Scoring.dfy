/**
 How an eligible driver is scored, and the order scored drivers are ranked in.
 */
module Scoring {
  import opened Tables
  import opened Numbers

  datatype Weights = Weights(eta: real, distance: real, reliability: real, balance: real)

  const DEFAULT_WEIGHTS := Weights(0.55, 0.15, 0.15, 0.15)

  const ETA_CAP_SEC := 1800.0
  const DISTANCE_CAP_M := 15000.0
  const TRIPS_CAP := 10.0
  const UNRATED_RELIABILITY := 0.8

  datatype Signals = Signals(
    etaSeconds: Option<real>, roadMeters: Option<real>, straightMeters: real, rating: real, acceptanceRate: Option<real>, tripsToday: nat)

  function Clamp01(x: real): real { if x < 0.0 then 0.0 else if x > 1.0 then 1.0 else x }

  function Round4(x: real): real { Round(x * 10000.0) as real / 10000.0 }

  function NormalizeWeights(merged: Weights): Weights {
    var total := merged.eta + merged.distance + merged.reliability + merged.balance;
    if merged.eta < 0.0 || merged.distance < 0.0 || merged.reliability < 0.0 || merged.balance < 0.0 || total <= 0.0 then DEFAULT_WEIGHTS
    else Weights(merged.eta / total, merged.distance / total, merged.reliability / total, merged.balance / total)
  }

  function EtaPart(signals: Signals): real {
    match signals.etaSeconds
    case None => 0.0
    case Some(seconds) => Clamp01(1.0 - seconds / ETA_CAP_SEC)
  }

  function DistancePart(signals: Signals): real {
    var meters := if signals.roadMeters.Some? then signals.roadMeters.value else signals.straightMeters;
    Clamp01(1.0 - meters / DISTANCE_CAP_M)
  }

  function RatingPart(signals: Signals): real {
    if signals.rating > 0.0 then Clamp01(signals.rating / 5.0) else UNRATED_RELIABILITY
  }

  function ReliabilityPart(signals: Signals): real {
    match signals.acceptanceRate
    case None => RatingPart(signals)
    case Some(rate) => 0.7 * RatingPart(signals) + 0.3 * Clamp01(rate)
  }

  function BalancePart(signals: Signals): real { Clamp01(1.0 - signals.tripsToday as real / TRIPS_CAP) }

  function Times(a: real, b: real): real { a * b }

  function Blend(weights: Weights, eta: real, distance: real, reliability: real, balance: real): real {
    Times(weights.eta, eta) + Times(weights.distance, distance) + Times(weights.reliability, reliability) + Times(weights.balance, balance)
  }

  function Score(signals: Signals, weights: Weights): real {
    Round4(Blend(weights, EtaPart(signals), DistancePart(signals), ReliabilityPart(signals), BalancePart(signals)))
  }

  // ----- what scores promise -----

  /** Non-negative and adding up to one. */
  predicate Convex(weights: Weights) {
    && weights.eta >= 0.0 && weights.distance >= 0.0 && weights.reliability >= 0.0 && weights.balance >= 0.0
    && weights.eta + weights.distance + weights.reliability + weights.balance == 1.0
  }

  lemma Quotient(x: real, total: real)
    requires x >= 0.0 && total > 0.0
    ensures x / total >= 0.0 && (x / total) * total == x
  {
  }

  lemma SharesAddUp(shares: Weights, merged: Weights, total: real)
    requires total > 0.0 && total == merged.eta + merged.distance + merged.reliability + merged.balance
    requires shares.eta * total == merged.eta && shares.distance * total == merged.distance
    requires shares.reliability * total == merged.reliability && shares.balance * total == merged.balance
    ensures shares.eta + shares.distance + shares.reliability + shares.balance == 1.0
  {
    assert (shares.eta + shares.distance + shares.reliability + shares.balance) * total == 1.0 * total;
  }

  /** Whatever weights are configured, the ones in use are convex. */
  lemma NormalizedIsConvex(merged: Weights)
    ensures Convex(NormalizeWeights(merged))
    ensures Convex(merged) ==> NormalizeWeights(merged) == merged
  {
    if Usable(merged) { UsableIsConvex(merged); }
  }

  function Total(weights: Weights): real { weights.eta + weights.distance + weights.reliability + weights.balance }

  predicate Usable(merged: Weights) {
    merged.eta >= 0.0 && merged.distance >= 0.0 && merged.reliability >= 0.0 && merged.balance >= 0.0 && Total(merged) > 0.0
  }

  lemma UsableIsConvex(merged: Weights)
    requires Usable(merged)
    ensures Convex(NormalizeWeights(merged))
  {
    var total := Total(merged);
    Quotient(merged.eta, total);
    Quotient(merged.distance, total);
    Quotient(merged.reliability, total);
    Quotient(merged.balance, total);
    SharesAddUp(NormalizeWeights(merged), merged, total);
  }

  /** No signal on which `other` is worse. A missing ETA is the worst ETA; drivers
      with and without a rating or a history are not compared. */
  predicate NoBetter(signals: Signals, other: Signals) {
    && (signals.etaSeconds.Some? ==> other.etaSeconds.Some? && other.etaSeconds.value <= signals.etaSeconds.value)
    && signals.roadMeters.Some? == other.roadMeters.Some?
    && (signals.roadMeters.Some? ==> other.roadMeters.value <= signals.roadMeters.value)
    && other.straightMeters <= signals.straightMeters
    && (signals.rating > 0.0 <==> other.rating > 0.0) && signals.rating <= other.rating
    && signals.acceptanceRate.Some? == other.acceptanceRate.Some?
    && (signals.acceptanceRate.Some? ==> signals.acceptanceRate.value <= other.acceptanceRate.value)
    && other.tripsToday <= signals.tripsToday
  }

  lemma PartsInRange(signals: Signals)
    ensures 0.0 <= EtaPart(signals) <= 1.0 && 0.0 <= DistancePart(signals) <= 1.0
    ensures 0.0 <= ReliabilityPart(signals) <= 1.0 && 0.0 <= BalancePart(signals) <= 1.0
  {
  }

  lemma PartsOrdered(signals: Signals, other: Signals)
    requires NoBetter(signals, other)
    ensures EtaPart(signals) <= EtaPart(other) && DistancePart(signals) <= DistancePart(other)
    ensures ReliabilityPart(signals) <= ReliabilityPart(other) && BalancePart(signals) <= BalancePart(other)
  {
    PartsInRange(other);
  }

  lemma Weighted(weight: real, x: real, y: real)
    requires weight >= 0.0 && x <= y
    ensures Times(weight, x) <= Times(weight, y)
  {
    assert weight * (y - x) >= 0.0;
  }

  lemma WeightedInRange(weight: real, x: real)
    requires weight >= 0.0 && 0.0 <= x <= 1.0
    ensures 0.0 <= Times(weight, x) <= weight
  {
    assert weight * (1.0 - x) >= 0.0;
  }

  lemma BlendInRange(w: Weights, eta: real, distance: real, reliability: real, balance: real)
    requires Convex(w)
    requires 0.0 <= eta <= 1.0 && 0.0 <= distance <= 1.0 && 0.0 <= reliability <= 1.0 && 0.0 <= balance <= 1.0
    ensures 0.0 <= Blend(w, eta, distance, reliability, balance) <= 1.0
  {
    WeightedInRange(w.eta, eta);
    WeightedInRange(w.distance, distance);
    WeightedInRange(w.reliability, reliability);
    WeightedInRange(w.balance, balance);
  }

  lemma Round4Keeps(x: real, y: real)
    requires x <= y
    ensures Round4(x) <= Round4(y)
  {
    var m, n := Round(x * 10000.0), Round(y * 10000.0);
    assert x * 10000.0 <= y * 10000.0;
    assert m <= n;
  }

  /** Scores stay between 0 and 1, whatever the weights in the settings. */
  lemma ScoreInRange(signals: Signals, merged: Weights)
    ensures 0.0 <= Score(signals, NormalizeWeights(merged)) <= 1.0
  {
    NormalizedIsConvex(merged);
    PartsInRange(signals);
    var blend := Blend(NormalizeWeights(merged), EtaPart(signals), DistancePart(signals), ReliabilityPart(signals), BalancePart(signals));
    BlendInRange(NormalizeWeights(merged), EtaPart(signals), DistancePart(signals), ReliabilityPart(signals), BalancePart(signals));
    Round4Keeps(0.0, blend);
    Round4Keeps(blend, 1.0);
  }

  /** A driver no worse on any signal never scores less. */
  lemma ScoreMonotone(signals: Signals, other: Signals, merged: Weights)
    requires NoBetter(signals, other)
    ensures Score(signals, NormalizeWeights(merged)) <= Score(other, NormalizeWeights(merged))
  {
    var w := NormalizeWeights(merged);
    NormalizedIsConvex(merged);
    PartsOrdered(signals, other);
    Weighted(w.eta, EtaPart(signals), EtaPart(other));
    Weighted(w.distance, DistancePart(signals), DistancePart(other));
    Weighted(w.reliability, ReliabilityPart(signals), ReliabilityPart(other));
    Weighted(w.balance, BalancePart(signals), BalancePart(other));
    Round4Keeps(Blend(w, EtaPart(signals), DistancePart(signals), ReliabilityPart(signals), BalancePart(signals)),
                Blend(w, EtaPart(other), DistancePart(other), ReliabilityPart(other), BalancePart(other)));
  }

  // ----- the ranking order -----

  datatype Standing = Standing(etaSeconds: Option<real>, score: real, straightMeters: int)

  /** Negative when `a` ranks before `b`, positive when after. */
  function CompareRanked(a: Standing, b: Standing): real {
    if a.etaSeconds.Some? != b.etaSeconds.Some? then (if a.etaSeconds.Some? then -1.0 else 1.0)
    else if a.score != b.score then b.score - a.score
    else if a.etaSeconds.Some? && b.etaSeconds.Some? && a.etaSeconds != b.etaSeconds then a.etaSeconds.value - b.etaSeconds.value
    else (a.straightMeters - b.straightMeters) as real
  }

  /** The comparator is a strict weak order: antisymmetric, transitive, and with
      transitive ties. */
  lemma CompareRankedIsWeakOrder(a: Standing, b: Standing, c: Standing)
    ensures CompareRanked(a, b) == -CompareRanked(b, a)
    ensures CompareRanked(a, b) < 0.0 && CompareRanked(b, c) < 0.0 ==> CompareRanked(a, c) < 0.0
    ensures CompareRanked(a, b) == 0.0 && CompareRanked(b, c) == 0.0 ==> CompareRanked(a, c) == 0.0
    ensures CompareRanked(a, b) <= 0.0 && CompareRanked(b, c) <= 0.0 ==> CompareRanked(a, c) <= 0.0
  {
  }
}
