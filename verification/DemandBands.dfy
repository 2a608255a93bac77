/** Demand bands with hysteresis, and the smoothed state that advances once a tick. */
module DemandBands {
  import opened Tables
  import opened Sorting
  import opened Numbers

  /** A JavaScript number as the configuration may hold it. */
  datatype Number = Finite(value: real) | MinusInfinity | PlusInfinity | NotANumber

  datatype RawBand = RawBand(above: Number, multiplier: Number, name: string)

  datatype Floor = Bottom | At(value: real)

  datatype Band = Band(above: Floor, multiplier: real, name: string)

  const DEFAULT_BANDS: seq<Band> := [
    Band(Bottom, 1.0, "NORMAL"),
    Band(At(1.0), 1.1, "MODERADO"),
    Band(At(1.5), 1.2, "ALTO"),
    Band(At(2.0), 1.35, "MUY_ALTO")]

  predicate FloorLe(a: Floor, b: Floor) {
    a.Bottom? || (b.At? && a.value <= b.value)
  }

  function BandLe(): (Band, Band) -> bool {
    (a: Band, b: Band) => FloorLe(a.above, b.above)
  }

  predicate UsableBand(b: RawBand) {
    b.multiplier.Finite? && b.multiplier.value >= 1.0 && (b.above.Finite? || b.above.MinusInfinity?)
  }

  function Usable(raw: seq<RawBand>): seq<Band> {
    if raw == [] then []
    else
      var last := raw[|raw| - 1];
      Usable(raw[..|raw| - 1]) +
      if UsableBand(last)
      then [Band(if last.above.Finite? then At(last.above.value) else Bottom, last.multiplier.value, last.name)]
      else []
  }

  function NormalizeBands(raw: Option<seq<RawBand>>): seq<Band> {
    var usable := if raw.Some? then Usable(raw.value) else [];
    if usable == [] then DEFAULT_BANDS
    else
      var sorted := Sort(usable, BandLe());
      if sorted == [] || sorted[0].above.At? then [Band(Bottom, 1.0, "NORMAL")] + sorted else sorted
  }

  /** Ascending, starting with a band that catches everything. */
  ghost predicate Normalized(bands: seq<Band>) {
    && bands != [] && bands[0].above.Bottom?
    && Sorted(bands, BandLe())
    && (forall i :: 0 <= i < |bands| ==> bands[i].multiplier >= 1.0)
  }

  lemma {:induction false} UsableMultipliers(raw: seq<RawBand>)
    ensures forall b :: b in Usable(raw) ==> b.multiplier >= 1.0
  {
    if raw != [] {
      UsableMultipliers(raw[..|raw| - 1]);
    }
  }

  lemma BandLePreorder()
    ensures TotalPreorder(BandLe())
  {
  }

  /** What normalizing makes of a non-empty list of usable bands. */
  lemma SortedBands(usable: seq<Band>)
    requires usable != [] && forall b :: b in usable ==> b.multiplier >= 1.0
    ensures var sorted := Sort(usable, BandLe());
            && sorted != [] && Sorted(sorted, BandLe()) && multiset(sorted) == multiset(usable)
            && (forall i :: 0 <= i < |sorted| ==> sorted[i].multiplier >= 1.0)
  {
    BandLePreorder();
    SortSorts(usable, BandLe());
    var sorted := Sort(usable, BandLe());
    forall i | 0 <= i < |sorted| ensures sorted[i].multiplier >= 1.0 {
      assert sorted[i] in multiset(sorted);
    }
  }

  lemma DefaultNormalized()
    ensures Normalized(DEFAULT_BANDS)
  {
  }

  lemma CatchAllPrepended(sorted: seq<Band>)
    requires sorted != [] && Sorted(sorted, BandLe()) && forall i :: 0 <= i < |sorted| ==> sorted[i].multiplier >= 1.0
    ensures Normalized([Band(Bottom, 1.0, "NORMAL")] + sorted)
    ensures multiset([Band(Bottom, 1.0, "NORMAL")] + sorted) == multiset(sorted) + multiset{Band(Bottom, 1.0, "NORMAL")}
  {
    var whole := [Band(Bottom, 1.0, "NORMAL")] + sorted;
    forall i, j | 0 <= i < j < |whole| ensures BandLe()(whole[i], whole[j]) {
      assert whole[j] == sorted[j - 1];
      assert i == 0 || whole[i] == sorted[i - 1];
    }
  }

  lemma NormalizeNormalizes(raw: Option<seq<RawBand>>)
    ensures Normalized(NormalizeBands(raw))
    ensures var usable := if raw.Some? then Usable(raw.value) else [];
            usable != [] ==>
              || multiset(NormalizeBands(raw)) == multiset(usable)
              || multiset(NormalizeBands(raw)) == multiset(usable) + multiset{Band(Bottom, 1.0, "NORMAL")}
  {
    var usable := if raw.Some? then Usable(raw.value) else [];
    if raw.Some? { UsableMultipliers(raw.value); }
    if usable == [] {
      DefaultNormalized();
    } else {
      SortedBands(usable);
      CatchAllPrepended(Sort(usable, BandLe()));
    }
  }

  // ----- which band a ratio is in -----

  predicate Exceeds(ratio: real, above: Floor, margin: real) {
    above.Bottom? || ratio > above.value - margin
  }

  /** The highest band up to `k` whose floor, less the margin, the ratio exceeds. */
  function Highest(ratio: real, k: nat, bands: seq<Band>, margin: real): nat
    requires k < |bands|
    decreases k
  {
    if k == 0 || Exceeds(ratio, bands[k].above, margin) then k else Highest(ratio, k - 1, bands, margin)
  }

  /** The band without a memory. */
  function Plain(ratio: real, bands: seq<Band>): nat
    requires bands != []
  {
    Highest(ratio, |bands| - 1, bands, 0.0)
  }

  function Resolved(ratio: real, previous: Option<nat>, bands: seq<Band>, hysteresis: real): nat
    requires bands != []
  {
    if previous.None? then Plain(ratio, bands)
    else Max(Plain(ratio, bands), Highest(ratio, Min(previous.value, |bands| - 1), bands, hysteresis))
  }

  lemma {:induction false} HighestIsHighest(ratio: real, k: nat, bands: seq<Band>, margin: real)
    requires k < |bands|
    ensures Highest(ratio, k, bands, margin) <= k
    ensures Highest(ratio, k, bands, margin) == 0 || Exceeds(ratio, bands[Highest(ratio, k, bands, margin)].above, margin)
    ensures forall i :: Highest(ratio, k, bands, margin) < i <= k ==> !Exceeds(ratio, bands[i].above, margin)
  {
    if k != 0 && !Exceeds(ratio, bands[k].above, margin) {
      HighestIsHighest(ratio, k - 1, bands, margin);
    }
  }

  method ResolveBandIndex(ratio: real, previousIndex: Option<nat>, bands: seq<Band>, hysteresis: real) returns (index: nat)
    requires bands != []
    ensures index == Resolved(ratio, previousIndex, bands, hysteresis) < |bands|
  {
    var target := 0;
    for i := 0 to |bands|
      invariant target < |bands|
      invariant target == if i == 0 then 0 else Highest(ratio, i - 1, bands, 0.0)
    {
      if Exceeds(ratio, bands[i].above, 0.0) {
        target := i;
      }
    }
    if previousIndex.Some? { HighestIsHighest(ratio, Min(previousIndex.value, |bands| - 1), bands, hysteresis); }
    if previousIndex.None? || previousIndex.value <= target {
      return target;
    }
    index := Min(previousIndex.value, |bands| - 1);
    HighestIsHighest(ratio, |bands| - 1, bands, 0.0);
    while index > target && !Exceeds(ratio, bands[index].above, hysteresis)
      invariant target <= index < |bands|
      invariant Max(target, Highest(ratio, index, bands, hysteresis))
             == Max(target, Highest(ratio, Min(previousIndex.value, |bands| - 1), bands, hysteresis))
    {
      index := index - 1;
    }
    HighestIsHighest(ratio, index, bands, hysteresis);
  }

  // ----- the closed form does what hysteresis is for -----

  lemma ResolvedIdempotent(ratio: real, previous: Option<nat>, bands: seq<Band>, hysteresis: real)
    requires bands != []
    ensures Resolved(ratio, Some(Resolved(ratio, previous, bands, hysteresis)), bands, hysteresis)
         == Resolved(ratio, previous, bands, hysteresis)
  {
    HighestIsHighest(ratio, |bands| - 1, bands, 0.0);
    var index := Resolved(ratio, previous, bands, hysteresis);
    if previous.Some? { HighestIsHighest(ratio, Min(previous.value, |bands| - 1), bands, hysteresis); }
    HighestIsHighest(ratio, Min(index, |bands| - 1), bands, hysteresis);
  }

  lemma {:induction false} HighestMonotone(low: real, high: real, k: nat, bands: seq<Band>, margin: real)
    requires k < |bands| && low <= high
    ensures Highest(low, k, bands, margin) <= Highest(high, k, bands, margin)
  {
    HighestIsHighest(low, k, bands, margin);
    HighestIsHighest(high, k, bands, margin);
  }

  lemma ResolvedMonotone(low: real, high: real, previous: Option<nat>, bands: seq<Band>, hysteresis: real)
    requires bands != [] && low <= high
    ensures Resolved(low, previous, bands, hysteresis) <= Resolved(high, previous, bands, hysteresis)
  {
    HighestMonotone(low, high, |bands| - 1, bands, 0.0);
    if previous.Some? {
      HighestMonotone(low, high, Min(previous.value, |bands| - 1), bands, hysteresis);
    }
  }

  /** The way up is immediate and a reached band is kept exactly while the ratio
      exceeds some floor at or above it, less the margin. */
  lemma BandKept(ratio: real, previous: nat, band: nat, bands: seq<Band>, hysteresis: real)
    requires 0 < band < |bands| && band <= previous && hysteresis >= 0.0
    ensures Resolved(ratio, Some(previous), bands, hysteresis) >= Plain(ratio, bands)
    ensures Exceeds(ratio, bands[band].above, hysteresis) ==> Resolved(ratio, Some(previous), bands, hysteresis) >= band
    ensures Normalized(bands) && Resolved(ratio, Some(previous), bands, hysteresis) >= band ==>
              Exceeds(ratio, bands[band].above, hysteresis)
  {
    HighestIsHighest(ratio, Min(previous, |bands| - 1), bands, hysteresis);
    HighestIsHighest(ratio, |bands| - 1, bands, 0.0);
    if Normalized(bands) && Resolved(ratio, Some(previous), bands, hysteresis) >= band {
      var index := Resolved(ratio, Some(previous), bands, hysteresis);
      assert index == band || BandLe()(bands[band], bands[index]);
    }
  }
}
