/** Which bands are used, and which of them a ratio is in. */
module BandOutcomes {
  import opened Tables
  import opened Numbers
  import opened Sorting
  import opened DemandBands

  /** A configured band that counts: a finite multiplier of at least one, above a
      finite ratio or above everything. */
  predicate Configures(raw: RawBand, band: Band) {
    && raw.multiplier == Finite(band.multiplier) && band.multiplier >= 1.0 && raw.name == band.name
    && match band.above
       case Bottom => raw.above.MinusInfinity?
       case At(value) => raw.above == Finite(value)
  }

  lemma {:induction false} UsableIff(raw: seq<RawBand>, band: Band)
    ensures band in Usable(raw) <==> exists i :: 0 <= i < |raw| && Configures(raw[i], band)
  {
    if raw != [] {
      var init := raw[..|raw| - 1];
      UsableIff(init, band);
      assert raw == init + [raw[|raw| - 1]];
      if band in Usable(init) {
        var i :| 0 <= i < |init| && Configures(init[i], band);
        assert Configures(raw[i], band);
      }
    }
  }

  predicate Over(ratio: real, above: Floor, margin: real) {
    match above
    case Bottom => true
    case At(value) => ratio + margin > value
  }

  /** A band is reached exactly when the ratio is over its floor, or the last band
      was this one or a higher one and the ratio is over the floor with the margin. */
  lemma BandIsReachedIff(ratio: real, previous: Option<nat>, bands: seq<Band>, hysteresis: real, band: nat)
    requires Normalized(bands) && 0 < band < |bands| && hysteresis >= 0.0
    ensures band <= Resolved(ratio, previous, bands, hysteresis) <==>
            || Over(ratio, bands[band].above, 0.0)
            || (previous.Some? && band <= previous.value && Over(ratio, bands[band].above, hysteresis))
  {
    HighestIff(ratio, |bands| - 1, bands, 0.0, band);
    if previous.Some? && band <= previous.value { HighestIff(ratio, Min(previous.value, |bands| - 1), bands, hysteresis, band); }
    if previous.Some? { HighestIsHighest(ratio, Min(previous.value, |bands| - 1), bands, hysteresis); }
  }

  lemma HighestIff(ratio: real, k: nat, bands: seq<Band>, margin: real, band: nat)
    requires Normalized(bands) && 0 < band <= k < |bands| && margin >= 0.0
    ensures band <= Highest(ratio, k, bands, margin) <==> Over(ratio, bands[band].above, margin)
  {
    HighestIsHighest(ratio, k, bands, margin);
    var index := Highest(ratio, k, bands, margin);
    assert band < index ==> BandLe()(bands[band], bands[index]);
  }

  /** Without a usable configuration: a tenth more above 1, a fifth above 1.5, and
      35 hundredths above 2. */
  lemma DefaultsMultiply(raw: Option<seq<RawBand>>, ratio: real)
    requires raw.Some? ==> Usable(raw.value) == []
    ensures Plain(ratio, NormalizeBands(raw)) < |NormalizeBands(raw)|
    ensures var bands := NormalizeBands(raw);
            bands[Plain(ratio, bands)].multiplier == if ratio <= 1.0 then 1.0 else if ratio <= 1.5 then 1.1 else if ratio <= 2.0 then 1.2 else 1.35
  {
    DefaultNormalized();
    BandIsReachedIff(ratio, None, DEFAULT_BANDS, 0.0, 1);
    BandIsReachedIff(ratio, None, DEFAULT_BANDS, 0.0, 2);
    BandIsReachedIff(ratio, None, DEFAULT_BANDS, 0.0, 3);
    HighestIsHighest(ratio, |DEFAULT_BANDS| - 1, DEFAULT_BANDS, 0.0);
  }
}
