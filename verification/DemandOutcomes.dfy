/** What a demand quote says, from the requests, the drivers and the last state. */
module DemandOutcomes {
  import opened Tables
  import opened Numbers
  import opened DemandBands
  import opened BandOutcomes
  import opened Demand

  /** Requests a driver, a missing driver counting as one; and nothing below the
      observation floor. */
  predicate IsRatio(ratio: real, o: Observation, config: Config) {
    if o.requests >= config.minObservations then ratio * Max(o.drivers, 1) as real == o.requests as real else ratio == 0.0
  }

  lemma InputIsRatio(o: Observation, config: Config)
    ensures IsRatio(Input(o, config), o, config)
  {
    Undivided(o.requests as real, Max(o.drivers, 1) as real);
  }

  lemma Undivided(x: real, y: real)
    requires y > 0.0
    ensures (x / y) * y == x
  {
  }

  /** The last state, unless it is older than twice the window. */
  predicate Readable(state: Smoothed, now: int, config: Config) { now <= state.at + 2000 * config.windowSec }

  /** A quote within a minute of a state that can still be read repeats it, and
      leaves it as it is. */
  lemma QuoteRepeats(state: Smoothed, o: Observation, bands: seq<Band>, config: Config)
    requires bands != [] && state.bandIndex < |bands| && Readable(state, o.now, config) && o.now < state.at + 60 * 1000
    ensures Quoted(Some(state), o, bands, config) == Quote(state.ratio, state.bandIndex)
    ensures Stored(Some(state), o, bands, config) == Some(state)
  {
  }

  /** Any other quote moves the ratio towards the new one by the smoothing weight,
      starts from it when there is nothing to smooth against, and is stored. */
  lemma QuoteAdvances(stored: Option<Smoothed>, o: Observation, bands: seq<Band>, config: Config)
    requires bands != []
    requires stored.Some? && Readable(stored.value, o.now, config) ==> o.now >= stored.value.at + 60 * 1000
    ensures var quote, next := Quoted(stored, o, bands, config), Stored(stored, o, bands, config);
            && next == Some(Smoothed(quote.ratio, quote.bandIndex, o.now))
            && IsRatio(Input(o, config), o, config)
            && (if stored.Some? && Readable(stored.value, o.now, config)
                then quote.ratio - stored.value.ratio == config.smoothing * (Input(o, config) - stored.value.ratio)
                else quote.ratio == Input(o, config))
            && (o.requests < config.minObservations ==> quote.bandIndex == 0)
  {
    InputIsRatio(o, config);
    if stored.Some? { Towards(config.smoothing, Input(o, config), stored.value.ratio); }
  }

  /** Its band is reached by its own ratio, or is kept from the state it read. */
  lemma QuoteBandIff(stored: Option<Smoothed>, o: Observation, bands: seq<Band>, config: Config, band: nat)
    requires Normalized(bands) && 0 < band < |bands| && config.hysteresis >= 0.0 && o.requests >= config.minObservations
    requires stored.Some? && Readable(stored.value, o.now, config) ==> o.now >= stored.value.at + 60 * 1000
    ensures var quote := Quoted(stored, o, bands, config);
            band <= quote.bandIndex <==>
            || Over(quote.ratio, bands[band].above, 0.0)
            || (stored.Some? && Readable(stored.value, o.now, config) && band <= stored.value.bandIndex
                && Over(quote.ratio, bands[band].above, config.hysteresis))
  {
    var previous := if stored.Some? && Readable(stored.value, o.now, config) then Some(stored.value.bandIndex) else None;
    BandIsReachedIff(Quoted(stored, o, bands, config).ratio, previous, bands, config.hysteresis, band);
  }

  lemma Towards(w: real, x: real, y: real)
    ensures w * x + (1.0 - w) * y - y == w * (x - y)
  {
  }

  /** What is left of a distance when every tick keeps the share `1 - weight` of it. */
  function Left(distance: real, weight: real, ticks: nat): real {
    if ticks == 0 then distance else (1.0 - weight) * Left(distance, weight, ticks - 1)
  }

  /** Each quote advances a state it can read, with the same ratio coming in. */
  predicate Steady(stored: Option<Smoothed>, run: seq<Observation>, bands: seq<Band>, config: Config, ratio: real)
    requires bands != []
  {
    if run == [] then true
    else
      var before, last := run[..|run| - 1], run[|run| - 1];
      var found := Run(stored, before, bands, config);
      && Steady(stored, before, bands, config, ratio) && Input(last, config) == ratio
      && found.Some? && Readable(found.value, last.now, config) && last.now >= found.value.at + 60 * 1000
  }

  /** Under a steady ratio the distance to it shrinks by the same factor at every
      tick. */
  lemma {:induction false} DistanceShrinks(start: Smoothed, run: seq<Observation>, bands: seq<Band>, config: Config, ratio: real)
    requires bands != [] && Steady(Some(start), run, bands, config, ratio)
    ensures Run(Some(start), run, bands, config).Some?
    ensures ratio - Run(Some(start), run, bands, config).value.ratio == Left(ratio - start.ratio, config.smoothing, |run|)
  {
    if run != [] {
      DistanceShrinks(start, run[..|run| - 1], bands, config, ratio);
      LastMovesTowards(start, run, bands, config, ratio);
    }
  }

  lemma LastMovesTowards(start: Smoothed, run: seq<Observation>, bands: seq<Band>, config: Config, ratio: real)
    requires bands != [] && run != [] && Steady(Some(start), run, bands, config, ratio)
    ensures var found, next := Run(Some(start), run[..|run| - 1], bands, config), Run(Some(start), run, bands, config);
            found.Some? && next.Some? && ratio - next.value.ratio == (1.0 - config.smoothing) * (ratio - found.value.ratio)
  {
    var found := Run(Some(start), run[..|run| - 1], bands, config);
    QuoteAdvances(found, run[|run| - 1], bands, config);
    Shrinks(config.smoothing, ratio, found.value.ratio, Run(Some(start), run, bands, config).value.ratio);
  }

  lemma Shrinks(w: real, x: real, r: real, next: real)
    requires next - r == w * (x - r)
    ensures x - next == (1.0 - w) * (x - r)
  {
  }

  /** A tick is a minute, so the window has to be at least half of one. */
  lemma HalfAMinuteOutlivesTick(config: Config)
    ensures OutlivesTick(config) <==> config.windowSec >= 30
  {
  }
}
