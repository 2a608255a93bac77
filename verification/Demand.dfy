/** The smoothed demand of one area and category: it advances once per tick. */
module Demand {
  import opened Tables
  import opened DemandBands
  import opened Numbers

  const STATE_TICK_MS := 60_000

  datatype Config = Config(minObservations: nat, smoothing: real, hysteresis: real, windowSec: nat)

  ghost predicate ValidConfig(config: Config) {
    0.0 < config.smoothing <= 1.0 && config.hysteresis >= 0.0
  }

  datatype Smoothed = Smoothed(ratio: real, bandIndex: nat, at: int)

  datatype Observation = Observation(requests: nat, drivers: nat, now: int)

  datatype Quote = Quote(ratio: real, bandIndex: nat)

  function RawRatio(o: Observation): real {
    o.requests as real / (if o.drivers > 1 then o.drivers else 1) as real
  }

  /** Below the observation floor the ratio counts as zero. */
  function Input(o: Observation, config: Config): real {
    if o.requests < config.minObservations then 0.0 else RawRatio(o)
  }

  function SmoothRatio(ratio: real, previous: Option<real>, weight: real): real {
    if previous.None? then ratio else weight * ratio + (1.0 - weight) * previous.value
  }

  /** A state too old to smooth against is no state. */
  function ReadState(stored: Option<Smoothed>, config: Config, now: int): Option<Smoothed> {
    if stored.Some? && now - stored.value.at <= config.windowSec * 2000 then stored else None
  }

  predicate SameTick(previous: Option<Smoothed>, now: int) {
    previous.Some? && now - previous.value.at < STATE_TICK_MS
  }

  function Advance(previous: Option<Smoothed>, o: Observation, bands: seq<Band>, config: Config): Smoothed
    requires bands != []
  {
    var ratio := SmoothRatio(Input(o, config), if previous.Some? then Some(previous.value.ratio) else None, config.smoothing);
    var index :=
      if o.requests < config.minObservations then 0
      else Resolved(ratio, if previous.Some? then Some(previous.value.bandIndex) else None, bands, config.hysteresis);
    Smoothed(ratio, index, o.now)
  }

  /** The stored state after a quote. */
  function Stored(stored: Option<Smoothed>, o: Observation, bands: seq<Band>, config: Config): Option<Smoothed>
    requires bands != []
  {
    var previous := ReadState(stored, config, o.now);
    if SameTick(previous, o.now) then stored else Some(Advance(previous, o, bands, config))
  }

  function Quoted(stored: Option<Smoothed>, o: Observation, bands: seq<Band>, config: Config): Quote
    requires bands != []
  {
    var previous := ReadState(stored, config, o.now);
    if SameTick(previous, o.now)
    then Quote(previous.value.ratio, Min(previous.value.bandIndex, |bands| - 1))
    else
      var next := Advance(previous, o, bands, config);
      Quote(next.ratio, next.bandIndex)
  }

  class DemandState {
    var stored: Option<Smoothed>

    constructor ()
      ensures stored == None
    {
      stored := None;
    }

    method Snapshot(o: Observation, bands: seq<Band>, config: Config) returns (quote: Quote)
      requires bands != []
      modifies this
      ensures stored == Stored(old(stored), o, bands, config)
      ensures quote == Quoted(old(stored), o, bands, config)
    {
      var belowMin := o.requests < config.minObservations;
      var previous := ReadState(stored, config, o.now);
      if SameTick(previous, o.now) {
        return Quote(previous.value.ratio, Min(previous.value.bandIndex, |bands| - 1));
      }
      var ratio := SmoothRatio(if belowMin then 0.0 else RawRatio(o),
                               if previous.Some? then Some(previous.value.ratio) else None, config.smoothing);
      var index := 0;
      if !belowMin {
        index := ResolveBandIndex(ratio, if previous.Some? then Some(previous.value.bandIndex) else None, bands, config.hysteresis);
      }
      stored := Some(Smoothed(ratio, index, o.now));
      quote := Quote(ratio, index);
    }
  }

  // ----- runs of quotes -----

  function Run(stored: Option<Smoothed>, run: seq<Observation>, bands: seq<Band>, config: Config): Option<Smoothed>
    requires bands != []
  {
    if run == [] then stored
    else Stored(Run(stored, run[..|run| - 1], bands, config), run[|run| - 1], bands, config)
  }

  /** In the tick that a state was stored in. */
  predicate InTick(state: Smoothed, now: int) { state.at <= now < state.at + STATE_TICK_MS }

  /** A state is still read at the last millisecond of its tick. */
  predicate OutlivesTick(config: Config) { config.windowSec * 2000 >= STATE_TICK_MS - 1 }

  /** Every quote inside the tick a state was stored in sees that state. */
  ghost predicate TickSeesState(start: Smoothed, run: seq<Observation>, bands: seq<Band>, config: Config)
    requires bands != []
  {
    (forall i :: 0 <= i < |run| ==> InTick(start, run[i].now)) ==>
      forall i :: 0 <= i < |run| ==>
        Quoted(Run(Some(start), run[..i], bands, config), run[i], bands, config) == Quote(start.ratio, start.bandIndex)
  }

  lemma {:induction false} TickKeepsState(start: Smoothed, run: seq<Observation>, bands: seq<Band>, config: Config)
    requires bands != [] && start.bandIndex < |bands| && OutlivesTick(config)
    requires forall i :: 0 <= i < |run| ==> InTick(start, run[i].now)
    ensures Run(Some(start), run, bands, config) == Some(start)
  {
    if run != [] {
      TickKeepsState(start, run[..|run| - 1], bands, config);
    }
  }

  lemma TickSees(start: Smoothed, run: seq<Observation>, bands: seq<Band>, config: Config)
    requires bands != [] && start.bandIndex < |bands| && OutlivesTick(config)
    ensures TickSeesState(start, run, bands, config)
  {
    if forall i :: 0 <= i < |run| ==> InTick(start, run[i].now) {
      forall i | 0 <= i < |run|
        ensures Quoted(Run(Some(start), run[..i], bands, config), run[i], bands, config) == Quote(start.ratio, start.bandIndex)
      {
        TickKeepsState(start, run[..i], bands, config);
      }
    }
  }

  /** A state that quotes store has one of their bands. */
  lemma {:induction false} StoredInRange(earlier: seq<Observation>, bands: seq<Band>, config: Config)
    requires bands != []
    ensures Run(None, earlier, bands, config).Some? ==> Run(None, earlier, bands, config).value.bandIndex < |bands|
  {
    if earlier != [] {
      var before, last := earlier[..|earlier| - 1], earlier[|earlier| - 1];
      StoredInRange(before, bands, config);
      AdvanceInRange(ReadState(Run(None, before, bands, config), config, last.now), last, bands, config);
    }
  }

  /** A first quote with requests, and one without at the end of its tick. */
  function Busy(config: Config): Observation { Observation(Max(config.minObservations, 1), 1, 0) }

  const QUIET := Observation(0, 1, STATE_TICK_MS - 1)

  lemma BusyIsStored(bands: seq<Band>, config: Config)
    requires bands != []
    ensures Run(None, [Busy(config)], bands, config).Some?
    ensures var state := Run(None, [Busy(config)], bands, config).value; state.at == 0 && state.ratio >= 1.0
  {
    var busy := Busy(config);
    assert [busy][..0] == [] && Run(None, [], bands, config) == None;
    assert Run(None, [busy], bands, config) == Stored(None, busy, bands, config);
    assert Input(busy, config) == busy.requests as real;
  }

  /** In a shorter window the state is gone before its tick ends: two quotes of one
      tick differ. */
  lemma ShortWindowForgets(bands: seq<Band>, config: Config)
    requires bands != [] && !OutlivesTick(config)
    ensures Run(None, [Busy(config)], bands, config).Some?
    ensures !TickSeesState(Run(None, [Busy(config)], bands, config).value, [QUIET], bands, config)
  {
    BusyIsStored(bands, config);
    var start := Run(None, [Busy(config)], bands, config).value;
    assert [QUIET][..0] == [] && Run(Some(start), [], bands, config) == Some(start);
    assert ReadState(Some(start), config, QUIET.now).None?;
    assert Input(QUIET, config) == 0.0;
    assert Quoted(Some(start), QUIET, bands, config).ratio == 0.0;
    assert InTick(start, [QUIET][0].now);
  }

  /** Quotes inside one tick agree, whatever quotes came before and in it, exactly
      when twice the window covers the tick. */
  lemma TickIsStableIff(bands: seq<Band>, config: Config)
    requires bands != []
    ensures OutlivesTick(config)
            <==> (forall earlier, run :: Run(None, earlier, bands, config).Some? ==>
                    TickSeesState(Run(None, earlier, bands, config).value, run, bands, config))
  {
    if OutlivesTick(config) {
      forall earlier, run | Run(None, earlier, bands, config).Some?
        ensures TickSeesState(Run(None, earlier, bands, config).value, run, bands, config)
      {
        StoredInRange(earlier, bands, config);
        TickSees(Run(None, earlier, bands, config).value, run, bands, config);
      }
    } else {
      ShortWindowForgets(bands, config);
    }
  }

  /** A quote that advances the state answers with the state it stores, so the
      first quote of a tick agrees with all later ones. */
  lemma AdvanceAnswersItself(stored: Option<Smoothed>, o: Observation, bands: seq<Band>, config: Config)
    requires bands != [] && !SameTick(ReadState(stored, config, o.now), o.now)
    ensures Stored(stored, o, bands, config).Some?
    ensures var next := Stored(stored, o, bands, config).value;
            && next.bandIndex < |bands| && next.at == o.now
            && Quoted(stored, o, bands, config) == Quoted(Some(next), o, bands, config) == Quote(next.ratio, next.bandIndex)
  {
    AdvanceInRange(ReadState(stored, config, o.now), o, bands, config);
    SeenIsQuoted(Advance(ReadState(stored, config, o.now), o, bands, config), o, bands, config);
  }

  lemma AdvanceInRange(previous: Option<Smoothed>, o: Observation, bands: seq<Band>, config: Config)
    requires bands != []
    ensures var next := Advance(previous, o, bands, config); next.bandIndex < |bands| && next.at == o.now
  {
    var ratio := SmoothRatio(Input(o, config), if previous.Some? then Some(previous.value.ratio) else None, config.smoothing);
    ResolvedInRange(ratio, if previous.Some? then Some(previous.value.bandIndex) else None, bands, config.hysteresis);
  }

  lemma ResolvedInRange(ratio: real, previous: Option<nat>, bands: seq<Band>, hysteresis: real)
    requires bands != []
    ensures Resolved(ratio, previous, bands, hysteresis) < |bands|
  {
    HighestIsHighest(ratio, |bands| - 1, bands, 0.0);
    if previous.Some? { HighestIsHighest(ratio, Min(previous.value, |bands| - 1), bands, hysteresis); }
  }

  lemma SeenIsQuoted(state: Smoothed, o: Observation, bands: seq<Band>, config: Config)
    requires bands != [] && state.bandIndex < |bands| && state.at == o.now
    ensures Quoted(Some(state), o, bands, config) == Quote(state.ratio, state.bandIndex)
  {
  }

  /** A convex combination stays between its terms. */
  lemma Convex(weight: real, a: real, b: real, low: real, high: real)
    requires 0.0 <= weight <= 1.0 && low <= a <= high && low <= b <= high
    ensures low <= weight * a + (1.0 - weight) * b <= high
  {
    Apart(weight, a, b, low);
    NonNegativeProduct(weight, a - low);
    NonNegativeProduct(1.0 - weight, b - low);
    Apart(weight, a, b, high);
    NonNegativeProduct(weight, high - a);
    NonNegativeProduct(1.0 - weight, high - b);
  }

  lemma NonNegativeProduct(x: real, y: real)
    requires x >= 0.0 && y >= 0.0
    ensures x * y >= 0.0
  {
  }

  lemma Apart(weight: real, a: real, b: real, c: real)
    ensures weight * a + (1.0 - weight) * b == c + weight * (a - c) + (1.0 - weight) * (b - c)
    ensures weight * a + (1.0 - weight) * b == c - weight * (c - a) - (1.0 - weight) * (c - b)
  {
  }

  lemma SmoothInRange(ratio: real, previous: Option<real>, weight: real, low: real, high: real)
    requires 0.0 <= weight <= 1.0 && low <= ratio <= high && (previous.Some? ==> low <= previous.value <= high)
    ensures low <= SmoothRatio(ratio, previous, weight) <= high
  {
    if previous.Some? { Convex(weight, ratio, previous.value, low, high); }
  }

  /** The smoothed ratio stays within the range of the observed inputs. */
  lemma {:induction false} RatioStaysInRange(run: seq<Observation>, bands: seq<Band>, config: Config, low: real, high: real)
    requires bands != [] && ValidConfig(config)
    requires forall i :: 0 <= i < |run| ==> low <= Input(run[i], config) <= high
    ensures Run(None, run, bands, config).Some? ==> low <= Run(None, run, bands, config).value.ratio <= high
  {
    if run != [] {
      var before, o := run[..|run| - 1], run[|run| - 1];
      assert forall i :: 0 <= i < |before| ==> before[i] == run[i];
      RatioStaysInRange(before, bands, config, low, high);
      var previous := ReadState(Run(None, before, bands, config), config, o.now);
      SmoothInRange(Input(o, config), if previous.Some? then Some(previous.value.ratio) else None, config.smoothing, low, high);
    }
  }

  /** What keeps a band at a quote that advances the state: enough requests, and
      a ratio above the band's floor, less the margin while the last state is
      still read. */
  predicate KeepsBand(state: Smoothed, o: Observation, bands: seq<Band>, config: Config, band: nat)
    requires band < |bands|
  {
    var previous := ReadState(Some(state), config, o.now);
    && o.requests >= config.minObservations
    && Exceeds(Advance(previous, o, bands, config).ratio, bands[band].above, if previous.Some? then config.hysteresis else 0.0)
  }

  lemma PlainReaches(ratio: real, bands: seq<Band>, band: nat)
    requires band < |bands| && Normalized(bands)
    ensures band > 0 ==> (Plain(ratio, bands) >= band <==> Exceeds(ratio, bands[band].above, 0.0))
  {
    HighestIsHighest(ratio, |bands| - 1, bands, 0.0);
    var index := Plain(ratio, bands);
    if 0 < band <= index { assert index == band || BandLe()(bands[band], bands[index]); }
  }

  /** A quote that advances a state in some band keeps that band exactly then. */
  lemma AdvanceKeepsBandIff(state: Smoothed, o: Observation, bands: seq<Band>, config: Config, band: nat)
    requires 0 < band < |bands| && band <= state.bandIndex && Normalized(bands) && config.hysteresis >= 0.0
    ensures var previous := ReadState(Some(state), config, o.now);
            Advance(previous, o, bands, config).bandIndex >= band <==> KeepsBand(state, o, bands, config, band)
  {
    var previous := ReadState(Some(state), config, o.now);
    var ratio := Advance(previous, o, bands, config).ratio;
    if previous.Some? {
      BandKept(ratio, state.bandIndex, band, bands, config.hysteresis);
    } else {
      PlainReaches(ratio, bands, band);
    }
  }

  /** Every quote of the run is in the band or a higher one. */
  predicate BandHolds(start: Smoothed, run: seq<Observation>, bands: seq<Band>, config: Config, band: nat)
    requires bands != []
  {
    if run == [] then true
    else
      var before, last := run[..|run| - 1], run[|run| - 1];
      BandHolds(start, before, bands, config, band) && Quoted(Run(Some(start), before, bands, config), last, bands, config).bandIndex >= band
  }

  /** Every quote is in the tick of the state it finds, or keeps the band. */
  predicate EachKeeps(start: Smoothed, run: seq<Observation>, bands: seq<Band>, config: Config, band: nat)
    requires band < |bands|
  {
    if run == [] then true
    else
      var before, last := run[..|run| - 1], run[|run| - 1];
      EachKeeps(start, before, bands, config, band) && QuoteKeeps(Run(Some(start), before, bands, config), last, bands, config, band)
  }

  predicate QuoteKeeps(stored: Option<Smoothed>, o: Observation, bands: seq<Band>, config: Config, band: nat)
    requires band < |bands|
  {
    SameTick(ReadState(stored, config, o.now), o.now) || (stored.Some? && KeepsBand(stored.value, o, bands, config, band))
  }

  lemma QuoteKeepsIff(state: Smoothed, o: Observation, bands: seq<Band>, config: Config, band: nat)
    requires 0 < band < |bands| && band <= state.bandIndex && Normalized(bands) && config.hysteresis >= 0.0
    ensures Quoted(Some(state), o, bands, config).bandIndex >= band <==> QuoteKeeps(Some(state), o, bands, config, band)
    ensures Quoted(Some(state), o, bands, config).bandIndex >= band
            <==> Stored(Some(state), o, bands, config).value.bandIndex >= band
  {
    AdvanceKeepsBandIff(state, o, bands, config, band);
  }

  /** Over a whole run a reached band is kept at every quote if and only if each
      quote that advances the state has enough requests and a ratio above the
      floor, less the margin unless the state was too old to read. */
  lemma {:induction false} BandSurvivesIff(start: Smoothed, run: seq<Observation>, bands: seq<Band>, config: Config, band: nat)
    requires 0 < band < |bands| && band <= start.bandIndex && Normalized(bands) && config.hysteresis >= 0.0
    ensures BandHolds(start, run, bands, config, band) <==> EachKeeps(start, run, bands, config, band)
    ensures BandHolds(start, run, bands, config, band) ==>
              Run(Some(start), run, bands, config).Some? && Run(Some(start), run, bands, config).value.bandIndex >= band
  {
    if run != [] {
      var before, last := run[..|run| - 1], run[|run| - 1];
      BandSurvivesIff(start, before, bands, config, band);
      if BandHolds(start, before, bands, config, band) {
        QuoteKeepsIff(Run(Some(start), before, bands, config).value, last, bands, config, band);
      }
    }
  }

  /** One quiet quote drops a band that busy ones reached, although the ratio stays
      above its floor less the margin. */
  lemma QuietQuoteDropsBand()
    ensures var config := Config(2, 0.5, 0.5, 600);
            var start := Stored(None, Observation(3, 1, 0), DEFAULT_BANDS, config).value;
            var next := Stored(Some(start), Observation(1, 1, STATE_TICK_MS), DEFAULT_BANDS, config).value;
            && start == Smoothed(3.0, 3, 0)
            && Exceeds(next.ratio, DEFAULT_BANDS[2].above, config.hysteresis)
            && next.bandIndex == 0
  {
  }
}
