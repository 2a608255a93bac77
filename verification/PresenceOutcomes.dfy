/**
 Which fixes the presence index takes, why it refuses the others, and what it
 stores, in terms of the fix, the clock and the last record.
 */
module PresenceOutcomes {
  import opened Tables
  import opened Presence
  import opened PresenceRuns

  // ----- which fixes are taken -----

  /** When the fix was taken: on the device, or now when it does not say. */
  function TakenAt(fix: Fix, now: int): int {
    match fix.stamp
    case At(ms) => ms
    case _ => now
  }

  /** Believable by itself: in the area, not mocked, accurate enough, and neither
      older than the TTL nor more than half a minute ahead. */
  predicate Believable(config: Config, fix: Fix, now: int) {
    && fix.position.Some? && config.inServiceArea(fix.position.value)
    && !fix.mocked
    && fix.accuracy.Some? && fix.accuracy.value <= config.maxAccuracy
    && fix.stamp != Malformed && now - config.ttlMs <= TakenAt(fix, now) <= now + 30 * 1000
  }

  predicate Stored(index: Index, driver: DriverId) {
    driver in index.records && index.clock <= index.records[driver].expireAt
  }

  /** Believable after the last record: not too soon, newer, and reachable at the
      speed limit. */
  predicate FollowsOn(config: Config, last: PresenceRecord, fix: Fix, now: int)
    requires fix.position.Some?
  {
    && now >= last.receivedAt + config.minIntervalMs
    && TakenAt(fix, now) > last.observedAt
    && 1000.0 * config.meters(last.position, fix.position.value) <= config.maxSpeed * (TakenAt(fix, now) - last.observedAt) as real
  }

  predicate Taken(config: Config, index: Index, driver: DriverId, fix: Fix) {
    && Believable(config, fix, index.clock)
    && (Stored(index, driver) ==> FollowsOn(config, index.records[driver], fix, index.clock))
  }

  lemma SpeedLimit(meters: real, ms: int, limit: real)
    requires ms > 0
    ensures meters / (ms as real / 1000.0) <= limit <==> 1000.0 * meters <= limit * ms as real
  {
    var seconds := ms as real / 1000.0;
    var speed := meters / seconds;
    assert seconds > 0.0 && speed * seconds == meters;
    assert limit * ms as real == 1000.0 * (limit * seconds);
    if speed <= limit { Scale(speed, limit, seconds); }
    if speed > limit { Scale(limit, speed, seconds); NoTie(limit, speed, seconds); }
  }

  lemma Scale(a: real, b: real, c: real)
    requires a <= b && c > 0.0
    ensures a * c <= b * c
  {
    assert (b - a) * c >= 0.0;
  }

  lemma NoTie(a: real, b: real, c: real)
    requires a < b && c > 0.0
    ensures a * c < b * c
  {
    assert (b - a) * c > 0.0;
  }

  lemma SpeedIff(config: Config, last: PresenceRecord, fix: Fix, now: int)
    requires fix.position.Some? && TakenAt(fix, now) > last.observedAt
    ensures config.meters(last.position, fix.position.value) / ((TakenAt(fix, now) - last.observedAt) as real / 1000.0) <= config.maxSpeed
            <==> 1000.0 * config.meters(last.position, fix.position.value) <= config.maxSpeed * (TakenAt(fix, now) - last.observedAt) as real
  {
    SpeedLimit(config.meters(last.position, fix.position.value), TakenAt(fix, now) - last.observedAt, config.maxSpeed);
  }

  /** The first thing wrong with the fix, in the order they are looked at. */
  predicate FirstFault(config: Config, index: Index, driver: DriverId, fix: Fix, reason: Rejection) {
    var now := index.clock;
    var located := fix.position.Some?;
    var inside := located && config.inServiceArea(fix.position.value);
    var genuine := inside && !fix.mocked;
    var measured := genuine && fix.accuracy.Some?;
    var accurate := measured && fix.accuracy.value <= config.maxAccuracy;
    var dated := accurate && fix.stamp != Malformed;
    match reason
    case InvalidCoordinates => !located
    case OutOfServiceArea => located && !config.inServiceArea(fix.position.value)
    case MockedLocation => inside && fix.mocked
    case MissingAccuracy => genuine && fix.accuracy.None?
    case LowAccuracy => measured && fix.accuracy.value > config.maxAccuracy
    case FutureTimestamp => dated && TakenAt(fix, now) > now + 30 * 1000
    case StaleTimestamp => accurate && (fix.stamp == Malformed || TakenAt(fix, now) < now - config.ttlMs)
    case Throttled => Believable(config, fix, now) && Stored(index, driver) && now < index.records[driver].receivedAt + config.minIntervalMs
    case OutOfOrder =>
      && Believable(config, fix, now) && Stored(index, driver) && now >= index.records[driver].receivedAt + config.minIntervalMs
      && TakenAt(fix, now) <= index.records[driver].observedAt
    case ImpossibleJump =>
      && Believable(config, fix, now) && Stored(index, driver) && now >= index.records[driver].receivedAt + config.minIntervalMs
      && TakenAt(fix, now) > index.records[driver].observedAt && !FollowsOn(config, index.records[driver], fix, now)
  }

  lemma ValidIff(config: Config, fix: Fix, now: int)
    ensures Validate(config, fix, now).None? <==> Believable(config, fix, now)
  {
  }

  /** A fix is refused with the first thing wrong with it, and taken when nothing is. */
  lemma RefusalIsFirstFault(config: Config, index: Index, driver: DriverId, fix: Fix, reason: Rejection)
    ensures Refusal(config, index, driver, fix) == Some(reason) <==> FirstFault(config, index, driver, fix, reason)
  {
    ValidIff(config, fix, index.clock);
    if Believable(config, fix, index.clock) && Stored(index, driver) && TakenAt(fix, index.clock) > index.records[driver].observedAt {
      SpeedIff(config, index.records[driver], fix, index.clock);
    }
  }

  lemma TakenIffNotRefused(config: Config, index: Index, driver: DriverId, fix: Fix)
    ensures Refusal(config, index, driver, fix).None? <==> Taken(config, index, driver, fix)
  {
    ValidIff(config, fix, index.clock);
    if Believable(config, fix, index.clock) && Stored(index, driver) && TakenAt(fix, index.clock) > index.records[driver].observedAt {
      SpeedIff(config, index.records[driver], fix, index.clock);
    }
  }

  /** The answer of a call is to keep the fix, in its cell, exactly when the fix is
      taken, and else the first thing wrong with it. */
  method Submit(presence: PresenceIndex, driver: DriverId, fix: Fix) returns (answer: Answer)
    modifies presence`records, presence`buckets
    ensures answer.Kept? <==> Taken(presence.config, old(presence.State()), driver, fix)
    ensures answer.Kept? ==> fix.position.Some? && answer.cell == presence.config.cellOf(fix.position.value)
    ensures answer.Refused? ==> FirstFault(presence.config, old(presence.State()), driver, fix, answer.reason)
    ensures presence.State() == Recording(presence.config, old(presence.State()), driver, fix)
  {
    TakenIffNotRefused(presence.config, presence.State(), driver, fix);
    ghost var before := presence.State();
    answer := presence.Record(driver, fix);
    if answer.Refused? { RefusalIsFirstFault(presence.config, before, driver, fix, answer.reason); }
  }

  // ----- what is stored -----

  function RecordOf(config: Config, fix: Fix, now: int): PresenceRecord
    requires fix.position.Some?
  {
    PresenceRecord(fix.position.value, TakenAt(fix, now), now, config.cellOf(fix.position.value), now + 10 * config.ttlMs, None)
  }

  /** The entry of a driver in a cell that has not expired. */
  function EntryIn(index: Index, cell: Cell, driver: DriverId): Option<int> {
    if cell in index.buckets && index.clock <= index.buckets[cell].expireAt && driver in index.buckets[cell].scores
    then Some(index.buckets[cell].scores[driver]) else None
  }

  /** A fix that is taken becomes the driver's record, and its entry in its cell; the
      entry in the cell of the record it replaces goes; nobody else's changes. */
  lemma TakenIsStored(config: Config, index: Index, driver: DriverId, fix: Fix)
    requires Taken(config, index, driver, fix)
    ensures var next, cell := Recording(config, index, driver, fix), config.cellOf(fix.position.value);
            && next.clock == index.clock
            && next.records == index.records[driver := RecordOf(config, fix, index.clock)]
            && EntryIn(next, cell, driver) == Some(TakenAt(fix, index.clock))
            && (Stored(index, driver) && index.records[driver].cell != cell ==> EntryIn(next, index.records[driver].cell, driver) == None)
            && (forall c, d :: d != driver ==> EntryIn(next, c, d) == EntryIn(index, c, d))
            && (forall c :: c != cell && !(Stored(index, driver) && c == index.records[driver].cell) ==>
                  EntryIn(next, c, driver) == EntryIn(index, c, driver))
            && cell in next.buckets && next.buckets[cell].expireAt == index.clock + 10 * config.ttlMs
  {
    TakenIffNotRefused(config, index, driver, fix);
  }

  /** A refused fix only leaves a note, of the reasons worth remembering. */
  lemma RefusedIsNoted(config: Config, index: Index, driver: DriverId, fix: Fix, reason: Rejection)
    requires FirstFault(config, index, driver, fix, reason)
    ensures Recording(config, index, driver, fix) ==
            if Stored(index, driver) && reason in {LowAccuracy, MissingAccuracy, MockedLocation, OutOfServiceArea, ImpossibleJump}
            then index.(records := index.records[driver := index.records[driver].(lastRejection := Some((reason, index.clock)))])
            else index
  {
    RefusalIsFirstFault(config, index, driver, fix, reason);
  }

  /** A driver who is dropped has no record, and no entry in the cell it was in. */
  lemma DroppedIsGone(index: Index, driver: DriverId)
    ensures var next := Removing(index, driver);
            && next.clock == index.clock && next.records == index.records - {driver}
            && (Stored(index, driver) ==> EntryIn(next, index.records[driver].cell, driver) == None)
            && (forall c, d :: d != driver || !(Stored(index, driver) && c == index.records[driver].cell) ==>
                  EntryIn(next, c, d) == EntryIn(index, c, d))
  {
  }

  // ----- over runs -----

  /** The event at `i` is the fix this record came from, believable when it came. */
  ghost predicate CameFrom(config: Config, start: int, events: seq<Event>, i: nat, driver: DriverId, record: PresenceRecord) {
    && i < |events| && events[i].Reported? && events[i].driver == driver
    && var fix, now := events[i].fix, Play(config, start, events[..i]).clock;
    && Believable(config, fix, now) && record == RecordOf(config, fix, now).(lastRejection := record.lastRejection)
  }

  lemma CameFromLater(config: Config, start: int, before: seq<Event>, last: Event, i: nat, driver: DriverId, record: PresenceRecord, noted: PresenceRecord)
    requires CameFrom(config, start, before, i, driver, record) && noted == record.(lastRejection := noted.lastRejection)
    ensures CameFrom(config, start, before + [last], i, driver, noted)
  {
    assert (before + [last])[..i] == before[..i];
  }

  lemma RecordKeepsOrigin(config: Config, index: Index, event: Event, driver: DriverId)
    requires driver in Apply(config, index, event).records
    ensures var record := Apply(config, index, event).records[driver];
            || (driver in index.records && record == index.records[driver].(lastRejection := record.lastRejection))
            || (event.Reported? && event.driver == driver && Believable(config, event.fix, index.clock)
                && record == RecordOf(config, event.fix, index.clock))
  {
    if event.Reported? {
      TakenIffNotRefused(config, index, event.driver, event.fix);
      if Taken(config, index, event.driver, event.fix) { TakenIsStored(config, index, event.driver, event.fix); }
    } else if event.Read? {
      PruningKeeps(config, index, event.cells, 0);
    }
  }

  /** Every record ever stored came from a fix that was believable when it came:
      never a mocked one, nor one from outside the area, too inaccurate, too old or
      too far ahead. */
  lemma {:induction false} RecordsAreBelievable(config: Config, start: int, events: seq<Event>, driver: DriverId)
    requires driver in Play(config, start, events).records
    ensures exists i: nat :: CameFrom(config, start, events, i, driver, Play(config, start, events).records[driver])
  {
    if events == [] {
    } else {
      var before, last := events[..|events| - 1], events[|events| - 1];
      var index, record := Play(config, start, before), Play(config, start, events).records[driver];
      assert events == before + [last];
      RecordKeepsOrigin(config, index, last, driver);
      if driver in index.records && record == index.records[driver].(lastRejection := record.lastRejection) {
        RecordsAreBelievable(config, start, before, driver);
        var i: nat :| CameFrom(config, start, before, i, driver, index.records[driver]);
        CameFromLater(config, start, before, last, i, driver, index.records[driver], record);
      } else {
        assert events[..|before|] == before;
        assert CameFrom(config, start, events, |before|, driver, record);
      }
    }
  }
}
