/**
 What holds of the presence index after any run of serialised fixes, removals,
 reads and waits.
 */
module PresenceRuns {
  import opened Tables
  import opened Presence

  datatype Event =
    | Reported(driver: DriverId, fix: Fix)
    | Dropped(driver: DriverId)
    | Read(cells: seq<Cell>)
    | Waited(ms: nat)

  function Apply(config: Config, index: Index, event: Event): Index {
    match event
    case Reported(driver, fix) => Recording(config, index, driver, fix)
    case Dropped(driver) => Removing(index, driver)
    case Read(cells) => Pruning(config, index, cells)
    case Waited(ms) => index.(clock := index.clock + ms)
  }

  function Play(config: Config, start: int, events: seq<Event>): Index {
    if events == [] then Index(map[], map[], start)
    else Apply(config, Play(config, start, events[..|events| - 1]), events[|events| - 1])
  }

  // ----- the invariant -----

  /** An entry either is its driver's current fix, or is too old to rank. */
  predicate EntrySound(config: Config, index: Index, cell: Cell, driver: DriverId) {
    driver in Scores(index, cell) ==>
      var score := Scores(index, cell)[driver];
      || (LiveRecord(index, driver).Some? && LiveRecord(index, driver).value.cell == cell && LiveRecord(index, driver).value.observedAt == score)
      || score < index.clock - config.ttlMs
  }

  /** A live record is in its cell until retention prunes it, and the cell
      outlives the record. */
  predicate RecordIndexed(config: Config, index: Index, driver: DriverId) {
    LiveRecord(index, driver).Some? ==>
      var record := LiveRecord(index, driver).value;
      && record.cell in index.buckets && record.expireAt <= index.buckets[record.cell].expireAt
      && record.expireAt <= index.clock + Retention(config)
      && record.observedAt <= record.expireAt - Retention(config) + MAX_CLOCK_SKEW_MS
      && (record.observedAt >= index.clock - Retention(config) ==>
            driver in Scores(index, record.cell) && Scores(index, record.cell)[driver] == record.observedAt)
  }

  ghost predicate Sound(config: Config, index: Index) {
    && (forall cell, driver :: EntrySound(config, index, cell, driver))
    && (forall driver :: RecordIndexed(config, index, driver))
  }

  /** The clock skew a fix may have is within what retention leaves. */
  predicate SkewFits(config: Config) { MAX_CLOCK_SKEW_MS <= 9 * config.ttlMs }

  lemma WaitingKeeps(config: Config, index: Index, ms: nat)
    requires SkewFits(config) && Sound(config, index)
    ensures Sound(config, Apply(config, index, Waited(ms)))
  {
    var next := Apply(config, index, Waited(ms));
    forall cell, driver ensures EntrySound(config, next, cell, driver) {
      assert EntrySound(config, index, cell, driver) && RecordIndexed(config, index, driver);
    }
    forall driver ensures RecordIndexed(config, next, driver) {
      assert RecordIndexed(config, index, driver);
    }
  }

  lemma NotingKeeps(config: Config, index: Index, driver: DriverId, rejection: Rejection)
    requires Sound(config, index)
    ensures Sound(config, Noting(index, driver, rejection))
  {
    var next := Noting(index, driver, rejection);
    forall cell, d ensures EntrySound(config, next, cell, d) {
      assert EntrySound(config, index, cell, d);
    }
    forall d ensures RecordIndexed(config, next, d) {
      assert RecordIndexed(config, index, d);
    }
  }

  lemma EntryRemoved(index: Index, cell: Cell, driver: DriverId)
    ensures var next := WithoutEntry(index, cell, driver);
            && next.records == index.records && next.clock == index.clock
            && (forall c :: c != cell ==> Scores(next, c) == Scores(index, c))
            && Scores(next, cell) == Scores(index, cell) - {driver}
            && (forall c :: c in next.buckets <==> c in index.buckets)
            && (forall c :: c in index.buckets ==> next.buckets[c].expireAt == index.buckets[c].expireAt)
  {
  }

  lemma RemovingKeeps(config: Config, index: Index, driver: DriverId)
    requires Sound(config, index)
    ensures Sound(config, Removing(index, driver))
  {
    var next := Removing(index, driver);
    if LiveRecord(index, driver).Some? { EntryRemoved(index, LiveRecord(index, driver).value.cell, driver); }
    forall cell, d ensures EntrySound(config, next, cell, d) {
      assert EntrySound(config, index, cell, d);
    }
    forall d ensures RecordIndexed(config, next, d) {
      assert RecordIndexed(config, index, d);
    }
  }

  lemma StoringKeeps(config: Config, index: Index, driver: DriverId, position: Position, observedAt: int)
    requires Sound(config, index)
    requires observedAt <= index.clock + MAX_CLOCK_SKEW_MS
    ensures Sound(config, Storing(config, index, driver, position, observedAt))
  {
    var next := Storing(config, index, driver, position, observedAt);
    if LiveRecord(index, driver).Some? { EntryRemoved(index, LiveRecord(index, driver).value.cell, driver); }
    forall cell, d ensures EntrySound(config, next, cell, d) {
      assert EntrySound(config, index, cell, d);
    }
    forall d ensures RecordIndexed(config, next, d) {
      assert RecordIndexed(config, index, d);
    }
  }

  lemma PruningCellKeeps(config: Config, index: Index, cell: Cell)
    requires Sound(config, index)
    ensures Sound(config, PruneCell(config, index, cell))
  {
    var next := PruneCell(config, index, cell);
    forall c, d ensures EntrySound(config, next, c, d) {
      assert EntrySound(config, index, c, d);
    }
    forall d ensures RecordIndexed(config, next, d) {
      assert RecordIndexed(config, index, d);
    }
  }

  lemma {:induction false} PruningSound(config: Config, index: Index, cells: seq<Cell>)
    requires Sound(config, index)
    ensures Sound(config, Pruning(config, index, cells))
  {
    if cells != [] {
      PruningSound(config, index, cells[..|cells| - 1]);
      PruningCellKeeps(config, Pruning(config, index, cells[..|cells| - 1]), cells[|cells| - 1]);
    }
  }

  lemma ApplyKeeps(config: Config, index: Index, event: Event)
    requires SkewFits(config) && Sound(config, index)
    ensures Sound(config, Apply(config, index, event))
  {
    match event
    case Reported(driver, fix) =>
      if Refusal(config, index, driver, fix).Some? {
        NotingKeeps(config, index, driver, Refusal(config, index, driver, fix).value);
      } else {
        StoringKeeps(config, index, driver, fix.position.value, ObservedAt(fix, index.clock));
      }
    case Dropped(driver) => RemovingKeeps(config, index, driver);
    case Read(cells) => PruningSound(config, index, cells);
    case Waited(ms) => WaitingKeeps(config, index, ms);
  }

  lemma {:induction false} PlayKeeps(config: Config, start: int, events: seq<Event>)
    requires SkewFits(config)
    ensures Sound(config, Play(config, start, events))
  {
    if events != [] {
      PlayKeeps(config, start, events[..|events| - 1]);
      ApplyKeeps(config, Play(config, start, events[..|events| - 1]), events[|events| - 1]);
    }
  }

  // ----- the theorems -----

  ghost predicate IndexMatchesScan(config: Config, index: Index, cells: seq<Cell>) {
    forall driver :: ReportedFresh(config, index, cells, driver) <==> ScannedFresh(config, index, cells, driver)
  }

  lemma SoundMatches(config: Config, index: Index, cells: seq<Cell>)
    requires Sound(config, index)
    ensures IndexMatchesScan(config, index, cells)
  {
    forall driver ensures ReportedFresh(config, index, cells, driver) <==> ScannedFresh(config, index, cells, driver) {
      assert RecordIndexed(config, index, driver);
      if ReportedFresh(config, index, cells, driver) {
        var cell :| cell in cells && FreshIn(config, index, cell, driver);
        assert EntrySound(config, index, cell, driver);
      }
      if ScannedFresh(config, index, cells, driver) {
        assert FreshIn(config, index, LiveRecord(index, driver).value.cell, driver);
      }
    }
  }

  /** An entry left behind in another cell, or by a record that is gone, is never
      reported as fresh. */
  lemma LeftoversAreStale(config: Config, start: int, events: seq<Event>, cell: Cell, driver: DriverId)
    requires SkewFits(config)
    requires var index := Play(config, start, events);
             LiveRecord(index, driver).None? || LiveRecord(index, driver).value.cell != cell
    ensures !FreshIn(config, Play(config, start, events), cell, driver)
  {
    PlayKeeps(config, start, events);
    assert EntrySound(config, Play(config, start, events), cell, driver);
  }

  /** A driver whose fix is within retention is reported, as fresh or as stale. */
  lemma RetainedAreReported(config: Config, start: int, events: seq<Event>, cells: seq<Cell>, driver: DriverId)
    requires SkewFits(config)
    requires var index := Play(config, start, events);
             && LiveRecord(index, driver).Some? && LiveRecord(index, driver).value.cell in cells
             && LiveRecord(index, driver).value.observedAt >= index.clock - Retention(config)
    ensures Presence.Reported(config, Play(config, start, events), cells, driver)
  {
    var index := Play(config, start, events);
    PlayKeeps(config, start, events);
    assert RecordIndexed(config, index, driver);
    assert KeptIn(config, index, LiveRecord(index, driver).value.cell, driver);
  }

  /** Driver 0 reports a fix dated ahead; driver 1 keeps the cell alive just past
      the expiry of that record. */
  function Outliving(config: Config, position: Position): seq<Event> {
    var ahead := Fix(Some(position), false, Some(config.maxAccuracy), At(MAX_CLOCK_SKEW_MS));
    var later := Fix(Some(position), false, Some(config.maxAccuracy), Omitted);
    [Event.Reported(0, ahead), Waited(1), Event.Reported(1, later), Waited(Retention(config))]
  }

  /** With a short TTL the cell still offers a driver whose record is gone. */
  lemma OutlivingIsReported(config: Config, position: Position)
    requires config.ttlMs > 0 && config.inServiceArea(position) && !SkewFits(config)
    ensures !IndexMatchesScan(config, Play(config, 0, Outliving(config, position)), [config.cellOf(position)])
  {
    var events, cell := Outliving(config, position), config.cellOf(position);
    var first := Apply(config, Index(map[], map[], 0), events[0]);
    var third := Apply(config, Apply(config, first, events[1]), events[2]);
    var last := Apply(config, third, events[3]);
    assert events[..0] == [] && events[..1][..0] == [] && events[..2][..1] == events[..1];
    assert events[..3][..2] == events[..2] && events[..|events| - 1] == events[..3];
    assert Play(config, 0, events[..1]) == first;
    assert Play(config, 0, events[..3]) == third;
    assert Play(config, 0, events) == last;
    assert LiveRecord(last, 0).None?;
    assert Scores(last, cell)[0] == MAX_CLOCK_SKEW_MS;
    assert FreshIn(config, last, cell, 0) && !ScannedFresh(config, last, [cell], 0);
    assert ReportedFresh(config, last, [cell], 0);
  }

  /** Reading the cells always tells what looking at every record would, exactly
      when nine TTLs cover the skew a device clock may have. */
  lemma IndexMatchesScanIffSkewFits(config: Config, position: Position)
    requires config.ttlMs > 0 && config.inServiceArea(position)
    ensures SkewFits(config)
            <==> (forall start, events, cells :: IndexMatchesScan(config, Play(config, start, events), cells))
  {
    if SkewFits(config) {
      forall start, events, cells ensures IndexMatchesScan(config, Play(config, start, events), cells) {
        PlayKeeps(config, start, events);
        SoundMatches(config, Play(config, start, events), cells);
      }
    } else {
      OutlivingIsReported(config, position);
    }
  }
}
