/**
 The hot index of where available drivers are. Each driver has one record with
 an expiry; each cell has a sorted set of drivers scored by the time of their
 fix, with an expiry of its own. A record may expire while its entry stays in a
 cell, and the cells are read without looking at the records.
 */
module Presence {
  import opened Tables

  type Cell = nat

  datatype Position = Position(latitude: real, longitude: real)

  datatype Rejection =
    | InvalidCoordinates | OutOfServiceArea | MockedLocation | MissingAccuracy | LowAccuracy
    | FutureTimestamp | StaleTimestamp | OutOfOrder | ImpossibleJump | Throttled

  datatype Stamp = Omitted | Malformed | At(ms: int)

  datatype Fix = Fix(position: Option<Position>, mocked: bool, accuracy: Option<real>, stamp: Stamp)

  datatype PresenceRecord = PresenceRecord(
    position: Position, observedAt: int, receivedAt: int, cell: Cell, expireAt: int, lastRejection: Option<(Rejection, int)>)

  datatype Answer = Kept(cell: Cell) | Refused(reason: Rejection)

  datatype Bucket = Bucket(scores: map<DriverId, int>, expireAt: int)

  /** The settings, and the geometry the index is handed. */
  datatype Config = Config(
    ttlMs: nat, minIntervalMs: nat, maxAccuracy: real, maxSpeed: real,
    inServiceArea: Position -> bool, cellOf: Position -> Cell, meters: (Position, Position) -> real)

  const MAX_CLOCK_SKEW_MS := 30000
  const RETENTION_TTL_MULTIPLIER := 10

  /** What the store holds, expired keys included, and the time. */
  datatype Index = Index(records: map<DriverId, PresenceRecord>, buckets: map<Cell, Bucket>, clock: int)

  function Retention(config: Config): int { RETENTION_TTL_MULTIPLIER * config.ttlMs }

  // ----- reading through expiry -----

  function LiveRecord(index: Index, driver: DriverId): Option<PresenceRecord> {
    if driver in index.records && index.clock <= index.records[driver].expireAt then Some(index.records[driver]) else None
  }

  function Scores(index: Index, cell: Cell): map<DriverId, int> {
    if cell in index.buckets && index.clock <= index.buckets[cell].expireAt then index.buckets[cell].scores else map[]
  }

  // ----- recording a fix -----

  function ObservedAt(fix: Fix, now: int): int { if fix.stamp.At? then fix.stamp.ms else now }

  function Validate(config: Config, fix: Fix, now: int): Option<Rejection> {
    if fix.position.None? then Some(InvalidCoordinates)
    else if !config.inServiceArea(fix.position.value) then Some(OutOfServiceArea)
    else if fix.mocked then Some(MockedLocation)
    else if fix.accuracy.None? then Some(MissingAccuracy)
    else if fix.accuracy.value > config.maxAccuracy then Some(LowAccuracy)
    else if fix.stamp.Malformed? then Some(StaleTimestamp)
    else if ObservedAt(fix, now) - now > MAX_CLOCK_SKEW_MS then Some(FutureTimestamp)
    else if now - ObservedAt(fix, now) > config.ttlMs then Some(StaleTimestamp)
    else None
  }

  /** Refused against the driver's previous fix. */
  function Implausible(config: Config, previous: PresenceRecord, fix: Fix, now: int): Option<Rejection>
    requires fix.position.Some?
  {
    if now - previous.receivedAt < config.minIntervalMs then Some(Throttled)
    else if ObservedAt(fix, now) <= previous.observedAt then Some(OutOfOrder)
    else
      var seconds := (ObservedAt(fix, now) - previous.observedAt) as real / 1000.0;
      if config.meters(previous.position, fix.position.value) / seconds > config.maxSpeed then Some(ImpossibleJump) else None
  }

  predicate Noted(rejection: Rejection) {
    rejection in {LowAccuracy, MissingAccuracy, MockedLocation, OutOfServiceArea, ImpossibleJump}
  }

  function Refusal(config: Config, index: Index, driver: DriverId, fix: Fix): Option<Rejection> {
    match Validate(config, fix, index.clock)
    case Some(rejection) => Some(rejection)
    case None =>
      match LiveRecord(index, driver)
      case Some(previous) => Implausible(config, previous, fix, index.clock)
      case None => None
  }

  function Noting(index: Index, driver: DriverId, rejection: Rejection): Index {
    match LiveRecord(index, driver)
    case Some(previous) =>
      if Noted(rejection) then
        index.(records := index.records[driver := previous.(lastRejection := Some((rejection, index.clock)))])
      else index
    case None => index
  }

  function WithoutEntry(index: Index, cell: Cell, driver: DriverId): Index {
    if cell in index.buckets then
      index.(buckets := index.buckets[cell := index.buckets[cell].(scores := index.buckets[cell].scores - {driver})])
    else index
  }

  function Storing(config: Config, index: Index, driver: DriverId, position: Position, observedAt: int): Index {
    var cell := config.cellOf(position);
    var moved := match LiveRecord(index, driver)
      case Some(previous) => if previous.cell != cell then WithoutEntry(index, previous.cell, driver) else index
      case None => index;
    var expireAt := index.clock + Retention(config);
    moved.(
      records := moved.records[driver := PresenceRecord(position, observedAt, index.clock, cell, expireAt, None)],
      buckets := moved.buckets[cell := Bucket(Scores(moved, cell)[driver := observedAt], expireAt)])
  }

  function Recording(config: Config, index: Index, driver: DriverId, fix: Fix): Index {
    match Refusal(config, index, driver, fix)
    case Some(rejection) => Noting(index, driver, rejection)
    case None =>
      Storing(config, index, driver, fix.position.value, ObservedAt(fix, index.clock))
  }

  // ----- dropping a driver, reading cells -----

  function Removing(index: Index, driver: DriverId): Index {
    var cleared := match LiveRecord(index, driver)
      case Some(record) => WithoutEntry(index, record.cell, driver)
      case None => index;
    cleared.(records := cleared.records - {driver})
  }

  /** A cell's entries past retention go. */
  function PruneCell(config: Config, index: Index, cell: Cell): Index {
    if cell in index.buckets then
      var bucket := index.buckets[cell];
      var kept := map d | d in bucket.scores && bucket.scores[d] >= index.clock - Retention(config) :: bucket.scores[d];
      index.(buckets := index.buckets[cell := bucket.(scores := kept)])
    else index
  }

  function Pruning(config: Config, index: Index, cells: seq<Cell>): Index {
    if cells == [] then index else PruneCell(config, Pruning(config, index, cells[..|cells| - 1]), cells[|cells| - 1])
  }

  predicate FreshIn(config: Config, index: Index, cell: Cell, driver: DriverId) {
    driver in Scores(index, cell) && Scores(index, cell)[driver] >= index.clock - config.ttlMs
  }

  predicate KeptIn(config: Config, index: Index, cell: Cell, driver: DriverId) {
    driver in Scores(index, cell) && Scores(index, cell)[driver] >= index.clock - Retention(config)
  }

  /** What a reader of the cells is told. */
  ghost predicate ReportedFresh(config: Config, index: Index, cells: seq<Cell>, driver: DriverId) {
    exists cell :: cell in cells && FreshIn(config, index, cell, driver)
  }

  ghost predicate Reported(config: Config, index: Index, cells: seq<Cell>, driver: DriverId) {
    exists cell :: cell in cells && KeptIn(config, index, cell, driver)
  }

  /** What looking at every record would tell: the stored cell is one of these
      and the fix is recent enough to rank. */
  predicate ScannedFresh(config: Config, index: Index, cells: seq<Cell>, driver: DriverId) {
    match LiveRecord(index, driver)
    case Some(record) => record.cell in cells && index.clock - record.observedAt <= config.ttlMs
    case None => false
  }

  // ----- the service -----

  class PresenceIndex {
    const config: Config
    var records: map<DriverId, PresenceRecord>
    var buckets: map<Cell, Bucket>
    var clock: int

    ghost function State(): Index
      reads this
    {
      Index(records, buckets, clock)
    }

    constructor (config: Config, now: int)
      ensures this.config == config && State() == Index(map[], map[], now)
    {
      this.config := config;
      records := map[];
      buckets := map[];
      clock := now;
    }

    method Get(driver: DriverId) returns (record: Option<PresenceRecord>)
      ensures record == LiveRecord(State(), driver)
    {
      record := if driver in records && clock <= records[driver].expireAt then Some(records[driver]) else None;
    }

    method NoteRejection(previous: Option<PresenceRecord>, driver: DriverId, reason: Rejection)
      requires previous == LiveRecord(State(), driver)
      modifies this`records
      ensures State() == Noting(old(State()), driver, reason)
    {
      if previous.None? || !Noted(reason) { return; }
      records := records[driver := previous.value.(lastRejection := Some((reason, clock)))];
    }

    method RemoveEntry(cell: Cell, driver: DriverId)
      modifies this`buckets
      ensures State() == WithoutEntry(old(State()), cell, driver)
    {
      if cell in buckets {
        buckets := buckets[cell := buckets[cell].(scores := buckets[cell].scores - {driver})];
      }
    }

    method Record(driver: DriverId, fix: Fix) returns (answer: Answer)
      modifies this`records, this`buckets
      ensures State() == Recording(config, old(State()), driver, fix)
      ensures answer == match Refusal(config, old(State()), driver, fix)
              case Some(rejection) => Refused(rejection)
              case None => Kept(config.cellOf(fix.position.value))
    {
      var previous := Get(driver);
      var rejection := Validate(config, fix, clock);
      if rejection.Some? {
        NoteRejection(previous, driver, rejection.value);
        return Refused(rejection.value);
      }
      var observedAt := ObservedAt(fix, clock);
      var position := fix.position.value;
      if previous.Some? {
        if clock - previous.value.receivedAt < config.minIntervalMs { return Refused(Throttled); }
        if observedAt <= previous.value.observedAt { return Refused(OutOfOrder); }
        var seconds := (observedAt - previous.value.observedAt) as real / 1000.0;
        if config.meters(previous.value.position, position) / seconds > config.maxSpeed {
          NoteRejection(previous, driver, ImpossibleJump);
          return Refused(ImpossibleJump);
        }
      }
      var cell := config.cellOf(position);
      if previous.Some? && previous.value.cell != cell {
        RemoveEntry(previous.value.cell, driver);
      }
      var expireAt := clock + Retention(config);
      records := records[driver := PresenceRecord(position, observedAt, clock, cell, expireAt, None)];
      var scores := if cell in buckets && clock <= buckets[cell].expireAt then buckets[cell].scores else map[];
      buckets := buckets[cell := Bucket(scores[driver := observedAt], expireAt)];
      answer := Kept(cell);
    }

    method Remove(driver: DriverId)
      modifies this`records, this`buckets
      ensures State() == Removing(old(State()), driver)
    {
      var record := Get(driver);
      records := records - {driver};
      if record.Some? {
        RemoveEntry(record.value.cell, driver);
      }
    }

    method PruneAndRead(cell: Cell) returns (kept: map<DriverId, int>)
      modifies this`buckets
      ensures State() == PruneCell(config, old(State()), cell)
      ensures kept == KeptScores(config, old(State()), cell)
    {
      kept := map[];
      if cell in buckets {
        var bucket := buckets[cell];
        var scores := map d | d in bucket.scores && bucket.scores[d] >= clock - Retention(config) :: bucket.scores[d];
        buckets := buckets[cell := bucket.(scores := scores)];
        if clock <= bucket.expireAt { kept := scores; }
      }
    }

    method MembersOfCells(cells: seq<Cell>) returns (recent: set<DriverId>, stale: set<DriverId>)
      modifies this`buckets
      ensures State() == Pruning(config, old(State()), cells)
      ensures forall d :: d in recent <==> ReportedFresh(config, old(State()), cells, d)
      ensures forall d :: d in stale <==> Reported(config, old(State()), cells, d) && d !in recent
    {
      recent, stale := {}, {};
      ghost var start := State();
      var i := 0;
      while i < |cells|
        invariant 0 <= i <= |cells|
        invariant State() == Pruning(config, start, cells[..i])
        invariant recent == FreshDrivers(config, start, cells[..i])
        invariant recent + stale == KeptDrivers(config, start, cells[..i])
      {
        PruningKeeps(config, start, cells[..i], cells[i]);
        assert cells[..i + 1][..i] == cells[..i];
        var kept := PruneAndRead(cells[i]);
        recent := recent + set d | d in kept && kept[d] >= clock - config.ttlMs;
        stale := stale + set d | d in kept && kept[d] < clock - config.ttlMs;
        i := i + 1;
      }
      assert cells[..i] == cells;
      DriversAreReported(config, start, cells);
      stale := stale - recent;
    }
  }

  function KeptScores(config: Config, index: Index, cell: Cell): map<DriverId, int> {
    map d | d in Scores(index, cell) && Scores(index, cell)[d] >= index.clock - Retention(config) :: Scores(index, cell)[d]
  }

  function KeptDrivers(config: Config, index: Index, cells: seq<Cell>): set<DriverId> {
    if cells == [] then {} else KeptDrivers(config, index, cells[..|cells| - 1]) + KeptScores(config, index, cells[|cells| - 1]).Keys
  }

  function FreshDrivers(config: Config, index: Index, cells: seq<Cell>): set<DriverId> {
    if cells == [] then {}
    else
      var kept := KeptScores(config, index, cells[|cells| - 1]);
      FreshDrivers(config, index, cells[..|cells| - 1]) + set d | d in kept && kept[d] >= index.clock - config.ttlMs
  }

  lemma {:induction false} DriversAreReported(config: Config, index: Index, cells: seq<Cell>)
    ensures forall d :: d in FreshDrivers(config, index, cells) <==> ReportedFresh(config, index, cells, d)
    ensures forall d :: d in KeptDrivers(config, index, cells) <==> Reported(config, index, cells, d)
  {
    if cells != [] {
      var before, cell := cells[..|cells| - 1], cells[|cells| - 1];
      DriversAreReported(config, index, before);
      assert cells == before + [cell];
      assert forall d :: ReportedFresh(config, index, cells, d) <==> ReportedFresh(config, index, before, d) || FreshIn(config, index, cell, d);
      assert forall d :: Reported(config, index, cells, d) <==> Reported(config, index, before, d) || KeptIn(config, index, cell, d);
    }
  }

  /** Pruning some cells first changes nothing about what another read says. */
  lemma {:induction false} PruningKeeps(config: Config, index: Index, cells: seq<Cell>, cell: Cell)
    ensures var pruned := Pruning(config, index, cells);
            && pruned.clock == index.clock && pruned.records == index.records
            && KeptScores(config, pruned, cell) == KeptScores(config, index, cell)
            && (forall c :: c in pruned.buckets <==> c in index.buckets)
            && (forall c :: c in index.buckets ==> pruned.buckets[c].expireAt == index.buckets[c].expireAt)
  {
    if cells != [] {
      PruningKeeps(config, index, cells[..|cells| - 1], cell);
    }
  }
}
