/** What one sweep that ends decides, in terms of the rows it reads. */
module SweepOutcomes {
  import opened Tables
  import opened Numbers
  import opened Scheduler
  import opened SchedulerRuns

  const HALF_HOUR := 30 * 60 * 1000

  predicate OfferOpen(db: Db) { exists f :: 0 <= f < |db.offers| && db.offers[f].status.Pending? }

  /** It needs a driver by now: immediate, or scheduled within half an hour. */
  predicate NeedsNow(db: Db, o: OrderId, now: int) {
    && NeedsDriver(db, o)
    && match db.orders[o].service
       case Immediate => true
       case Scheduled(None) => false
       case Scheduled(Some(at)) => at - HALF_HOUR <= now
  }

  /** It will need one from half an hour before its time. */
  predicate NeedsLater(db: Db, o: OrderId, now: int, from: int) {
    NeedsDriver(db, o) && db.orders[o].service == Scheduled(Some(from + HALF_HOUR)) && from > now
  }

  /** The first of those times. */
  ghost predicate FirstNeed(db: Db, now: int, from: int) {
    && (exists o :: NeedsLater(db, o, now, from))
    && (forall o, other :: NeedsLater(db, o, now, other) ==> from <= other)
  }

  ghost predicate Stays(db: Db, auto: bool, now: int) {
    OfferOpen(db) || (auto && exists o :: NeedsNow(db, o, now))
  }

  lemma NeedsIffWaits(db: Db, o: OrderId, now: int, from: int)
    ensures NeedsNow(db, o, now) <==> WaitingRow(db, o) && DueNow(db.orders[o], now)
    ensures NeedsLater(db, o, now, from) <==> Later(db, o, now) && from == Opening(db, o)
  {
    NeedsDriverIffWaiting(db, o);
  }

  lemma StaysIff(db: Db, auto: bool, now: int)
    ensures Stays(db, auto, now) <==> !NothingDue(db, auto, now)
  {
    forall o: OrderId ensures NeedsNow(db, o, now) <==> WaitingRow(db, o) && DueNow(db.orders[o], now) {
      NeedsIffWaits(db, o, now, 0);
    }
  }

  lemma FirstIff(db: Db, now: int, from: int)
    ensures FirstOpening(db, now, |db.orders|) == Some(from) <==> FirstNeed(db, now, from)
  {
    FirstIsEarliest(db, now, |db.orders|);
    forall o: OrderId, other ensures NeedsLater(db, o, now, other) <==> Later(db, o, now) && other == Opening(db, o) {
      NeedsIffWaits(db, o, now, other);
    }
    var first := FirstOpening(db, now, |db.orders|);
    if first.Some? {
      var o: OrderId :| o < |db.orders| && Later(db, o, now) && Opening(db, o) == first.value;
      assert NeedsLater(db, o, now, first.value);
    }
  }

  /** While an offer is open, or in automatic mode an order needs a driver by now, a
      sweep leaves everything as it is. */
  lemma BusySweepStays(agenda: Agenda, db: Db, auto: bool, now: int, clock: int, queued: bool, redis: bool)
    requires Stays(db, auto, now)
    ensures AfterSweep(agenda, db, auto, now, clock, queued, redis) == agenda
  {
    StaysIff(db, auto, now);
  }

  /** Otherwise it disarms. */
  lemma IdleSweepDisarms(agenda: Agenda, db: Db, auto: bool, now: int, clock: int, queued: bool, redis: bool)
    requires !Stays(db, auto, now)
    ensures var next := AfterSweep(agenda, db, auto, now, clock, queued, redis);
            && next.armed == (agenda.armed && !redis) && next.failed == agenda.failed
            && (!auto || (forall from :: !FirstNeed(db, now, from)) ==> next.jobs == agenda.jobs)
  {
    StaysIff(db, auto, now);
    var first := FirstOpening(db, now, |db.orders|);
    if first.Some? { FirstIff(db, now, first.value); }
  }

  /** And in automatic mode asks for a wake-up when the next order will need a driver,
      unless the minute of that has one. */
  lemma IdleSweepAsks(agenda: Agenda, db: Db, now: int, clock: int, queued: bool, redis: bool, from: int)
    requires !Stays(db, true, now) && FirstNeed(db, now, from)
    ensures var minute := from / (60 * 1000);
            AfterSweep(agenda, db, true, now, clock, queued, redis).jobs ==
            if queued && minute !in agenda.jobs && minute !in agenda.failed
            then agenda.jobs[minute := Job(from, Max(from, clock))] else agenda.jobs
  {
    StaysIff(db, true, now);
    FirstIff(db, now, from);
  }

  // ----- wake-ups -----

  /** A wake-up is queued for its minute, to fire at its time or at once, unless the
      minute has one or keeps a failed one. */
  lemma WakeIsQueued(agenda: Agenda, at: int, clock: int)
    ensures var minute := at / (60 * 1000);
            Woken(agenda, at, clock, true) ==
            if minute in agenda.jobs || minute in agenda.failed then agenda else agenda.(jobs := agenda.jobs[minute := Job(at, Max(at, clock))])
    ensures Woken(agenda, at, clock, false) == agenda
  {
  }

  /** One that fires leaves the queue; it arms the sweep when it completes, and is
      kept as failed when it does not. */
  lemma WakeFires(agenda: Agenda, slot: int, completed: bool, redis: bool)
    ensures var next := Fired(agenda, slot, completed, redis);
            && next.jobs == agenda.jobs - {slot}
            && next.armed == (agenda.armed || (completed && redis))
            && next.failed == if completed then agenda.failed else agenda.failed + {slot}
  {
  }
}
