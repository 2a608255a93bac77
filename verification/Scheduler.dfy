/**
 When the dispatch sweep may stop looking at the database: the armed flag, the
 delayed wake-ups keyed by minute slot, and the decision taken after a sweep.
 */
module Scheduler {
  import opened Tables
  import opened Numbers

  const SLOT_MS := 60000

  /** A delayed job: the time it was asked for and the time it fires. */
  datatype Job = Job(at: int, fireAt: int)

  /** The armed flag, the wake-ups still to fire, and the slots whose job failed
      and is retained. A job that completed is gone. */
  datatype Agenda = Agenda(armed: bool, jobs: map<int, Job>, failed: set<int>)

  function Slot(at: int): int { at / SLOT_MS }

  /** Paid, driverless orders with no open offer. */
  predicate WaitingRow(db: Db, o: OrderId) {
    && o < |db.orders|
    && db.orders[o].status.Requested?
    && Dispatchable(db.orders[o].paymentStatus)
    && !HasLiveAssignment(db, o)
    && !HasPendingOffer(db, o)
  }

  predicate Timed(order: Order) { order.service.Scheduled? && order.service.at.Some? }

  /** Waiting, and scheduled beyond the lead window: it opens this long before. */
  predicate Later(db: Db, o: OrderId, now: int) {
    WaitingRow(db, o) && Timed(db.orders[o]) && Opening(db, o) > now
  }

  function Opening(db: Db, o: OrderId): int
    requires o < |db.orders| && Timed(db.orders[o])
  {
    db.orders[o].service.at.value - SCHEDULED_LEAD_MS
  }

  /** The first opening among the first `n` orders scheduled further ahead. */
  function FirstOpening(db: Db, now: int, n: nat): Option<int>
    requires n <= |db.orders|
  {
    if n == 0 then None
    else
      var before := FirstOpening(db, now, n - 1);
      if Later(db, n - 1, now) && (before.None? || Opening(db, n - 1) < before.value) then Some(Opening(db, n - 1)) else before
  }

  /** What a sweep that stops leaves to be done. */
  ghost predicate NothingDue(db: Db, auto: bool, now: int) {
    && (forall f :: 0 <= f < |db.offers| ==> !db.offers[f].status.Pending?)
    && (auto ==> forall o: OrderId :: WaitingRow(db, o) ==> !DueNow(db.orders[o], now))
  }

  /** The queue after a wake-up is asked for. A slot that has a job, waiting or
      retained after a failure, takes no second one. */
  function Woken(agenda: Agenda, at: int, clock: int, queued: bool): Agenda {
    if !queued || Slot(at) in agenda.jobs || Slot(at) in agenda.failed then agenda
    else agenda.(jobs := agenda.jobs[Slot(at) := Job(at, clock + Max(0, at - clock))])
  }

  /** The queue once the wake-up at the next opening is asked for. `now` was read
      when the sweep started, `clock` when the wake-up is added. */
  function AfterAsking(agenda: Agenda, db: Db, auto: bool, now: int, clock: int, queued: bool): Agenda {
    var first := if auto then FirstOpening(db, now, |db.orders|) else None;
    if first.Some? then Woken(agenda, first.value, clock, queued) else agenda
  }

  function Disarmed(agenda: Agenda, redis: bool): Agenda { if redis then agenda.(armed := false) else agenda }

  /** What the decision after a sweep leaves, with nothing in between. */
  ghost function AfterSweep(agenda: Agenda, db: Db, auto: bool, now: int, clock: int, queued: bool, redis: bool): Agenda {
    if NothingDue(db, auto, now) then Disarmed(AfterAsking(agenda, db, auto, now, clock, queued), redis) else agenda
  }

  /** What a wake-up that fires leaves. Its handler only arms the sweep. */
  function Fired(agenda: Agenda, slot: int, completed: bool, redis: bool): Agenda {
    var jobs := map s | s in agenda.jobs && s != slot :: agenda.jobs[s];
    if completed then Agenda(agenda.armed || redis, jobs, agenda.failed)
    else Agenda(agenda.armed, jobs, agenda.failed + {slot})
  }

  class OfferScheduler {
    var armed: bool
    var jobs: map<int, Job>
    var failed: set<int>

    constructor ()
      ensures State() == Agenda(true, map[], {})
    {
      armed, jobs, failed := true, map[], {};
    }

    ghost function State(): Agenda
      reads this
    {
      Agenda(armed, jobs, failed)
    }

    method Arm(redis: bool)
      modifies this`armed
      ensures armed == (redis || old(armed))
    {
      if redis { armed := true; }
    }

    method Disarm(redis: bool)
      modifies this`armed
      ensures armed == (!redis && old(armed))
    {
      if redis { armed := false; }
    }

    /** Re-arms the sweep at `at`. */
    method ScheduleWake(at: int, clock: int, queued: bool)
      modifies this`jobs
      ensures State() == Woken(old(State()), at, clock, queued)
    {
      if !queued { return; }
      var delay := Max(0, at - clock);
      if Slot(at) !in jobs && Slot(at) !in failed { jobs := jobs[Slot(at) := Job(at, clock + delay)]; }
    }

    /** The worker takes the wake-up of a slot. When it cannot complete it, the
        job is retained among the failed ones. */
    method ProcessWake(slot: int, completed: bool, redis: bool)
      modifies this
      ensures State() == Fired(old(State()), slot, completed, redis)
    {
      jobs := map s | s in jobs && s != slot :: jobs[s];
      if completed { Arm(redis); } else { failed := failed + {slot}; }
    }
  }

  method CountPending(db: Db) returns (count: nat)
    ensures count == 0 <==> forall f :: 0 <= f < |db.offers| ==> !db.offers[f].status.Pending?
  {
    count := 0;
    for f := 0 to |db.offers|
      invariant count == 0 <==> forall g :: 0 <= g < f ==> !db.offers[g].status.Pending?
    {
      if db.offers[f].status.Pending? { count := count + 1; }
    }
  }

  method FindDue(db: Db, now: int) returns (due: Option<OrderId>)
    ensures due.Some? ==> WaitingRow(db, due.value) && DueNow(db.orders[due.value], now)
    ensures due.None? ==> forall o: OrderId :: WaitingRow(db, o) ==> !DueNow(db.orders[o], now)
  {
    due := None;
    for o := 0 to |db.orders|
      invariant due.None?
      invariant forall p: OrderId :: p < o && WaitingRow(db, p) ==> !DueNow(db.orders[p], now)
    {
      if WaitingRow(db, o) && DueNow(db.orders[o], now) { return Some(o); }
    }
  }

  method NextOpening(db: Db, now: int) returns (first: Option<int>)
    ensures first == FirstOpening(db, now, |db.orders|)
  {
    first := None;
    for o := 0 to |db.orders|
      invariant first == FirstOpening(db, now, o)
    {
      if Later(db, o, now) && (first.None? || Opening(db, o) < first.value) { first := Some(Opening(db, o)); }
    }
  }

  /** It is the earliest opening of an order scheduled further ahead. */
  lemma {:induction false} FirstIsEarliest(db: Db, now: int, n: nat)
    requires n <= |db.orders|
    ensures FirstOpening(db, now, n).None? <==> forall o: OrderId :: o < n ==> !Later(db, o, now)
    ensures FirstOpening(db, now, n).Some? ==>
              && (exists o: OrderId :: o < n && Later(db, o, now) && Opening(db, o) == FirstOpening(db, now, n).value)
              && (forall o: OrderId :: o < n && Later(db, o, now) ==> FirstOpening(db, now, n).value <= Opening(db, o))
  {
    if n > 0 { FirstIsEarliest(db, now, n - 1); }
  }

  /** Disarms only when nothing is pending or due, after asking for a wake-up at
      the next opening. */
  method SettleSweep(scheduler: OfferScheduler, db: Db, auto: bool, now: int, clock: int, queued: bool, redis: bool)
    modifies scheduler
    ensures scheduler.State() == AfterSweep(old(scheduler.State()), db, auto, now, clock, queued, redis)
  {
    var pending := CountPending(db);
    if pending > 0 { return; }
    if auto {
      var due := FindDue(db, now);
      if due.Some? { return; }
      var first := NextOpening(db, now);
      if first.Some? { scheduler.ScheduleWake(first.value, clock, queued); }
    }
    scheduler.Disarm(redis);
  }
}
