/**
 The dispatch sweep over time: its reads and its disarming, wake-ups that are asked
 for and fire, rows that change and the clock moving on, in any order. The worker
 is punctual: time does not pass a wake-up that is due. Automatic dispatch is on.
 */
module SchedulerRuns {
  import opened Tables
  import opened Numbers
  import opened Scheduler

  /** A sweep that has read that nothing is left to do, at the time it read, and
      whether the sweep was left alone since: nothing has armed it. */
  datatype Decision = Decision(now: int, quiet: bool)

  datatype World = World(db: Db, agenda: Agenda, clock: int, decision: Option<Decision>)

  /** `lag` is how long ago the sweep read the time it decides by. */
  datatype Event =
    | Decide(lag: nat, queued: bool)
    | Disarm(redis: bool)
    | Fire(slot: int, completed: bool, redis: bool)
    | Forget(slot: int)
    | Ask(at: int, queued: bool)
    | Change(db: Db, arms: bool)
    | Wait(ms: nat)

  predicate IsDue(world: World, slot: int) {
    slot in world.agenda.jobs && world.agenda.jobs[slot].fireAt <= world.clock
  }

  predicate NoneOverdue(agenda: Agenda, until: int) {
    forall slot :: slot in agenda.jobs ==> until <= agenda.jobs[slot].fireAt
  }

  /** A pending decision once the sweep is armed, or not. */
  function Heard(decision: Option<Decision>, arms: bool): Option<Decision> {
    if decision.Some? && arms then Some(decision.value.(quiet := false)) else decision
  }

  /** An unarmed sweep looks at nothing, and a wake-up fires when it is due. */
  ghost function Apply(world: World, event: Event): World {
    match event
    case Decide(lag, queued) =>
      if world.agenda.armed && world.decision.None? && NothingDue(world.db, true, world.clock - lag)
      then world.(agenda := AfterAsking(world.agenda, world.db, true, world.clock - lag, world.clock, queued),
                  decision := Some(Decision(world.clock - lag, true)))
      else world
    case Disarm(redis) =>
      if world.decision.Some? then world.(agenda := Disarmed(world.agenda, redis), decision := None) else world
    case Fire(slot, completed, redis) =>
      if IsDue(world, slot)
      then world.(agenda := Fired(world.agenda, slot, completed, redis), decision := Heard(world.decision, completed && redis)) else world
    case Forget(slot) => world.(agenda := world.agenda.(failed := world.agenda.failed - {slot}))
    case Ask(at, queued) => world.(agenda := Woken(world.agenda, at, world.clock, queued))
    case Change(db, arms) =>
      world.(db := db, agenda := world.agenda.(armed := world.agenda.armed || arms), decision := Heard(world.decision, arms))
    case Wait(ms) => if NoneOverdue(world.agenda, world.clock + ms) then world.(clock := world.clock + ms) else world
  }

  ghost function Play(start: World, events: seq<Event>): World {
    if events == [] then start else Apply(Play(start, events[..|events| - 1]), events[|events| - 1])
  }

  function Start(db: Db, clock: int): World { World(db, Agenda(true, map[], {}), clock, None) }

  // ----- the queue -----

  /** Each wake-up was asked for a time in its slot, fires no earlier, and is
      still ahead. */
  ghost predicate QueueSound(agenda: Agenda, clock: int) {
    forall slot :: slot in agenda.jobs ==>
      && Slot(agenda.jobs[slot].at) == slot
      && agenda.jobs[slot].at <= agenda.jobs[slot].fireAt
      && clock <= agenda.jobs[slot].fireAt <= Max(agenda.jobs[slot].at, clock)
  }

  lemma ApplyKeepsQueue(world: World, event: Event)
    requires QueueSound(world.agenda, world.clock)
    ensures var next := Apply(world, event); QueueSound(next.agenda, next.clock)
  {
  }

  lemma {:induction false} PlayKeepsQueue(start: World, events: seq<Event>)
    requires QueueSound(start.agenda, start.clock)
    ensures var world := Play(start, events); QueueSound(world.agenda, world.clock)
  {
    if events != [] {
      PlayKeepsQueue(start, events[..|events| - 1]);
      ApplyKeepsQueue(Play(start, events[..|events| - 1]), events[|events| - 1]);
    }
  }

  // ----- the promise -----

  /** A wake-up in the opening's own minute slot or an earlier one, still to fire,
      and less than a slot after the opening. */
  ghost predicate Covered(world: World, opening: int) {
    exists slot :: slot in world.agenda.jobs && slot <= Slot(opening)
                   && world.clock <= world.agenda.jobs[slot].fireAt < opening + SLOT_MS
  }

  /** The sweep only rests when nothing is open, nobody waits for a driver now, and
      everybody who will has a wake-up. */
  ghost predicate RestsSafely(world: World) {
    || world.agenda.armed
    || ((forall f :: 0 <= f < |world.db.offers| ==> !world.db.offers[f].status.Pending?)
        && (forall o: OrderId :: WaitingRow(world.db, o) ==>
              && !world.db.orders[o].service.Immediate?
              && (Timed(world.db.orders[o]) ==> Covered(world, Opening(world.db, o)))))
  }

  /** What it means: less than a slot after an opening the sweep is armed. */
  lemma SafeIsPunctual(world: World, o: OrderId)
    requires RestsSafely(world) && WaitingRow(world.db, o) && Timed(world.db.orders[o])
    requires world.clock >= Opening(world.db, o) + SLOT_MS
    ensures world.agenda.armed
  {
  }

  lemma SlotCovers(world: World, slot: int, first: int, opening: int)
    requires QueueSound(world.agenda, world.clock) && slot in world.agenda.jobs
    requires slot <= Slot(first) && first <= opening && world.clock < opening + SLOT_MS
    ensures Covered(world, opening)
  {
    var job := world.agenda.jobs[slot];
    assert job.at < SLOT_MS * (slot + 1) && SLOT_MS * (slot + 1) <= SLOT_MS * (Slot(first) + 1) <= first + SLOT_MS;
    assert Slot(first) <= Slot(opening);
  }

  // ----- each event, exactly -----

  /** Some wake-up is left at or before the slot of the next opening. */
  ghost predicate Wakes(agenda: Agenda, first: int) {
    exists slot :: slot in agenda.jobs && slot <= Slot(first)
  }

  /** The queue takes the wake-up at the next opening, or already has one early
      enough. A failed job retained for that slot takes its place. */
  ghost predicate TakesWake(agenda: Agenda, first: int, queued: bool) {
    (queued && Slot(first) !in agenda.failed) || Wakes(agenda, first)
  }

  lemma WokenWakes(agenda: Agenda, first: int, clock: int, queued: bool)
    ensures Wakes(Woken(agenda, first, clock, queued), first) <==> TakesWake(agenda, first, queued)
  {
    var woken := Woken(agenda, first, clock, queued);
    if TakesWake(agenda, first, queued) {
      if queued && Slot(first) !in agenda.failed {
        assert Slot(first) in woken.jobs;
      } else {
        var slot :| slot in agenda.jobs && slot <= Slot(first);
        assert slot in woken.jobs;
      }
    }
  }

  lemma SafeWakesFirst(world: World, now: int, first: int)
    requires RestsSafely(world) && !world.agenda.armed
    requires exists o: OrderId :: Later(world.db, o, now) && Opening(world.db, o) == first
    ensures Wakes(world.agenda, first)
  {
    var o: OrderId :| Later(world.db, o, now) && Opening(world.db, o) == first;
    assert Covered(world, first);
  }

  /** Once the sweep has stopped, everybody is covered exactly when a wake-up is
      left at or before the slot of the next opening. */
  lemma StoppedIsSafeIff(world: World, now: int)
    requires QueueSound(world.agenda, world.clock) && !world.agenda.armed
    requires NothingDue(world.db, true, now) && now <= world.clock <= now + SLOT_MS
    ensures var first := FirstOpening(world.db, now, |world.db.orders|);
            RestsSafely(world) <==> first.None? || Wakes(world.agenda, first.value)
  {
    var first := FirstOpening(world.db, now, |world.db.orders|);
    FirstIsEarliest(world.db, now, |world.db.orders|);
    forall o: OrderId | WaitingRow(world.db, o)
      ensures !world.db.orders[o].service.Immediate? && (Timed(world.db.orders[o]) ==> Later(world.db, o, now))
    {
      assert !DueNow(world.db.orders[o], now);
    }
    if first.Some? {
      if Wakes(world.agenda, first.value) {
        var slot :| slot in world.agenda.jobs && slot <= Slot(first.value);
        forall o: OrderId | WaitingRow(world.db, o) && Timed(world.db.orders[o]) ensures Covered(world, Opening(world.db, o)) {
          SlotCovers(world, slot, first.value, Opening(world.db, o));
        }
      }
      if RestsSafely(world) { SafeWakesFirst(world, now, first.value); }
    }
  }

  /** The decision of a sweep, taken with nothing in between, is its reads and then
      the disarming. */
  lemma SweepIsBoth(world: World, lag: nat, queued: bool, redis: bool)
    requires world.agenda.armed && world.decision.None?
    ensures var next := Apply(Apply(world, Decide(lag, queued)), Disarm(redis));
            next == world.(agenda := AfterSweep(world.agenda, world.db, true, world.clock - lag, world.clock, queued, redis))
  {
  }

  /** A sweep that stops at once keeps the promise if and only if nobody is
      scheduled ahead or the queue takes the wake-up. */
  lemma SweepIsSafeIff(world: World, lag: nat, queued: bool)
    requires QueueSound(world.agenda, world.clock) && world.agenda.armed && world.decision.None? && lag <= SLOT_MS
    requires NothingDue(world.db, true, world.clock - lag)
    ensures var first := FirstOpening(world.db, world.clock - lag, |world.db.orders|);
            RestsSafely(Apply(Apply(world, Decide(lag, queued)), Disarm(true)))
            <==> first.None? || TakesWake(world.agenda, first.value, queued)
  {
    var first := FirstOpening(world.db, world.clock - lag, |world.db.orders|);
    var decided := Apply(world, Decide(lag, queued));
    ApplyKeepsQueue(world, Decide(lag, queued));
    ApplyKeepsQueue(decided, Disarm(true));
    StoppedIsSafeIff(Apply(decided, Disarm(true)), world.clock - lag);
    if first.Some? { WokenWakes(world.agenda, first.value, world.clock, queued); }
  }

  lemma RestingHasNothingDue(world: World)
    requires RestsSafely(world) && !world.agenda.armed
    ensures NothingDue(world.db, true, world.clock - SLOT_MS)
  {
    forall o: OrderId | WaitingRow(world.db, o) ensures !DueNow(world.db.orders[o], world.clock - SLOT_MS) {
      if Timed(world.db.orders[o]) { assert Covered(world, Opening(world.db, o)); }
    }
  }

  /** The disarming, whatever landed since the reads, keeps the promise if and only
      if by now nothing is open, nobody waits whose time came more than a slot ago,
      and a wake-up is left at or before the slot of the next opening. */
  lemma DisarmIsSafeIff(world: World)
    requires QueueSound(world.agenda, world.clock) && world.decision.Some?
    ensures var now := world.clock - SLOT_MS;
            var first := FirstOpening(world.db, now, |world.db.orders|);
            RestsSafely(Apply(world, Disarm(true)))
            <==> NothingDue(world.db, true, now) && (first.None? || Wakes(world.agenda, first.value))
  {
    var next := Apply(world, Disarm(true));
    ApplyKeepsQueue(world, Disarm(true));
    if NothingDue(world.db, true, world.clock - SLOT_MS) {
      StoppedIsSafeIff(next, world.clock - SLOT_MS);
    } else if RestsSafely(next) {
      RestingHasNothingDue(next);
    }
  }

  /** A wake-up that does not arm the sweep loses the next opening unless another
      is left at or before its slot. */
  lemma LostWakeIsSafeIff(world: World, slot: int, completed: bool)
    requires QueueSound(world.agenda, world.clock) && !world.agenda.armed && RestsSafely(world) && IsDue(world, slot)
    ensures var first := FirstOpening(world.db, world.clock - SLOT_MS, |world.db.orders|);
            var next := Apply(world, Fire(slot, completed, false));
            RestsSafely(next) <==> first.None? || Wakes(next.agenda, first.value)
  {
    ApplyKeepsQueue(world, Fire(slot, completed, false));
    RestingHasNothingDue(world);
    StoppedIsSafeIff(Apply(world, Fire(slot, completed, false)), world.clock - SLOT_MS);
  }

  /** Nobody waits, and nothing is open, who did not before. */
  ghost predicate BringsNoWork(db: Db, next: Db) {
    && (forall f :: 0 <= f < |next.offers| && next.offers[f].status.Pending? ==> f < |db.offers| && db.offers[f].status.Pending?)
    && (forall o: OrderId :: WaitingRow(next, o) ==> WaitingRow(db, o) && next.orders[o].service == db.orders[o].service)
  }

  /** Steps that lose nothing: the queue and the store answer, no job fails, a
      change that brings work arms the sweep, and no arming lands between the reads
      of a sweep and its disarming. */
  ghost predicate Works(world: World, event: Event) {
    match event
    case Decide(lag, queued) => lag <= SLOT_MS && queued
    case Disarm(redis) => world.decision.Some? ==> world.decision.value.quiet && world.clock <= world.decision.value.now + SLOT_MS
    case Fire(_, completed, redis) => completed && redis
    case Forget(_) => true
    case Ask(_, _) => true
    case Change(db, arms) => arms || BringsNoWork(world.db, db)
    case Wait(_) => true
  }

  /** What a sweep that was left alone read still holds. */
  ghost predicate DecisionHolds(world: World) {
    world.decision.Some? && world.decision.value.quiet ==>
      var now := world.decision.value.now;
      var first := FirstOpening(world.db, now, |world.db.orders|);
      && now <= world.clock && NothingDue(world.db, true, now)
      && (first.None? || Wakes(world.agenda, first.value))
  }

  lemma DecideKeepsDecision(world: World, lag: nat, queued: bool)
    requires world.agenda.failed == {} && DecisionHolds(world) && queued
    ensures DecisionHolds(Apply(world, Decide(lag, queued)))
  {
    var first := FirstOpening(world.db, world.clock - lag, |world.db.orders|);
    if first.Some? { WokenWakes(world.agenda, first.value, world.clock, queued); }
  }

  lemma AskKeepsDecision(world: World, at: int, queued: bool)
    requires DecisionHolds(world)
    ensures DecisionHolds(Apply(world, Ask(at, queued)))
  {
    var next := Apply(world, Ask(at, queued));
    assert forall slot :: slot in world.agenda.jobs ==> slot in next.agenda.jobs;
  }

  lemma NoWorkLater(db: Db, next: Db, now: int)
    requires BringsNoWork(db, next) && NothingDue(db, true, now)
    ensures NothingDue(next, true, now)
    ensures FirstOpening(next, now, |next.orders|).Some? ==>
              FirstOpening(db, now, |db.orders|).Some?
              && FirstOpening(db, now, |db.orders|).value <= FirstOpening(next, now, |next.orders|).value
  {
    FirstIsEarliest(db, now, |db.orders|);
    FirstIsEarliest(next, now, |next.orders|);
    forall o: OrderId | Later(next, o, now) ensures Later(db, o, now) && Opening(db, o) == Opening(next, o) {
    }
  }

  lemma ChangeKeepsDecision(world: World, db: Db, arms: bool)
    requires DecisionHolds(world) && (arms || BringsNoWork(world.db, db))
    ensures DecisionHolds(Apply(world, Change(db, arms)))
  {
    if !arms && world.decision.Some? && world.decision.value.quiet { NoWorkLater(world.db, db, world.decision.value.now); }
  }

  lemma DecisionKept(world: World, event: Event)
    requires world.agenda.failed == {} && DecisionHolds(world) && Works(world, event)
    ensures DecisionHolds(Apply(world, event))
  {
    match event
    case Decide(lag, queued) => DecideKeepsDecision(world, lag, queued);
    case Ask(at, queued) => AskKeepsDecision(world, at, queued);
    case Change(db, arms) => ChangeKeepsDecision(world, db, arms);
    case Disarm(_) =>
    case Fire(_, _, _) =>
    case Forget(_) =>
    case Wait(_) =>
  }

  lemma WaitKeeps(world: World, ms: nat)
    requires QueueSound(world.agenda, world.clock) && RestsSafely(world)
    ensures RestsSafely(Apply(world, Wait(ms)))
  {
    var next := Apply(world, Wait(ms));
    if !world.agenda.armed {
      forall o: OrderId | WaitingRow(next.db, o) && Timed(next.db.orders[o]) ensures Covered(next, Opening(next.db, o)) {
        assert Covered(world, Opening(world.db, o));
        var slot :| slot in world.agenda.jobs && slot <= Slot(Opening(world.db, o))
                    && world.clock <= world.agenda.jobs[slot].fireAt < Opening(world.db, o) + SLOT_MS;
        assert slot in next.agenda.jobs;
      }
    }
  }

  lemma AskKeeps(world: World, at: int, queued: bool)
    requires RestsSafely(world)
    ensures RestsSafely(Apply(world, Ask(at, queued)))
  {
    var next := Apply(world, Ask(at, queued));
    if !world.agenda.armed {
      forall o: OrderId | WaitingRow(next.db, o) && Timed(next.db.orders[o]) ensures Covered(next, Opening(next.db, o)) {
        assert Covered(world, Opening(world.db, o));
        var slot :| slot in world.agenda.jobs && slot <= Slot(Opening(world.db, o))
                    && world.clock <= world.agenda.jobs[slot].fireAt < Opening(world.db, o) + SLOT_MS;
        assert slot in next.agenda.jobs;
      }
    }
  }

  lemma DecideKeeps(world: World, lag: nat, queued: bool)
    requires RestsSafely(world)
    ensures RestsSafely(Apply(world, Decide(lag, queued)))
  {
  }

  lemma DisarmKeeps(world: World, redis: bool)
    requires QueueSound(world.agenda, world.clock) && RestsSafely(world) && DecisionHolds(world) && Works(world, Disarm(redis))
    ensures RestsSafely(Apply(world, Disarm(redis)))
  {
    if world.decision.Some? && redis {
      ApplyKeepsQueue(world, Disarm(redis));
      StoppedIsSafeIff(Apply(world, Disarm(redis)), world.decision.value.now);
    }
  }

  lemma WorkingStepKeeps(world: World, event: Event)
    requires QueueSound(world.agenda, world.clock) && world.agenda.failed == {}
    requires RestsSafely(world) && DecisionHolds(world) && Works(world, event)
    ensures RestsSafely(Apply(world, event)) && Apply(world, event).agenda.failed == {}
  {
    match event
    case Decide(lag, queued) => DecideKeeps(world, lag, queued);
    case Disarm(redis) => DisarmKeeps(world, redis);
    case Wait(ms) => WaitKeeps(world, ms);
    case Ask(at, queued) => AskKeeps(world, at, queued);
    case Fire(slot, completed, redis) =>
    case Forget(slot) => assert Apply(world, event) == world;
    case Change(db, arms) => ChangeKeeps(world, db, arms);
  }

  lemma ChangeKeeps(world: World, db: Db, arms: bool)
    requires RestsSafely(world) && (arms || BringsNoWork(world.db, db))
    ensures RestsSafely(Apply(world, Change(db, arms)))
  {
    var next := Apply(world, Change(db, arms));
    if !next.agenda.armed {
      forall o: OrderId | WaitingRow(db, o) && Timed(db.orders[o]) ensures Covered(next, Opening(db, o)) {
        assert Covered(world, Opening(world.db, o));
      }
    }
  }

  /** Whatever sweeps, wake-ups, changes and waits follow one another, while they
      work the sweep is armed less than a slot after each opening. */
  lemma {:induction false} SweepWakesInTime(db: Db, clock: int, events: seq<Event>)
    requires forall i :: 0 <= i < |events| ==> Works(Play(Start(db, clock), events[..i]), events[i])
    ensures var world := Play(Start(db, clock), events);
            && QueueSound(world.agenda, world.clock) && world.agenda.failed == {} && RestsSafely(world) && DecisionHolds(world)
            && (forall o: OrderId :: WaitingRow(world.db, o) && Timed(world.db.orders[o]) ==>
                  (world.clock >= Opening(world.db, o) + SLOT_MS ==> world.agenda.armed))
  {
    if events != [] {
      var before := events[..|events| - 1];
      assert forall i :: 0 <= i < |before| ==> before[..i] == events[..i] && before[i] == events[i];
      SweepWakesInTime(db, clock, before);
      var world := Play(Start(db, clock), before);
      WorkingStepKeeps(world, events[|events| - 1]);
      DecisionKept(world, events[|events| - 1]);
      ApplyKeepsQueue(world, events[|events| - 1]);
    }
    var world := Play(Start(db, clock), events);
    forall o: OrderId | WaitingRow(world.db, o) && Timed(world.db.orders[o]) && world.clock >= Opening(world.db, o) + SLOT_MS
      ensures world.agenda.armed
    {
      SafeIsPunctual(world, o);
    }
  }

  /** Requested, paid for, with nobody on it and no offer open. */
  predicate NeedsDriver(db: Db, o: OrderId) {
    && o < |db.orders| && db.orders[o].status.Requested?
    && (db.orders[o].paymentStatus.Paid? || db.orders[o].paymentStatus.Authorized?)
    && (forall a :: 0 <= a < |db.assignments| && db.assignments[a].order == o ==>
          !db.assignments[a].status.Pending? && !db.assignments[a].status.Accepted?)
    && (forall f :: 0 <= f < |db.offers| && db.offers[f].order == o ==> !db.offers[f].status.Pending?)
  }

  lemma NeedsDriverIffWaiting(db: Db, o: OrderId)
    ensures NeedsDriver(db, o) <==> WaitingRow(db, o)
  {
    if NeedsDriver(db, o) {
      assert !HasLiveAssignment(db, o) && !HasPendingOffer(db, o);
    }
  }

  /** While an immediate order needs a driver, or an offer is open, the sweep is
      armed; and so it is for a scheduled one from at most a minute after half an
      hour before its time. */
  predicate ArmedForWork(world: World, o: OrderId) {
    && ((exists f :: 0 <= f < |world.db.offers| && world.db.offers[f].status.Pending?) ==> world.agenda.armed)
    && (NeedsDriver(world.db, o) ==>
          match world.db.orders[o].service
          case Immediate => world.agenda.armed
          case Scheduled(None) => true
          case Scheduled(Some(at)) => world.clock >= at - 30 * 60 * 1000 + 60 * 1000 ==> world.agenda.armed)
  }

  lemma SafeIsArmedForWork(world: World, o: OrderId)
    requires RestsSafely(world)
    ensures ArmedForWork(world, o)
  {
    if NeedsDriver(world.db, o) && !world.agenda.armed { NeedsDriverIffWaiting(world.db, o); }
  }

  /** In the same runs. */
  lemma SweepIsArmedForWork(db: Db, clock: int, events: seq<Event>, o: OrderId)
    requires forall i :: 0 <= i < |events| ==> Works(Play(Start(db, clock), events[..i]), events[i])
    ensures ArmedForWork(Play(Start(db, clock), events), o)
  {
    SweepWakesInTime(db, clock, events);
    SafeIsArmedForWork(Play(Start(db, clock), events), o);
  }

  // ----- what a failed job does to its slot -----

  function ScheduledOrder(opening: int, status: OrderStatus): Order {
    Order(0, status, Paid, Some(100), Scheduled(Some(opening + SCHEDULED_LEAD_MS)))
  }

  /** Two orders that open in the same minute; the first may be gone. */
  function TwoOrders(first: OrderStatus): Db {
    Db([ScheduledOrder(90000, first), ScheduledOrder(100000, Requested)], [], [], [], [], [], [], map[], [])
  }

  lemma TwoOrdersWait(first: OrderStatus)
    ensures WaitingRow(TwoOrders(first), 1) && (WaitingRow(TwoOrders(first), 0) <==> first.Requested?)
    ensures Opening(TwoOrders(first), 0) == 90000 && Opening(TwoOrders(first), 1) == 100000
    ensures FirstOpening(TwoOrders(first), 0, 2) == Some(if first.Requested? then 90000 else 100000)
    ensures FirstOpening(TwoOrders(first), 95000, 2) == Some(100000)
    ensures NothingDue(TwoOrders(first), true, 0) && (!first.Requested? ==> NothingDue(TwoOrders(first), true, 95000))
  {
    var db := TwoOrders(first);
    var none := FirstOpening(db, 0, 0);
    var one := FirstOpening(db, 0, 1);
    var later := FirstOpening(db, 95000, 1);
    assert one == if first.Requested? then Some(90000) else None;
    assert later == None;
  }

  /** The wake-up of the minute fails and is retained; its order goes; the next
      sweep, with a queue that answers, leaves the other order of that minute
      without a wake-up. */
  function FailedMinute(one: Db): seq<Event> {
    [Decide(0, true), Disarm(true), Wait(90000), Fire(1, false, true), Wait(5000),
     Change(one, true), Decide(0, true), Disarm(true), Wait(65000)]
  }

  /** The worlds it goes through. */
  function FailedWorlds(both: Db, one: Db): seq<World> {
    var asked := map[1 := Job(90000, 90000)];
    [World(both, Agenda(true, map[], {}), 0, None),
     World(both, Agenda(true, asked, {}), 0, Some(Decision(0, true))),
     World(both, Agenda(false, asked, {}), 0, None),
     World(both, Agenda(false, asked, {}), 90000, None),
     World(both, Agenda(false, map[], {1}), 90000, None),
     World(both, Agenda(false, map[], {1}), 95000, None),
     World(one, Agenda(true, map[], {1}), 95000, None),
     World(one, Agenda(true, map[], {1}), 95000, Some(Decision(95000, true))),
     World(one, Agenda(false, map[], {1}), 95000, None),
     World(one, Agenda(false, map[], {1}), 160000, None)]
  }

  /** A run that goes through these worlds ends in the last. */
  lemma {:induction false} Follows(events: seq<Event>, worlds: seq<World>)
    requires |worlds| == |events| + 1
    requires forall i :: 0 <= i < |events| ==> Apply(worlds[i], events[i]) == worlds[i + 1]
    ensures Play(worlds[0], events) == worlds[|events|]
  {
    if events != [] {
      Follows(events[..|events| - 1], worlds[..|events|]);
    }
  }

  lemma FirstSweep(world: World, next: World)
    requires world == World(TwoOrders(Requested), Agenda(true, map[], {}), 0, None)
    requires next == world.(agenda := Agenda(true, map[1 := Job(90000, 90000)], {}), decision := Some(Decision(0, true)))
    ensures Apply(world, Decide(0, true)) == next
  {
    TwoOrdersWait(Requested);
    FirstWake();
    SweepAsks(world, 90000);
  }

  lemma SweepAsks(world: World, first: int)
    requires world.agenda.armed && world.decision.None? && NothingDue(world.db, true, world.clock)
    requires FirstOpening(world.db, world.clock, |world.db.orders|) == Some(first)
    ensures Apply(world, Decide(0, true)) ==
            world.(agenda := Woken(world.agenda, first, world.clock, true), decision := Some(Decision(world.clock, true)))
  {
  }

  lemma FirstWake()
    ensures Woken(Agenda(true, map[], {}), 90000, 0, true) == Agenda(true, map[1 := Job(90000, 90000)], {})
  {
    assert Slot(90000) == 1 && Max(0, 90000) == 90000;
  }

  lemma JobFails(world: World)
    requires world.agenda == Agenda(false, map[1 := Job(90000, 90000)], {}) && world.clock == 90000
    ensures Apply(world, Fire(1, false, true)) == world.(agenda := Agenda(false, map[], {1}))
  {
    assert Apply(world, Fire(1, false, true)).agenda.jobs == map[];
  }

  lemma SecondSweep(world: World, next: World)
    requires world == World(TwoOrders(OrderStatus.Cancelled), Agenda(true, map[], {1}), 95000, None)
    requires next == world.(decision := Some(Decision(95000, true)))
    ensures Apply(world, Decide(0, true)) == next
  {
    TwoOrdersWait(OrderStatus.Cancelled);
    SweepAsks(world, 100000);
  }

  ghost predicate StepsOn(both: Db, one: Db, i: nat)
    requires i < 9
  {
    Apply(FailedWorlds(both, one)[i], FailedMinute(one)[i]) == FailedWorlds(both, one)[i + 1]
  }

  lemma RestingSteps(both: Db, one: Db)
    ensures StepsOn(both, one, 1) && StepsOn(both, one, 2) && StepsOn(both, one, 4)
  {
  }

  lemma WakingSteps(both: Db, one: Db)
    ensures StepsOn(both, one, 5) && StepsOn(both, one, 7) && StepsOn(both, one, 8)
  {
  }

  lemma FirstStep(both: Db, one: Db)
    requires both == TwoOrders(Requested)
    ensures StepsOn(both, one, 0)
  {
    FirstSweep(FailedWorlds(both, one)[0], FailedWorlds(both, one)[1]);
  }

  lemma SecondStep(both: Db, one: Db)
    requires one == TwoOrders(OrderStatus.Cancelled)
    ensures StepsOn(both, one, 6)
  {
    SecondSweep(FailedWorlds(both, one)[6], FailedWorlds(both, one)[7]);
  }

  lemma FailingStep(both: Db, one: Db)
    ensures StepsOn(both, one, 3)
  {
    JobFails(FailedWorlds(both, one)[3]);
  }

  lemma FailedStep(both: Db, one: Db, i: nat)
    requires i < 9 && both == TwoOrders(Requested) && one == TwoOrders(OrderStatus.Cancelled)
    ensures StepsOn(both, one, i)
  {
    RestingSteps(both, one);
    WakingSteps(both, one);
    FirstStep(both, one);
    SecondStep(both, one);
    FailingStep(both, one);
    assert i == 0 || i == 1 || i == 2 || i == 3 || i == 4 || i == 5 || i == 6 || i == 7 || i == 8;
  }

  lemma FailedRun(both: Db, one: Db)
    requires both == TwoOrders(Requested) && one == TwoOrders(OrderStatus.Cancelled)
    ensures Play(Start(both, 0), FailedMinute(one)) == World(one, Agenda(false, map[], {1}), 160000, None)
  {
    forall i | 0 <= i < 9 ensures Apply(FailedWorlds(both, one)[i], FailedMinute(one)[i]) == FailedWorlds(both, one)[i + 1] {
      FailedStep(both, one, i);
    }
    Follows(FailedMinute(one), FailedWorlds(both, one));
  }

  lemma FailedJobTakesItsSlot()
    ensures var world := Play(Start(TwoOrders(Requested), 0), FailedMinute(TwoOrders(OrderStatus.Cancelled)));
            && WaitingRow(world.db, 1) && Timed(world.db.orders[1]) && world.clock == Opening(world.db, 1) + SLOT_MS
            && !world.agenda.armed && world.agenda.jobs == map[] && !RestsSafely(world)
  {
    FailedRun(TwoOrders(Requested), TwoOrders(OrderStatus.Cancelled));
    TwoOrdersWait(OrderStatus.Cancelled);
  }

  // ----- what an arming between the reads and the disarming does -----

  const NO_ROWS := Db([], [], [], [], [], [], [], map[], [])

  function OneOrder(): Db { NO_ROWS.(orders := [Order(0, Requested, Paid, Some(100), Immediate)]) }

  /** The sweep reads an empty table, an order is paid and arms the sweep, and the
      sweep disarms. */
  function ErasedArming(): seq<Event> { [Decide(0, true), Change(OneOrder(), true), Disarm(true)] }

  lemma ArmingIsErased()
    ensures var world := Play(Start(NO_ROWS, 0), ErasedArming());
            && WaitingRow(world.db, 0) && world.db.orders[0].service.Immediate?
            && !world.agenda.armed && world.agenda.jobs == map[] && !RestsSafely(world)
  {
    var start := Start(NO_ROWS, 0);
    assert NothingDue(NO_ROWS, true, 0) && FirstOpening(NO_ROWS, 0, 0) == None;
    var worlds := [start, start.(decision := Some(Decision(0, true))),
                   World(OneOrder(), start.agenda, 0, Some(Decision(0, false))),
                   World(OneOrder(), Agenda(false, map[], {}), 0, None)];
    Follows(ErasedArming(), worlds);
    assert WaitingRow(OneOrder(), 0);
  }
}
