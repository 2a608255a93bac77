/**
 Attempts of the automatic cascade that overlap. Each one reads the drivers
 already offered the order and ranks the others, and inserts an offer to the one
 it chose later, when only another open offer of the order can stop it.
 */
module Cascade {
  import opened Tables
  import opened Dispatch
  import opened Billing
  import opened Protocol
  import opened Theorems
  import opened Scenarios

  /** An attempt that has chosen: `offered` are the drivers it read, and `seen` how
      many offers there were. */
  datatype Attempt = Attempt(
    orderId: OrderId, driver: DriverId, vehicle: VehicleId, offered: set<DriverId>, seen: nat, open: bool)

  datatype World = World(state: State, attempts: seq<Attempt>)

  datatype Event =
    | Choose(orderId: OrderId, driver: DriverId, vehicle: VehicleId, now: int)
    | Insert(attempt: nat, expiresAt: int)
    | Other(step: Step)

  /** The order waits for an offer, and the ranking leaves out who had one. */
  predicate MayChoose(db: Db, o: OrderId, d: DriverId, now: int) {
    WaitingForOffer(db, o, now) && d < |db.drivers| && d !in PreviousDrivers(db, o)
  }

  function Apply(world: World, event: Event): World {
    match event
    case Choose(o, d, v, now) =>
      var db := world.state.db;
      if MayChoose(db, o, d, now)
      then world.(attempts := world.attempts + [Attempt(o, d, v, PreviousDrivers(db, o), |db.offers|, true)]) else world
    case Insert(i, expiresAt) =>
      if i < |world.attempts| && world.attempts[i].open
      then World(Next(world.state, OpenStep(world.attempts[i], expiresAt)), world.attempts[i := world.attempts[i].(open := false)])
      else world
    case Other(step) => if step.OpenOffer? then world else world.(state := Next(world.state, step))
  }

  function OpenStep(attempt: Attempt, expiresAt: int): Step {
    OpenOffer(attempt.orderId, attempt.driver, attempt.vehicle, expiresAt)
  }

  function Play(events: seq<Event>): World {
    if events == [] then World(EMPTY, [])
    else Apply(Play(events[..|events| - 1]), events[|events| - 1])
  }

  // ----- what an attempt read stays true of the offers it saw -----

  ghost predicate SameOffers(offers: seq<Offer>, later: seq<Offer>) {
    && |offers| <= |later|
    && (forall f :: 0 <= f < |offers| ==>
          later[f].order == offers[f].order && later[f].driver == offers[f].driver && later[f].mode == offers[f].mode)
  }

  /** No offer it saw was to the driver it chose. */
  ghost predicate ReadHolds(offers: seq<Offer>, attempt: Attempt) {
    && attempt.seen <= |offers| && attempt.driver !in attempt.offered
    && (forall f :: 0 <= f < attempt.seen && offers[f].order == attempt.orderId ==> offers[f].driver in attempt.offered)
  }

  ghost predicate ReadsHold(world: World) {
    forall i :: 0 <= i < |world.attempts| ==> ReadHolds(world.state.db.offers, world.attempts[i])
  }

  lemma StepSameOffers(s: State, step: Step)
    ensures SameOffers(s.db.offers, Next(s, step).db.offers)
  {
    if !step.OpenOffer? { StepAddsNew(s, step); }
  }

  lemma EventKeepsReads(world: World, event: Event)
    requires ReadsHold(world)
    ensures ReadsHold(Apply(world, event))
  {
    match event
    case Choose(o, d, v, now) =>
    case Insert(i, expiresAt) =>
      if i < |world.attempts| { StepSameOffers(world.state, OpenStep(world.attempts[i], expiresAt)); }
    case Other(step) => StepSameOffers(world.state, step);
  }

  lemma {:induction false} PlayKeepsReads(events: seq<Event>)
    ensures ReadsHold(Play(events))
  {
    if events != [] {
      PlayKeepsReads(events[..|events| - 1]);
      EventKeepsReads(Play(events[..|events| - 1]), events[|events| - 1]);
    }
  }

  // ----- when a driver is asked twice -----

  /** Since the attempt read, the driver it chose got an automatic offer of the
      order from another. */
  predicate Overtaken(offers: seq<Offer>, attempt: Attempt) {
    exists f :: attempt.seen <= f < |offers| && offers[f].mode.Auto? && offers[f].order == attempt.orderId && offers[f].driver == attempt.driver
  }

  /** The event inserts an offer on a read that another attempt made stale. */
  predicate InsertsStale(world: World, event: Event) {
    && event.Insert? && event.attempt < |world.attempts| && world.attempts[event.attempt].open
    && CanOpenOffer(world.state.db, world.attempts[event.attempt].orderId, world.attempts[event.attempt].driver)
    && Overtaken(world.state.db.offers, world.attempts[event.attempt])
  }

  lemma AutoOfferedIsOvertaken(db: Db, attempt: Attempt)
    requires ReadHolds(db.offers, attempt)
    ensures AutoOffered(db, attempt.orderId, attempt.driver) <==> Overtaken(db.offers, attempt)
  {
    if f :| 0 <= f < |db.offers| && db.offers[f].mode.Auto? && db.offers[f].order == attempt.orderId && db.offers[f].driver == attempt.driver {
      assert f >= attempt.seen;
    }
  }

  lemma EventOnceIff(world: World, event: Event)
    requires ReadsHold(world)
    ensures OfferedOnce(Apply(world, event).state.db.offers)
            <==> OfferedOnce(world.state.db.offers) && !InsertsStale(world, event)
  {
    match event
    case Choose(_, _, _, _) =>
    case Other(step) => if !step.OpenOffer? { StepOnceIff(world.state, step); }
    case Insert(i, expiresAt) =>
      if i < |world.attempts| && world.attempts[i].open {
        StepOnceIff(world.state, OpenStep(world.attempts[i], expiresAt));
        AutoOfferedIsOvertaken(world.state.db, world.attempts[i]);
      }
  }

  /** No event of the run inserts on a stale read. */
  predicate NeverStale(events: seq<Event>) {
    if events == [] then true
    else NeverStale(events[..|events| - 1]) && !InsertsStale(Play(events[..|events| - 1]), events[|events| - 1])
  }

  /** Whatever attempts overlap and whatever happens between them, no driver gets
      two automatic offers of one order if and only if no attempt inserts after
      another one offered the order to the same driver since it read. */
  lemma {:induction false} OfferedOnceIffNeverStale(events: seq<Event>)
    ensures OfferedOnce(Play(events).state.db.offers) <==> NeverStale(events)
  {
    if events != [] {
      var before := events[..|events| - 1];
      OfferedOnceIffNeverStale(before);
      PlayKeepsReads(before);
      EventOnceIff(Play(before), events[|events| - 1]);
    }
  }

  // ----- and that happens -----

  /** A paid order and one driver; two attempts choose before either inserts; the
      driver turns down the first offer and gets the second. */
  function Overlapping(): seq<Event> {
    [Other(PreparingSteps()[0]), Other(PreparingSteps()[1]), Other(PreparingSteps()[2]), Other(PreparingSteps()[3]),
     Other(PreparingSteps()[4]),
     Choose(0, 0, 0, 0), Choose(0, 0, 0, 0), Insert(0, 60000), Other(RejectOffer(0, 0)), Insert(1, 60000)]
  }

  function At(db: Db, attempts: seq<Attempt>): World { World(State(db, {}), attempts) }

  function Chosen(open: bool): Attempt { Attempt(0, 0, 0, {}, 0, open) }

  function Opened(status: OfferStatus): Offer { Offer(0, 0, 0, Auto, status, 60000, None) }

  lemma ChooseEvent(attempts: seq<Attempt>)
    ensures Apply(At(Ready(), attempts), Choose(0, 0, 0, 0)) == At(Ready(), attempts + [Chosen(true)])
  {
    assert PreviousDrivers(Ready(), 0) == {};
    assert MayChoose(Ready(), 0, 0, 0);
  }

  lemma FirstInsertEvent()
    ensures Apply(At(Ready(), [Chosen(true), Chosen(true)]), Insert(0, 60000))
            == At(Ready().(offers := [Opened(OfferStatus.Pending)]), [Chosen(false), Chosen(true)])
  {
  }

  lemma RefusalEvent(attempts: seq<Attempt>)
    ensures Apply(At(Ready().(offers := [Opened(OfferStatus.Pending)]), attempts), Other(RejectOffer(0, 0)))
            == At(Ready().(offers := [Opened(OfferStatus.Rejected)]), attempts)
  {
  }

  lemma SecondInsertEvent()
    ensures Apply(At(Ready().(offers := [Opened(OfferStatus.Rejected)]), [Chosen(false), Chosen(true)]), Insert(1, 60000))
            == At(Ready().(offers := [Opened(OfferStatus.Rejected), Opened(OfferStatus.Pending)]), [Chosen(false), Chosen(false)])
  {
  }

  /** The worlds the run goes through. */
  function Worlds(): seq<World> {
    var both, open, refused := [Chosen(true), Chosen(true)], Opened(OfferStatus.Pending), Opened(OfferStatus.Rejected);
    [World(PreparingStates()[0], []), World(PreparingStates()[1], []), World(PreparingStates()[2], []), World(PreparingStates()[3], []),
     World(PreparingStates()[4], []), At(Ready(), []),
     At(Ready(), [Chosen(true)]), At(Ready(), both),
     At(Ready().(offers := [open]), [Chosen(false), Chosen(true)]),
     At(Ready().(offers := [refused]), [Chosen(false), Chosen(true)]),
     At(Ready().(offers := [refused, open]), [Chosen(false), Chosen(false)])]
  }

  lemma {:induction false} Follows(events: seq<Event>, worlds: seq<World>)
    requires |worlds| == |events| + 1 && worlds[0] == World(EMPTY, [])
    requires forall i :: 0 <= i < |events| ==> Apply(worlds[i], events[i]) == worlds[i + 1]
    ensures Play(events) == worlds[|events|]
  {
    if events != [] {
      Follows(events[..|events| - 1], worlds[..|events|]);
    }
  }

  lemma EarlyStep(i: nat)
    requires i < 5
    ensures Apply(Worlds()[i], Overlapping()[i]) == Worlds()[i + 1]
  {
    PreparingStep(i);
    assert Overlapping()[i] == Other(PreparingSteps()[i]);
    assert Worlds()[i] == World(PreparingStates()[i], []) && Worlds()[i + 1] == World(PreparingStates()[i + 1], []);
  }

  lemma LateStep(i: nat)
    requires 5 <= i < 10
    ensures Apply(Worlds()[i], Overlapping()[i]) == Worlds()[i + 1]
  {
    if i == 5 {
      ChooseEvent([]);
    } else if i == 6 {
      ChooseEvent([Chosen(true)]);
    } else if i == 7 {
      FirstInsertEvent();
    } else if i == 8 {
      RefusalEvent([Chosen(false), Chosen(true)]);
    } else {
      SecondInsertEvent();
    }
  }

  lemma OverlappingInserts()
    ensures Play(Overlapping()) == Worlds()[10]
  {
    forall i | 0 <= i < 10 ensures Apply(Worlds()[i], Overlapping()[i]) == Worlds()[i + 1] {
      if i < 5 { EarlyStep(i); } else { LateStep(i); }
    }
    Follows(Overlapping(), Worlds());
  }

  /** Two attempts that both ranked before either inserted offer the order to the
      same driver twice. */
  lemma OverlappingAttemptsRepeat()
    ensures var offers := Play(Overlapping()).state.db.offers;
            && |offers| == 2 && offers[0].mode.Auto? && offers[1].mode.Auto?
            && offers[0].order == offers[1].order && offers[0].driver == offers[1].driver && offers[1].status.Pending?
            && !OfferedOnce(offers) && !NeverStale(Overlapping())
  {
    OverlappingInserts();
    OfferedOnceIffNeverStale(Overlapping());
  }
}
