/**
 What refresh-token rotation promises in every reachable state.
 */
module SessionTheorems {
  import opened Tables
  import opened Sessions
  import opened SessionRuns

  /** A session created by a call that signed and priced before the row was
      written, and whatever happened since. */
  ghost predicate Reachable(config: Lifetimes, world: World) {
    exists signedAt, pricedAt, createdAt, events ::
      signedAt <= createdAt && pricedAt <= createdAt && world == Play(config, Start(config, signedAt, pricedAt, createdAt), events)
  }

  lemma ReachableSound(config: Lifetimes, world: World)
    requires Reachable(config, world)
    ensures Sound(config, world)
  {
    var signedAt, pricedAt, createdAt, events :|
      signedAt <= createdAt && pricedAt <= createdAt && world == Play(config, Start(config, signedAt, pricedAt, createdAt), events);
    StartSound(config, signedAt, pricedAt, createdAt);
    PlayKeeps(config, Start(config, signedAt, pricedAt, createdAt), events);
  }

  // ----- replaced tokens -----

  /** The token at `i` was replaced by one signed in a later second. */
  predicate ReplacedLater(world: World, i: nat) {
    i + 1 < |world.chain| && world.chain[i].issuedAt < world.chain[i + 1].issuedAt
  }

  /** A token replaced by one signed in a later second is never current again. */
  lemma ReplacedIsNeverCurrent(config: Lifetimes, world: World, i: nat)
    requires Reachable(config, world) && ReplacedLater(world, i)
    ensures world.row.current != Digest(world.chain[i])
    ensures forall j :: i < j < |world.chain| ==> world.chain[j] != world.chain[i]
  {
    ReachableSound(config, world);
  }

  /** A call that presents it afterwards gets exactly the token that replaced it,
      if it gets one. */
  lemma LaterCallsGetTheReplacement(config: Lifetimes, world: World, i: nat, call: Call)
    requires Reachable(config, world) && ReplacedLater(world, i)
    requires call in world.calls && call.token == world.chain[i] && call.since > i + 1
    ensures call.progress.Done? && call.progress.outcome.Returned? ==> call.progress.outcome.token == world.chain[i + 1]
  {
    ReachableSound(config, world);
    assert CallSound(config, world, call);
    if call.progress.Done? && call.progress.outcome.Returned? {
      SuccessorIsUnique(config, world, i, call, call.progress.outcome.token);
    }
  }

  lemma SuccessorIsUnique(config: Lifetimes, world: World, i: nat, call: Call, token: Token)
    requires Ordered(world.chain, world.clock) && ReplacedLater(world, i) && call.since > i + 1 && call.token == world.chain[i]
    requires Succeeds(config, world.chain, call, token)
    ensures token == world.chain[i + 1]
  {
    var k :| AnswersAt(config, world.chain, call, k, token);
  }

  /** Signing again with the stored rotation time gives the stored token, so no
      call ends for want of reproducing it. */
  lemma CurrentIsReproducible(config: Lifetimes, world: World)
    requires Reachable(config, world)
    ensures world.row.rotatedAt.Some? ==> world.row.current == Digest(Token(Second(world.row.rotatedAt.value)))
    ensures forall call :: call in world.calls ==> call.progress != Done(Denied(Unreproducible))
  {
    ReachableSound(config, world);
    forall call | call in world.calls ensures call.progress != Done(Denied(Unreproducible)) {
      assert CallSound(config, world, call);
    }
  }

  // ----- revocation -----

  /** A call told of reuse, or of an account that is not active, leaves the
      session revoked. */
  lemma RefusalRevokes(config: Lifetimes, world: World, call: Call)
    requires Reachable(config, world) && call in world.calls
    ensures call.progress == Done(Denied(Reuse)) || call.progress == Done(Denied(Inactive)) ==> world.row.revoked
  {
    ReachableSound(config, world);
    assert CallSound(config, world, call);
  }

  /** A call that can still answer with a token though the session is revoked: it
      already has, or its grace read came first. */
  predicate AnsweredBefore(call: Call) {
    match call.progress
    case Done(outcome) => outcome.Returned?
    case Read(row) => !row.revoked
    case _ => false
  }

  ghost predicate StaysRevoked(world: World, later: World) {
    && later.row.revoked && later.chain == world.chain && later.row.current == world.row.current && |world.calls| <= |later.calls|
    && (forall i :: 0 <= i < |later.calls| && AnsweredBefore(later.calls[i]) ==> i < |world.calls| && AnsweredBefore(world.calls[i]))
  }

  lemma RevokedStep(config: Lifetimes, world: World, later: World, event: Event)
    requires world.row.revoked && StaysRevoked(world, later)
    ensures StaysRevoked(world, Apply(config, later, event))
  {
  }

  /** No update or grace read after a revocation yields a token: whatever happens
      next, the session stays revoked with the same current token, and no call
      answers with a token unless it had, or had read the row, before. */
  lemma {:induction false} RevokedForGood(config: Lifetimes, world: World, events: seq<Event>)
    requires world.row.revoked
    ensures StaysRevoked(world, Play(config, world, events))
  {
    if events != [] {
      RevokedForGood(config, world, events[..|events| - 1]);
      RevokedStep(config, world, Play(config, world, events[..|events| - 1]), events[|events| - 1]);
    }
  }

  // ----- the lifetime cap -----

  predicate Admitted(call: Call) {
    !call.progress.Arrived? && call.progress != Done(Denied(InvalidToken))
  }

  ghost predicate AdmittedInTime(config: Lifetimes, createdAt: int, world: World) {
    && world.row.createdAt == createdAt
    && (forall i :: 0 <= i < |world.calls| && Admitted(world.calls[i]) ==> world.calls[i].asOf < createdAt + config.maxAgeMs)
  }

  lemma {:induction false} AdmissionStops(config: Lifetimes, start: World, events: seq<Event>)
    requires start.calls == []
    ensures AdmittedInTime(config, start.row.createdAt, Play(config, start, events))
  {
    if events != [] {
      AdmissionStops(config, start, events[..|events| - 1]);
      AdmissionStep(config, start.row.createdAt, Play(config, start, events[..|events| - 1]), events[|events| - 1]);
    }
  }

  lemma AdmissionStep(config: Lifetimes, createdAt: int, world: World, event: Event)
    requires AdmittedInTime(config, createdAt, world)
    ensures AdmittedInTime(config, createdAt, Apply(config, world, event))
  {
    if event.Move? && event.call < |world.calls| {
      var call := world.calls[event.call];
      assert Admitted(call) || call.progress.Arrived? || call.progress == Done(Denied(InvalidToken));
    }
  }

  /** Sliding cannot outlive the cap: the row never expires later, and a call that
      arrives once the cap is reached gets no token, whatever the row says. */
  lemma CapIsFinal(config: Lifetimes, world: World, call: Call)
    requires Reachable(config, world) && call in world.calls
    ensures world.row.expiresAt <= world.row.createdAt + config.maxAgeMs
    ensures call.asOf >= world.row.createdAt + config.maxAgeMs
            ==> call.progress == Arrived || call.progress == Done(Denied(InvalidToken))
  {
    ReachableSound(config, world);
    var signedAt, pricedAt, createdAt, events :|
      signedAt <= createdAt && pricedAt <= createdAt && world == Play(config, Start(config, signedAt, pricedAt, createdAt), events);
    AdmissionStops(config, Start(config, signedAt, pricedAt, createdAt), events);
  }

  // ----- the expiry only slides forward, but for one corner -----

  /** The event is the conditional update of a call that finds its row, computed
      its expiry before the one in the row was computed, and under the cap. */
  predicate WritesOlderPrice(config: Lifetimes, world: World, event: Event) {
    && event.Move? && event.call < |world.calls| && Replaces(world, world.calls[event.call])
    && world.calls[event.call].progress.pricedAt < world.pricedAt
    && world.calls[event.call].progress.expiresAt < world.row.createdAt + config.maxAgeMs
  }

  /** A step lowers the expiry if and only if it writes an older price that is
      under the cap. The current token had then replaced itself: two rotations
      within the second it was signed in. */
  lemma ExpiryFallsIffOlderPrice(config: Lifetimes, world: World, event: Event)
    requires Reachable(config, world)
    ensures Apply(config, world, event).row.expiresAt < world.row.expiresAt <==> WritesOlderPrice(config, world, event)
    ensures WritesOlderPrice(config, world, event) ==> SelfReplaced(world.row)
  {
    ReachableSound(config, world);
    if event.Move? && event.call < |world.calls| {
      assert CallSound(config, world, world.calls[event.call]);
    }
  }

  lemma PlayAppend(config: Lifetimes, start: World, events: seq<Event>, event: Event)
    ensures Play(config, start, events + [event]) == Apply(config, Play(config, start, events), event)
  {
    assert (events + [event])[..|events|] == events;
  }

  lemma StillReachable(config: Lifetimes, world: World, event: Event)
    requires Reachable(config, world)
    ensures Reachable(config, Apply(config, world, event))
  {
    var signedAt, pricedAt, createdAt, events :|
      signedAt <= createdAt && pricedAt <= createdAt && world == Play(config, Start(config, signedAt, pricedAt, createdAt), events);
    PlayAppend(config, Start(config, signedAt, pricedAt, createdAt), events, event);
  }

  /** The corner happens: two calls present a token in the second it was signed;
      the one that priced first writes last and shortens the session. */
  lemma ExpiryCanFall(config: Lifetimes)
    returns (world: World)
    requires config.ttlSec > 0 && config.maxAgeMs > 1000 * config.ttlSec + 5
    ensures Reachable(config, world)
    ensures Apply(config, world, Move(0)).row.expiresAt < world.row.expiresAt
  {
    var token := Token(0);
    world := Start(config, 0, 0, 0);
    assert world == Play(config, world, []);
    StillReachable(config, world, Present(token));
    world := Apply(config, world, Present(token));
    StillReachable(config, world, Present(token));
    world := Apply(config, world, Present(token));
    world := Thrice(config, world, 0);
    assert world.calls[0].progress == Priced(token, 1000 * config.ttlSec, 0);
    StillReachable(config, world, Tick(5));
    world := Apply(config, world, Tick(5));
    world := Thrice(config, world, 1);
    assert world.calls[1].progress == Priced(token, 1000 * config.ttlSec + 5, 5);
    StillReachable(config, world, Move(1));
    world := Apply(config, world, Move(1));
  }

  /** A call goes from its arrival to its price. */
  lemma Thrice(config: Lifetimes, world: World, i: nat) returns (after: World)
    requires Reachable(config, world) && i < |world.calls| && world.active
    requires world.calls[i].progress.Arrived? && Admission(config, world.row, true, world.calls[i].token, world.calls[i].asOf).Found?
    ensures Reachable(config, after)
    ensures after == world.(calls := after.calls)
    ensures after.calls == world.calls[i := world.calls[i].(progress :=
                Priced(Token(Second(world.clock)), NextExpiry(config, world.row.createdAt, world.clock), world.clock))]
  {
    StillReachable(config, world, Move(i));
    after := Apply(config, world, Move(i));
    StillReachable(config, after, Move(i));
    after := Apply(config, after, Move(i));
    StillReachable(config, after, Move(i));
    after := Apply(config, after, Move(i));
  }
}
