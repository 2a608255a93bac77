/**
 Who gets which token, and when: what a refresh answers in terms of the row, the
 clock and the configuration.
 */
module SessionOutcomes {
  import opened Tables
  import opened Numbers
  import opened Sessions
  import opened SessionRuns
  import opened SessionTheorems

  // ----- how long a replaced token works, over runs -----

  /** A call that arrives later than the grace after the rotation that replaced its
      token, by one signed in a later second, gets no token. With a grace of at
      least a second it need not even arrive after the rotation is written. */
  lemma StaleTokenGetsNothing(config: Lifetimes, world: World, i: nat, call: Call)
    requires Reachable(config, world) && ReplacedLater(world, i) && call in world.calls && call.token == world.chain[i]
    requires call.asOf > 1000 * world.chain[i + 1].issuedAt + 1000 * Max(config.graceSeconds, 0)
    requires call.since > i + 1 || config.graceSeconds >= 1
    ensures call.progress.Done? ==> !call.progress.outcome.Returned?
  {
    ReachableSound(config, world);
    assert CallSound(config, world, call);
    if call.progress.Done? && call.progress.outcome.Returned? {
      AnswerIsTimely(config, world, i, call, call.progress.outcome.token);
    }
  }

  lemma AnswerIsTimely(config: Lifetimes, world: World, i: nat, call: Call, token: Token)
    requires Ordered(world.chain, world.clock) && ReplacedLater(world, i) && call.token == world.chain[i]
    requires Succeeds(config, world.chain, call, token)
    ensures call.asOf <= 1000 * world.chain[i + 1].issuedAt + 1000 * Max(config.graceSeconds, 0)
            || (call.since <= i + 1 && config.graceSeconds < 1)
  {
    var k :| AnswersAt(config, world.chain, call, k, token);
    assert k - 1 <= i;
    assert world.chain[k].issuedAt <= world.chain[i + 1].issuedAt;
    if k >= call.since && Second(call.asOf) <= token.issuedAt {
      assert call.asOf < 1000 * (token.issuedAt + 1);
    }
  }

  /** The row answers the token that was replaced last, for a while. */
  predicate InGrace(config: Lifetimes, row: Session, token: Token, now: int) {
    && !row.revoked && now < row.expiresAt && row.previous == Some(Digest(token))
    && config.graceSeconds > 0 && row.rotatedAt.Some? && now <= row.rotatedAt.value + 1000 * config.graceSeconds
  }

  /** A call that finds its token replaced, and checks within the grace, gets
      exactly the current token and changes nothing. */
  lemma GraceGivesCurrent(config: Lifetimes, world: World, i: nat, ms: nat)
    requires Reachable(config, world) && i < |world.calls| && world.calls[i].progress.Missed?
    requires InGrace(config, world.row, world.calls[i].token, world.clock + ms)
    ensures var later := Apply(config, Apply(config, Apply(config, world, Move(i)), Tick(ms)), Move(i));
            && world.chain != [] && later.row == world.row && later.chain == world.chain
            && later.calls[i].progress == Done(Returned(world.chain[|world.chain| - 1]))
  {
    ReachableSound(config, world);
    GraceReproduces(config, world.row, world.chain, world.calls[i].token, world.clock + ms);
  }

  /** And one that checks outside it ends the session. */
  lemma NoGraceRevokes(config: Lifetimes, world: World, i: nat, ms: nat)
    requires i < |world.calls| && world.calls[i].progress.Missed?
    requires !InGrace(config, world.row, world.calls[i].token, world.clock + ms)
    ensures var refused := Apply(config, Apply(config, Apply(config, world, Move(i)), Tick(ms)), Move(i));
            var later := Apply(config, refused, Move(i));
            later.row == world.row.(revoked := true) && later.calls[i].progress == Done(Denied(Reuse))
  {
  }

  /** A new session has the token signed for it, and lives its lifetime or up to the
      cap, whichever is less. */
  lemma NewSessionLives(config: Lifetimes, signedAt: int, pricedAt: int, createdAt: int)
    ensures Start(config, signedAt, pricedAt, createdAt).row
            == Session(createdAt, pricedAt + Min(1000 * config.ttlSec, config.maxAgeMs), false, Digest(Token(signedAt / 1000)), None, None)
  {
  }

  // ----- who is let in -----

  /** The token has not expired by the second, and the session is live, unexpired
      and younger than its cap. */
  predicate Welcome(config: Lifetimes, row: Session, token: Token, asOf: int) {
    && asOf / 1000 < token.issuedAt + config.ttlSec
    && !row.revoked && asOf < row.expiresAt && asOf < row.createdAt + config.maxAgeMs
  }

  /** The find lets a call in exactly when it was welcome as it arrived, and ends
      the session of an account that is not active. */
  lemma FindDecides(config: Lifetimes, world: World, i: nat)
    requires i < |world.calls| && world.calls[i].progress.Arrived?
    ensures var call, found := world.calls[i], Apply(config, world, Move(i));
            && found.row == world.row
            && (!Welcome(config, world.row, call.token, call.asOf) ==> found.calls[i].progress == Done(Denied(InvalidToken)))
            && (Welcome(config, world.row, call.token, call.asOf) && world.active ==> found.calls[i].progress == Found)
            && (Welcome(config, world.row, call.token, call.asOf) && !world.active ==>
                  var barred := Apply(config, found, Move(i));
                  barred.row == world.row.(revoked := true) && barred.calls[i].progress == Done(Denied(Inactive)))
  {
  }

  // ----- one refresh with nobody in between -----

  function Refresh(config: Lifetimes, row: Session, active: bool, token: Token, clock: seq<int>): (Session, Progress)
    requires |clock| == 7
  {
    Alone(config, row, active, Call(token, clock[0], 1, Arrived), clock)
  }

  /** The current token is replaced by one signed now, and the session slides to its
      lifetime from now, capped. */
  lemma RefreshRotates(config: Lifetimes, row: Session, token: Token, clock: seq<int>)
    requires |clock| == 7 && Welcome(config, row, token, clock[0]) && row.current == Digest(token)
    ensures var next := Token(clock[1] / 1000);
            Refresh(config, row, true, token, clock)
            == (row.(current := Digest(next), previous := Some(Digest(token)), rotatedAt := Some(1000 * next.issuedAt),
                     expiresAt := Min(clock[2] + 1000 * config.ttlSec, row.createdAt + config.maxAgeMs)),
                Done(Returned(next)))
  {
    AloneSteps(config, row, true, Call(token, clock[0], 1, Arrived), clock);
  }

  /** Any other token is answered with the current one within the grace, and ends
      the session outside it. The row is one a rotation left. */
  lemma RefreshReuses(config: Lifetimes, row: Session, token: Token, current: Token, clock: seq<int>)
    requires |clock| == 7 && Welcome(config, row, token, clock[0]) && row.current == Digest(current) && token != current
    requires row.rotatedAt.Some? ==> row.rotatedAt.value / 1000 == current.issuedAt
    ensures Refresh(config, row, true, token, clock)
            == if InGrace(config, row, token, clock[5]) then (row, Done(Returned(current)))
               else (row.(revoked := true), Done(Denied(Reuse)))
  {
    AloneSteps(config, row, true, Call(token, clock[0], 1, Arrived), clock);
  }

  lemma RefreshIsRefused(config: Lifetimes, row: Session, active: bool, token: Token, clock: seq<int>)
    requires |clock| == 7 && (!Welcome(config, row, token, clock[0]) || !active)
    ensures Refresh(config, row, active, token, clock)
            == if !Welcome(config, row, token, clock[0]) then (row, Done(Denied(InvalidToken)))
               else (row.(revoked := true), Done(Denied(Inactive)))
  {
    AloneSteps(config, row, active, Call(token, clock[0], 1, Arrived), clock);
  }

  /** So the token replaced an hour ago, with a grace of half a minute, ends the
      session. */
  lemma HourOldTokenRevokes(config: Lifetimes, row: Session, token: Token, current: Token, now: int)
    requires config.graceSeconds == 30 && Welcome(config, row, token, now) && row.current == Digest(current) && token != current
    requires row.previous == Some(Digest(token)) && row.rotatedAt == Some(1000 * current.issuedAt) && now == row.rotatedAt.value + 3600000
    ensures Refresh(config, row, true, token, seq(7, _ => now)) == (row.(revoked := true), Done(Denied(Reuse)))
  {
    RefreshReuses(config, row, token, current, seq(7, _ => now));
  }
}
