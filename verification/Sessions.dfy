/**
 Refresh-token rotation of one session: the session row and its conditional
 updates, the steps of one refresh call, and the service that runs them. A token
 is determined by the second it was signed in, the user, session, secret and
 lifetime being fixed, and hashing is injective.
 */
module Sessions {
  import opened Tables

  datatype Token = Token(issuedAt: int)

  datatype Digest = Digest(token: Token)

  /** The configuration of the session's platform. */
  datatype Lifetimes = Lifetimes(ttlSec: nat, maxAgeMs: nat, graceSeconds: int)

  datatype Session = Session(
    createdAt: int, expiresAt: int, revoked: bool, current: Digest, previous: Option<Digest>, rotatedAt: Option<int>)

  function Second(ms: int): int { ms / 1000 }

  /** Sliding expiry, never beyond creation and the absolute cap. */
  function NextExpiry(config: Lifetimes, createdAt: int, now: int): int {
    var sliding, cap := now + 1000 * config.ttlSec, createdAt + config.maxAgeMs;
    if sliding < cap then sliding else cap
  }

  function Create(config: Lifetimes, signedAt: int, pricedAt: int, createdAt: int): Session {
    Session(createdAt, NextExpiry(config, pricedAt, pricedAt), false, Digest(Token(Second(signedAt))), None, None)
  }

  // ----- the repository's conditional updates -----

  predicate CanRotate(row: Session, presented: Digest) { row.current == presented && !row.revoked }

  function Rotated(row: Session, presented: Digest, next: Digest, expiresAt: int, rotatedAt: int): Session {
    row.(current := next, previous := Some(presented), rotatedAt := Some(rotatedAt), expiresAt := expiresAt)
  }

  predicate IsValid(row: Session, asOf: int, createdAfter: int) {
    !row.revoked && row.expiresAt > asOf && row.createdAt > createdAfter
  }

  // ----- one refresh call -----

  datatype Reason = InvalidToken | Inactive | Reuse | Unreproducible

  datatype Outcome = Returned(token: Token) | Denied(reason: Reason)

  /** Where a call stands between two of its reads and writes. `pricedAt` is the
      time it read to compute its expiry. */
  datatype Progress =
    | Arrived
    | Barred
    | Found
    | Signed(next: Token)
    | Priced(next: Token, expiresAt: int, pricedAt: int)
    | Missed
    | Read(row: Session)
    | Refused
    | Done(outcome: Outcome)

  /** A call presenting a token. `asOf` is the time it read on arrival and `since`
      how many tokens the session had had by then. */
  datatype Call = Call(token: Token, asOf: int, since: nat, progress: Progress)

  predicate Verifies(config: Lifetimes, token: Token, now: int) { Second(now) < token.issuedAt + config.ttlSec }

  predicate GraceApplies(config: Lifetimes, row: Session, presented: Digest, now: int) {
    && config.graceSeconds * 1000 > 0 && !row.revoked && row.expiresAt > now
    && row.rotatedAt.Some? && row.previous == Some(presented) && now - row.rotatedAt.value <= config.graceSeconds * 1000
  }

  /** What the grace path answers from the row it read. */
  function GraceAnswer(config: Lifetimes, row: Session, presented: Digest, now: int): Progress {
    if !GraceApplies(config, row, presented, now) then Refused
    else
      var token := Token(Second(row.rotatedAt.value));
      if Digest(token) != row.current then Done(Denied(Unreproducible)) else Done(Returned(token))
  }

  function Admission(config: Lifetimes, row: Session, active: bool, token: Token, asOf: int): Progress {
    if !Verifies(config, token, asOf) || !IsValid(row, asOf, asOf - config.maxAgeMs) then Done(Denied(InvalidToken))
    else if !active then Barred
    else Found
  }

  /** The next step of a call, on the row and at the time it finds. */
  function Advance(config: Lifetimes, row: Session, active: bool, now: int, call: Call): (Session, Progress) {
    match call.progress
    case Arrived => (row, Admission(config, row, active, call.token, call.asOf))
    case Barred => (row.(revoked := true), Done(Denied(Inactive)))
    case Found => (row, Signed(Token(Second(now))))
    case Signed(next) => (row, Priced(next, NextExpiry(config, row.createdAt, now), now))
    case Priced(next, expiresAt, _) =>
      if CanRotate(row, Digest(call.token)) then
        (Rotated(row, Digest(call.token), Digest(next), expiresAt, 1000 * next.issuedAt), Done(Returned(next)))
      else (row, Missed)
    case Missed => (row, Read(row))
    case Read(seen) => (row, GraceAnswer(config, seen, Digest(call.token), now))
    case Refused => (row.(revoked := true), Done(Denied(Reuse)))
    case Done(_) => (row, call.progress)
  }

  /** A call left alone, one clock reading a step. */
  function Alone(config: Lifetimes, row: Session, active: bool, call: Call, clock: seq<int>): (Session, Progress)
    decreases clock
  {
    if clock == [] then (row, call.progress)
    else
      var (next, progress) := Advance(config, row, active, clock[0], call);
      Alone(config, next, active, call.(progress := progress), clock[1..])
  }

  class SessionsRepository {
    var row: Session

    constructor (config: Lifetimes, signedAt: int, pricedAt: int, createdAt: int)
      ensures row == Create(config, signedAt, pricedAt, createdAt)
    {
      row := Create(config, signedAt, pricedAt, createdAt);
    }

    /** The number of rows it moved. */
    method RotateRefreshToken(presented: Digest, next: Digest, expiresAt: int, rotatedAt: int) returns (count: nat)
      modifies this
      ensures count == (if CanRotate(old(row), presented) then 1 else 0)
      ensures row == if count == 1 then Rotated(old(row), presented, next, expiresAt, rotatedAt) else old(row)
    {
      if row.current != presented || row.revoked { return 0; }
      row := row.(current := next, previous := Some(presented), rotatedAt := Some(rotatedAt), expiresAt := expiresAt);
      count := 1;
    }

    method Revoke()
      modifies this
      ensures row == old(row).(revoked := true)
    {
      if !row.revoked { row := row.(revoked := true); }
    }

    method FindValid(asOf: int, createdAfter: int) returns (found: Option<Session>)
      ensures found == if IsValid(row, asOf, createdAfter) then Some(row) else None
    {
      found := if !row.revoked && row.expiresAt > asOf && row.createdAt > createdAfter then Some(row) else None;
    }
  }

  class SessionsService {
    const config: Lifetimes
    const repository: SessionsRepository

    constructor (config: Lifetimes, repository: SessionsRepository)
      ensures this.config == config && this.repository == repository
    {
      this.config := config;
      this.repository := repository;
    }

    method CurrentTokenWithinGrace(presented: Digest, row: Session, now: int) returns (answer: Progress)
      ensures answer == GraceAnswer(config, row, presented, now)
    {
      if config.graceSeconds * 1000 <= 0 || row.revoked || row.expiresAt <= now { return Refused; }
      if row.rotatedAt.None? || row.previous != Some(presented) || now - row.rotatedAt.value > config.graceSeconds * 1000 { return Refused; }
      var token := Token(Second(row.rotatedAt.value));
      if Digest(token) != row.current { return Done(Denied(Unreproducible)); }
      answer := Done(Returned(token));
    }

    /** One refresh with nobody in between, reading the clock as it goes. */
    method RotateSession(token: Token, active: bool, arrived: int, signed: int, priced: int, wrote: int, read: int, checked: int, ended: int)
      returns (outcome: Outcome)
      modifies repository
      ensures Alone(config, old(repository.row), active, Call(token, arrived, 1, Arrived), [arrived, signed, priced, wrote, read, checked, ended])
              == (repository.row, Done(outcome))
    {
      ghost var row := repository.row;
      ghost var call := Call(token, arrived, 1, Arrived);
      ghost var clock := [arrived, signed, priced, wrote, read, checked, ended];
      AloneSteps(config, row, active, call, clock);
      if !Verifies(config, token, arrived) { return Denied(InvalidToken); }
      var session := repository.FindValid(arrived, arrived - config.maxAgeMs);
      if session.None? { return Denied(InvalidToken); }
      if !active {
        repository.Revoke();
        return Denied(Inactive);
      }
      var issuedAt := Second(signed);
      var next := Token(issuedAt);
      var expiresAt := NextExpiry(config, session.value.createdAt, priced);
      var count := repository.RotateRefreshToken(Digest(token), Digest(next), expiresAt, issuedAt * 1000);
      if count == 0 {
        var answer := CurrentTokenWithinGrace(Digest(token), repository.row, checked);
        if answer.Done? { return answer.outcome; }
        repository.Revoke();
        return Denied(Reuse);
      }
      outcome := Returned(next);
    }
  }

  /** Seven steps, one after the other. */
  lemma AloneSteps(config: Lifetimes, row: Session, active: bool, call: Call, clock: seq<int>)
    requires |clock| == 7
    ensures var (r1, p1) := Advance(config, row, active, clock[0], call);
            var (r2, p2) := Advance(config, r1, active, clock[1], call.(progress := p1));
            var (r3, p3) := Advance(config, r2, active, clock[2], call.(progress := p2));
            var (r4, p4) := Advance(config, r3, active, clock[3], call.(progress := p3));
            var (r5, p5) := Advance(config, r4, active, clock[4], call.(progress := p4));
            var (r6, p6) := Advance(config, r5, active, clock[5], call.(progress := p5));
            Alone(config, row, active, call, clock) == Advance(config, r6, active, clock[6], call.(progress := p6))
  {
    var (r1, p1) := Advance(config, row, active, clock[0], call);
    var (r2, p2) := Advance(config, r1, active, clock[1], call.(progress := p1));
    var (r3, p3) := Advance(config, r2, active, clock[2], call.(progress := p2));
    var (r4, p4) := Advance(config, r3, active, clock[3], call.(progress := p3));
    var (r5, p5) := Advance(config, r4, active, clock[4], call.(progress := p4));
    var (r6, p6) := Advance(config, r5, active, clock[5], call.(progress := p5));
    var (r7, p7) := Advance(config, r6, active, clock[6], call.(progress := p6));
    assert clock[1..][1..] == clock[2..] && clock[2..][1..] == clock[3..] && clock[3..][1..] == clock[4..];
    assert clock[4..][1..] == clock[5..] && clock[5..][1..] == clock[6..] && clock[6..][1..] == [];
    assert Alone(config, r6, active, call.(progress := p6), clock[6..]) == (r7, p7);
    assert Alone(config, r5, active, call.(progress := p5), clock[5..]) == (r7, p7);
    assert Alone(config, r4, active, call.(progress := p4), clock[4..]) == (r7, p7);
    assert Alone(config, r3, active, call.(progress := p3), clock[3..]) == (r7, p7);
    assert Alone(config, r2, active, call.(progress := p2), clock[2..]) == (r7, p7);
    assert Alone(config, r1, active, call.(progress := p1), clock[1..]) == (r7, p7);
  }
}
