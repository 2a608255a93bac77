/**
 Any number of refresh calls on one session, interleaved step by step, with the
 clock moving on, the account being blocked and the session revoked elsewhere.
 */
module SessionRuns {
  import opened Tables
  import opened Sessions

  /** `chain` lists the tokens the session has had, the current one last, and
      `pricedAt` is the time the row's expiry was computed from. */
  datatype World = World(row: Session, chain: seq<Token>, pricedAt: int, clock: int, active: bool, calls: seq<Call>)

  datatype Event =
    | Tick(ms: nat)
    | Present(token: Token)
    | Move(call: nat)
    | RevokedElsewhere
    | AccountChanges(active: bool)

  function Start(config: Lifetimes, signedAt: int, pricedAt: int, createdAt: int): World {
    World(Create(config, signedAt, pricedAt, createdAt), [Token(Second(signedAt))], pricedAt, createdAt, true, [])
  }

  /** Only a token the session has had can be presented. */
  function Apply(config: Lifetimes, world: World, event: Event): World {
    match event
    case Tick(ms) => world.(clock := world.clock + ms)
    case Present(token) =>
      if token in world.chain then world.(calls := world.calls + [Call(token, world.clock, |world.chain|, Arrived)]) else world
    case Move(i) => if i < |world.calls| then Moved(config, world, i) else world
    case RevokedElsewhere => world.(row := world.row.(revoked := true))
    case AccountChanges(active) => world.(active := active)
  }

  function Moved(config: Lifetimes, world: World, i: nat): World
    requires i < |world.calls|
  {
    var call := world.calls[i];
    var (row, progress) := Advance(config, world.row, world.active, world.clock, call);
    world.(row := row, calls := world.calls[i := call.(progress := progress)],
           chain := if Replaces(world, call) then world.chain + [call.progress.next] else world.chain,
           pricedAt := if Replaces(world, call) then call.progress.pricedAt else world.pricedAt)
  }

  /** The step about to be taken is a conditional update that finds its row. */
  predicate Replaces(world: World, call: Call) {
    call.progress.Priced? && CanRotate(world.row, Digest(call.token))
  }

  function Play(config: Lifetimes, start: World, events: seq<Event>): World {
    if events == [] then start
    else Apply(config, Play(config, start, events[..|events| - 1]), events[|events| - 1])
  }

  // ----- the invariant -----

  /** The row is what the last replacement of a chain of tokens left. */
  ghost predicate RowOf(row: Session, chain: seq<Token>) {
    && chain != [] && row.current == Digest(chain[|chain| - 1])
    && (if |chain| == 1 then row.previous.None? && row.rotatedAt.None?
        else row.previous == Some(Digest(chain[|chain| - 2])) && row.rotatedAt == Some(1000 * chain[|chain| - 1].issuedAt))
  }

  /** Tokens are never older than the ones they replaced, nor newer than now. */
  ghost predicate Ordered(chain: seq<Token>, clock: int) {
    && (forall i, j :: 0 <= i <= j < |chain| ==> chain[i].issuedAt <= chain[j].issuedAt)
    && (forall i :: 0 <= i < |chain| ==> 1000 * chain[i].issuedAt <= clock)
  }

  /** The call arrived within the grace of a token signed then. */
  predicate ArrivedInGrace(config: Lifetimes, call: Call, token: Token) {
    config.graceSeconds > 0 && call.asOf - 1000 * token.issuedAt <= 1000 * config.graceSeconds
  }

  /** The token at `k` replaced the presented one: by this call, signed since it
      arrived, or by another that rotated within the grace of its arrival. */
  ghost predicate AnswersAt(config: Lifetimes, chain: seq<Token>, call: Call, k: int, token: Token) {
    && 0 < k < |chain| && chain[k - 1] == call.token && chain[k] == token
    && (|| (k >= call.since && Second(call.asOf) <= token.issuedAt)
        || (k >= call.since - 1 && ArrivedInGrace(config, call, token)))
  }

  /** An answer is a token that replaced the presented one. */
  ghost predicate Succeeds(config: Lifetimes, chain: seq<Token>, call: Call, token: Token) {
    exists k :: AnswersAt(config, chain, call, k, token)
  }

  ghost predicate Seen(row: Session, chain: seq<Token>, since: nat) {
    exists k :: since <= k <= |chain| && RowOf(row, chain[..k])
  }

  /** The row's expiry is one its current token was not given by itself. */
  predicate SelfReplaced(row: Session) { row.previous == Some(row.current) }

  ghost predicate CallSound(config: Lifetimes, world: World, call: Call) {
    && call.since <= |world.chain| && call.token in world.chain[..call.since] && call.asOf <= world.clock
    && 1000 * call.token.issuedAt <= call.asOf
    && match call.progress
       case Arrived => true
       case Barred => true
       case Found => true
       case Signed(next) => NextSound(world, call, next)
       case Priced(next, expiresAt, pricedAt) =>
         && NextSound(world, call, next)
         && expiresAt == NextExpiry(config, world.row.createdAt, pricedAt)
         && world.row.createdAt <= pricedAt <= world.clock
         && (CanRotate(world.row, Digest(call.token)) && pricedAt < world.pricedAt ==> SelfReplaced(world.row))
       case Missed => true
       case Read(row) => Seen(row, world.chain, call.since)
       case Refused => true
       case Done(outcome) => OutcomeSound(config, world, call, outcome)
  }

  ghost predicate NextSound(world: World, call: Call, next: Token) {
    call.token.issuedAt <= next.issuedAt && Second(call.asOf) <= next.issuedAt && 1000 * next.issuedAt <= world.clock
  }

  ghost predicate OutcomeSound(config: Lifetimes, world: World, call: Call, outcome: Outcome) {
    match outcome
    case Returned(token) => Succeeds(config, world.chain, call, token)
    case Denied(reason) => reason != Unreproducible && (reason == Reuse || reason == Inactive ==> world.row.revoked)
  }

  /** The row's expiry is the one computed at `pricedAt`; a new session computes
      its own a moment before it is created. */
  predicate ExpirySound(config: Lifetimes, world: World) {
    && world.pricedAt <= world.clock && world.row.createdAt <= world.clock
    && world.row.expiresAt <= NextExpiry(config, world.row.createdAt, world.pricedAt)
    && (world.row.createdAt <= world.pricedAt ==> world.row.expiresAt == NextExpiry(config, world.row.createdAt, world.pricedAt))
  }

  ghost predicate Sound(config: Lifetimes, world: World) {
    && RowOf(world.row, world.chain) && Ordered(world.chain, world.clock)
    && ExpirySound(config, world)
    && (forall i :: 0 <= i < |world.calls| ==> CallSound(config, world, world.calls[i]))
  }

  // ----- every event keeps it -----

  lemma SucceedsGrows(config: Lifetimes, chain: seq<Token>, longer: seq<Token>, call: Call, token: Token)
    requires Succeeds(config, chain, call, token) && |chain| <= |longer| && longer[..|chain|] == chain
    ensures Succeeds(config, longer, call, token)
  {
    var k :| AnswersAt(config, chain, call, k, token);
    assert longer[..|chain|][k] == longer[k] && longer[..|chain|][k - 1] == longer[k - 1];
    assert AnswersAt(config, longer, call, k, token);
  }

  lemma SeenGrows(row: Session, chain: seq<Token>, longer: seq<Token>, since: nat)
    requires Seen(row, chain, since) && |chain| <= |longer| && longer[..|chain|] == chain
    ensures Seen(row, longer, since)
  {
    var k :| since <= k <= |chain| && RowOf(row, chain[..k]);
    assert longer[..k] == chain[..k];
  }

  /** Time passing, or a revocation, disturbs no call. */
  lemma CallStands(config: Lifetimes, world: World, next: World, call: Call)
    requires CallSound(config, world, call)
    requires next.chain == world.chain && next.pricedAt == world.pricedAt && world.clock <= next.clock
    requires next.row == world.row || next.row == world.row.(revoked := true)
    ensures CallSound(config, next, call)
  {
  }

  lemma QuietKeeps(config: Lifetimes, world: World, next: World)
    requires Sound(config, world)
    requires next.chain == world.chain && next.pricedAt == world.pricedAt && world.clock <= next.clock && next.calls == world.calls
    requires next.row == world.row || next.row == world.row.(revoked := true)
    ensures Sound(config, next)
  {
    forall i | 0 <= i < |next.calls| ensures CallSound(config, next, next.calls[i]) {
      CallStands(config, world, next, world.calls[i]);
    }
  }

  lemma PresentKeeps(config: Lifetimes, world: World, token: Token)
    requires Sound(config, world)
    ensures Sound(config, Apply(config, world, Present(token)))
  {
    var next := Apply(config, world, Present(token));
    if token in world.chain {
      var call := Call(token, world.clock, |world.chain|, Arrived);
      assert world.chain[..|world.chain|] == world.chain;
      assert CallSound(config, next, call);
      forall i | 0 <= i < |next.calls| ensures CallSound(config, next, next.calls[i]) {
        if i < |world.calls| { CallStands(config, world, next, world.calls[i]); }
      }
    }
  }

  lemma GraceReproduces(config: Lifetimes, row: Session, chain: seq<Token>, presented: Token, now: int)
    requires RowOf(row, chain) && GraceApplies(config, row, Digest(presented), now)
    ensures |chain| > 1 && chain[|chain| - 2] == presented
    ensures GraceAnswer(config, row, Digest(presented), now) == Done(Returned(chain[|chain| - 1]))
  {
    assert Second(row.rotatedAt.value) == chain[|chain| - 1].issuedAt;
  }

  /** The moving call, when it replaces nothing. */
  lemma MovedCallSound(config: Lifetimes, world: World, call: Call)
    requires Sound(config, world) && CallSound(config, world, call) && !Replaces(world, call)
    ensures var (row, progress) := Advance(config, world.row, world.active, world.clock, call);
            CallSound(config, world.(row := row), call.(progress := progress))
  {
    match call.progress
    case Missed =>
      assert world.chain[..|world.chain|] == world.chain;
      assert Seen(world.row, world.chain, call.since);
    case Read(row) =>
      if GraceApplies(config, row, Digest(call.token), world.clock) {
        var k :| call.since <= k <= |world.chain| && RowOf(row, world.chain[..k]);
        GraceReproduces(config, row, world.chain[..k], call.token, world.clock);
        assert world.chain[k - 2] == call.token && 0 < k - 1 < |world.chain|;
        var answered := call.(progress := Done(Returned(world.chain[k - 1])));
        assert AnswersAt(config, world.chain, answered, k - 1, world.chain[k - 1]);
      }
    case Arrived =>
    case Barred =>
    case Found =>
    case Signed(next) =>
    case Priced(next, expiresAt, pricedAt) =>
    case Refused =>
    case Done(outcome) =>
  }

  lemma QuietMoveKeeps(config: Lifetimes, world: World, i: nat)
    requires Sound(config, world) && i < |world.calls| && !Replaces(world, world.calls[i])
    ensures Sound(config, Moved(config, world, i))
  {
    var next := Moved(config, world, i);
    MovedCallSound(config, world, world.calls[i]);
    forall j | 0 <= j < |next.calls| ensures CallSound(config, next, next.calls[j]) {
      if j == i {
        CallStands(config, world.(row := next.row), next, next.calls[i]);
      } else {
        CallStands(config, world, next, world.calls[j]);
      }
    }
  }

  /** The chain a replacement leaves is still ordered, and ends with the row. */
  lemma ReplacementOrdered(config: Lifetimes, world: World, i: nat)
    requires Sound(config, world) && i < |world.calls| && Replaces(world, world.calls[i])
    ensures var next := Moved(config, world, i);
            RowOf(next.row, next.chain) && Ordered(next.chain, next.clock) && next.chain[..|world.chain|] == world.chain
  {
    assert CallSound(config, world, world.calls[i]);
  }

  /** A call that had presented the new token had presented the old one. */
  lemma NewTokenIsUnknown(config: Lifetimes, world: World, i: nat, call: Call)
    requires Sound(config, world) && i < |world.calls| && Replaces(world, world.calls[i]) && CallSound(config, world, call)
    requires call.token == world.calls[i].progress.next
    ensures world.calls[i].token == call.token
  {
    assert CallSound(config, world, world.calls[i]);
    var k :| 0 <= k < call.since && world.chain[k] == call.token;
    assert world.chain[k].issuedAt <= world.chain[|world.chain| - 1].issuedAt;
  }

  lemma OtherCallStands(config: Lifetimes, world: World, i: nat, call: Call)
    requires Sound(config, world) && i < |world.calls| && Replaces(world, world.calls[i]) && CallSound(config, world, call)
    ensures CallSound(config, Moved(config, world, i), call)
  {
    var next := Moved(config, world, i);
    ReplacementOrdered(config, world, i);
    assert next.chain[..call.since] == world.chain[..call.since];
    match call.progress
    case Priced(_, _, _) => if call.token == world.calls[i].progress.next { NewTokenIsUnknown(config, world, i, call); }
    case Read(row) => SeenGrows(row, world.chain, next.chain, call.since);
    case Done(outcome) =>
      if outcome.Returned? { SucceedsGrows(config, world.chain, next.chain, call, outcome.token); }
    case Arrived =>
    case Barred =>
    case Found =>
    case Signed(_) =>
    case Missed =>
    case Refused =>
  }

  lemma ReplacingCallSound(config: Lifetimes, world: World, i: nat)
    requires Sound(config, world) && i < |world.calls| && Replaces(world, world.calls[i])
    ensures CallSound(config, Moved(config, world, i), Moved(config, world, i).calls[i])
  {
    var next, call := Moved(config, world, i), world.calls[i];
    assert CallSound(config, world, call);
    var n := |world.chain|;
    assert next.chain[n - 1] == call.token && next.chain[n] == call.progress.next;
    assert AnswersAt(config, next.chain, call, n, call.progress.next);
    assert AnswersAt(config, next.chain, next.calls[i], n, call.progress.next);
    assert next.chain[..call.since] == world.chain[..call.since];
  }

  lemma ReplacingKeeps(config: Lifetimes, world: World, i: nat)
    requires Sound(config, world) && i < |world.calls| && Replaces(world, world.calls[i])
    ensures Sound(config, Moved(config, world, i))
  {
    var next := Moved(config, world, i);
    ReplacementOrdered(config, world, i);
    assert CallSound(config, world, world.calls[i]);
    forall j | 0 <= j < |next.calls| ensures CallSound(config, next, next.calls[j]) {
      if j == i { ReplacingCallSound(config, world, i); } else { OtherCallStands(config, world, i, world.calls[j]); }
    }
  }

  lemma ApplyKeeps(config: Lifetimes, world: World, event: Event)
    requires Sound(config, world)
    ensures Sound(config, Apply(config, world, event))
  {
    match event
    case Present(token) => PresentKeeps(config, world, token);
    case Move(i) =>
      if i < |world.calls| {
        if Replaces(world, world.calls[i]) { ReplacingKeeps(config, world, i); } else { QuietMoveKeeps(config, world, i); }
      }
    case Tick(_) => QuietKeeps(config, world, Apply(config, world, event));
    case RevokedElsewhere => QuietKeeps(config, world, Apply(config, world, event));
    case AccountChanges(_) => QuietKeeps(config, world, Apply(config, world, event));
  }

  lemma StartSound(config: Lifetimes, signedAt: int, pricedAt: int, createdAt: int)
    requires signedAt <= createdAt && pricedAt <= createdAt
    ensures Sound(config, Start(config, signedAt, pricedAt, createdAt))
  {
  }

  lemma {:induction false} PlayKeeps(config: Lifetimes, start: World, events: seq<Event>)
    requires Sound(config, start)
    ensures Sound(config, Play(config, start, events))
  {
    if events != [] {
      PlayKeeps(config, start, events[..|events| - 1]);
      ApplyKeeps(config, Play(config, start, events[..|events| - 1]), events[|events| - 1]);
    }
  }
}
