/**
 The bounded in-memory cache with a time to live, against a log of what was
 done to it. The entries are kept in insertion order, oldest first.
 */
module TtlCaching {
  import opened Tables

  datatype Entry<T> = Entry(key: string, value: T, expiresAt: int)

  predicate HasKey<T>(entries: seq<Entry<T>>, key: string) {
    exists i :: 0 <= i < |entries| && entries[i].key == key
  }

  ghost predicate UniqueKeys<T>(entries: seq<Entry<T>>) {
    forall i, j :: 0 <= i < j < |entries| ==> entries[i].key != entries[j].key
  }

  function Find<T>(entries: seq<Entry<T>>, key: string): (r: Option<Entry<T>>)
    ensures r.Some? ==> r.value in entries && r.value.key == key
    ensures r.None? <==> !HasKey(entries, key)
  {
    if entries == [] then None
    else if entries[0].key == key then Some(entries[0])
    else
      var rest := Find(entries[1..], key);
      assert rest.Some? ==> rest.value in entries;
      assert forall i :: 1 <= i < |entries| ==> entries[i] == entries[1..][i - 1];
      rest
  }

  function Without<T>(entries: seq<Entry<T>>, key: string): (r: seq<Entry<T>>)
    ensures forall e | e in r :: e in entries && e.key != key
    ensures forall e | e in entries && e.key != key :: e in r
    ensures |r| <= |entries|
  {
    if entries == [] then []
    else if entries[|entries| - 1].key == key then Without(entries[..|entries| - 1], key)
    else Without(entries[..|entries| - 1], key) + [entries[|entries| - 1]]
  }

  function Lookup<T>(entries: seq<Entry<T>>, key: string, now: int): Option<T> {
    var e := Find(entries, key);
    if e.Some? && e.value.expiresAt > now then Some(e.value.value) else None
  }

  /** A read drops the entry it finds expired. */
  function AfterGet<T>(entries: seq<Entry<T>>, key: string, now: int): seq<Entry<T>> {
    if Lookup(entries, key, now).Some? then entries else Without(entries, key)
  }

  function Trim<T>(entries: seq<Entry<T>>, max: nat): seq<Entry<T>> {
    if |entries| > max then entries[|entries| - max..] else entries
  }

  function AfterSet<T>(entries: seq<Entry<T>>, key: string, value: T, expiresAt: int, max: nat): seq<Entry<T>> {
    Trim(Without(entries, key) + [Entry(key, value, expiresAt)], max)
  }

  class TtlCache<T> {
    const ttlMs: int
    const maxEntries: nat
    var entries: seq<Entry<T>>

    constructor (ttlMs: int, maxEntries: nat := 500)
      ensures this.ttlMs == ttlMs && this.maxEntries == maxEntries && entries == []
    {
      this.ttlMs, this.maxEntries, entries := ttlMs, maxEntries, [];
    }

    method Get(key: string, now: int) returns (r: Option<T>)
      modifies this`entries
      ensures r == Lookup(old(entries), key, now)
      ensures entries == AfterGet(old(entries), key, now)
    {
      var entry := Find(entries, key);
      if entry.None? {
        WithoutAbsent(entries, key);
        return None;
      }
      if entry.value.expiresAt <= now {
        entries := Without(entries, key);
        return None;
      }
      return Some(entry.value.value);
    }

    method Set(key: string, value: T, now: int)
      modifies this`entries
      ensures entries == AfterSet(old(entries), key, value, now + ttlMs, maxEntries)
      ensures |entries| <= maxEntries
    {
      entries := Without(entries, key);
      entries := entries + [Entry(key, value, now + ttlMs)];
      ghost var full := entries;
      while |entries| > maxEntries
        invariant |entries| <= |full| && entries == full[|full| - |entries|..]
        invariant if |full| > maxEntries then |entries| >= maxEntries else |entries| == |full|
      {
        entries := entries[1..];
      }
    }

    method Delete(key: string)
      modifies this`entries
      ensures entries == Without(old(entries), key)
    {
      entries := Without(entries, key);
    }

    method Clear()
      modifies this`entries
      ensures entries == []
    {
      entries := [];
    }
  }

  // ----- the log -----

  datatype Op<T> = Get(key: string, at: int) | Set(key: string, value: T, at: int) | Delete(key: string, at: int) | Clear(at: int)

  function Apply<T>(entries: seq<Entry<T>>, op: Op<T>, ttlMs: int, max: nat): seq<Entry<T>> {
    match op
    case Get(key, at) => AfterGet(entries, key, at)
    case Set(key, value, at) => AfterSet(entries, key, value, at + ttlMs, max)
    case Delete(key, _) => Without(entries, key)
    case Clear(_) => []
  }

  function Entries<T>(ops: seq<Op<T>>, ttlMs: int, max: nat): seq<Entry<T>> {
    if ops == [] then [] else Apply(Entries(ops[..|ops| - 1], ttlMs, max), ops[|ops| - 1], ttlMs, max)
  }

  /** What a plain map would hold for `key`, and since when. */
  function LastWrite<T>(ops: seq<Op<T>>, key: string): Option<(T, int)> {
    if ops == [] then None
    else
      match ops[|ops| - 1]
      case Set(k, value, at) => if k == key then Some((value, at)) else LastWrite(ops[..|ops| - 1], key)
      case Delete(k, _) => if k == key then None else LastWrite(ops[..|ops| - 1], key)
      case Clear(_) => None
      case Get(_, _) => LastWrite(ops[..|ops| - 1], key)
  }

  /** The other keys set since `key` was last set. */
  function OthersSince<T>(ops: seq<Op<T>>, key: string): set<string> {
    if ops == [] then {}
    else
      match ops[|ops| - 1]
      case Set(k, _, _) => if k == key then {} else OthersSince(ops[..|ops| - 1], key) + {k}
      case _ => OthersSince(ops[..|ops| - 1], key)
  }

  ghost predicate Chronological<T>(ops: seq<Op<T>>) {
    forall i, j :: 0 <= i < j < |ops| ==> ops[i].at <= ops[j].at
  }

  // ----- helpers -----

  lemma {:induction false} WithoutAbsent<T>(entries: seq<Entry<T>>, key: string)
    requires !HasKey(entries, key)
    ensures Without(entries, key) == entries
  {
    if entries != [] {
      var init, last := entries[..|entries| - 1], entries[|entries| - 1];
      assert entries == init + [last] && last in entries;
      forall e | e in init ensures e.key != key { assert e in entries; }
      WithoutAbsent(init, key);
    }
  }

  /** The keys behind each entry were all set after it. */
  ghost predicate BehindSetLater<T>(entries: seq<Entry<T>>, ops: seq<Op<T>>) {
    forall i, j :: 0 <= i < j < |entries| ==> entries[j].key in OthersSince(ops, entries[i].key)
  }

  /** Dropping a key keeps the order and the distinctness of the rest. */
  lemma {:induction false} WithoutKeepsOrder<T>(entries: seq<Entry<T>>, key: string, ops: seq<Op<T>>)
    requires UniqueKeys(entries) && BehindSetLater(entries, ops)
    ensures UniqueKeys(Without(entries, key)) && BehindSetLater(Without(entries, key), ops)
  {
    if entries != [] {
      var init, last := entries[..|entries| - 1], entries[|entries| - 1];
      WithoutKeepsOrder(init, key, ops);
      forall e | e in Without(init, key)
        ensures last.key in OthersSince(ops, e.key) && e.key != last.key
      {
        var i :| 0 <= i < |init| && init[i] == e;
      }
      BackKeepsOrder(Without(init, key), last, ops);
    }
  }

  lemma BackKeepsOrder<T>(entries: seq<Entry<T>>, last: Entry<T>, ops: seq<Op<T>>)
    requires UniqueKeys(entries) && BehindSetLater(entries, ops)
    requires forall e | e in entries :: last.key in OthersSince(ops, e.key) && e.key != last.key
    ensures UniqueKeys(entries + [last]) && BehindSetLater(entries + [last], ops)
  {
  }

  lemma {:induction false} KeyCount<T>(entries: seq<Entry<T>>)
    requires UniqueKeys(entries)
    ensures |set e | e in entries :: e.key| == |entries|
  {
    if entries != [] {
      var init, last := entries[..|entries| - 1], entries[|entries| - 1];
      KeyCount(init);
      assert (set e | e in entries :: e.key) == (set e | e in init :: e.key) + {last.key} by {
        assert entries == init + [last];
      }
    }
  }

  /** The invariant: what is cached is what was last written, in write order, and
      a key that is gone was pushed out by at least `max` others or is expired. */
  ghost predicate Tracks<T>(entries: seq<Entry<T>>, ops: seq<Op<T>>, ttlMs: int, max: nat) {
    && UniqueKeys(entries)
    && |entries| <= max
    && BehindSetLater(entries, ops)
    && (forall e | e in entries :: LastWrite(ops, e.key).Some? && LastWrite(ops, e.key).value.0 == e.value
                                     && LastWrite(ops, e.key).value.1 + ttlMs == e.expiresAt)
    && (forall key :: LastWrite(ops, key).Some? && !HasKey(entries, key) ==>
          || |OthersSince(ops, key)| >= max
          || LastWrite(ops, key).value.1 + ttlMs <= ops[|ops| - 1].at)
  }

  lemma Logged<T>(ops: seq<Op<T>>, op: Op<T>, key: string)
    ensures LastWrite(ops + [op], key) ==
            match op
            case Set(k, value, at) => if k == key then Some((value, at)) else LastWrite(ops, key)
            case Delete(k, _) => if k == key then None else LastWrite(ops, key)
            case Clear(_) => None
            case Get(_, _) => LastWrite(ops, key)
    ensures OthersSince(ops + [op], key) ==
            if op.Set? then (if op.key == key then {} else OthersSince(ops, key) + {op.key}) else OthersSince(ops, key)
  {
    assert (ops + [op])[..|ops|] == ops;
  }

  /** Writing a key puts it behind all the others. */
  lemma AppendKeepsOrder<T>(entries: seq<Entry<T>>, ops: seq<Op<T>>, op: Op<T>, newest: Entry<T>)
    requires op.Set? && newest.key == op.key && UniqueKeys(entries) && BehindSetLater(entries, ops)
    ensures UniqueKeys(Without(entries, op.key) + [newest])
    ensures BehindSetLater(Without(entries, op.key) + [newest], ops + [op])
  {
    WithoutKeepsOrder(entries, op.key, ops);
    var kept := Without(entries, op.key);
    var full := kept + [newest];
    forall i, j | 0 <= i < j < |full|
      ensures full[i].key != full[j].key && full[j].key in OthersSince(ops + [op], full[i].key)
    {
      assert full[i] == kept[i] && kept[i] in kept;
      Logged(ops, op, full[i].key);
    }
  }

  lemma TrimKeepsOrder<T>(full: seq<Entry<T>>, ops: seq<Op<T>>, max: nat)
    requires UniqueKeys(full) && BehindSetLater(full, ops)
    ensures UniqueKeys(Trim(full, max)) && BehindSetLater(Trim(full, max), ops) && |Trim(full, max)| <= max
    ensures forall i :: 0 <= i < |full| && i >= |full| - max ==> HasKey(Trim(full, max), full[i].key)
  {
    var next := Trim(full, max);
    forall i | 0 <= i < |full| && i >= |full| - max ensures HasKey(next, full[i].key) {
      assert next[i - (|full| - |next|)] == full[i];
    }
  }

  lemma SetTracks<T>(entries: seq<Entry<T>>, ops: seq<Op<T>>, op: Op<T>, ttlMs: int, max: nat)
    requires op.Set? && Tracks(entries, ops, ttlMs, max) && Chronological(ops + [op])
    ensures Tracks(Apply(entries, op, ttlMs, max), ops + [op], ttlMs, max)
  {
    var later := ops + [op];
    var newest := Entry(op.key, op.value, op.at + ttlMs);
    var full := Without(entries, op.key) + [newest];
    AppendKeepsOrder(entries, ops, op, newest);
    TrimKeepsOrder(full, later, max);
    forall e | e in Trim(full, max)
      ensures LastWrite(later, e.key) == Some((e.value, e.expiresAt - ttlMs))
    {
      assert e in full;
      Logged(ops, op, e.key);
    }
    forall key | LastWrite(later, key).Some? && !HasKey(Trim(full, max), key)
      ensures |OthersSince(later, key)| >= max || LastWrite(later, key).value.1 + ttlMs <= op.at
    {
      Logged(ops, op, key);
      SetAccounts(entries, ops, op, ttlMs, max, full, key);
    }
  }

  /** A key missing after a write was pushed out, or was missing before. */
  lemma SetAccounts<T>(entries: seq<Entry<T>>, ops: seq<Op<T>>, op: Op<T>, ttlMs: int, max: nat, full: seq<Entry<T>>, key: string)
    requires op.Set? && Tracks(entries, ops, ttlMs, max) && Chronological(ops + [op])
    requires full == Without(entries, op.key) + [Entry(op.key, op.value, op.at + ttlMs)]
    requires UniqueKeys(full) && BehindSetLater(full, ops + [op])
    requires LastWrite(ops + [op], key).Some? && !HasKey(Trim(full, max), key)
    ensures |OthersSince(ops + [op], key)| >= max || LastWrite(ops + [op], key).value.1 + ttlMs <= op.at
  {
    var later := ops + [op];
    Logged(ops, op, key);
    assert full[|full| - 1].key == op.key;
    if HasKey(full, key) {
      TrimKeepsOrder(full, later, max);
      var i :| 0 <= i < |full| && full[i].key == key;
      var behind := full[|full| - max..];
      KeyCount(behind);
      var keys := set e | e in behind :: e.key;
      assert keys <= OthersSince(later, key);
      SubsetSize(keys, OthersSince(later, key));
    } else {
      assert key != op.key;
      MissingBefore(entries, op.key, full[|full| - 1], key);
      SubsetSize(OthersSince(ops, key), OthersSince(later, key));
      assert ops != [];
      assert later[|ops| - 1].at <= later[|ops|].at;
    }
  }

  lemma MissingBefore<T>(entries: seq<Entry<T>>, dropped: string, newest: Entry<T>, key: string)
    requires key != dropped && !HasKey(Without(entries, dropped) + [newest], key)
    ensures !HasKey(entries, key)
  {
    var full := Without(entries, dropped) + [newest];
    forall i | 0 <= i < |entries| && entries[i].key != dropped ensures entries[i].key != key {
      assert entries[i] in Without(entries, dropped);
      var j :| 0 <= j < |Without(entries, dropped)| && Without(entries, dropped)[j] == entries[i];
      assert full[j] == entries[i];
    }
  }

  lemma {:induction false} SubsetSize(a: set<string>, b: set<string>)
    requires a <= b
    ensures |a| <= |b|
  {
    assert b == a + (b - a);
  }

  /** Reads and deletions of one key. */
  lemma DropTracks<T>(entries: seq<Entry<T>>, ops: seq<Op<T>>, op: Op<T>, ttlMs: int, max: nat)
    requires (op.Get? || op.Delete?) && Tracks(entries, ops, ttlMs, max) && Chronological(ops + [op])
    ensures Tracks(Apply(entries, op, ttlMs, max), ops + [op], ttlMs, max)
  {
    var later := ops + [op];
    WithoutKeepsOrder(entries, op.key, ops);
    var next := Apply(entries, op, ttlMs, max);
    forall i, j | 0 <= i < j < |next| ensures next[j].key in OthersSince(later, next[i].key) {
      Logged(ops, op, next[i].key);
    }
    forall e | e in next ensures LastWrite(later, e.key) == Some((e.value, e.expiresAt - ttlMs)) {
      assert e in entries;
      Logged(ops, op, e.key);
    }
    forall key | LastWrite(later, key).Some? && !HasKey(next, key)
      ensures |OthersSince(later, key)| >= max || LastWrite(later, key).value.1 + ttlMs <= op.at
    {
      Logged(ops, op, key);
      if HasKey(entries, key) {
        var i :| 0 <= i < |entries| && entries[i].key == key;
        SingleEntry(entries, i);
        assert entries[i] in next || key == op.key;
      } else {
        assert ops != [];
        assert later[|ops| - 1].at <= later[|ops|].at;
      }
    }
  }

  lemma SingleEntry<T>(entries: seq<Entry<T>>, i: nat)
    requires UniqueKeys(entries) && i < |entries|
    ensures Find(entries, entries[i].key) == Some(entries[i])
  {
    var e := Find(entries, entries[i].key);
    assert HasKey(entries, entries[i].key);
    var j :| 0 <= j < |entries| && entries[j] == e.value;
  }

  lemma {:induction false} EntriesTrack<T>(ops: seq<Op<T>>, ttlMs: int, max: nat)
    requires Chronological(ops)
    ensures Tracks(Entries(ops, ttlMs, max), ops, ttlMs, max)
  {
    if ops != [] {
      var before, op := ops[..|ops| - 1], ops[|ops| - 1];
      assert before + [op] == ops;
      EntriesTrack(before, ttlMs, max);
      match op
      case Set(_, _, _) => SetTracks(Entries(before, ttlMs, max), before, op, ttlMs, max);
      case Clear(_) =>
      case _ => DropTracks(Entries(before, ttlMs, max), before, op, ttlMs, max);
    }
  }

  // ----- one call -----

  /** A read drops the entry of its key when it has expired, and nothing else. */
  lemma ReadDropsExpired<T>(entries: seq<Entry<T>>, key: string, now: int, e: Entry<T>)
    requires UniqueKeys(entries)
    ensures e in AfterGet(entries, key, now) <==> e in entries && (e.key != key || now < e.expiresAt)
  {
    if e in entries && e.key == key {
      var i :| 0 <= i < |entries| && entries[i] == e;
      SingleEntry(entries, i);
    }
  }

  /** A write puts its entry behind the others, and the oldest go while there are too
      many. */
  lemma WriteIsLast<T>(entries: seq<Entry<T>>, key: string, value: T, expiresAt: int, max: nat)
    requires max > 0
    ensures var next, others := AfterSet(entries, key, value, expiresAt, max), Without(entries, key);
            var kept := if |others| < max then |others| else max - 1;
            next == others[|others| - kept..] + [Entry(key, value, expiresAt)]
  {
  }

  // ----- what the cache promises -----

  /** A read only ever returns the last value written, and never a stale one. */
  lemma ReadsLastWrite<T>(ops: seq<Op<T>>, ttlMs: int, max: nat, key: string, now: int)
    requires Chronological(ops)
    ensures Lookup(Entries(ops, ttlMs, max), key, now).Some? ==>
              && LastWrite(ops, key).Some?
              && Lookup(Entries(ops, ttlMs, max), key, now).value == LastWrite(ops, key).value.0
              && now < LastWrite(ops, key).value.1 + ttlMs
  {
    EntriesTrack(ops, ttlMs, max);
  }

  lemma NeverOverfull<T>(ops: seq<Op<T>>, ttlMs: int, max: nat)
    requires Chronological(ops)
    ensures |Entries(ops, ttlMs, max)| <= max
  {
    EntriesTrack(ops, ttlMs, max);
  }

  /** A live value is still there while fewer than `max` other keys were set. */
  lemma KeepsLiveValue<T>(ops: seq<Op<T>>, ttlMs: int, max: nat, key: string, now: int)
    requires Chronological(ops) && (ops == [] || ops[|ops| - 1].at <= now)
    requires LastWrite(ops, key).Some? && now < LastWrite(ops, key).value.1 + ttlMs
    requires |OthersSince(ops, key)| < max
    ensures Lookup(Entries(ops, ttlMs, max), key, now) == Some(LastWrite(ops, key).value.0)
  {
    EntriesTrack(ops, ttlMs, max);
    assert HasKey(Entries(ops, ttlMs, max), key);
  }
}
