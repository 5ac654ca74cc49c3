/** The owner-tagged lock over Redis, and what any interleaving of its operations guarantees. */
module Lock {
  import opened Clock
  import opened Wrappers
  import Redis

  const LOCK_PREFIX: string := "spot:"
  const LOCK_SUFFIX: string := ":lock"

  /** The key guarding a spot. Distinct spots have distinct keys (LockKeyInjective). */
  function LockKey(spot: string): (key: string)
    ensures |key| > 0 && key[0] == 's'
  {
    LOCK_PREFIX + spot + LOCK_SUFFIX
  }

  lemma LockKeyInjective(a: string, b: string)
    requires LockKey(a) == LockKey(b)
    ensures a == b
  {
    assert a == LockKey(a)[5..|LockKey(a)| - 5];
    assert b == LockKey(b)[5..|LockKey(b)| - 5];
  }

  class Locker {
    const rdb: Redis.Client

    constructor (rdb: Redis.Client)
      ensures this.rdb == rdb
    {
      this.rdb := rdb;
    }

    /** True if the lock was free and is now held by value. */
    method Acquire(key: string, value: string, ttl: int, now: Time, up: bool) returns (r: Result<bool>)
      modifies rdb
      ensures r == if up then Ok(!Redis.Live(old(rdb.keys), key, now)) else Err(StoreDown)
      ensures rdb.keys == if up then Redis.PutIfAbsent(old(rdb.keys), key, value, ttl, now) else old(rdb.keys)
    {
      r := rdb.SetNX(key, value, ttl, now, up);
    }

    /** Deletes the lock only if value still holds it. */
    method Release(key: string, value: string, up: bool) returns (ok: bool)
      modifies rdb
      ensures ok == up
      ensures rdb.keys == if up then Redis.DeleteIfEqual(old(rdb.keys), key, value) else old(rdb.keys)
    {
      ok := rdb.ReleaseScript(key, value, up);
    }
  }

  // ---- Traces: any interleaving of operations on any keys ----

  datatype Op =
    | Acquire(key: string, owner: string, ttl: int)
    | Release(key: string, owner: string)
    | Extend(key: string, ttl: int)

  datatype Event = Event(at: Time, op: Op)

  function Step(db: Redis.Keyspace, e: Event): Redis.Keyspace {
    match e.op
    case Acquire(key, owner, ttl) => Redis.PutIfAbsent(db, key, owner, ttl, e.at)
    case Release(key, owner) => Redis.DeleteIfEqual(db, key, owner)
    case Extend(key, ttl) => Redis.Extended(db, key, ttl, e.at)
  }

  function Run(db: Redis.Keyspace, es: seq<Event>): Redis.Keyspace {
    if es == [] then db else Step(Run(db, es[..|es| - 1]), es[|es| - 1])
  }

  ghost predicate Ordered(es: seq<Event>) {
    forall i, j | 0 <= i <= j < |es| :: es[i].at <= es[j].at
  }

  /** Event i is an acquisition that succeeded. */
  ghost predicate Acquired(db: Redis.Keyspace, es: seq<Event>, i: nat)
    requires i < |es|
  {
    es[i].op.Acquire? && !Redis.Live(Run(db, es[..i]), es[i].op.key, es[i].at)
  }

  /** When the lease taken at event i runs out, as the extensions before event j have set it. */
  function LeaseEnd(es: seq<Event>, i: nat, j: nat): Time
    requires i < j <= |es| && es[i].op.Acquire?
    decreases j
  {
    if j == i + 1 then es[i].at + es[i].op.ttl
    else
      var end := LeaseEnd(es, i, j - 1);
      var e := es[j - 1];
      if e.op.Extend? && e.op.key == es[i].op.key && e.at < end then e.at + e.op.ttl else end
  }

  /** The lease taken at i is over at m: its owner released it there, or its time had run out. */
  ghost predicate Ended(es: seq<Event>, i: nat, m: nat)
    requires i < m < |es| && es[i].op.Acquire?
  {
    es[m].op == Release(es[i].op.key, es[i].op.owner) || es[m].at >= LeaseEnd(es, i, m)
  }

  /** Until a lease is over the key holds its owner and its current deadline, whatever anyone else does. */
  lemma {:induction false} LeasePersists(db: Redis.Keyspace, es: seq<Event>, i: nat, j: nat)
    requires i < j <= |es| && Acquired(db, es, i)
    requires forall m | i < m < j :: !Ended(es, i, m)
    ensures var key := es[i].op.key;
            var now := Run(db, es[..j]);
            key in now && now[key] == Redis.Entry(es[i].op.owner, LeaseEnd(es, i, j))
    decreases j
  {
    assert es[..j][..j - 1] == es[..j - 1];
    if j > i + 1 {
      LeasePersists(db, es, i, j - 1);
      assert !Ended(es, i, j - 1);
    }
  }

  /** Mutual exclusion for every interleaving: between two successful acquisitions of one key, the first owner
      released the lock or its lease, extensions included, ran out. */
  lemma TenuresDoNotOverlap(db: Redis.Keyspace, es: seq<Event>, i: nat, j: nat)
    requires i < j < |es| && Acquired(db, es, i) && Acquired(db, es, j)
    requires es[i].op.key == es[j].op.key
    ensures exists m :: i < m <= j && Ended(es, i, m)
  {
    if forall m | i < m <= j :: !Ended(es, i, m) {
      LeasePersists(db, es, i, j);
      assert Ended(es, i, j);
    }
  }

  /** Where every extension grants the longest lease anyone takes, as in this system, no extension shortens one. */
  lemma {:induction false} ExtensionsOnlyLengthen(es: seq<Event>, i: nat, j: nat, k: nat, longest: int)
    requires i < j <= k <= |es| && es[i].op.Acquire? && Ordered(es)
    requires es[i].op.ttl <= longest
    requires forall m | 0 <= m < |es| && es[m].op.Extend? :: es[m].op.ttl == longest
    ensures LeaseEnd(es, i, j) <= LeaseEnd(es, i, k) <= es[k - 1].at + longest
    decreases k
  {
    if j < k {
      ExtensionsOnlyLengthen(es, i, j, k - 1, longest);
    } else if k > i + 1 {
      ExtensionsOnlyLengthen(es, i, k - 1, k - 1, longest);
    }
  }
}
