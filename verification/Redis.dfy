/** The Redis keyspace the services share: string values with a deadline, after which a key reads as absent. */
module Redis {
  import opened Clock
  import opened Wrappers

  datatype Entry = Entry(value: string, deadline: Time)

  type Keyspace = map<string, Entry>

  predicate Live(db: Keyspace, key: string, now: Time) {
    key in db && now < db[key].deadline
  }

  function Read(db: Keyspace, key: string, now: Time): Option<string> {
    if Live(db, key, now) then Some(db[key].value) else None
  }

  function Put(db: Keyspace, key: string, value: string, ttl: int, now: Time): Keyspace {
    db[key := Entry(value, now + ttl)]
  }

  /** SET NX with a time to live. */
  function PutIfAbsent(db: Keyspace, key: string, value: string, ttl: int, now: Time): Keyspace {
    if Live(db, key, now) then db else Put(db, key, value, ttl, now)
  }

  /** The compare-and-delete script. It needs no clock: a lapsed entry already reads as absent, so dropping it
      changes nothing anyone can see (DeleteIfEqualSeen). */
  function DeleteIfEqual(db: Keyspace, key: string, value: string): Keyspace {
    if key in db && db[key].value == value then db - {key} else db
  }

  /** EXPIRE: gives a live key a new deadline and does nothing to an absent one. */
  function Extended(db: Keyspace, key: string, ttl: int, now: Time): Keyspace {
    if Live(db, key, now) then db[key := db[key].(deadline := now + ttl)] else db
  }

  /** Two keyspaces that no reader can tell apart from now on. */
  ghost predicate SameFrom(db: Keyspace, other: Keyspace, now: Time) {
    forall key, t | t >= now :: Read(db, key, t) == Read(other, key, t)
  }

  /** Every later read after the script: the key is gone exactly if it then held the given value. */
  lemma DeleteIfEqualSeen(db: Keyspace, key: string, value: string, other: string, t: Time)
    ensures Read(DeleteIfEqual(db, key, value), other, t) ==
            if other == key && Read(db, key, t) == Some(value) then None else Read(db, other, t)
  {
  }

  /** A caller that takes a free key and gives it back leaves no trace. */
  lemma TakeAndGiveBack(db: Keyspace, key: string, value: string, ttl: int, now: Time)
    requires !Live(db, key, now)
    ensures SameFrom(DeleteIfEqual(PutIfAbsent(db, key, value, ttl, now), key, value), db, now)
  {
  }

  /** The shared connection. The flag `up` of each call says whether the server answered;
      a call it did not answer has no effect. */
  class Client {
    var keys: Keyspace

    constructor ()
      ensures keys == map[]
    {
      keys := map[];
    }

    method Get(key: string, now: Time, up: bool) returns (r: Result<Option<string>>)
      ensures r == if up then Ok(Read(keys, key, now)) else Err(StoreDown)
    {
      if !up {
        return Err(StoreDown);
      }
      if key in keys && now < keys[key].deadline {
        return Ok(Some(keys[key].value));
      }
      return Ok(None);
    }

    method Set(key: string, value: string, ttl: int, now: Time, up: bool) returns (ok: bool)
      modifies this
      ensures ok == up
      ensures keys == if up then Put(old(keys), key, value, ttl, now) else old(keys)
    {
      if up {
        keys := keys[key := Entry(value, now + ttl)];
      }
      return up;
    }

    method SetNX(key: string, value: string, ttl: int, now: Time, up: bool) returns (r: Result<bool>)
      modifies this
      ensures r == if up then Ok(!Live(old(keys), key, now)) else Err(StoreDown)
      ensures keys == if up then PutIfAbsent(old(keys), key, value, ttl, now) else old(keys)
    {
      if !up {
        return Err(StoreDown);
      }
      if key in keys && now < keys[key].deadline {
        return Ok(false);
      }
      keys := keys[key := Entry(value, now + ttl)];
      return Ok(true);
    }

    method ReleaseScript(key: string, value: string, up: bool) returns (ok: bool)
      modifies this
      ensures ok == up
      ensures keys == if up then DeleteIfEqual(old(keys), key, value) else old(keys)
    {
      if up && key in keys && keys[key].value == value {
        keys := keys - {key};
      }
      return up;
    }

    method Expire(key: string, ttl: int, now: Time, up: bool)
      modifies this
      ensures keys == if up then Extended(old(keys), key, ttl, now) else old(keys)
    {
      if up && key in keys && now < keys[key].deadline {
        keys := keys[key := keys[key].(deadline := now + ttl)];
      }
    }
  }
}
