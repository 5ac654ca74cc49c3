/** The response cache keyed by idempotency key. It is lossy: a save may fail and entries lapse. */
module Idempotency {
  import opened Clock
  import opened Wrappers
  import Redis

  const CACHE_PREFIX: string := "idempotency:"
  const WEBHOOK_PREFIX: string := "webhook:"

  /** The cache key of a client's idempotency key. No cache key is a lock key. */
  function CacheKey(key: string): (k: string)
    ensures |k| > 0 && k[0] == 'i'
  {
    CACHE_PREFIX + key
  }

  /** The cache key of a payment notification. */
  function WebhookKey(orderId: string, status: string): (k: string)
    ensures |k| > 0 && k[0] == 'w'
  {
    WEBHOOK_PREFIX + orderId + ":" + status
  }

  class Store {
    const rdb: Redis.Client

    constructor (rdb: Redis.Client)
      ensures this.rdb == rdb
    {
      this.rdb := rdb;
    }

    /** The saved response, if one is still there. */
    method Check(key: string, now: Time, up: bool) returns (r: Result<Option<string>>)
      ensures r == if up then Ok(Redis.Read(rdb.keys, key, now)) else Err(StoreDown)
    {
      r := rdb.Get(key, now, up);
    }

    method Save(key: string, response: string, ttl: int, now: Time, up: bool) returns (ok: bool)
      modifies rdb
      ensures ok == up
      ensures rdb.keys == if up then Redis.Put(old(rdb.keys), key, response, ttl, now) else old(rdb.keys)
    {
      ok := rdb.Set(key, response, ttl, now, up);
    }
  }
}
