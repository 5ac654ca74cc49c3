/** The gateway's sliding-window rate limiter: per client, the instants of recent requests, compacted in place. */
module RateLimiter {
  import opened Clock

  /** The instants of s strictly after the cutoff, in order. */
  function After(s: seq<Time>, cutoff: Time): seq<Time> {
    if s == [] then []
    else After(s[..|s| - 1], cutoff) + if s[|s| - 1] > cutoff then [s[|s| - 1]] else []
  }

  /** What each client has stored; an unknown client has nothing. */
  type Log<K> = map<K, seq<Time>>

  function At<K(==)>(log: Log<K>, key: K): seq<Time> {
    if key in log then log[key] else []
  }

  /** One request: prune the client's own list and admit the request if fewer than limit instants remain. */
  function Admits<K(==)>(log: Log<K>, key: K, now: Time, limit: int, window: int): bool {
    |After(At(log, key), now - window)| < limit
  }

  function Requested<K(==)>(log: Log<K>, key: K, now: Time, limit: int, window: int): Log<K> {
    var valid := After(At(log, key), now - window);
    if |valid| < limit then log[key := valid + [now]] else log[key := valid]
  }

  /** One cleanup: prune every list and forget the clients left with none. */
  function Cleaned<K(==)>(log: Log<K>, now: Time, window: int): Log<K> {
    map key | key in log && After(log[key], now - window) != [] :: After(log[key], now - window)
  }

  /** A slice: the first len cells of a buffer that may have room for more. */
  datatype Slice = Slice(buf: array<Time>, len: nat)

  ghost predicate Shows(slice: Slice, list: seq<Time>)
    reads slice.buf
  {
    slice.len <= slice.buf.Length && slice.buf[..slice.len] == list
  }

  class Limiter<K(==)> {
    var requests: map<K, Slice>
    const limit: int
    const window: int
    ghost var contents: Log<K>         // what the slices hold
    ghost var owner: map<array<Time>, K>  // the client each buffer serves

    /** Every client has a buffer of its own. */
    ghost predicate Valid()
      reads this, owner.Keys
    {
      && requests.Keys == contents.Keys
      && (forall key | key in requests :: requests[key].buf in owner && owner[requests[key].buf] == key)
      && (forall key | key in requests :: Shows(requests[key], contents[key]))
    }

    constructor (limit: int, window: int)
      ensures Valid() && contents == map[] && owner == map[]
      ensures this.limit == limit && this.window == window
    {
      this.limit := limit;
      this.window := window;
      requests := map[];
      contents := map[];
      owner := map[];
    }

    /** Valid, but for what one client has stored. */
    ghost predicate ValidExcept(key: K)
      reads this, owner.Keys
    {
      && requests.Keys == contents.Keys
      && (forall k | k in requests && k != key :: requests[k].buf in owner && owner[requests[k].buf] == k)
      && (forall k | k in requests && k != key :: Shows(requests[k], contents[k]))
    }

    method Store(key: K, slice: Slice, ghost list: seq<Time>)
      requires ValidExcept(key) && Shows(slice, list)
      requires slice.buf in owner ==> owner[slice.buf] == key
      modifies this
      ensures Valid()
      ensures contents == old(contents)[key := list] && owner == old(owner)[slice.buf := key]
    {
      requests := requests[key := slice];
      contents := contents[key := list];
      owner := owner[slice.buf := key];
    }

    /** Admits the request exactly if the specification does, and leaves the specified lists: the pruning reads and
        writes the same buffer, and touches no other client's. */
    method Allow(key: K, now: Time) returns (allowed: bool)
      requires Valid()
      modifies this, owner.Keys
      ensures Valid() && fresh(owner.Keys - old(owner.Keys))
      ensures allowed == Admits(old(contents), key, now, limit, window)
      ensures contents == Requested(old(contents), key, now, limit, window)
    {
      var slice;
      if key in requests {
        slice := requests[key];
      } else {
        var none := new Time[0];
        slice := Slice(none, 0);
      }
      assert slice.buf[..slice.len] == At(contents, key);

      var kept := Compact(slice.buf, slice.len, now - window);
      ghost var list := After(At(contents, key), now - window);
      var valid := Slice(slice.buf, kept);
      assert ValidExcept(key) && Shows(valid, list);
      if kept >= limit {
        Store(key, valid, list);
        return false;
      }
      var grown := Append(valid, now);
      assert ValidExcept(key);
      Store(key, grown, list + [now]);
      return true;
    }

    /** The periodic cleanup. */
    method Cleanup(now: Time)
      requires Valid()
      modifies this, owner.Keys
      ensures Valid() && owner == old(owner)
      ensures contents == Cleaned(old(contents), now, window)
    {
      var cutoff := now - window;
      var left := requests.Keys;
      CleanNone(contents, cutoff);
      while left != {}
        invariant Valid() && left <= requests.Keys && owner == old(owner)
        invariant contents == PartlyCleaned(old(contents), left, cutoff)
        decreases left
      {
        var key :| key in left;
        CleanOneMore(old(contents), left, key, cutoff);
        Visit(key, cutoff);
        left := left - {key};
      }
      CleanAll(old(contents), now, window);
    }

    /** One client's turn in the cleanup. */
    method Visit(key: K, cutoff: Time)
      requires Valid() && key in requests
      modifies this, requests[key].buf
      ensures Valid() && owner == old(owner)
      ensures var valid := After(old(contents)[key], cutoff);
              contents == if valid == [] then old(contents) - {key} else old(contents)[key := valid]
    {
      var slice := requests[key];
      var kept := Compact(slice.buf, slice.len, cutoff);
      assert ValidExcept(key);
      if kept == 0 {
        requests := requests - {key};
        contents := contents - {key};
      } else {
        Store(key, Slice(slice.buf, kept), After(contents[key], cutoff));
      }
    }
  }

  /** The log midway through a cleanup that still has the clients of left to visit. */
  ghost function PartlyCleaned<K>(log: Log<K>, left: set<K>, cutoff: Time): Log<K> {
    map key | key in log && (key in left || After(log[key], cutoff) != []) ::
      if key in left then log[key] else After(log[key], cutoff)
  }

  lemma CleanNone<K>(log: Log<K>, cutoff: Time)
    ensures PartlyCleaned(log, log.Keys, cutoff) == log
  {
  }

  lemma CleanAll<K>(log: Log<K>, now: Time, window: int)
    ensures PartlyCleaned(log, {}, now - window) == Cleaned(log, now, window)
  {
  }

  lemma CleanOneMore<K>(log: Log<K>, left: set<K>, key: K, cutoff: Time)
    requires key in left && key in log
    ensures var partly := PartlyCleaned(log, left, cutoff);
            var valid := After(log[key], cutoff);
            && key in partly && partly[key] == log[key]
            && PartlyCleaned(log, left - {key}, cutoff) ==
               if valid == [] then partly - {key} else partly[key := valid]
  {
  }

  /** The aliased compaction: reads cell i and writes cell kept <= i of the same buffer. */
  method Compact(buf: array<Time>, len: nat, cutoff: Time) returns (kept: nat)
    requires len <= buf.Length
    modifies buf
    ensures kept <= len && buf[..kept] == After(old(buf[..len]), cutoff)
  {
    kept := 0;
    ghost var source := buf[..len];
    for i := 0 to len
      invariant kept <= i
      invariant buf[..kept] == After(source[..i], cutoff)
      invariant forall k | i <= k < len :: buf[k] == source[k]
    {
      var t := buf[i];
      assert source[..i + 1][..i] == source[..i] && t == source[i];
      if t > cutoff {
        buf[kept] := t;
        kept := kept + 1;
      }
    }
    assert source[..len] == source;
  }

  /** Go's append: in place while there is room, else into a larger fresh buffer. */
  method Append(slice: Slice, t: Time) returns (grown: Slice)
    requires slice.len <= slice.buf.Length
    modifies slice.buf
    ensures grown.len == slice.len + 1 <= grown.buf.Length
    ensures grown.buf[..grown.len] == old(slice.buf[..slice.len]) + [t]
    ensures grown.buf == slice.buf || fresh(grown.buf)
  {
    if slice.len < slice.buf.Length {
      slice.buf[slice.len] := t;
      return Slice(slice.buf, slice.len + 1);
    }
    var buf := new Time[2 * slice.len + 1];
    for i := 0 to slice.len
      invariant buf[..i] == slice.buf[..i]
      invariant slice.buf[..] == old(slice.buf[..])
    {
      buf[i] := slice.buf[i];
    }
    buf[slice.len] := t;
    return Slice(buf, slice.len + 1);
  }
}
