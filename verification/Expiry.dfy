/** Exactly what the expiry job and the history page do to each reservation and each lock. */
module Expiry {
  import opened Clock
  import opened Lock
  import opened Reservation

  /** The job expires the row: it is pending or confirmed, its deadline has passed, and its UPDATE went through. */
  ghost predicate Expires(d: Desk, now: Time, updateFails: set<string>, id: string) {
    && id in d.rows && (d.rows[id].status == Pending || d.rows[id].status == Confirmed)
    && d.rows[id].expiresAt < now && id !in updateFails
  }

  /** The job expires the reservation that holds the lock, and the release went through. */
  ghost predicate Frees(d: Desk, now: Time, updateFails: set<string>, releaseFails: set<string>, spot: string) {
    && LockKey(spot) in d.redis
    && (var owner := d.redis[LockKey(spot)].value;
        Expires(d, now, updateFails, owner) && d.rows[owner].spot == spot && owner !in releaseFails)
  }

  /** For any rows and any failures the job sets to expired exactly the rows it expires, and leaves the rest of them and
      every other row alone. */
  lemma SweepExpiresExactly(d: Desk, now: Time, updateFails: set<string>, releaseFails: set<string>, id: string)
    requires id in d.rows
    ensures var after := Sweep(d, now, updateFails, releaseFails);
            && after.rows.Keys == d.rows.Keys
            && after.rows[id] == if Expires(d, now, updateFails, id) then d.rows[id].(status := Expired) else d.rows[id]
  {
  }

  /** A lock goes exactly if the reservation that holds it is expired and its release went through; no other changes. */
  lemma SweepFreesExactly(d: Desk, now: Time, updateFails: set<string>, releaseFails: set<string>, spot: string)
    ensures var after, key := Sweep(d, now, updateFails, releaseFails).redis, LockKey(spot);
            && (key in after <==> key in d.redis && !Frees(d, now, updateFails, releaseFails, spot))
            && (key in after ==> after[key] == d.redis[key])
  {
    var key := LockKey(spot);
    var listed := set id | id in d.rows && Lapsed(d.rows[id], now);
    if key in d.redis {
      var owner := d.redis[key].value;
      if Frees(d, now, updateFails, releaseFails, spot) {
        assert owner in listed;
        assert key in FreedLocks(d, listed, updateFails, releaseFails);
      } else if key in FreedLocks(d, listed, updateFails, releaseFails) {
        var id :| id in listed && id !in updateFails && id !in releaseFails
                  && LockKey(d.rows[id].spot) == key && d.redis[key].value == id;
        LockKeyInjective(d.rows[id].spot, spot);
      }
    }
  }

  /** Keys that are no locks stay. */
  lemma SweepKeepsOtherKeys(d: Desk, now: Time, updateFails: set<string>, releaseFails: set<string>, key: string)
    requires forall spot :: key != LockKey(spot)
    ensures var after := Sweep(d, now, updateFails, releaseFails).redis;
            (key in after <==> key in d.redis) && (key in after ==> after[key] == d.redis[key])
  {
  }

  /** A job without failures leaves no pending or confirmed reservation past its deadline, and no lock with one that it
      expired. */
  lemma SweepLeavesNoneLapsed(d: Desk, now: Time, id: string)
    requires id in d.rows
    ensures var after := Sweep(d, now, {}, {});
            && id in after.rows
            && (after.rows[id].status == Pending || after.rows[id].status == Confirmed ==>
                  after.rows[id].expiresAt >= now)
            && (after.rows[id] != d.rows[id] ==>
                  var key := LockKey(d.rows[id].spot); key in after.redis ==> after.redis[key].value != id)
  {
    SweepExpiresExactly(d, now, {}, {}, id);
    SweepFreesExactly(d, now, {}, {}, d.rows[id].spot);
  }

  /** The history page sets to expired exactly the listed pending rows past their deadline whose UPDATE went through;
      confirmed ones wait for the job, and no lock changes. */
  lemma HistoryExpiresExactly(d: Desk, ids: set<string>, now: Time, updateFails: set<string>, id: string)
    requires id in d.rows
    ensures var after := HistoryExpire(d, ids, now, updateFails);
            && after.redis == d.redis && after.rows.Keys == d.rows.Keys
            && after.rows[id] == if id in ids && d.rows[id].status == Pending && d.rows[id].expiresAt < now
                                    && id !in updateFails
                                 then d.rows[id].(status := Expired) else d.rows[id]
  {
  }
}
