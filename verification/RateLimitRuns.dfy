/** Whole runs of the rate limiter against a naive one that never forgets an admitted request. */
module RateLimitRuns {
  import opened Clock
  import opened RateLimiter

  datatype Event<K> = Request(key: K, now: Time) | Cleanup(now: Time)

  /** The mutex and Go's monotonic clock order the readings. */
  ghost predicate Ordered<K(!new)>(es: seq<Event<K>>) {
    forall i, j | 0 <= i <= j < |es| :: es[i].now <= es[j].now
  }

  // ---- The limiter ----

  function Step<K(==)>(log: Log<K>, e: Event<K>, limit: int, window: int): Log<K> {
    match e
    case Request(key, now) => Requested(log, key, now, limit, window)
    case Cleanup(now) => Cleaned(log, now, window)
  }

  function Run<K(==)>(es: seq<Event<K>>, limit: int, window: int): Log<K> {
    if es == [] then map[] else Step(Run(es[..|es| - 1], limit, window), es[|es| - 1], limit, window)
  }

  /** The answer the limiter gives to a request made after the events es. */
  function Answer<K(==)>(es: seq<Event<K>>, key: K, now: Time, limit: int, window: int): bool {
    Admits(Run(es, limit, window), key, now, limit, window)
  }

  // ---- The naive limiter ----

  /** Every request admitted so far, per client, never pruned; cleanups do not exist for it. */
  function History<K(==)>(es: seq<Event<K>>, limit: int, window: int): Log<K> {
    if es == [] then map[] else Recorded(History(es[..|es| - 1], limit, window), es[|es| - 1], limit, window)
  }

  function Recorded<K(==)>(h: Log<K>, e: Event<K>, limit: int, window: int): Log<K> {
    match e
    case Request(key, now) =>
      if CountIn(At(h, key), now - window, now) < limit then h[key := At(h, key) + [now]] else h
    case Cleanup(_) => h
  }

  /** How many instants of s lie in (lo, hi]. */
  function CountIn(s: seq<Time>, lo: Time, hi: Time): nat {
    if s == [] then 0
    else CountIn(s[..|s| - 1], lo, hi) + if lo < s[|s| - 1] <= hi then 1 else 0
  }

  // ---- Lists of instants ----

  lemma {:induction false} AfterAfter(s: seq<Time>, c: Time, d: Time)
    ensures After(After(s, c), d) == After(s, if c >= d then c else d)
  {
    if s != [] {
      var t := s[|s| - 1];
      var front := After(s[..|s| - 1], c);
      AfterAfter(s[..|s| - 1], c, d);
      if t > c {
        assert (front + [t])[..|front|] == front;
      } else {
        assert front + [] == front;
      }
    }
  }

  lemma AfterSnoc(s: seq<Time>, t: Time, c: Time)
    ensures After(s + [t], c) == After(s, c) + if t > c then [t] else []
  {
    assert (s + [t])[..|s|] == s;
  }

  ghost predicate UpTo(s: seq<Time>, top: Time) {
    forall i | 0 <= i < |s| :: s[i] <= top
  }

  lemma {:induction false} CountIsAfter(s: seq<Time>, c: Time, top: Time)
    requires UpTo(s, top)
    ensures CountIn(s, c, top) == |After(s, c)|
  {
    if s != [] {
      CountIsAfter(s[..|s| - 1], c, top);
    }
  }

  lemma CountSnoc(s: seq<Time>, t: Time, lo: Time, hi: Time)
    ensures CountIn(s + [t], lo, hi) == CountIn(s, lo, hi) + if lo < t <= hi then 1 else 0
  {
    assert (s + [t])[..|s|] == s;
  }

  lemma {:induction false} CountNarrows(s: seq<Time>, lo: Time, lo': Time, hi: Time, hi': Time)
    requires lo <= lo' && hi' <= hi
    ensures CountIn(s, lo', hi') <= CountIn(s, lo, hi)
  {
    if s != [] {
      CountNarrows(s[..|s| - 1], lo, lo', hi, hi');
    }
  }

  // ---- Refinement ----

  ghost predicate ListsAgree(stored: seq<Time>, all: seq<Time>, floor: Time) {
    forall c | c >= floor :: After(stored, c) == After(all, c)
  }

  /** Past the floor, the pruned log shows exactly what the history shows. */
  ghost predicate Agree<K(!new)>(log: Log<K>, h: Log<K>, floor: Time) {
    forall key :: ListsAgree(At(log, key), At(h, key), floor)
  }

  ghost predicate NotAfter<K(!new)>(h: Log<K>, top: Time) {
    forall key | key in h :: UpTo(h[key], top)
  }

  lemma PrunedAgrees(stored: seq<Time>, all: seq<Time>, floor: Time)
    requires ListsAgree(stored, all, floor)
    ensures ListsAgree(After(stored, floor), all, floor)
  {
    forall c | c >= floor ensures After(After(stored, floor), c) == After(all, c) {
      AfterAfter(stored, floor, c);
    }
  }

  lemma GrownAgrees(stored: seq<Time>, all: seq<Time>, floor: Time, now: Time)
    requires ListsAgree(stored, all, floor)
    ensures ListsAgree(stored + [now], all + [now], floor)
  {
    forall c | c >= floor ensures After(stored + [now], c) == After(all + [now], c) {
      AfterSnoc(stored, now, c);
      AfterSnoc(all, now, c);
    }
  }

  lemma RequestAnswered<K(!new)>(log: Log<K>, h: Log<K>, key: K, now: Time, limit: int, window: int)
    requires Agree(log, h, now - window) && NotAfter(h, now)
    ensures Admits(log, key, now, limit, window) <==> CountIn(At(h, key), now - window, now) < limit
  {
    CountIsAfter(At(h, key), now - window, now);
    assert ListsAgree(At(log, key), At(h, key), now - window);
  }

  // What each client's list becomes.

  function Grown(s: seq<Time>, now: Time, admitted: bool): seq<Time> {
    if admitted then s + [now] else s
  }

  lemma RequestedAt<K(!new)>(log: Log<K>, key: K, now: Time, limit: int, window: int, k: K)
    ensures At(Requested(log, key, now, limit, window), k) ==
            if k == key then Grown(After(At(log, k), now - window), now, Admits(log, key, now, limit, window))
            else At(log, k)
  {
  }

  lemma CleanedAt<K(!new)>(log: Log<K>, now: Time, window: int, key: K)
    ensures At(Cleaned(log, now, window), key) == After(At(log, key), now - window)
  {
  }

  lemma RecordedAt<K(!new)>(h: Log<K>, e: Event<K>, key: K, limit: int, window: int)
    ensures At(Recorded(h, e, limit, window), key) ==
            Grown(At(h, key), e.now,
                  e.Request? && e.key == key && CountIn(At(h, key), e.now - window, e.now) < limit)
  {
  }

  /** Pruned, and grown by an instant on both sides or on neither, the lists still agree. */
  lemma AdmittedAgrees(stored: seq<Time>, all: seq<Time>, floor: Time, now: Time, admitted: bool)
    requires ListsAgree(stored, all, floor)
    ensures ListsAgree(Grown(After(stored, floor), now, admitted), Grown(all, now, admitted), floor)
  {
    PrunedAgrees(stored, all, floor);
    if admitted {
      GrownAgrees(After(stored, floor), all, floor, now);
    }
  }

  lemma OtherListsKept<K(!new)>(log: Log<K>, h: Log<K>, key: K, now: Time, limit: int, window: int, k: K)
    requires k != key
    ensures At(Requested(log, key, now, limit, window), k) == At(log, k)
    ensures At(Recorded(h, Request(key, now), limit, window), k) == At(h, k)
  {
  }

  lemma OwnListGrown<K(!new)>(log: Log<K>, h: Log<K>, key: K, now: Time, limit: int, window: int)
    requires Admits(log, key, now, limit, window) <==> CountIn(At(h, key), now - window, now) < limit
    ensures var admitted := Admits(log, key, now, limit, window);
            && At(Requested(log, key, now, limit, window), key) ==
               Grown(After(At(log, key), now - window), now, admitted)
            && At(Recorded(h, Request(key, now), limit, window), key) == Grown(At(h, key), now, admitted)
  {
    RequestedAt(log, key, now, limit, window, key);
    RecordedAt(h, Request(key, now), key, limit, window);
  }

  lemma SameListsAgree(stored: seq<Time>, all: seq<Time>, a: seq<Time>, b: seq<Time>, floor: Time)
    requires ListsAgree(stored, all, floor) && a == stored && b == all
    ensures ListsAgree(a, b, floor)
  {
  }

  lemma OwnListAgrees<K(!new)>(log: Log<K>, h: Log<K>, key: K, now: Time, limit: int, window: int)
    requires ListsAgree(At(log, key), At(h, key), now - window)
    requires Admits(log, key, now, limit, window) <==> CountIn(At(h, key), now - window, now) < limit
    ensures ListsAgree(At(Requested(log, key, now, limit, window), key),
                       At(Recorded(h, Request(key, now), limit, window), key), now - window)
  {
    var admitted := Admits(log, key, now, limit, window);
    OwnListGrown(log, h, key, now, limit, window);
    AdmittedAgrees(At(log, key), At(h, key), now - window, now, admitted);
    SameListsAgree(Grown(After(At(log, key), now - window), now, admitted), Grown(At(h, key), now, admitted),
                   At(Requested(log, key, now, limit, window), key),
                   At(Recorded(h, Request(key, now), limit, window), key), now - window);
  }

  lemma RequestAgreesAt<K(!new)>(log: Log<K>, h: Log<K>, key: K, now: Time, limit: int, window: int, k: K)
    requires ListsAgree(At(log, k), At(h, k), now - window)
    requires Admits(log, key, now, limit, window) <==> CountIn(At(h, key), now - window, now) < limit
    ensures ListsAgree(At(Requested(log, key, now, limit, window), k),
                       At(Recorded(h, Request(key, now), limit, window), k), now - window)
  {
    if k != key {
      OtherListsKept(log, h, key, now, limit, window, k);
    } else {
      OwnListAgrees(log, h, key, now, limit, window);
    }
  }

  lemma RequestAgrees<K(!new)>(log: Log<K>, h: Log<K>, key: K, now: Time, limit: int, window: int)
    requires Agree(log, h, now - window) && NotAfter(h, now)
    ensures Agree(Requested(log, key, now, limit, window), Recorded(h, Request(key, now), limit, window), now - window)
  {
    RequestAnswered(log, h, key, now, limit, window);
    forall k
      ensures ListsAgree(At(Requested(log, key, now, limit, window), k),
                         At(Recorded(h, Request(key, now), limit, window), k), now - window)
    {
      RequestAgreesAt(log, h, key, now, limit, window, k);
    }
  }

  lemma CleanupAgrees<K(!new)>(log: Log<K>, h: Log<K>, now: Time, window: int)
    requires Agree(log, h, now - window)
    ensures Agree(Cleaned(log, now, window), h, now - window)
  {
    forall key ensures ListsAgree(At(Cleaned(log, now, window), key), At(h, key), now - window) {
      CleanedAt(log, now, window, key);
      PrunedAgrees(At(log, key), At(h, key), now - window);
    }
  }

  lemma RecordedNotAfter<K(!new)>(h: Log<K>, e: Event<K>, limit: int, window: int)
    requires NotAfter(h, e.now)
    ensures NotAfter(Recorded(h, e, limit, window), e.now)
  {
  }

  lemma StepAgrees<K(!new)>(log: Log<K>, h: Log<K>, e: Event<K>, limit: int, window: int)
    requires Agree(log, h, e.now - window) && NotAfter(h, e.now)
    ensures Agree(Step(log, e, limit, window), Recorded(h, e, limit, window), e.now - window)
  {
    match e
    case Request(key, now) => RequestAgrees(log, h, key, now, limit, window);
    case Cleanup(now) => CleanupAgrees(log, h, now, window);
  }

  lemma Later<K(!new)>(log: Log<K>, h: Log<K>, floor: Time, now: Time, window: int)
    requires Agree(log, h, floor - window) && NotAfter(h, floor) && floor <= now
    ensures Agree(log, h, now - window) && NotAfter(h, now)
  {
  }

  lemma {:induction false} RunAgrees<K(!new)>(es: seq<Event<K>>, now: Time, limit: int, window: int)
    requires Ordered(es) && (es != [] ==> es[|es| - 1].now <= now)
    ensures Agree(Run(es, limit, window), History(es, limit, window), now - window)
    ensures NotAfter(History(es, limit, window), now)
  {
    if es != [] {
      var front, last := es[..|es| - 1], es[|es| - 1];
      RunAgrees(front, last.now, limit, window);
      var log, h := Run(front, limit, window), History(front, limit, window);
      StepAgrees(log, h, last, limit, window);
      RecordedNotAfter(h, last, limit, window);
      Later(Step(log, last, limit, window), Recorded(h, last, limit, window), last.now, now, window);
    }
  }

  /** The pruned limiter refines the naive one: after any events it admits a request exactly when fewer than limit
      of all the requests it ever admitted for that client lie within the last window. */
  lemma AnswersLikeNaive<K(!new)>(es: seq<Event<K>>, key: K, now: Time, limit: int, window: int)
    requires Ordered(es) && (es != [] ==> es[|es| - 1].now <= now)
    ensures Answer(es, key, now, limit, window) <==>
            CountIn(At(History(es, limit, window), key), now - window, now) < limit
  {
    RunAgrees(es, now, limit, window);
    RequestAnswered(Run(es, limit, window), History(es, limit, window), key, now, limit, window);
  }

  /** When the limiter admitted the client's requests. */
  function Admissions<K(==)>(es: seq<Event<K>>, key: K, limit: int, window: int): seq<Time> {
    if es == [] then []
    else
      var front, last := es[..|es| - 1], es[|es| - 1];
      Admissions(front, key, limit, window)
      + if last.Request? && last.key == key && Answer(front, key, last.now, limit, window) then [last.now] else []
  }

  lemma FrontOrdered<K(!new)>(es: seq<Event<K>>)
    requires Ordered(es) && es != []
    ensures Ordered(es[..|es| - 1]) && forall i | 0 <= i < |es| :: es[i].now <= es[|es| - 1].now
  {
  }

  lemma AdmissionsAt<K(!new)>(es: seq<Event<K>>, key: K, limit: int, window: int)
    requires es != []
    ensures var front, e := es[..|es| - 1], es[|es| - 1];
            Admissions(es, key, limit, window) ==
            Grown(Admissions(front, key, limit, window), e.now,
                  e.Request? && e.key == key && Answer(front, key, e.now, limit, window))
  {
    var front := Admissions(es[..|es| - 1], key, limit, window);
    assert front + [] == front;
  }

  /** An event grows what the record shows exactly by the request that the limiter admits. */
  lemma AdmissionRecorded<K(!new)>(log: Log<K>, h: Log<K>, e: Event<K>, key: K, limit: int, window: int)
    requires Agree(log, h, e.now - window) && NotAfter(h, e.now)
    ensures At(Recorded(h, e, limit, window), key) ==
            Grown(At(h, key), e.now, e.Request? && e.key == key && Admits(log, key, e.now, limit, window))
  {
    RecordedAt(h, e, key, limit, window);
    RequestAnswered(log, h, key, e.now, limit, window);
  }

  lemma {:induction false} AdmissionsAreHistory<K(!new)>(es: seq<Event<K>>, key: K, limit: int, window: int)
    requires Ordered(es)
    ensures Admissions(es, key, limit, window) == At(History(es, limit, window), key)
  {
    if es != [] {
      var front, e := es[..|es| - 1], es[|es| - 1];
      FrontOrdered(es);
      AdmissionsAreHistory(front, key, limit, window);
      RunAgrees(front, e.now, limit, window);
      AdmissionRecorded(Run(front, limit, window), History(front, limit, window), e, key, limit, window);
      AdmissionsAt(es, key, limit, window);
    }
  }

  function WithoutCleanups<K>(es: seq<Event<K>>): seq<Event<K>> {
    if es == [] then []
    else WithoutCleanups(es[..|es| - 1]) + if es[|es| - 1].Request? then [es[|es| - 1]] else []
  }

  lemma {:induction false} HistoryIgnoresCleanups<K(!new)>(es: seq<Event<K>>, limit: int, window: int)
    ensures History(WithoutCleanups(es), limit, window) == History(es, limit, window)
  {
    if es != [] {
      var front := WithoutCleanups(es[..|es| - 1]);
      HistoryIgnoresCleanups(es[..|es| - 1], limit, window);
      if es[|es| - 1].Request? {
        assert (front + [es[|es| - 1]])[..|front|] == front;
      } else {
        assert front + [] == front;
      }
    }
  }

  lemma {:induction false} WithoutCleanupsOrdered<K(!new)>(es: seq<Event<K>>, top: Time)
    requires Ordered(es) && (es != [] ==> es[|es| - 1].now <= top)
    ensures var rest := WithoutCleanups(es);
            Ordered(rest) && (rest != [] ==> rest[|rest| - 1].now <= top)
  {
    if es != [] {
      WithoutCleanupsOrdered(es[..|es| - 1], es[|es| - 1].now);
    }
  }

  /** The background cleanup changes no answer, whenever and however often it runs. */
  lemma CleanupsAreInvisible<K(!new)>(es: seq<Event<K>>, key: K, now: Time, limit: int, window: int)
    requires Ordered(es) && (es != [] ==> es[|es| - 1].now <= now)
    ensures Answer(es, key, now, limit, window) == Answer(WithoutCleanups(es), key, now, limit, window)
  {
    WithoutCleanupsOrdered(es, now);
    AnswersLikeNaive(es, key, now, limit, window);
    AnswersLikeNaive(WithoutCleanups(es), key, now, limit, window);
    HistoryIgnoresCleanups(es, limit, window);
  }

  // ---- The bound ----

  function Quota(limit: int): nat {
    if limit > 0 then limit else 0
  }

  /** One more admitted request cannot break the bound. */
  lemma AdmissionWithinBound(h: seq<Time>, now: Time, x: Time, limit: int, window: int)
    requires UpTo(h, now) && CountIn(h, now - window, now) < limit
    requires CountIn(h, x, x + window) <= Quota(limit)
    ensures CountIn(h + [now], x, x + window) <= Quota(limit)
  {
    CountSnoc(h, now, x, x + window);
    if x < now <= x + window {
      CountNoLater(h, x, now, x + window);
      CountNarrows(h, now - window, x, now, now);
    }
  }

  lemma RecordedWithinBound<K(!new)>(h: Log<K>, e: Event<K>, key: K, x: Time, limit: int, window: int)
    requires NotAfter(h, e.now) && CountIn(At(h, key), x, x + window) <= Quota(limit)
    ensures CountIn(At(Recorded(h, e, limit, window), key), x, x + window) <= Quota(limit)
  {
    if e.Request? && e.key == key && CountIn(At(h, key), e.now - window, e.now) < limit {
      AdmissionWithinBound(At(h, key), e.now, x, limit, window);
    }
  }

  /** The rate limit itself: over a whole run, no half-open interval of one window's length holds more than limit
      admitted requests of one client. */
  lemma {:induction false} RateBound<K(!new)>(es: seq<Event<K>>, key: K, x: Time, limit: int, window: int)
    requires Ordered(es)
    ensures CountIn(At(History(es, limit, window), key), x, x + window) <= Quota(limit)
  {
    if es != [] {
      var front, last := es[..|es| - 1], es[|es| - 1];
      RateBound(front, key, x, limit, window);
      RunAgrees(front, last.now, limit, window);
      RecordedWithinBound(History(front, limit, window), last, key, x, limit, window);
    }
  }

  /** The promise of the limiter, on its own answers. */
  lemma RateLimitHolds<K(!new)>(es: seq<Event<K>>, key: K, x: Time, limit: int, window: int)
    requires Ordered(es)
    ensures CountIn(Admissions(es, key, limit, window), x, x + window) <= Quota(limit)
  {
    AdmissionsAreHistory(es, key, limit, window);
    RateBound(es, key, x, limit, window);
  }

  lemma {:induction false} CountNoLater(s: seq<Time>, lo: Time, top: Time, hi: Time)
    requires top <= hi && UpTo(s, top)
    ensures CountIn(s, lo, hi) == CountIn(s, lo, top)
  {
    if s != [] {
      CountNoLater(s[..|s| - 1], lo, top, hi);
    }
  }

  // ---- What is stored ----

  ghost predicate Sorted(s: seq<Time>) {
    forall i, j | 0 <= i <= j < |s| :: s[i] <= s[j]
  }

  ghost predicate Tidy<K(!new)>(log: Log<K>, top: Time, limit: int) {
    forall key | key in log :: TidyList(log[key], top, limit)
  }

  lemma {:induction false} AfterSorted(s: seq<Time>, c: Time, top: Time)
    requires Sorted(s) && UpTo(s, top)
    ensures Sorted(After(s, c)) && |After(s, c)| <= |s| && UpTo(After(s, c), top)
  {
    if s != [] {
      AfterSorted(s[..|s| - 1], c, s[|s| - 1]);
    }
  }

  ghost predicate TidyList(s: seq<Time>, top: Time, limit: int) {
    Sorted(s) && |s| <= Quota(limit) && UpTo(s, top)
  }

  lemma PrunedTidy(s: seq<Time>, now: Time, limit: int, cutoff: Time)
    requires TidyList(s, now, limit)
    ensures TidyList(After(s, cutoff), now, limit)
    ensures |After(s, cutoff)| < limit ==> TidyList(After(s, cutoff) + [now], now, limit)
  {
    AfterSorted(s, cutoff, now);
  }

  lemma StepTidyAt<K(!new)>(log: Log<K>, e: Event<K>, limit: int, window: int, key: K)
    requires TidyList(At(log, key), e.now, limit)
    ensures TidyList(At(Step(log, e, limit, window), key), e.now, limit)
  {
    PrunedTidy(At(log, key), e.now, limit, e.now - window);
    match e
    case Request(k, now) => RequestedAt(log, k, now, limit, window, key);
    case Cleanup(now) => CleanedAt(log, now, window, key);
  }

  lemma StepTidy<K(!new)>(log: Log<K>, e: Event<K>, limit: int, window: int)
    requires Tidy(log, e.now, limit)
    ensures Tidy(Step(log, e, limit, window), e.now, limit)
  {
    var next := Step(log, e, limit, window);
    forall key | key in next ensures TidyList(next[key], e.now, limit) {
      StepTidyAt(log, e, limit, window, key);
    }
  }

  /** Every stored list stays sorted, never holds more than limit instants and none from the future. */
  lemma {:induction false} StoredListsTidy<K(!new)>(es: seq<Event<K>>, top: Time, limit: int, window: int)
    requires Ordered(es) && (es != [] ==> es[|es| - 1].now <= top)
    ensures Tidy(Run(es, limit, window), top, limit)
  {
    if es != [] {
      var front, last := es[..|es| - 1], es[|es| - 1];
      StoredListsTidy(front, last.now, limit, window);
      StepTidy(Run(front, limit, window), last, limit, window);
    }
  }
}
