/** The process-local sliding-window rate limiter of the HubSpot client, over
    an integer millisecond clock. The limiter keeps a queue of hit times; an
    acquire drops the hits older than the window, waits when the window is
    full, and appends the time it lets the request through. */
module RateLimiter {
  import opened Wrappers
  import opened Values

  /** 150 requests per 10-second window. */
  const DefaultMaxRequests: int := 150
  const DefaultWindowMs: int := 10000

  /** How many hits, from position `i` on, the purge loop pops: it stops at
      the first hit inside the window. */
  function DropCount(hits: seq<int>, windowStart: int, i: nat): (n: nat)
    requires i <= |hits|
    ensures i <= n <= |hits|
    ensures forall j :: i <= j < n ==> hits[j] < windowStart
    ensures n < |hits| ==> hits[n] >= windowStart
    decreases |hits| - i
  {
    if i < |hits| && hits[i] < windowStart then DropCount(hits, windowStart, i + 1) else i
  }

  /** The hits left after dropping, from the front, every hit older than
      `windowStart`. */
  function Purge(hits: seq<int>, windowStart: int): (r: seq<int>)
    ensures |r| <= |hits| && r == hits[|hits| - |r|..]
    ensures |r| == 0 || r[0] >= windowStart
    ensures forall i :: 0 <= i < |hits| - |r| ==> hits[i] < windowStart
  {
    hits[DropCount(hits, windowStart, 0)..]
  }

  /** The queue after an acquire and how long it slept. */
  datatype Acquired = Acquired(hits: seq<int>, slept: int)

  /** `acquire` as written: with a full window it sleeps until the OLDEST
      remaining hit leaves the window. The second clock reading is taken to be
      `now` plus the sleep. A full window that is empty (a limit of zero or
      less) indexes an empty queue and raises. */
  function Acquire(hits: seq<int>, now: int, maxRequests: int, windowMs: int): (r: Result<Acquired, string>)
    ensures r.Failure? <==> maxRequests <= 0 && Purge(hits, now - windowMs) == []
    ensures r.Success? ==> r.value.slept >= 0 && r.value.hits == Purge(hits, now - windowMs) + [now + r.value.slept]
    ensures r.Success? && |Purge(hits, now - windowMs)| < maxRequests ==> r.value.slept == 0
    ensures r.Success? && |Purge(hits, now - windowMs)| >= maxRequests ==>
              now + r.value.slept >= Purge(hits, now - windowMs)[0] + windowMs
    ensures r.Success? && |Purge(hits, now - windowMs)| >= maxRequests ==>
              r.value.slept == Max(0, Purge(hits, now - windowMs)[0] + windowMs - now)
  {
    var kept := Purge(hits, now - windowMs);
    if |kept| >= maxRequests then
      if |kept| == 0 then Failure("deque index out of range")
      else
        var sleepFor := kept[0] + windowMs - now;
        var slept := if sleepFor > 0 then sleepFor else 0;
        Success(Acquired(kept + [now + slept], slept))
    else Success(Acquired(kept + [now], 0))
  }

  /** The corrected acquire: with a full window it sleeps until the hit
      `maxRequests` places before the new one leaves the window. */
  function AcquireCorrected(hits: seq<int>, now: int, maxRequests: int, windowMs: int): (r: Result<Acquired, string>)
    ensures r.Failure? <==> maxRequests <= 0
    ensures r.Success? ==> r.value.slept >= 0 && r.value.hits == Purge(hits, now - windowMs) + [now + r.value.slept]
    ensures r.Success? && |Purge(hits, now - windowMs)| < maxRequests ==> r.value.slept == 0
  {
    var kept := Purge(hits, now - windowMs);
    if maxRequests <= 0 then Failure("the limit must be positive")
    else if |kept| >= maxRequests then
      var sleepFor := kept[|kept| - maxRequests] + windowMs - now;
      var slept := if sleepFor > 0 then sleepFor else 0;
      Success(Acquired(kept + [now + slept], slept))
    else Success(Acquired(kept + [now], 0))
  }

  predicate Sorted(s: seq<int>) {
    forall i, j :: 0 <= i < j < |s| ==> s[i] <= s[j]
  }

  /** Any `maxRequests + 1` consecutive hits span at least one window. */
  predicate Spaced(s: seq<int>, maxRequests: nat, windowMs: int) {
    forall i :: 0 <= i < |s| - maxRequests ==> s[i] + windowMs <= s[i + maxRequests]
  }

  /** What sliding-window limiting means: in a sorted log where any
      `maxRequests + 1` consecutive hits span a window, hits at least
      `maxRequests` positions apart are at least a window apart in time, so
      no interval shorter than the window holds more than `maxRequests` hits. */
  lemma SpacedBoundsWindow(s: seq<int>, maxRequests: nat, windowMs: int, i: int, j: int)
    requires Sorted(s) && Spaced(s, maxRequests, windowMs)
    requires 0 <= i && i + maxRequests <= j < |s|
    ensures s[i] + windowMs <= s[j]
  {
    assert s[i] + windowMs <= s[i + maxRequests];
  }

  /** The limiter's invariant over the log of every hit so far (`all`): the
      queue is a suffix of the log, the log is sorted and spaced, and the hits
      no longer queued lie more than a window before the latest hit. */
  predicate Inv(all: seq<int>, hits: seq<int>, maxRequests: nat, windowMs: int) {
    && Sorted(all) && Spaced(all, maxRequests, windowMs)
    && |hits| <= |all| && hits == all[|all| - |hits|..]
    && Retired(all, |all| - |hits|, windowMs)
  }

  /** The first `n` hits of the log lie more than a window before the latest. */
  predicate Retired(all: seq<int>, n: int, windowMs: int) {
    forall i :: 0 <= i < n && i < |all| ==> all[i] + windowMs < all[|all| - 1]
  }

  lemma InvStart(maxRequests: nat, windowMs: int)
    ensures Inv([], [], maxRequests, windowMs)
  {
  }

  /** The new hit keeps the log sorted, and the hit `maxRequests` places
      before it is at least a window earlier when it was dropped from the
      queue. */
  lemma NewHitDropped(all: seq<int>, hits: seq<int>, now: int, a: int, maxRequests: nat, windowMs: int)
    requires Inv(all, hits, maxRequests, windowMs) && maxRequests > 0 && windowMs >= 0
    requires |all| > 0 ==> all[|all| - 1] <= now
    requires now <= a
    requires |Purge(hits, now - windowMs)| < maxRequests
    ensures var p := |all| - maxRequests; p >= 0 ==> all[p] + windowMs <= a
  {
    var kept := Purge(hits, now - windowMs);
    var p := |all| - maxRequests;
    if p >= 0 {
      if p >= |all| - |hits| {
        assert all[p] == hits[p - (|all| - |hits|)];
      }
    }
  }

  /** Appending one hit to a spaced log keeps it spaced when the hit is at
      least a window after the hit `maxRequests` places before it. */
  lemma SpacedAppend(all: seq<int>, a: int, maxRequests: nat, windowMs: int)
    requires Spaced(all, maxRequests, windowMs) && maxRequests > 0
    requires |all| - maxRequests >= 0 ==> all[|all| - maxRequests] + windowMs <= a
    ensures Spaced(all + [a], maxRequests, windowMs)
  {
    var s := all + [a];
    forall i | 0 <= i < |s| - maxRequests
      ensures s[i] + windowMs <= s[i + maxRequests]
    {
      if i + maxRequests < |all| {
        assert s[i] == all[i] && s[i + maxRequests] == all[i + maxRequests];
      }
    }
  }

  /** The queue after an acquire is again a suffix of the log. */
  lemma QueueStaysSuffix(all: seq<int>, hits: seq<int>, windowStart: int, a: int)
    requires |hits| <= |all| && hits == all[|all| - |hits|..]
    ensures var hits2 := Purge(hits, windowStart) + [a];
            var all2 := all + [a];
            |hits2| <= |all2| && hits2 == all2[|all2| - |hits2|..]
  {
    var kept := Purge(hits, windowStart);
    assert kept == all[|all| - |kept|..];
  }

  /** The hits an acquire leaves out of the queue lie more than a window
      before the new hit. */
  lemma DroppedAreOld(all: seq<int>, hits: seq<int>, now: int, a: int, windowMs: int)
    requires |hits| <= |all| && hits == all[|all| - |hits|..]
    requires Retired(all, |all| - |hits|, windowMs)
    requires |all| > 0 ==> all[|all| - 1] <= now
    requires now <= a
    ensures Retired(all + [a], |all| - |Purge(hits, now - windowMs)|, windowMs)
  {
    var kept := Purge(hits, now - windowMs);
    var all2 := all + [a];
    forall i | 0 <= i < |all| - |kept| && i < |all2|
      ensures all2[i] + windowMs < all2[|all2| - 1]
    {
      assert all2[i] == all[i];
      if i >= |all| - |hits| {
        assert all[i] == hits[i - (|all| - |hits|)];
      }
    }
  }

  lemma SortedAppend(all: seq<int>, a: int)
    requires Sorted(all) && (|all| > 0 ==> all[|all| - 1] <= a)
    ensures Sorted(all + [a])
  {
  }

  /** The log, the queue and the new hit after an acquire satisfy the
      invariant when the hit keeps the log spaced. */
  lemma AcquireStep(all: seq<int>, hits: seq<int>, now: int, a: int, maxRequests: nat, windowMs: int)
    requires Inv(all, hits, maxRequests, windowMs)
    requires |all| > 0 ==> all[|all| - 1] <= now
    requires now <= a
    requires Spaced(all + [a], maxRequests, windowMs)
    ensures Inv(all + [a], Purge(hits, now - windowMs) + [a], maxRequests, windowMs)
  {
    QueueStaysSuffix(all, hits, now - windowMs, a);
    DroppedAreOld(all, hits, now, a, windowMs);
    SortedAppend(all, a);
  }

  /** Queued hit `k` is the log's hit at the same distance from the end. */
  lemma KeptInLog(all: seq<int>, hits: seq<int>, windowStart: int, k: int)
    requires |hits| <= |all| && hits == all[|all| - |hits|..]
    requires 0 <= k < |Purge(hits, windowStart)|
    ensures var kept := Purge(hits, windowStart); kept[k] == all[|all| - |kept| + k]
  {
    var kept := Purge(hits, windowStart);
    assert kept[k] == hits[|hits| - |kept| + k];
  }

  /** An acquire that found fewer than `maxRequests` hits queued keeps the
      invariant. */
  lemma RoomyStep(all: seq<int>, hits: seq<int>, now: int, a: int, hits2: seq<int>, maxRequests: nat, windowMs: int)
    requires Inv(all, hits, maxRequests, windowMs) && maxRequests > 0 && windowMs >= 0
    requires |all| > 0 ==> all[|all| - 1] <= now
    requires now <= a
    requires |Purge(hits, now - windowMs)| < maxRequests
    requires hits2 == Purge(hits, now - windowMs) + [a]
    ensures Inv(all + [a], hits2, maxRequests, windowMs)
  {
    NewHitDropped(all, hits, now, a, maxRequests, windowMs);
    SpacedAppend(all, a, maxRequests, windowMs);
    AcquireStep(all, hits, now, a, maxRequests, windowMs);
  }

  /** An acquire that found exactly `maxRequests` or more hits queued keeps
      the invariant when the new hit is a window after the queued hit
      `maxRequests` places before it. */
  lemma FullStep(all: seq<int>, hits: seq<int>, now: int, a: int, hits2: seq<int>, maxRequests: nat, windowMs: int)
    requires Inv(all, hits, maxRequests, windowMs) && maxRequests > 0
    requires |all| > 0 ==> all[|all| - 1] <= now
    requires now <= a
    requires var kept := Purge(hits, now - windowMs);
             |kept| >= maxRequests && kept[|kept| - maxRequests] + windowMs <= a
    requires hits2 == Purge(hits, now - windowMs) + [a]
    ensures Inv(all + [a], hits2, maxRequests, windowMs)
  {
    var kept := Purge(hits, now - windowMs);
    KeptInLog(all, hits, now - windowMs, |kept| - maxRequests);
    SpacedAppend(all, a, maxRequests, windowMs);
    AcquireStep(all, hits, now, a, maxRequests, windowMs);
  }

  /** The corrected acquire keeps the invariant whenever the clock does not
      run backwards: over the whole log, `maxRequests + 1` consecutive hits
      always span at least one window. */
  lemma CorrectedAcquireKeepsSpacing(all: seq<int>, hits: seq<int>, now: int, maxRequests: nat, windowMs: int)
    requires Inv(all, hits, maxRequests, windowMs) && maxRequests > 0 && windowMs >= 0
    requires |all| > 0 ==> all[|all| - 1] <= now
    ensures var r := AcquireCorrected(hits, now, maxRequests, windowMs);
            && r.Success?
            && Inv(all + [now + r.value.slept], r.value.hits, maxRequests, windowMs)
  {
    var kept := Purge(hits, now - windowMs);
    var res := AcquireCorrected(hits, now, maxRequests, windowMs);
    var r := res.value;
    if |kept| < maxRequests {
      RoomyStep(all, hits, now, now + r.slept, r.hits, maxRequests, windowMs);
    } else {
      FullStep(all, hits, now, now + r.slept, r.hits, maxRequests, windowMs);
    }
  }

  /** Of a queue holding more than `maxRequests` hits, the newest is at
      least a window after the one `maxRequests` places before it. */
  lemma FullQueueSpan(all: seq<int>, hits: seq<int>, windowStart: int, maxRequests: nat, windowMs: int)
    requires Inv(all, hits, maxRequests, windowMs)
    ensures var kept := Purge(hits, windowStart);
            |kept| > maxRequests ==>
              && kept[0] <= kept[|kept| - 1 - maxRequests]
              && kept[|kept| - 1 - maxRequests] + windowMs <= all[|all| - 1]
  {
    var kept := Purge(hits, windowStart);
    var off := |all| - |kept|;
    if |kept| > maxRequests {
      KeptInLog(all, hits, windowStart, |kept| - 1 - maxRequests);
      KeptInLog(all, hits, windowStart, 0);
      SpacedBoundsWindow(all, maxRequests, windowMs, off + |kept| - 1 - maxRequests, |all| - 1);
    }
  }

  /** With a strictly advancing clock the queue never holds more than
      `maxRequests` hits of the current window. */
  lemma QueueWithinLimit(all: seq<int>, hits: seq<int>, now: int, maxRequests: nat, windowMs: int)
    requires Inv(all, hits, maxRequests, windowMs) && maxRequests > 0
    requires |all| > 0 ==> all[|all| - 1] < now
    ensures |Purge(hits, now - windowMs)| <= maxRequests
  {
    var kept := Purge(hits, now - windowMs);
    FullQueueSpan(all, hits, now - windowMs, maxRequests, windowMs);
  }

  /** `acquire` as written keeps the invariant too, but only while every call
      reads a clock strictly later than the latest hit. */
  lemma AcquireKeepsSpacing(all: seq<int>, hits: seq<int>, now: int, maxRequests: nat, windowMs: int)
    requires Inv(all, hits, maxRequests, windowMs) && maxRequests > 0 && windowMs >= 0
    requires |all| > 0 ==> all[|all| - 1] < now
    ensures var r := Acquire(hits, now, maxRequests, windowMs);
            && r.Success?
            && Inv(all + [now + r.value.slept], r.value.hits, maxRequests, windowMs)
  {
    var kept := Purge(hits, now - windowMs);
    var res := Acquire(hits, now, maxRequests, windowMs);
    var r := res.value;
    QueueWithinLimit(all, hits, now, maxRequests, windowMs);
    if |kept| < maxRequests {
      RoomyStep(all, hits, now, now + r.slept, r.hits, maxRequests, windowMs);
    } else {
      FullStep(all, hits, now, now + r.slept, r.hits, maxRequests, windowMs);
    }
  }

  /** Three calls at 0 ms, 10 ms and 10 ms with one request per 10 ms: the
      third reading ties with the second hit, the oldest queued hit is exactly
      a window old and so stays queued, the computed sleep is zero, and two
      hits land at the same instant. */
  lemma TiedClockBreaksSpacing()
    ensures Inv([0, 10], [0, 10], 1, 10)
    ensures Acquire([0, 10], 10, 1, 10) == Success(Acquired([0, 10, 10], 0))
    ensures !Spaced([0, 10, 10], 1, 10)
  {
    var hits := [0, 10];
    assert hits[0] == 0;
    assert DropCount(hits, 0, 0) == 0;
    assert hits[0..] == hits;
    assert [0, 10] + [10] == [0, 10, 10];
    assert [0, 10, 10][1] + 10 > [0, 10, 10][2];
  }
}
