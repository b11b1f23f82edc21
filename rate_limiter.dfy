/**
 * Per-identity sliding-window rate limiting (`RateLimiter` in core/rate_limiter.py). The
 * wall clock is an integer `now` supplied by the caller.
 */
module RateLimiting {
  import opened Wrappers
  import opened Ascii

  /** `burst_size or max_requests`: a missing or zero burst size falls back to the maximum. */
  function EffectiveBurst(maxRequests: int, burstSize: Option<int>): (b: int)
    ensures burstSize == None || burstSize == Some(0) ==> b == maxRequests
    ensures burstSize.Some? && burstSize.value != 0 ==> b == burstSize.value
  {
    match burstSize
    case Some(v) => if v != 0 then v else maxRequests
    case None => maxRequests
  }

  /** The most timestamps a window can hold; a window never grows when the maximum is not positive. */
  function Quota(maxRequests: int): nat {
    if maxRequests < 0 then 0 else maxRequests
  }

  /**
   * The `popleft` loop: drop leading timestamps while they are strictly more than `window`
   * older than `now`. A timestamp exactly `window` old is kept.
   */
  function Pruned(q: seq<int>, now: int, window: int): (r: seq<int>)
    ensures |r| <= |q| && r == q[|q| - |r|..]
    ensures forall i | 0 <= i < |q| - |r| :: now - q[i] > window
    ensures r == [] || now - r[0] <= window
    decreases |q|
  {
    if q != [] && now - q[0] > window then Pruned(q[1..], now, window) else q
  }

  /** A window whose oldest entry is not expired is left as it is. */
  lemma PrunedKeepsFreshHead(q: seq<int>, now: int, window: int)
    requires q != [] && now - q[0] <= window
    ensures Pruned(q, now, window) == q
  {
  }

  /** A window made of one repeated timestamp at most `window` old is kept whole. */
  lemma PrunedKeepsFreshHeadOrEmpty(q: seq<int>, now: int, window: int)
    requires window >= 0 && forall i | 0 <= i < |q| :: q[i] == now
    ensures Pruned(q, now, window) == q
  {
  }

  /** The outcome of `check_rate_limit`. */
  datatype CheckOutcome =
    | Allowed                  // returns True
    | Exceeded(waitTime: int)  // raises RateLimitExceeded
    | EmptyWindowIndexError    // `self.requests[user_id][0]` on an empty deque raises IndexError

  /** The text of the raised `RateLimitExceeded`. */
  function RateLimitMessage(waitTime: int): string {
    "Rate limit exceeded. Try again in " + IntToString(waitTime) + " seconds"
  }

  /**
   * One `check_rate_limit` on the window `q`: the outcome and the window afterwards. With a
   * non-positive maximum even an empty window is "full", and reading its oldest entry fails.
   */
  function Check(q: seq<int>, now: int, maxRequests: int, window: int): (r: (CheckOutcome, seq<int>))
    ensures r.0 == Allowed <==> |Pruned(q, now, window)| < maxRequests
    ensures r.0 == Allowed ==> r.1 == Pruned(q, now, window) + [now]
    ensures r.0 != Allowed ==> r.1 == Pruned(q, now, window)
    ensures r.0.Exceeded? ==>
      r.1 != [] && r.0.waitTime == window - (now - r.1[0]) && r.0.waitTime >= 0
    ensures r.0 == EmptyWindowIndexError <==> maxRequests <= 0 && Pruned(q, now, window) == []
    ensures |q| <= Quota(maxRequests) ==> |r.1| <= Quota(maxRequests)
  {
    var p := Pruned(q, now, window);
    if |p| >= maxRequests then
      if p == [] then (EmptyWindowIndexError, p) else (Exceeded(window - (now - p[0])), p)
    else (Allowed, p + [now])
  }

  /**
   * The steps of `check_rate_limit` on the windows `m0`: prune the sender's window to `q`
   * (giving `m1`), then either reject or record `now` (giving `m2`). Together they are `Check`
   * on the old window, and they keep every window within the quota.
   */
  lemma CheckUpdate(m0: map<string, seq<int>>, m1: map<string, seq<int>>, m2: map<string, seq<int>>,
                    userId: string, w: seq<int>, q: seq<int>, now: int, maxRequests: int,
                    window: int, outcome: CheckOutcome)
    requires w == WindowOf(m0, userId) && q == Pruned(w, now, window) && m1 == m0[userId := q]
    requires |q| >= maxRequests ==> m2 == m1 && outcome == if q == [] then EmptyWindowIndexError
                                                           else Exceeded(window - (now - q[0]))
    requires |q| < maxRequests ==> m2 == m1[userId := q + [now]] && outcome == Allowed
    requires WithinQuota(m0, maxRequests)
    ensures var r := Check(w, now, maxRequests, window);
      outcome == r.0 && m2 == m0[userId := r.1] && WithinQuota(m2, maxRequests)
  {
    var q' := if |q| < maxRequests then q + [now] else q;
    CheckOnPruned(w, q, now, maxRequests, window, outcome);
    assert m2 == m0[userId := q'] by {
      if |q| < maxRequests {
        OverwriteTwice(m0, userId, q, q');
      }
    }
    WithinQuotaUpdate(m0, userId, w, q', maxRequests);
  }

  /** The outcome of `Check` is decided on the pruned window alone. */
  lemma CheckOnPruned(w: seq<int>, q: seq<int>, now: int, maxRequests: int, window: int,
                      outcome: CheckOutcome)
    requires q == Pruned(w, now, window)
    requires |q| >= maxRequests ==>
      outcome == if q == [] then EmptyWindowIndexError else Exceeded(window - (now - q[0]))
    requires |q| < maxRequests ==> outcome == Allowed
    ensures Check(w, now, maxRequests, window) == (outcome, if |q| < maxRequests then q + [now] else q)
  {
  }

  lemma OverwriteTwice(m: map<string, seq<int>>, k: string, a: seq<int>, b: seq<int>)
    ensures m[k := a][k := b] == m[k := b]
  {
  }

  /** The queue of a window as the limiter finds it: a missing entry is created empty. */
  function WindowOf(requests: map<string, seq<int>>, userId: string): seq<int> {
    if userId in requests then requests[userId] else []
  }

  /** No window in `requests` holds more than `max_requests` timestamps. */
  predicate WithinQuota(requests: map<string, seq<int>>, maxRequests: int) {
    forall id | id in requests :: |requests[id]| <= Quota(maxRequests)
  }

  /** Replacing one window by one that obeys the bound keeps every window within it. */
  lemma WithinQuotaUpdate(requests: map<string, seq<int>>, userId: string, w: seq<int>,
                          w': seq<int>, maxRequests: int)
    requires WithinQuota(requests, maxRequests) && w == WindowOf(requests, userId)
    requires |w| <= Quota(maxRequests) ==> |w'| <= Quota(maxRequests)
    ensures WithinQuota(requests[userId := w'], maxRequests)
  {
  }

  class RateLimiter {
    const maxRequests: int
    const timeWindow: int
    const burstSize: int
    var requests: map<string, seq<int>>

    /** No identity's window holds more than `max_requests` timestamps. */
    ghost predicate Valid()
      reads this
    {
      WithinQuota(requests, maxRequests)
    }

    constructor (maxRequests: int, timeWindow: int, burstSize: Option<int>)
      ensures Valid()
      ensures this.maxRequests == maxRequests && this.timeWindow == timeWindow
      ensures this.burstSize == EffectiveBurst(maxRequests, burstSize)
      ensures requests == map[]
    {
      this.maxRequests := maxRequests;
      this.timeWindow := timeWindow;
      this.burstSize := EffectiveBurst(maxRequests, burstSize);
      requests := map[];
    }

    /** Drop the expired timestamps at the front of one identity's window, one at a time. */
    method PruneWindow(userId: string, now: int)
      requires userId in requests
      modifies this
      ensures requests == old(requests)[userId := Pruned(old(requests)[userId], now, timeWindow)]
    {
      while requests[userId] != [] && now - requests[userId][0] > timeWindow
        invariant userId in requests
        invariant requests == old(requests)[userId := requests[userId]]
        invariant Pruned(requests[userId], now, timeWindow)
               == Pruned(old(requests)[userId], now, timeWindow)
        decreases |requests[userId]|
      {
        requests := requests[userId := requests[userId][1..]];
      }
    }

    /** `check_rate_limit(user_id)` at time `now`. */
    method CheckRateLimit(userId: string, now: int) returns (outcome: CheckOutcome)
      requires Valid()
      modifies this
      ensures Valid()
      ensures var r := Check(WindowOf(old(requests), userId), now, maxRequests, timeWindow);
        outcome == r.0 && requests == old(requests)[userId := r.1]
    {
      ghost var m0 := requests;
      ghost var w := WindowOf(requests, userId);
      if userId !in requests {
        requests := requests[userId := []];
      }
      ghost var start := requests;
      PruneWindow(userId, now);
      var q := requests[userId];
      assert q == Pruned(w, now, timeWindow);
      assert requests == m0[userId := q] by {
        assert requests == start[userId := q];
      }
      ghost var m1 := requests;
      if |q| >= maxRequests {
        if q == [] {
          outcome := EmptyWindowIndexError;
        } else {
          outcome := Exceeded(timeWindow - (now - q[0]));
        }
      } else {
        requests := requests[userId := q + [now]];
        outcome := Allowed;
      }
      CheckUpdate(m0, m1, requests, userId, w, q, now, maxRequests, timeWindow, outcome);
    }

    /** `get_remaining_requests(user_id)` at time `now`: prunes, but never creates a window. */
    method GetRemainingRequests(userId: string, now: int) returns (remaining: int)
      requires Valid()
      modifies this
      ensures Valid()
      ensures userId !in old(requests) ==> remaining == maxRequests && requests == old(requests)
      ensures userId in old(requests) ==>
        var p := Pruned(old(requests)[userId], now, timeWindow);
        requests == old(requests)[userId := p] && remaining == Quota(maxRequests - |p|)
      ensures maxRequests >= 0 ==> 0 <= remaining <= maxRequests
    {
      if userId !in requests {
        return maxRequests;
      }
      PruneWindow(userId, now);
      remaining := Quota(maxRequests - |requests[userId]|);
    }

    /** `reset(user_id)`: a non-empty identity forgets that window only; otherwise all are cleared. */
    method Reset(userId: Option<string>)
      requires Valid()
      modifies this
      ensures Valid()
      ensures userId.Some? && userId.value != "" ==> requests == old(requests) - {userId.value}
      ensures userId == None || userId == Some("") ==> requests == map[]
    {
      if userId.Some? && userId.value != "" {
        if userId.value in requests {
          requests := requests - {userId.value};
        }
      } else {
        requests := map[];
      }
    }
  }

  /** `n` timestamps all equal to `t`. */
  function Repeat(t: int, n: nat): (r: seq<int>)
    ensures |r| == n && forall i | 0 <= i < n :: r[i] == t
  {
    seq(n, _ => t)
  }

  /** The outcomes of `n` consecutive checks at the same time `now`, and the final window. */
  function RunChecks(q: seq<int>, now: int, maxRequests: int, window: int, n: nat)
    : (seq<CheckOutcome>, seq<int>)
    decreases n
  {
    if n == 0 then ([], q)
    else
      var first := Check(q, now, maxRequests, window);
      var rest := RunChecks(first.1, now, maxRequests, window, n - 1);
      ([first.0] + rest.0, rest.1)
  }

  lemma RunChecksStep(q: seq<int>, now: int, maxRequests: int, window: int, n: nat)
    requires n > 0
    ensures var first := Check(q, now, maxRequests, window);
      var rest := RunChecks(first.1, now, maxRequests, window, n - 1);
      RunChecks(q, now, maxRequests, window, n) == ([first.0] + rest.0, rest.1)
  {
  }

  /** A check at the time of every stored request: admitted iff there is room. */
  lemma CheckRepeated(k: nat, now: int, maxRequests: int, window: int)
    requires window >= 0 && 1 <= maxRequests && k <= maxRequests
    ensures k < maxRequests ==> Check(Repeat(now, k), now, maxRequests, window) == (Allowed, Repeat(now, k + 1))
    ensures k == maxRequests ==> Check(Repeat(now, k), now, maxRequests, window).0 == Exceeded(window)
    ensures k == maxRequests ==> Check(Repeat(now, k), now, maxRequests, window).1 == Repeat(now, k)
  {
    PrunedKeepsFreshHeadOrEmpty(Repeat(now, k), now, window);
    assert Repeat(now, k) + [now] == Repeat(now, k + 1);
  }

  /** `n` admitted checks in a row. */
  function Admissions(n: nat): (r: seq<CheckOutcome>)
    ensures |r| == n && forall i | 0 <= i < n :: r[i] == Allowed
  {
    seq(n, _ => Allowed)
  }

  /**
   * With no time passing, a window holding `k` requests admits exactly the `n` more that
   * fill it to `max_requests`; the next check is rejected with the whole window as wait time.
   */
  lemma {:induction false} ChecksWithoutTimePassing(k: nat, n: nat, now: int, maxRequests: int, window: int)
    requires window >= 0 && 1 <= maxRequests && k + n == maxRequests
    ensures RunChecks(Repeat(now, k), now, maxRequests, window, n + 1)
         == (Admissions(n) + [Exceeded(window)], Repeat(now, maxRequests))
    decreases n
  {
    if n > 0 {
      ChecksWithoutTimePassing(k + 1, n - 1, now, maxRequests, window);
      AdmittedBeforeFull(k, n, now, maxRequests, window);
    } else {
      FullWindowRejected(now, maxRequests, window);
    }
  }

  /** A full window rejects the next check and stays as it is. */
  lemma FullWindowRejected(now: int, maxRequests: int, window: int)
    requires window >= 0 && 1 <= maxRequests
    ensures RunChecks(Repeat(now, maxRequests), now, maxRequests, window, 1)
         == (Admissions(0) + [Exceeded(window)], Repeat(now, maxRequests))
  {
    CheckRepeated(maxRequests, now, maxRequests, window);
    SingleCheck(Repeat(now, maxRequests), now, maxRequests, window);
    assert Admissions(0) + [Exceeded(window)] == [Exceeded(window)];
  }

  /** A run of one check is that check. */
  lemma SingleCheck(q: seq<int>, now: int, maxRequests: int, window: int)
    ensures RunChecks(q, now, maxRequests, window, 1)
         == ([Check(q, now, maxRequests, window).0], Check(q, now, maxRequests, window).1)
  {
    RunChecksStep(q, now, maxRequests, window, 1);
    var first := Check(q, now, maxRequests, window);
    assert RunChecks(first.1, now, maxRequests, window, 0) == ([], first.1);
    assert [first.0] + [] == [first.0];
  }

  /** A window with room admits one check, after which the rest run on the longer window. */
  lemma AdmittedBeforeFull(k: nat, n: nat, now: int, maxRequests: int, window: int)
    requires window >= 0 && 1 <= maxRequests && k + n == maxRequests && n > 0
    requires RunChecks(Repeat(now, k + 1), now, maxRequests, window, n)
          == (Admissions(n - 1) + [Exceeded(window)], Repeat(now, maxRequests))
    ensures RunChecks(Repeat(now, k), now, maxRequests, window, n + 1)
         == (Admissions(n) + [Exceeded(window)], Repeat(now, maxRequests))
  {
    var q := Repeat(now, k);
    CheckRepeated(k, now, maxRequests, window);
    RunChecksStep(q, now, maxRequests, window, n + 1);
    assert Check(q, now, maxRequests, window) == (Allowed, Repeat(now, k + 1));
    assert [Allowed] + (Admissions(n - 1) + [Exceeded(window)]) == Admissions(n) + [Exceeded(window)];
  }

  /** From a fresh (empty) window, exactly `max_requests` checks succeed and the next is rejected. */
  lemma BurstFromEmptyWindow(now: int, maxRequests: int, window: int)
    requires window >= 0 && maxRequests >= 1
    ensures var r := RunChecks([], now, maxRequests, window, maxRequests + 1);
      && |r.0| == maxRequests + 1
      && (forall i | 0 <= i < maxRequests :: r.0[i] == Allowed)
      && r.0[maxRequests] == Exceeded(window)
  {
    assert Repeat(now, 0) == [];
    ChecksWithoutTimePassing(0, maxRequests, now, maxRequests, window);
  }

  /** With a non-positive maximum, the first check of a fresh window fails on the empty deque. */
  lemma NoQuotaFirstCheckFails(now: int, maxRequests: int, window: int)
    requires maxRequests <= 0
    ensures Check([], now, maxRequests, window) == (EmptyWindowIndexError, [])
  {
  }

  /** Once every stored request is older than the window, the whole window is dropped. */
  lemma {:induction false} WindowElapsed(q: seq<int>, now: int, window: int)
    requires forall i | 0 <= i < |q| :: now - q[i] > window
    ensures Pruned(q, now, window) == []
    decreases |q|
  {
    if q != [] {
      WindowElapsed(q[1..], now, window);
    }
  }

  predicate Sorted(q: seq<int>) {
    forall i, j | 0 <= i < j < |q| :: q[i] <= q[j]
  }

  /** On a window in time order, pruning keeps exactly the timestamps at most `window` old. */
  lemma PrunedSortedKeepsFresh(q: seq<int>, now: int, window: int)
    requires Sorted(q)
    ensures forall i | 0 <= i < |Pruned(q, now, window)| ::
      now - Pruned(q, now, window)[i] <= window
  {
    var r := Pruned(q, now, window);
    var d := |q| - |r|;
    assert r == q[d..];
    if r != [] {
      assert q[d] == r[0];
      SortedSuffixFresh(q, d, now, window);
    }
  }

  /** In a window in time order, everything after a fresh timestamp is fresh too. */
  lemma SortedSuffixFresh(q: seq<int>, d: nat, now: int, window: int)
    requires Sorted(q) && d < |q| && now - q[d] <= window
    ensures forall i | 0 <= i < |q[d..]| :: now - q[d..][i] <= window
  {
    forall i | 0 <= i < |q[d..]| ensures now - q[d..][i] <= window {
      assert q[d..][i] == q[d + i] && q[d] <= q[d + i];
    }
  }

  /** Pruning keeps a window in time order and keeps its timestamps' upper bound. */
  lemma PrunedSortedBounded(q: seq<int>, now: int, window: int)
    requires Sorted(q) && (forall i | 0 <= i < |q| :: q[i] <= now)
    ensures Sorted(Pruned(q, now, window))
    ensures forall i | 0 <= i < |Pruned(q, now, window)| :: Pruned(q, now, window)[i] <= now
  {
    var p := Pruned(q, now, window);
    SortedSuffixBounded(q, |q| - |p|, now);
  }

  /** A suffix of a window in time order is in time order and keeps the upper bound. */
  lemma SortedSuffixBounded(q: seq<int>, d: nat, now: int)
    requires Sorted(q) && d <= |q| && (forall i | 0 <= i < |q| :: q[i] <= now)
    ensures Sorted(q[d..]) && forall i | 0 <= i < |q[d..]| :: q[d..][i] <= now
  {
    var p := q[d..];
    forall i, j | 0 <= i < j < |p| ensures p[i] <= p[j] {
      assert p[i] == q[d + i] && p[j] == q[d + j];
    }
    forall i | 0 <= i < |p| ensures p[i] <= now {
      assert p[i] == q[d + i];
    }
  }

  /**
   * With a clock that never goes back, a check keeps the window in time order, keeps every
   * entry inside the window, and never lets more than `max_requests` of them accumulate.
   */
  lemma CheckKeepsFreshWindow(q: seq<int>, now: int, maxRequests: int, window: int)
    requires window >= 0
    requires Sorted(q) && (forall i | 0 <= i < |q| :: q[i] <= now)
    requires |q| <= Quota(maxRequests)
    ensures var w := Check(q, now, maxRequests, window).1;
      Sorted(w) && |w| <= Quota(maxRequests)
      && (forall i | 0 <= i < |w| :: now - window <= w[i] <= now)
  {
    var c := Check(q, now, maxRequests, window);
    var p := Pruned(q, now, window);
    assert Sorted(p) && forall i | 0 <= i < |p| :: now - window <= p[i] <= now by {
      PrunedSortedKeepsFresh(q, now, window);
      PrunedSortedBounded(q, now, window);
    }
    if |p| < maxRequests {
      assert c.1 == p + [now];
      FreshAppend(p, now, window);
    } else {
      assert c.1 == p;
    }
  }

  /** Appending `now` to a sorted window of fresh timestamps keeps it sorted and fresh. */
  lemma FreshAppend(p: seq<int>, now: int, window: int)
    requires window >= 0 && Sorted(p)
    requires forall i | 0 <= i < |p| :: now - window <= p[i] <= now
    ensures Sorted(p + [now])
    ensures forall i | 0 <= i < |p + [now]| :: now - window <= (p + [now])[i] <= now
  {
    var w := p + [now];
    forall i | 0 <= i < |w| ensures now - window <= w[i] <= now {
      if i < |p| {
        assert w[i] == p[i];
      }
    }
    forall i, j | 0 <= i < j < |w| ensures w[i] <= w[j] {
      assert w[i] == p[i];
      if j < |p| {
        assert w[j] == p[j];
      }
    }
  }

  /** With a clock that never goes back, the announced wait is never longer than the window. */
  lemma WaitWithinWindow(q: seq<int>, now: int, maxRequests: int, window: int)
    requires forall i | 0 <= i < |q| :: q[i] <= now
    requires Check(q, now, maxRequests, window).0.Exceeded?
    ensures 0 <= Check(q, now, maxRequests, window).0.waitTime <= window
  {
    var p := Pruned(q, now, window);
    assert p[0] == q[|q| - |p|];
  }

  /**
   * A request exactly `window` old still counts, so the announced wait can be 0 seconds.
   */
  lemma BoundaryRequestStillCounts(now: int, window: int)
    ensures Check([now - window], now, 1, window).0 == Exceeded(0)
    ensures Check([now - window], now, 1, window).1 == [now - window]
  {
    PrunedKeepsFreshHead([now - window], now, window);
  }
}
