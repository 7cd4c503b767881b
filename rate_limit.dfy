/** The sliding-window rate limiter in front of the analysis endpoint: a bucket of request
    times, pruned from the front and appended to at the back. The monotonic clock is a
    parameter. */
module RateLimit {

  /** Request times in non-decreasing order, as a monotonic clock produces them. */
  predicate Ascending(s: seq<real>) {
    forall i, j :: 0 <= i < j < |s| ==> s[i] <= s[j]
  }

  /** The bucket after popping, from the front, every time before `windowStart`. */
  function Pruned(bucket: seq<real>, windowStart: real): (r: seq<real>)
    ensures |r| <= |bucket|
    ensures r == [] || r[0] >= windowStart
  {
    if bucket != [] && bucket[0] < windowStart then Pruned(bucket[1..], windowStart) else bucket
  }

  /** Pruning drops a run of times before the window from the front, and nothing else. */
  lemma {:induction false} PrunedSuffix(bucket: seq<real>, windowStart: real)
    ensures var r := Pruned(bucket, windowStart);
      && r == bucket[|bucket| - |r|..]
      && forall i :: 0 <= i < |bucket| - |r| ==> bucket[i] < windowStart
  {
    if bucket != [] && bucket[0] < windowStart {
      PrunedSuffix(bucket[1..], windowStart);
      var r := Pruned(bucket, windowStart);
      assert bucket[1..][|bucket| - 1 - |r|..] == bucket[|bucket| - |r|..];
      forall i | 0 < i < |bucket| - |r| ensures bucket[i] < windowStart {
        assert bucket[i] == bucket[1..][i - 1];
      }
    }
  }

  /** The times of a bucket that fall within the window, in order. */
  function InWindow(bucket: seq<real>, windowStart: real): (r: seq<real>)
    ensures |r| <= |bucket|
    ensures forall i :: 0 <= i < |r| ==> r[i] >= windowStart
  {
    if bucket == [] then []
    else (if bucket[0] >= windowStart then [bucket[0]] else []) + InWindow(bucket[1..], windowStart)
  }

  /** On an ascending bucket, pruning from the front keeps exactly the times in the window. */
  lemma {:induction false} PrunedIsWindow(bucket: seq<real>, windowStart: real)
    requires Ascending(bucket)
    ensures Pruned(bucket, windowStart) == InWindow(bucket, windowStart)
  {
    if bucket != [] {
      if bucket[0] < windowStart {
        PrunedIsWindow(bucket[1..], windowStart);
      } else {
        AllInWindow(bucket, windowStart);
      }
    }
  }

  /** A bucket whose times all fall within the window is its own window. */
  lemma {:induction false} AllInWindow(bucket: seq<real>, windowStart: real)
    requires forall i :: 0 <= i < |bucket| ==> bucket[i] >= windowStart
    ensures InWindow(bucket, windowStart) == bucket
  {
    if bucket != [] {
      AllInWindow(bucket[1..], windowStart);
      assert bucket == [bucket[0]] + bucket[1..];
    }
  }

  /** A suffix of an ascending bucket is ascending. */
  lemma SuffixAscending(s: seq<real>, d: nat)
    requires Ascending(s) && d <= |s|
    ensures Ascending(s[d..])
  {
    forall i, j | 0 <= i < j < |s| - d ensures s[d..][i] <= s[d..][j] {
      assert s[d..][i] == s[d + i] && s[d..][j] == s[d + j];
    }
  }

  /** Appending a time no earlier than the last keeps a bucket ascending. */
  lemma AppendAscending(s: seq<real>, x: real)
    requires Ascending(s) && (s == [] || s[|s| - 1] <= x)
    ensures Ascending(s + [x])
  {
    var t := s + [x];
    forall i, j | 0 <= i < j < |t| ensures t[i] <= t[j] {
      if j < |s| {
        assert t[i] == s[i] && t[j] == s[j];
      } else {
        assert t[i] == s[i] && s[i] <= s[|s| - 1];
      }
    }
  }

  /** What pruning an ascending bucket whose last time is at most `now` leaves: the times in
      the window, still ascending, to which `now` can be appended in order. */
  lemma KeptWindow(bucket: seq<real>, windowStart: real, now: real)
    requires Ascending(bucket) && (bucket == [] || bucket[|bucket| - 1] <= now)
    ensures Pruned(bucket, windowStart) == InWindow(bucket, windowStart)
    ensures Ascending(Pruned(bucket, windowStart)) && Ascending(Pruned(bucket, windowStart) + [now])
  {
    var kept := Pruned(bucket, windowStart);
    PrunedSuffix(bucket, windowStart);
    SuffixAscending(bucket, |bucket| - |kept|);
    PrunedIsWindow(bucket, windowStart);
    assert kept != [] ==> kept[|kept| - 1] == bucket[|bucket| - 1];
    AppendAscending(kept, now);
  }

  /** `_RATE_LIMIT_BUCKET` with the `RATE_LIMIT_REQUESTS` and `RATE_LIMIT_WINDOW_SECONDS`
      settings. */
  class RateLimiter {
    var bucket: seq<real>
    const maxRequests: int
    const windowSeconds: int

    /** The bucket never holds more times than the limit admits, in clock order. */
    ghost predicate Valid() reads this {
      |bucket| <= (if maxRequests < 0 then 0 else maxRequests) && Ascending(bucket)
    }

    constructor (maxRequests: int, windowSeconds: int)
      ensures this.maxRequests == maxRequests && this.windowSeconds == windowSeconds
      ensures bucket == [] && Valid()
    {
      this.maxRequests := maxRequests;
      this.windowSeconds := windowSeconds;
      bucket := [];
    }

    /** `_enforce_rate_limit()` at time `now`: the times before the window are dropped; a
        full window rejects the request (HTTP 429) without recording it, and otherwise the
        request's time is recorded. */
    method Enforce(now: real) returns (allowed: bool)
      requires Valid()
      requires bucket == [] || bucket[|bucket| - 1] <= now
      modifies this
      ensures Valid()
      ensures var kept := Pruned(old(bucket), now - windowSeconds as real);
        && (allowed <==> |kept| < maxRequests)
        && bucket == (if allowed then kept + [now] else kept)
      ensures bucket == InWindow(old(bucket), now - windowSeconds as real) + (if allowed then [now] else [])
    {
      var windowStart := now - windowSeconds as real;
      var kept := bucket;
      while kept != [] && kept[0] < windowStart
        invariant Pruned(kept, windowStart) == Pruned(bucket, windowStart)
        decreases |kept|
      {
        kept := kept[1..];
      }
      KeptWindow(bucket, windowStart, now);
      ghost var window := InWindow(bucket, windowStart);
      assert kept == Pruned(bucket, windowStart) == window;
      if |kept| >= maxRequests {
        bucket := kept;
        allowed := false;
        assert bucket == window + [];
      } else {
        bucket := kept + [now];
        allowed := true;
        assert bucket == window + [now];
      }
    }
  }
}
