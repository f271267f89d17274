/**
  The rate limiter as a token bucket, and how many requests it lets through in any
  window of time.  One limiter serves the manager's whole life: the live phase, the
  drain and every restart.
 */
module RateLimit {
  import opened Resources
  import opened Transport

  const DEFAULT_EVENTS_PER_SECOND: real := 10.0
  const DEFAULT_BURST_SIZE: int := 20

  datatype Config = Config(eventsPerSecond: real, burstSize: int)

  datatype Limiter = Limiter(rate: real, burst: real)

  // What NewManager makes of a configuration that may be missing or not positive.
  function NewLimiter(cfg: Option<Config>): (l: Limiter)
    ensures l.rate > 0.0 && l.burst >= 1.0
    ensures cfg.Some? && cfg.value.eventsPerSecond > 0.0 ==> l.rate == cfg.value.eventsPerSecond
    ensures cfg.Some? && cfg.value.burstSize > 0 ==> l.burst == cfg.value.burstSize as real
    ensures cfg.None? || cfg.value.eventsPerSecond <= 0.0 ==> l.rate == 10.0
    ensures cfg.None? || cfg.value.burstSize <= 0 ==> l.burst == 20.0
  {
    Limiter(if cfg.Some? && cfg.value.eventsPerSecond > 0.0 then cfg.value.eventsPerSecond
            else DEFAULT_EVENTS_PER_SECOND,
            if cfg.Some? && cfg.value.burstSize > 0 then cfg.value.burstSize as real
            else DEFAULT_BURST_SIZE as real)
  }

  function Min(x: real, y: real): real {
    if x <= y then x else y
  }

  // What the bucket holds just before the n-th admission, and after n of them.  It
  // starts full and is never fuller than its burst.
  function Available(l: Limiter, times: seq<real>, n: nat): real
    requires n < |times|
    decreases n, 0
  {
    if n == 0 then l.burst
    else Min(l.burst, Level(l, times, n) + l.rate * (times[n] - times[n - 1]))
  }

  function Level(l: Limiter, times: seq<real>, n: nat): real
    requires 0 < n <= |times|
    decreases n - 1, 1
  {
    Available(l, times, n - 1) - 1.0
  }

  // Admissions in order, each of which found a token.
  ghost predicate Admitted(l: Limiter, times: seq<real>) {
    && (forall i, j | 0 <= i < j < |times| :: times[i] <= times[j])
    && (forall n: nat | n < |times| :: Available(l, times, n) >= 1.0)
  }

  lemma {:induction false} Refill(l: Limiter, times: seq<real>, i: nat, j: nat)
    requires l.rate > 0.0 && Admitted(l, times) && i <= j < |times|
    ensures Available(l, times, j) <= l.burst - (j - i) as real + l.rate * (times[j] - times[i])
  {
    if i == j {
      TimesZero(l.rate, times[j] - times[i]);
    } else {
      Refill(l, times, i, j - 1);
      Distribute(l.rate, times[j - 1] - times[i], times[j] - times[j - 1]);
    }
  }

  lemma TimesZero(r: real, x: real)
    requires x == 0.0
    ensures r * x == 0.0
  {
  }

  lemma Distribute(r: real, x: real, y: real)
    ensures r * (x + y) == r * x + r * y
  {
  }

  lemma Monotone(r: real, x: real, y: real)
    requires r > 0.0 && x <= y
    ensures r * x <= r * y
  {
    assert r * (y - x) >= 0.0;
  }

  // What is available at an admission does not depend on later ones.
  lemma {:induction false} AvailablePrefix(l: Limiter, times: seq<real>, more: seq<real>, n: nat)
    requires n < |times|
    ensures Available(l, times + more, n) == Available(l, times, n)
  {
    if n == 0 {
    } else {
      AvailablePrefix(l, times, more, n - 1);
    }
  }

  lemma AdmitOneMore(l: Limiter, times: seq<real>, t: real)
    requires Admitted(l, times) && (forall i | 0 <= i < |times| :: times[i] <= t)
    requires Available(l, times + [t], |times|) >= 1.0
    ensures Admitted(l, times + [t])
  {
    forall n: nat | n < |times + [t]| ensures Available(l, times + [t], n) >= 1.0 {
      if n < |times| {
        AvailablePrefix(l, times, [t], n);
      }
    }
  }

  function Allowance(l: Limiter, width: real): real {
    l.burst + l.rate * width
  }

  lemma WithinAllowance(l: Limiter, n: nat, span: real, width: real, available: real)
    requires l.rate > 0.0 && span <= width
    requires 1.0 <= available <= l.burst - n as real + l.rate * span
    ensures n as real + 1.0 <= Allowance(l, width)
  {
    Monotone(l.rate, span, width);
  }

  // In any window at most burst + rate * width admissions.
  lemma WindowBound(l: Limiter, times: seq<real>, i: nat, j: nat, start: real, width: real)
    requires l.rate > 0.0 && Admitted(l, times) && i <= j < |times|
    requires start <= times[i] && times[j] <= start + width
    ensures (j - i) as real + 1.0 <= l.burst + l.rate * width
  {
    Refill(l, times, i, j);
    WithinAllowance(l, j - i, times[j] - times[i], width, Available(l, times, j));
  }

  lemma NothingRefills(l: Limiter, times: seq<real>, n: nat)
    requires 0 < n < |times| && times[n] == times[n - 1] && Available(l, times, n - 1) <= l.burst
    ensures Available(l, times, n) == Available(l, times, n - 1) - 1.0
  {
    TimesZero(l.rate, times[n] - times[n - 1]);
  }

  // The bucket holds nobody up without need: a burst that fits it passes at once, and a
  // stream no denser than the rate passes for ever.
  lemma {:induction false} BurstIsAdmitted(l: Limiter, times: seq<real>, n: nat)
    requires l.rate > 0.0 && |times| as real <= l.burst && n < |times|
    requires forall i, j | 0 <= i < j < |times| :: times[i] == times[j]
    ensures Available(l, times, n) == l.burst - n as real >= 1.0
  {
    if n == 0 {
    } else {
      BurstIsAdmitted(l, times, n - 1);
      assert times[n] == times[n - 1];
      NothingRefills(l, times, n);
    }
  }

  lemma {:induction false} SteadyRateIsAdmitted(l: Limiter, times: seq<real>, n: nat)
    requires l.rate > 0.0 && l.burst >= 1.0 && n < |times|
    requires forall i | 0 < i < |times| :: l.rate * (times[i] - times[i - 1]) >= 1.0
    ensures Available(l, times, n) == l.burst
  {
    if n == 0 {
    } else {
      SteadyRateIsAdmitted(l, times, n - 1);
    }
  }

  /* ---- Requests on the wire ---- */

  // One SendEvent call: when the limiter let it through, when it posted, when it returned.
  datatype SendCall = SendCall(admitted: real, posts: seq<real>, returned: real)

  function Admissions(calls: seq<SendCall>): seq<real> {
    seq(|calls|, i requires 0 <= i < |calls| => calls[i].admitted)
  }

  ghost predicate WellTimed(c: SendCall) {
    && |c.posts| <= 5
    && c.admitted <= c.returned
    && forall t | t in c.posts :: c.admitted <= t <= c.returned
  }

  // One processor: a call begins after the one before it has returned.
  ghost predicate OneAtATime(l: Limiter, calls: seq<SendCall>) {
    && Admitted(l, Admissions(calls))
    && (forall i | 0 <= i < |calls| :: WellTimed(calls[i]))
    && (forall i, j | 0 <= i < j < |calls| :: calls[i].returned <= calls[j].admitted)
  }

  function CountIn(posts: seq<real>, start: real, end: real): nat {
    if posts == [] then 0
    else CountIn(posts[..|posts| - 1], start, end) + if start <= posts[|posts| - 1] <= end then 1 else 0
  }

  function PostsIn(calls: seq<SendCall>, start: real, end: real): nat {
    if calls == [] then 0
    else PostsIn(calls[..|calls| - 1], start, end) + CountIn(calls[|calls| - 1].posts, start, end)
  }

  lemma {:induction false} CountBound(posts: seq<real>, start: real, end: real)
    ensures CountIn(posts, start, end) <= |posts|
    ensures CountIn(posts, start, end) > 0 ==> exists t :: t in posts && start <= t <= end
  {
    if posts == [] {
    } else {
      var n := |posts| - 1;
      CountBound(posts[..n], start, end);
      if CountIn(posts[..n], start, end) > 0 {
        var t :| t in posts[..n] && start <= t <= end;
        assert t in posts;
      } else if start <= posts[n] <= end {
        assert posts[n] in posts;
      }
    }
  }

  // If anything was posted in the window, the posts lie in the calls of a stretch whose
  // first and last post in it.
  lemma {:induction false} PostsStretch(calls: seq<SendCall>, start: real, end: real) returns (f: nat, g: nat)
    requires PostsIn(calls, start, end) > 0
    requires forall i | 0 <= i < |calls| :: |calls[i].posts| <= 5
    ensures f <= g < |calls|
    ensures CountIn(calls[f].posts, start, end) > 0 && CountIn(calls[g].posts, start, end) > 0
    ensures PostsIn(calls, start, end) <= 5 * (g - f + 1)
  {
    var n := |calls| - 1;
    CountBound(calls[n].posts, start, end);
    if PostsIn(calls[..n], start, end) == 0 {
      f, g := n, n;
    } else {
      f, g := PostsStretch(calls[..n], start, end);
      if CountIn(calls[n].posts, start, end) > 0 {
        g := n;
      }
    }
  }

  // Calls that all posted in the window: all but the first were admitted in it.
  lemma StretchBound(l: Limiter, calls: seq<SendCall>, f: nat, g: nat, start: real, width: real)
    requires l.rate > 0.0 && l.burst >= 1.0 && width >= 0.0 && OneAtATime(l, calls)
    requires f <= g < |calls|
    requires CountIn(calls[f].posts, start, start + width) > 0 && CountIn(calls[g].posts, start, start + width) > 0
    ensures (g - f) as real <= l.burst + l.rate * width
  {
    AllowanceIsPositive(l, width);
    if f < g {
      CountBound(calls[f].posts, start, start + width);
      CountBound(calls[g].posts, start, start + width);
      var first :| first in calls[f].posts && start <= first <= start + width;
      var last :| last in calls[g].posts && start <= last <= start + width;
      assert first <= calls[f].returned <= calls[f + 1].admitted;
      WindowBound(l, Admissions(calls), f + 1, g, start, width);
    }
  }

  // The posts in a window, by call and attempt.
  function Window(calls: seq<SendCall>, start: real, end: real): set<(int, int)> {
    set i, k | 0 <= i < |calls| && 0 <= k < |calls[i].posts| && start <= calls[i].posts[k] <= end :: (i, k)
  }

  function PostsOf(i: int, posts: seq<real>, start: real, end: real): set<(int, int)> {
    set k | 0 <= k < |posts| && start <= posts[k] <= end :: (i, k)
  }

  lemma {:induction false} CountMeans(i: int, posts: seq<real>, start: real, end: real)
    ensures CountIn(posts, start, end) == |PostsOf(i, posts, start, end)|
  {
    if posts == [] {
      assert PostsOf(i, posts, start, end) == {};
    } else {
      var n := |posts| - 1;
      CountMeans(i, posts[..n], start, end);
      assert PostsOf(i, posts, start, end)
          == PostsOf(i, posts[..n], start, end) + if start <= posts[n] <= end then {(i, n)} else {};
    }
  }

  // PostsIn counts exactly them.
  lemma {:induction false} PostsMean(calls: seq<SendCall>, start: real, end: real)
    ensures PostsIn(calls, start, end) == |Window(calls, start, end)|
  {
    if calls == [] {
      assert Window(calls, start, end) == {};
    } else {
      var n := |calls| - 1;
      PostsMean(calls[..n], start, end);
      CountMeans(n, calls[n].posts, start, end);
      WindowGrows(calls, start, end);
    }
  }

  lemma WindowGrows(calls: seq<SendCall>, start: real, end: real)
    requires calls != []
    ensures var n := |calls| - 1;
      var before, now := Window(calls[..n], start, end), PostsOf(n, calls[n].posts, start, end);
      before !! now && Window(calls, start, end) == before + now
  {
  }

  lemma FiveTimes(posts: nat, stretch: nat, allowance: real)
    requires posts <= 5 * (stretch + 1) && stretch as real <= allowance
    ensures posts as real <= 5.0 * (1.0 + allowance)
  {
  }

  lemma AllowanceIsPositive(l: Limiter, width: real)
    requires l.rate > 0.0 && l.burst >= 1.0 && width >= 0.0
    ensures Allowance(l, width) >= 1.0
  {
    Monotone(l.rate, 0.0, width);
  }

  // Whatever is retried, and across the live and the drain phase: in any window of
  // width w at most five times 1 + burst + rate * w requests reach the wire.
  lemma PostBound(l: Limiter, calls: seq<SendCall>, start: real, width: real)
    requires l.rate > 0.0 && l.burst >= 1.0 && width >= 0.0 && OneAtATime(l, calls)
    ensures |Window(calls, start, start + width)| as real <= 5.0 * (1.0 + (l.burst + l.rate * width))
  {
    AllowanceIsPositive(l, width);
    PostsMean(calls, start, start + width);
    if PostsIn(calls, start, start + width) > 0 {
      var f, g := PostsStretch(calls, start, start + width);
      StretchBound(l, calls, f, g, start, width);
      FiveTimes(PostsIn(calls, start, start + width), g - f, Allowance(l, width));
    }
  }
}
