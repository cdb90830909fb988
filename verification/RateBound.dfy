/** How many requests any stretch of time can see accepted, over whole runs of the limiter. */
module RateBound {
  import opened Prelude
  import opened FixedWindow
  import opened WindowHistory

  /** How many of the times fall in the half-open interval [lo, hi). */
  function CountIn(times: seq<int>, lo: int, hi: int): nat {
    if times == [] then 0 else (if lo <= times[0] < hi then 1 else 0) + CountIn(times[1..], lo, hi)
  }

  lemma {:induction false} CountAppend(a: seq<int>, b: seq<int>, lo: int, hi: int)
    ensures CountIn(a + b, lo, hi) == CountIn(a, lo, hi) + CountIn(b, lo, hi)
  {
    if a == [] {
      assert a + b == b;
    } else {
      CountAppend(a[1..], b, lo, hi);
      assert (a + b)[1..] == a[1..] + b;
    }
  }

  lemma {:induction false} CountAtMostLength(times: seq<int>, lo: int, hi: int)
    ensures CountIn(times, lo, hi) <= |times|
  {
    if times != [] {
      CountAtMostLength(times[1..], lo, hi);
    }
  }

  lemma {:induction false} CountOutside(times: seq<int>, lo: int, hi: int)
    requires forall i :: 0 <= i < |times| ==> !(lo <= times[i] < hi)
    ensures CountIn(times, lo, hi) == 0
  {
    if times != [] {
      assert forall i :: 0 <= i < |times[1..]| ==> times[1..][i] == times[i + 1];
      CountOutside(times[1..], lo, hi);
    }
  }

  lemma {:induction false} FlattenFront(h: History)
    requires h != []
    ensures Flatten(h) == h[0] + Flatten(h[1..])
  {
    if |h| > 1 {
      var front := h[..|h| - 1];
      FlattenFront(front);
      assert front[1..] == h[1..][..|h| - 2];
      assert Flatten(h[1..]) == Flatten(front[1..]) + h[|h| - 1];
    }
  }

  lemma CountFront(h: History, lo: int, hi: int)
    requires h != []
    ensures CountIn(Flatten(h), lo, hi) == CountIn(h[0], lo, hi) + CountIn(Flatten(h[1..]), lo, hi)
  {
    FlattenFront(h);
    CountAppend(h[0], Flatten(h[1..]), lo, hi);
  }

  /** n times x, added up: it keeps multiplication out of the inductions below. */
  function Times(n: nat, x: int): int {
    if n == 0 then 0 else Times(n - 1, x) + x
  }

  lemma {:induction false} TimesIsProduct(n: nat, x: int)
    ensures Times(n, x) == n * x
  {
    if n > 0 {
      TimesIsProduct(n - 1, x);
      assert n * x == (n - 1) * x + x;
    }
  }

  /** Windows that start before hi are at least a window apart, so n of them fill n windows of time. */
  lemma {:induction false} WindowsFrom(h: History, limit: nat, window: nat, lo: int, hi: int, n: nat)
    requires Windowed(h, limit, window) && window > 0
    requires h != [] ==> hi <= h[0][0] + Times(n, window)
    ensures CountIn(Flatten(h), lo, hi) <= Times(n, limit)
    decreases |h|
  {
    if h == [] {
      TimesIsProduct(n, limit);
    } else {
      WindowsTail(h, limit, window);
      CountFront(h, lo, hi);
      hide Windowed, CountIn, Flatten;
      if n == 0 {
        LateWindow(h[0], limit, window, lo, hi);
        WindowsFrom(h[1..], limit, window, lo, hi, 0);
      } else {
        CountAtMostLength(h[0], lo, hi);
        WindowsFrom(h[1..], limit, window, lo, hi, n - 1);
      }
    }
  }

  lemma WindowsTail(h: History, limit: nat, window: nat)
    requires Windowed(h, limit, window) && h != []
    ensures Windowed(h[1..], limit, window) && WindowOk(h[0], limit, window)
    ensures |h| > 1 ==> WindowOk(h[1], limit, window) && h[0][0] + window <= h[1][0] && h[1..][0] == h[1]
  {
  }

  lemma LateWindow(w: seq<int>, limit: nat, window: nat, lo: int, hi: int)
    requires WindowOk(w, limit, window) && (hi <= w[0] || w[0] + window <= lo)
    ensures CountIn(w, lo, hi) == 0
  {
    CountOutside(w, lo, hi);
  }

  lemma {:induction false} HistoryBound(h: History, limit: nat, window: nat, lo: int, n: nat)
    requires Windowed(h, limit, window) && window > 0 && limit > 0
    ensures CountIn(Flatten(h), lo, lo + Times(n, window)) <= Times(n, limit) + limit - 1
    decreases |h|
  {
    var hi := lo + Times(n, window);
    if h == [] {
      TimesIsProduct(n, limit);
    } else if lo <= h[0][0] {
      WindowsFrom(h, limit, window, lo, hi, n);
    } else {
      WindowsTail(h, limit, window);
      CountFront(h, lo, hi);
      hide Windowed, Flatten, Times;
      if |h| > 1 && h[1][0] < lo {
        LateWindow(h[0], limit, window, lo, hi);
        HistoryBound(h[1..], limit, window, lo, n);
      } else {
        // The request that opened the first window came too early to be counted.
        CountAtMostLength(h[0][1..], lo, hi);
        WindowsFrom(h[1..], limit, window, lo, hi, n);
      }
    }
  }

  /** The accepted times of a key fall into windows that keep to its quota. */
  lemma LogWindows(calls: seq<Call>, key: Bytes, limit: nat, window: nat) returns (h: History)
    requires Run(calls) && Uses(calls, key, limit, window) && limit > 0 && window > 0
    ensures Windowed(h, limit, window) && Flatten(h) == Log(calls, key)
  {
    hide Run, Uses, Log, Windowed, Flatten;
    h := HistoryOf(calls, key, window);
    HistoryIsLog(calls, key, window);
    LogWindowed(calls, key, limit, window);
  }

  lemma LogWindowed(calls: seq<Call>, key: Bytes, limit: nat, window: nat)
    requires Run(calls) && Uses(calls, key, limit, window) && limit > 0 && window > 0
    ensures Windowed(HistoryOf(calls, key, window), limit, window)
  {
    KeyAlways(calls, if calls == [] then 0 else calls[|calls| - 1].at, key, limit, window);
  }

  /** In every run, any n windows of time see at most (n + 1) * limit - 1 accepted calls that name the key. */
  lemma SlidingBound(calls: seq<Call>, key: Bytes, limit: nat, window: nat, lo: int, n: nat)
    requires Run(calls) && Uses(calls, key, limit, window) && limit > 0 && window > 0
    ensures CountIn(Log(calls, key), lo, lo + n * window) <= (n + 1) * limit - 1
  {
    hide *;
    var h := LogWindows(calls, key, limit, window);
    HistoryBound(h, limit, window, lo, n);
    TimesIsProduct(n, window);
    TimesIsProduct(n, limit);
    assert (n + 1) * limit == n * limit + limit;
  }

  /** A window of a single tick never straddles the start of an interval, so there one quota less can pass. */
  lemma OneTickBound(calls: seq<Call>, key: Bytes, limit: nat, lo: int, n: nat)
    requires Run(calls) && Uses(calls, key, limit, 1) && limit > 0
    ensures CountIn(Log(calls, key), lo, lo + n) <= n * limit
  {
    hide *;
    var h := LogWindows(calls, key, limit, 1);
    OneTickHistory(h, limit, lo, n);
    TimesIsProduct(n, limit);
    TimesIsProduct(n, 1);
  }

  lemma {:induction false} OneTickHistory(h: History, limit: nat, lo: int, n: nat)
    requires Windowed(h, limit, 1)
    ensures CountIn(Flatten(h), lo, lo + Times(n, 1)) <= Times(n, limit)
    decreases |h|
  {
    var hi := lo + Times(n, 1);
    if h != [] && h[0][0] < lo {
      WindowsTail(h, limit, 1);
      CountFront(h, lo, hi);
      LateWindow(h[0], limit, 1, lo, hi);
      OneTickHistory(h[1..], limit, lo, n);
    } else {
      TimesIsProduct(n, 1);
      WindowsFrom(h, limit, 1, lo, hi, n);
    }
  }

  // ---------- a window that is used up ----------

  lemma {:induction false} CountInside(times: seq<int>, lo: int, hi: int)
    requires forall i :: 0 <= i < |times| ==> lo <= times[i] < hi
    ensures CountIn(times, lo, hi) == |times|
  {
    if times != [] {
      CountInside(times[1..], lo, hi);
    }
  }

  lemma {:induction false} BeforeLastWindow(h: History, limit: int, window: int, lo: int, hi: int)
    requires Windowed(h, limit, window) && h != [] && h[|h| - 1][0] <= lo
    ensures CountIn(Flatten(h[..|h| - 1]), lo, hi) == 0
  {
    var front := h[..|h| - 1];
    if front != [] {
      var w := front[|front| - 1];
      assert WindowOk(w, limit, window) && w[0] + window <= h[|h| - 1][0];
      BeforeLastWindow(front, limit, window, lo, hi);
      CountOutside(w, lo, hi);
      CountAppend(Flatten(front[..|front| - 1]), w, lo, hi);
    }
  }

  lemma LastWindowCount(h: History, limit: int, window: int)
    requires Windowed(h, limit, window) && h != [] && window > 0
    ensures
      var last := h[|h| - 1];
      && CountIn(Flatten(h), last[0], last[0] + window) == |last|
      && CountIn(Flatten(h), last[0], last[0] + 1) > 0
  {
    var front, last := h[..|h| - 1], h[|h| - 1];
    BeforeLastWindow(h, limit, window, last[0], last[0] + window);
    BeforeLastWindow(h, limit, window, last[0], last[0] + 1);
    CountInside(last, last[0], last[0] + window);
    CountAppend(Flatten(front), last, last[0], last[0] + window);
    CountAppend(Flatten(front), last, last[0], last[0] + 1);
  }

  /** A counter at its limit: a window that began with an accepted call is still open, and exactly limit calls have
      been accepted in it. */
  lemma FullSince(calls: seq<Call>, now: int, key: Bytes, limit: nat, window: nat) returns (start: int)
    requires Run(calls) && Uses(calls, key, limit, window) && limit > 0 && window > 0
    requires calls != [] ==> calls[|calls| - 1].at <= now
    requires Get(After(calls), key, now) >= limit
    ensures CountIn(Log(calls, key), start, start + window) == limit
    ensures CountIn(Log(calls, key), start, start + 1) > 0
    ensures start <= now && Pttl(After(calls), key, now) == start + window - now > 0
  {
    hide *;
    var h := HistoryOf(calls, key, window);
    KeyAlways(calls, now, key, limit, window);
    HistoryIsLog(calls, key, window);
    AgreesFull(After(calls), now, key, h, limit, window);
    start := h[|h| - 1][0];
    LastWindowCount(h, limit, window);
  }

  lemma AgreesFull(st: Store, now: int, key: Bytes, h: History, limit: int, window: int)
    requires Agrees(st, now, key, h, limit, window) && limit > 0 && Get(st, key, now) >= limit
    ensures Windowed(h, limit, window) && h != [] && |h[|h| - 1]| == limit
    ensures h[|h| - 1][0] <= now && Pttl(st, key, now) == h[|h| - 1][0] + window - now > 0
  {
  }

  // ---------- the bound is tight ----------

  function Single(key: Bytes, limit: int, window: int, at: int): Call {
    Call(at, [Arg(key, limit, window)])
  }

  function Burst(key: Bytes, limit: int, window: int, at: int, n: nat): seq<Call> {
    if n == 0 then [] else Burst(key, limit, window, at, n - 1) + [Single(key, limit, window, at)]
  }

  /** One request at 0, the rest of that window's quota in its last tick, then each later quota as soon as it opens. */
  function WorstRun(key: Bytes, limit: nat, window: nat, n: nat): seq<Call>
    requires limit > 0
  {
    if n == 0 then [Single(key, limit, window, 0)] + Burst(key, limit, window, window - 1, limit - 1)
    else WorstRun(key, limit, window, n - 1) + Burst(key, limit, window, n * window, limit)
  }

  /** After the calls the key's counter is count, and its window ends at deadline. */
  ghost predicate Counter(calls: seq<Call>, key: Bytes, count: int, deadline: int) {
    key in After(calls) && After(calls)[key] == Entry(count, Some(deadline))
  }

  lemma OneMore(calls: seq<Call>, key: Bytes, limit: int, window: int, at: int)
    requires Get(After(calls), key, at) < limit
    ensures
      var longer := calls + [Single(key, limit, window, at)];
      && After(longer) == Bump(After(calls), at, Arg(key, limit, window))
      && Log(longer, key) == Log(calls, key) + [at]
  {
    var c := Single(key, limit, window, at);
    var longer := calls + [c];
    assert longer[..|longer| - 1] == calls && longer[|longer| - 1] == c;
    assert c.args[0].key == key;
    assert BumpAll(After(calls), at, c.args, 1) == Bump(BumpAll(After(calls), at, c.args, 0), at, c.args[0]);
    assert Accepts(After(calls), at, c.args);
  }

  /** The key's window will end at deadline: it is open with this count, or opens with the next request. */
  ghost predicate Ready(calls: seq<Call>, key: Bytes, window: int, at: int, count: int, deadline: int) {
    if count == 0 then !Present(After(calls), key, at) && deadline == at + window
    else Counter(calls, key, count, deadline)
  }

  lemma OneReady(calls: seq<Call>, key: Bytes, limit: int, window: int, at: int, count: nat, deadline: int)
    requires Ready(calls, key, window, at, count, deadline)
    requires window > 0 && count < limit && at < deadline
    ensures Ready(calls + [Single(key, limit, window, at)], key, window, at, count + 1, deadline)
    ensures Log(calls + [Single(key, limit, window, at)], key) == Log(calls, key) + [at]
  {
    OneMore(calls, key, limit, window, at);
  }

  /** A burst that stays within the quota is accepted: in the open window, or in the one it opens. */
  lemma {:induction false} BurstAccepted(
    calls: seq<Call>, key: Bytes, limit: int, window: int, at: int, n: nat, count: nat, deadline: int)
    returns (longer: seq<Call>)
    requires Ready(calls, key, window, at, count, deadline)
    requires window > 0 && count + n <= limit && at < deadline
    ensures longer == calls + Burst(key, limit, window, at, n)
    ensures Ready(longer, key, window, at, count + n, deadline)
    ensures Log(longer, key) == Log(calls, key) + Repeat(at, n)
  {
    hide Ready, Log, After, Exec;
    if n == 0 {
      longer := calls;
    } else {
      var front := BurstAccepted(calls, key, limit, window, at, n - 1, count, deadline);
      OneReady(front, key, limit, window, at, count + n - 1, deadline);
      longer := front + [Single(key, limit, window, at)];
      assert Repeat(at, n - 1) + [at] == Repeat(at, n);
    }
  }

  lemma {:induction false} CountRepeat(at: int, n: nat, lo: int, hi: int)
    requires lo <= at < hi
    ensures CountIn(Repeat(at, n), lo, hi) == n
  {
    if n > 0 {
      assert Repeat(at, n)[1..] == Repeat(at, n - 1);
      CountRepeat(at, n - 1, lo, hi);
    }
  }

  /** All calls name only the key, with one quota, at times from the previous ones up to end. */
  ghost predicate SteadyRun(calls: seq<Call>, key: Bytes, limit: int, window: int, end: int) {
    && Timed(calls)
    && forall i :: 0 <= i < |calls| ==> calls[i] == Single(key, limit, window, calls[i].at) && calls[i].at <= end
  }

  lemma {:induction false} BurstSteady(
    calls: seq<Call>, key: Bytes, limit: int, window: int, end: int, at: int, n: nat)
    requires SteadyRun(calls, key, limit, window, end) && end <= at
    ensures SteadyRun(calls + Burst(key, limit, window, at, n), key, limit, window, at)
  {
    if n > 0 {
      BurstSteady(calls, key, limit, window, end, at, n - 1);
      assert calls + Burst(key, limit, window, at, n)
          == (calls + Burst(key, limit, window, at, n - 1)) + [Single(key, limit, window, at)];
    } else {
      assert calls + Burst(key, limit, window, at, n) == calls;
    }
  }

  lemma {:induction false} WorstSteady(key: Bytes, limit: nat, window: nat, n: nat)
    requires limit > 0 && window > 0
    ensures SteadyRun(WorstRun(key, limit, window, n), key, limit, window, n * window + window - 1)
  {
    if n == 0 {
      BurstSteady([Single(key, limit, window, 0)], key, limit, window, 0, window - 1, limit - 1);
    } else {
      WorstSteady(key, limit, window, n - 1);
      assert n * window == (n - 1) * window + window;
      BurstSteady(WorstRun(key, limit, window, n - 1), key, limit, window, n * window - 1, n * window, limit);
    }
  }

  lemma WorstIsRun(key: Bytes, limit: nat, window: nat, n: nat)
    requires limit > 0 && window > 0
    ensures Run(WorstRun(key, limit, window, n)) && Uses(WorstRun(key, limit, window, n), key, limit, window)
  {
    WorstSteady(key, limit, window, n);
  }

  lemma FirstRequest(key: Bytes, limit: nat, window: nat) returns (first: seq<Call>)
    requires limit > 0 && window > 1
    ensures first == [Single(key, limit, window, 0)]
    ensures Ready(first, key, window, window - 1, 1, window) && Log(first, key) == [0]
  {
    OneReady([], key, limit, window, 0, 0, window);
    first := [Single(key, limit, window, 0)];
    assert [] + first == first;
  }

  lemma NextWindow(calls: seq<Call>, key: Bytes, window: int, count: int, deadline: int)
    requires Counter(calls, key, count, deadline)
    ensures Ready(calls, key, window, deadline, 0, deadline + window)
  {
  }

  lemma ReadyIsCounter(calls: seq<Call>, key: Bytes, window: int, at: int, count: nat, deadline: int)
    requires count > 0
    ensures Ready(calls, key, window, at, count, deadline) <==> Counter(calls, key, count, deadline)
  {
  }

  /** Each stage of the worst run uses up the window that starts at n * window. */
  lemma {:induction false} WorstCount(key: Bytes, limit: nat, window: nat, n: nat, hi: int)
    returns (calls: seq<Call>)
    requires limit > 0 && window > 1 && window - 1 < hi && n * window < hi
    ensures calls == WorstRun(key, limit, window, n)
    ensures Counter(calls, key, limit, n * window + window)
    ensures CountIn(Log(calls, key), window - 1, hi) == n * limit + limit - 1
  {
    hide Ready, Counter, Log, After, Exec;
    if n == 0 {
      var first := FirstRequest(key, limit, window);
      calls := BurstAccepted(first, key, limit, window, window - 1, limit - 1, 1, window);
      CountAppend([0], Repeat(window - 1, limit - 1), window - 1, hi);
      ReadyIsCounter(calls, key, window, window - 1, limit, window);
      CountRepeat(window - 1, limit - 1, window - 1, hi);
    } else {
      var at := n * window;
      assert at == (n - 1) * window + window;
      assert at >= window by { assert (n - 1) * window >= 0; }
      var front := WorstCount(key, limit, window, n - 1, hi);
      NextWindow(front, key, window, limit, at);
      calls := BurstAccepted(front, key, limit, window, at, limit, 0, at + window);
      CountAppend(Log(front, key), Repeat(at, limit), window - 1, hi);
      CountRepeat(at, limit, window - 1, hi);
      ReadyIsCounter(calls, key, window, at, limit, at + window);
    }
  }

  /** Whenever a window is longer than one tick, some run reaches the bound, so it cannot be improved. */
  lemma BoundIsReached(key: Bytes, limit: nat, window: nat, n: nat)
    requires limit > 0 && window > 1 && n > 0
    ensures Run(WorstRun(key, limit, window, n)) && Uses(WorstRun(key, limit, window, n), key, limit, window)
    ensures CountIn(Log(WorstRun(key, limit, window, n), key), window - 1, window - 1 + n * window)
         == (n + 1) * limit - 1
  {
    hide *;
    WorstIsRun(key, limit, window, n);
    StageTimes(window, n);
    assert (n + 1) * limit == n * limit + limit;
    var calls := WorstCount(key, limit, window, n, window - 1 + n * window);
  }

  lemma StageTimes(window: nat, n: nat)
    requires n > 0
    ensures n * window >= window
  {
  }
}
