/** The in-memory fixed-window rate limiter and its eviction of expired windows. */
module RateLimiter {

  datatype Window = Window(count: nat, expires: real)

  type Windows = map<string, Window>

  datatype Decision = Decision(allowed: bool, limit: int, remaining: int, resetAfter: int)

  datatype Request = Request(key: string, now: real, limit: int, window: int)

  const MAX_WINDOWS := 10_000

  function Max(a: int, b: int): int {
    if a > b then a else b
  }

  /** int(): truncation toward zero. */
  function Truncated(x: real): int {
    if x >= 0.0 then x.Floor else -(-x).Floor
  }

  function DecisionFor(w: Window, limit: int, now: real): Decision {
    Decision(w.count <= limit, limit, Max(0, limit - w.count), Max(1, Truncated(w.expires - now) + 1))
  }

  /** The window a request is counted in: a missing or expired one is replaced by one that opens now. */
  function Counted(windows: Windows, q: Request): Window {
    if q.key in windows && windows[q.key].expires > q.now
    then Window(windows[q.key].count + 1, windows[q.key].expires)
    else Window(1, q.now + q.window as real)
  }

  function Evicted(windows: Windows, now: real): Windows {
    map key | key in windows && windows[key].expires > now :: windows[key]
  }

  function Check(windows: Windows, q: Request): (Windows, Decision) {
    var w := Counted(windows, q);
    var updated := windows[q.key := w];
    (if |updated| > MAX_WINDOWS then Evicted(updated, q.now) else updated, DecisionFor(w, q.limit, q.now))
  }

  /** The numbers a decision tells: what is left, and whole seconds that just cover the time the window stays open. */
  lemma DecisionTells(w: Window, limit: int, now: real)
    ensures var d := DecisionFor(w, limit, now);
            && d.remaining == (if w.count <= limit then limit - w.count else 0)
            && 1 <= d.resetAfter
            && (now < w.expires ==> (d.resetAfter - 1) as real <= w.expires - now < d.resetAfter as real)
  {
  }

  class MemoryRateLimiter {
    var windows: Windows

    constructor ()
      ensures windows == map[]
    {
      windows := map[];
    }

    method CheckRequest(key: string, now: real, limit: int, window: int) returns (d: Decision)
      modifies this
      ensures (windows, d) == Check(old(windows), Request(key, now, limit, window))
      ensures d.limit == limit && 0 <= d.remaining && 1 <= d.resetAfter
      ensures var isOpen := key in old(windows) && old(windows)[key].expires > now;
              var count := if isOpen then old(windows)[key].count + 1 else 1;
              var expires := if isOpen then old(windows)[key].expires else now + window as real;
              && (d.allowed <==> count <= limit)
              && d.remaining == (if count <= limit then limit - count else 0)
              && (now < expires ==> (d.resetAfter - 1) as real <= expires - now < d.resetAfter as real)
              && (now < expires ==> key in windows)
              && (key in windows ==> windows[key] == Window(count, expires))
      ensures forall k :: k in windows && k != key ==> k in old(windows) && windows[k] == old(windows)[k]
      ensures forall k :: k in old(windows) && k != key && old(windows)[k].expires > now ==> k in windows
    {
      hide Truncated, Max;
      var count, expires := 0, now + window as real;
      if key in windows {
        count, expires := windows[key].count, windows[key].expires;
      }
      if expires <= now {
        count, expires := 0, now + window as real;
      }
      count := count + 1;
      DecisionTells(Window(count, expires), limit, now);
      windows := windows[key := Window(count, expires)];
      if |windows| > MAX_WINDOWS {
        windows := map k | k in windows && windows[k].expires > now :: windows[k];
      }
      d := Decision(count <= limit, limit, Max(0, limit - count), Max(1, Truncated(expires - now) + 1));
    }
  }

  // ---- Eviction never changes a decision ----

  function Decisions(windows: Windows, requests: seq<Request>): (Windows, seq<Decision>) {
    if requests == [] then (windows, [])
    else
      var (before, decisions) := Decisions(windows, requests[..|requests| - 1]);
      var (after, d) := Check(before, requests[|requests| - 1]);
      (after, decisions + [d])
  }

  /** The same limiter that never evicts. */
  function Plain(requests: seq<Request>): Windows {
    if requests == [] then map[]
    else
      var last := requests[|requests| - 1];
      var before := Plain(requests[..|requests| - 1]);
      before[last.key := Counted(before, last)]
  }

  function PlainDecision(requests: seq<Request>, i: nat): Decision
    requires i < |requests|
  {
    DecisionFor(Counted(Plain(requests[..i]), requests[i]), requests[i].limit, requests[i].now)
  }

  predicate InTimeOrder(requests: seq<Request>) {
    forall i, j :: 0 <= i < j < |requests| ==> requests[i].now <= requests[j].now
  }

  /** Two tables that agree on every window still open. */
  ghost predicate AgreeAfter(a: Windows, b: Windows, now: real) {
    forall key :: key in a || key in b ==>
      if key in a && a[key].expires > now then key in b && b[key] == a[key]
      else key in b ==> b[key].expires <= now
  }

  lemma {:induction false} EvictionKeepsOpenWindows(requests: seq<Request>, now: real)
    requires InTimeOrder(requests) && forall i :: 0 <= i < |requests| ==> requests[i].now <= now
    ensures AgreeAfter(Plain(requests), Decisions(map[], requests).0, now)
  {
    if requests != [] {
      var last := requests[|requests| - 1];
      EvictionKeepsOpenWindows(requests[..|requests| - 1], last.now);
    }
  }

  /** With times in order, every decision of the evicting limiter is that of one that never evicts. */
  lemma {:induction false} EvictionChangesNoDecision(requests: seq<Request>, i: nat)
    requires InTimeOrder(requests) && i < |requests|
    ensures |Decisions(map[], requests).1| == |requests|
    ensures Decisions(map[], requests).1[i] == PlainDecision(requests, i)
  {
    hide Check, Counted, AgreeAfter, Plain;
    var init, last := requests[..|requests| - 1], requests[|requests| - 1];
    DecisionsLength(init);
    if i < |init| {
      EvictionChangesNoDecision(init, i);
      assert init[..i] == requests[..i] && init[i] == requests[i];
    } else {
      EvictionKeepsOpenWindows(init, last.now);
      SameDecision(Plain(init), Decisions(map[], init).0, last);
      assert requests[..i] == init;
    }
  }

  lemma {:induction false} DecisionsLength(requests: seq<Request>)
    ensures |Decisions(map[], requests).1| == |requests|
  {
    hide Check;
    if requests != [] {
      DecisionsLength(requests[..|requests| - 1]);
    }
  }

  lemma SameDecision(a: Windows, b: Windows, q: Request)
    requires AgreeAfter(a, b, q.now)
    ensures Check(b, q).1 == DecisionFor(Counted(a, q), q.limit, q.now)
  {
  }

  // ---- How much one interval can admit ----

  /** One key's requests at fixed limit and window, as the times of its checks. */
  function KeyWindow(times: seq<real>, window: int): Window
    requires times != []
  {
    var last := |times| - 1;
    if last == 0 then Window(1, times[0] + window as real)
    else
      var before := KeyWindow(times[..last], window);
      if before.expires > times[last] then Window(before.count + 1, before.expires)
      else Window(1, times[last] + window as real)
  }

  predicate Ordered(times: seq<real>) {
    forall i, j :: 0 <= i < j < |times| ==> times[i] <= times[j]
  }

  /** How many of the checks at times in [start, end) were admitted. */
  function Admitted(times: seq<real>, limit: int, window: int, start: real, end: real): nat {
    if times == [] then 0
    else
      var last := |times| - 1;
      Admitted(times[..last], limit, window, start, end)
      + if start <= times[last] < end && KeyWindow(times, window).count <= limit then 1 else 0
  }

  function Opened(times: seq<real>, window: int): real
    requires times != []
  {
    KeyWindow(times, window).expires - window as real
  }

  lemma {:induction false} TimesBeforeExpiry(times: seq<real>, window: int)
    requires times != [] && Ordered(times) && window > 0
    ensures KeyWindow(times, window).count >= 1
    ensures Opened(times, window) <= times[|times| - 1] < KeyWindow(times, window).expires
  {
    if |times| > 1 {
      TimesBeforeExpiry(times[..|times| - 1], window);
    }
  }

  lemma {:induction false} NothingAdmittedAfter(times: seq<real>, limit: int, window: int, start: real, end: real)
    requires forall i :: 0 <= i < |times| ==> times[i] < start
    ensures Admitted(times, limit, window, start, end) == 0
  {
    if times != [] {
      NothingAdmittedAfter(times[..|times| - 1], limit, window, start, end);
    }
  }

  lemma {:induction false} AdmittedSplits(times: seq<real>, limit: int, window: int, a: real, b: real, c: real)
    requires a <= b <= c
    ensures Admitted(times, limit, window, a, c)
         == Admitted(times, limit, window, a, b) + Admitted(times, limit, window, b, c)
  {
    if times != [] {
      AdmittedSplits(times[..|times| - 1], limit, window, a, b, c);
    }
  }

  function Min(a: int, b: int): int {
    if a < b then a else b
  }

  predicate FixedWindows(times: seq<real>, limit: int, window: int) {
    times != [] && Ordered(times) && limit > 0 && window > 0
  }

  /** Since it opened, the current window has admitted as many as it counted, up to the limit. */
  lemma {:induction false} CurrentWindowAdmits(times: seq<real>, limit: int, window: int, end: real)
    requires FixedWindows(times, limit, window) && end > times[|times| - 1]
    ensures Admitted(times, limit, window, Opened(times, window), end) == Min(KeyWindow(times, window).count, limit)
  {
    TimesBeforeExpiry(times, window);
    var init, last := times[..|times| - 1], times[|times| - 1];
    if init != [] {
      TimesBeforeExpiry(init, window);
      if KeyWindow(init, window).expires > last {
        CurrentWindowAdmits(init, limit, window, end);
      } else {
        NothingAdmittedAfter(init, limit, window, last, end);
      }
    }
  }

  /** What was admitted strictly after the window opened misses the request that opened it. */
  lemma {:induction false} AfterOpeningAdmits(times: seq<real>, limit: int, window: int, start: real, end: real)
    requires FixedWindows(times, limit, window) && start > Opened(times, window)
    ensures Admitted(times, limit, window, start, end) <= Min(KeyWindow(times, window).count, limit) - 1
  {
    TimesBeforeExpiry(times, window);
    var init, last := times[..|times| - 1], times[|times| - 1];
    if init != [] {
      TimesBeforeExpiry(init, window);
      if KeyWindow(init, window).expires > last {
        AfterOpeningAdmits(init, limit, window, start, end);
      } else {
        NothingAdmittedAfter(init, limit, window, start, end);
      }
    }
  }

  /** Within one window's length before the current window opened, fewer than the limit were admitted. */
  lemma {:induction false} BeforeOpeningAdmits(times: seq<real>, limit: int, window: int, start: real, end: real)
    requires FixedWindows(times, limit, window)
    requires Opened(times, window) - window as real < start && end <= Opened(times, window)
    ensures Admitted(times, limit, window, start, end) <= limit - 1
  {
    TimesBeforeExpiry(times, window);
    var init, last := times[..|times| - 1], times[|times| - 1];
    if init != [] {
      if KeyWindow(init, window).expires > last {
        BeforeOpeningAdmits(init, limit, window, start, end);
      } else {
        AfterOpeningAdmits(init, limit, window, start, end);
      }
    }
  }

  /** Any half-open interval as long as the window admits at most 2 * limit - 1 checks of one key. */
  lemma {:induction false} IntervalAdmitsBelowTwiceTheLimit(times: seq<real>, limit: int, window: int, start: real)
    requires Ordered(times) && limit > 0 && window > 0
    ensures Admitted(times, limit, window, start, start + window as real) <= 2 * limit - 1
  {
    if times != [] {
      var last, openedAt := times[|times| - 1], Opened(times, window);
      var end := start + window as real;
      TimesBeforeExpiry(times, window);
      if last >= end || last < start {
        IntervalAdmitsBelowTwiceTheLimit(times[..|times| - 1], limit, window, start);
      } else if start > openedAt {
        AfterOpeningAdmits(times, limit, window, start, end);
      } else {
        AdmittedSplits(times, limit, window, start, openedAt, end);
        BeforeOpeningAdmits(times, limit, window, start, openedAt);
        CurrentWindowAdmits(times, limit, window, end);
      }
    }
  }

  // ---- The bound is reached at every limit and window ----

  function Repeated(x: real, n: nat): (r: seq<real>)
    ensures |r| == n && forall i :: 0 <= i < n ==> r[i] == x
  {
    if n == 0 then [] else Repeated(x, n - 1) + [x]
  }

  /** One check opens a window, the others of its limit come late in it, and a full second window follows. */
  function Burst(limit: nat, window: nat, second: nat): seq<real>
    requires limit > 0
  {
    [0.0] + Repeated(window as real - 0.5, limit - 1) + Repeated(window as real, second)
  }

  lemma AdmittedOneMore(times: seq<real>, x: real, limit: int, window: int, start: real, end: real)
    ensures Admitted(times + [x], limit, window, start, end)
         == Admitted(times, limit, window, start, end)
            + if start <= x < end && KeyWindow(times + [x], window).count <= limit then 1 else 0
    ensures times != [] ==>
              KeyWindow(times + [x], window)
              == if KeyWindow(times, window).expires > x
                 then Window(KeyWindow(times, window).count + 1, KeyWindow(times, window).expires)
                 else Window(1, x + window as real)
  {
    assert (times + [x])[..|times|] == times;
  }

  lemma OneCheck(limit: nat, window: nat)
    ensures KeyWindow([0.0], window) == Window(1, window as real)
    ensures Admitted([0.0], limit, window, 0.25, 0.25 + window as real) == 0
  {
    assert [0.0][..0] == [];
  }

  lemma {:induction false} FirstWindowFills(limit: nat, window: nat, n: nat)
    requires 0 < limit && n < limit && window > 0
    ensures var times := [0.0] + Repeated(window as real - 0.5, n);
            && KeyWindow(times, window) == Window(n + 1, window as real)
            && Admitted(times, limit, window, 0.25, 0.25 + window as real) == n
  {
    var late := window as real - 0.5;
    hide KeyWindow, Admitted;
    if n == 0 {
      assert [0.0] + Repeated(late, 0) == [0.0];
      OneCheck(limit, window);
    } else {
      FirstWindowFills(limit, window, n - 1);
      assert [0.0] + Repeated(late, n) == [0.0] + Repeated(late, n - 1) + [late];
      AdmittedOneMore([0.0] + Repeated(late, n - 1), late, limit, window, 0.25, 0.25 + window as real);
    }
  }

  lemma {:induction false} SecondWindowFills(limit: nat, window: nat, n: nat)
    requires 0 < limit && n <= limit && window > 0
    ensures var times := Burst(limit, window, n);
            && (n > 0 ==> KeyWindow(times, window) == Window(n, 2.0 * window as real))
            && Admitted(times, limit, window, 0.25, 0.25 + window as real) == limit - 1 + n
  {
    var w := window as real;
    var first := [0.0] + Repeated(w - 0.5, limit - 1);
    FirstWindowFills(limit, window, limit - 1);
    if n == 0 {
      assert Burst(limit, window, 0) == first;
    } else {
      SecondWindowFills(limit, window, n - 1);
      assert Burst(limit, window, n) == Burst(limit, window, n - 1) + [w];
      assert n == 1 ==> Burst(limit, window, 0) == first;
      AdmittedOneMore(Burst(limit, window, n - 1), w, limit, window, 0.25, 0.25 + w);
    }
  }

  /** For every limit and window some checks reach the bound: 2 * limit - 1 admitted within one window's length. */
  lemma {:induction false} BoundIsReached(limit: nat, window: nat)
    requires limit > 0 && window > 0
    ensures Ordered(Burst(limit, window, limit))
    ensures Admitted(Burst(limit, window, limit), limit, window, 0.25, 0.25 + window as real) == 2 * limit - 1
  {
    SecondWindowFills(limit, window, limit);
  }

  // ---- One key among all requests ----

  function TimesOf(requests: seq<Request>, key: string): seq<real> {
    if requests == [] then []
    else
      var last := requests[|requests| - 1];
      TimesOf(requests[..|requests| - 1], key) + if last.key == key then [last.now] else []
  }

  predicate Uniform(requests: seq<Request>, limit: int, window: int) {
    forall i :: 0 <= i < |requests| ==> requests[i].limit == limit && requests[i].window == window
  }

  /** The limiter's window for a key depends on that key's own requests alone. */
  lemma {:induction false} PlainIsPerKey(requests: seq<Request>, key: string, limit: int, window: int)
    requires Uniform(requests, limit, window)
    ensures var times := TimesOf(requests, key);
            if times == [] then key !in Plain(requests)
            else key in Plain(requests) && Plain(requests)[key] == KeyWindow(times, window)
  {
    if requests != [] {
      var init, last := requests[..|requests| - 1], requests[|requests| - 1];
      PlainIsPerKey(init, key, limit, window);
      var before := TimesOf(init, key);
      if last.key == key {
        assert (before + [last.now])[..|before|] == before;
      } else {
        assert before + [] == before;
      }
    }
  }

  /** How many requests of one key the limiter allowed at times in [start, end). */
  function Allowed(requests: seq<Request>, key: string, start: real, end: real): nat {
    if requests == [] then 0
    else
      var last := requests[|requests| - 1];
      var d := Check(Decisions(map[], requests[..|requests| - 1]).0, last).1;
      Allowed(requests[..|requests| - 1], key, start, end)
      + if last.key == key && start <= last.now < end && d.allowed then 1 else 0
  }

  /** The last request is allowed exactly when its key's current window has counted no more than the limit. */
  lemma LastIsAllowedIff(requests: seq<Request>, limit: int, window: int)
    requires requests != [] && InTimeOrder(requests) && Uniform(requests, limit, window)
    ensures var init, last := requests[..|requests| - 1], requests[|requests| - 1];
            var times := TimesOf(init, last.key) + [last.now];
            Check(Decisions(map[], init).0, last).1.allowed <==> KeyWindow(times, window).count <= limit
  {
    var init, last := requests[..|requests| - 1], requests[|requests| - 1];
    var before := TimesOf(init, last.key);
    assert (before + [last.now])[..|before|] == before;
    PlainIsPerKey(init, last.key, limit, window);
    EvictionKeepsOpenWindows(init, last.now);
    hide Decisions, Plain, AgreeAfter;
    CountedMatches(Plain(init), Decisions(map[], init).0, last);
  }

  lemma AdmittedSnoc(times: seq<real>, now: real, limit: int, window: int, start: real, end: real)
    ensures Admitted(times + [now], limit, window, start, end)
         == Admitted(times, limit, window, start, end)
            + if start <= now < end && KeyWindow(times + [now], window).count <= limit then 1 else 0
  {
    assert (times + [now])[..|times|] == times;
  }

  lemma {:induction false} AllowedIsAdmitted(
    requests: seq<Request>, key: string, limit: int, window: int, start: real, end: real)
    requires InTimeOrder(requests) && Uniform(requests, limit, window)
    ensures Allowed(requests, key, start, end) == Admitted(TimesOf(requests, key), limit, window, start, end)
  {
    hide Check, Decisions, KeyWindow, Admitted;
    if requests == [] {
      NothingAdmittedAfter([], limit, window, start, end);
    } else {
      var init, last := requests[..|requests| - 1], requests[|requests| - 1];
      AllowedIsAdmitted(init, key, limit, window, start, end);
      var before := TimesOf(init, key);
      if last.key == key {
        LastIsAllowedIff(requests, limit, window);
        AdmittedSnoc(before, last.now, limit, window, start, end);
      } else {
        assert before + [] == before;
      }
    }
  }

  lemma CountedMatches(a: Windows, b: Windows, q: Request)
    requires AgreeAfter(a, b, q.now)
    ensures Counted(a, q) == Counted(b, q)
  {
  }

  lemma {:induction false} TimesAreOrdered(requests: seq<Request>, key: string)
    requires InTimeOrder(requests)
    ensures Ordered(TimesOf(requests, key))
    ensures requests != [] ==>
              forall i :: 0 <= i < |TimesOf(requests, key)| ==> TimesOf(requests, key)[i] <= requests[|requests| - 1].now
  {
    if requests != [] {
      TimesAreOrdered(requests[..|requests| - 1], key);
    }
  }

  lemma {:induction false} NothingAdmittedWithout(times: seq<real>, limit: int, window: int, start: real, end: real)
    requires limit <= 0 || end <= start
    ensures Admitted(times, limit, window, start, end) == 0
  {
    if times != [] {
      NothingAdmittedWithout(times[..|times| - 1], limit, window, start, end);
      CountIsPositive(times, window);
    }
  }

  lemma CountIsPositive(times: seq<real>, window: int)
    requires times != []
    ensures KeyWindow(times, window).count >= 1
  {
  }

  /**
   * At a fixed limit and window, with eviction and any traffic on other keys, no interval as long as the window
   * sees more than 2 * limit - 1 of one key's requests allowed, and none when the limit is not positive.
   */
  lemma {:induction false} LimiterBound(requests: seq<Request>, key: string, limit: int, window: int, start: real)
    requires InTimeOrder(requests) && Uniform(requests, limit, window)
    ensures Allowed(requests, key, start, start + window as real) <= Max(0, 2 * limit - 1)
  {
    hide Allowed, Admitted, TimesOf, InTimeOrder, Uniform, Ordered;
    AllowedIsAdmitted(requests, key, limit, window, start, start + window as real);
    TimesAreOrdered(requests, key);
    if limit > 0 && window > 0 {
      IntervalAdmitsBelowTwiceTheLimit(TimesOf(requests, key), limit, window, start);
    } else {
      NothingAdmittedWithout(TimesOf(requests, key), limit, window, start, start + window as real);
    }
  }

  function AllowedWithin(requests: seq<Request>, key: string, window: int, start: real): nat {
    Allowed(requests, key, start, start + window as real)
  }

  /** Whatever the traffic, no interval as long as the window sees more of one key's requests allowed than the limit. */
  ghost predicate NeverAboveLimit(limit: int, window: int) {
    forall requests, key, start :: InTimeOrder(requests) && Uniform(requests, limit, window) ==>
      AllowedWithin(requests, key, window, start) <= Max(0, limit)
  }

  function RequestsAt(key: string, times: seq<real>, limit: int, window: int): (r: seq<Request>)
    ensures |r| == |times| && forall i :: 0 <= i < |times| ==> r[i] == Request(key, times[i], limit, window)
  {
    seq(|times|, i requires 0 <= i < |times| => Request(key, times[i], limit, window))
  }

  lemma {:induction false} TimesOfRequestsAt(key: string, times: seq<real>, limit: int, window: int)
    ensures TimesOf(RequestsAt(key, times, limit, window), key) == times
  {
    if times != [] {
      var init := times[..|times| - 1];
      TimesOfRequestsAt(key, init, limit, window);
      assert RequestsAt(key, times, limit, window)[..|times| - 1] == RequestsAt(key, init, limit, window);
    }
  }

  /** That holds exactly at limits of one or less; above, a full window's tail and its successor's head exceed it. */
  lemma {:induction false} NeverAboveLimitIff(limit: int, window: nat)
    requires window > 0
    ensures NeverAboveLimit(limit, window) <==> limit <= 1
  {
    hide Allowed;
    if limit <= 1 {
      forall requests, key, start | InTimeOrder(requests) && Uniform(requests, limit, window)
        ensures AllowedWithin(requests, key, window, start) <= Max(0, limit)
      {
        LimiterBound(requests, key, limit, window, start);
      }
    } else {
      var requests := BurstIsAllowed(limit, window);
      assert AllowedWithin(requests, "key", window, 0.25) > Max(0, limit);
    }
  }

  lemma BurstIsAllowed(limit: nat, window: nat) returns (requests: seq<Request>)
    requires limit > 0 && window > 0
    ensures InTimeOrder(requests) && Uniform(requests, limit, window)
    ensures AllowedWithin(requests, "key", window, 0.25) == 2 * limit - 1
  {
    hide Allowed, Admitted, Burst, TimesOf;
    var times := Burst(limit, window, limit);
    BoundIsReached(limit, window);
    requests := RequestsAt("key", times, limit, window);
    TimesOfRequestsAt("key", times, limit, window);
    AllowedIsAdmitted(requests, "key", limit, window, 0.25, 0.25 + window as real);
  }

  // ---- Waiting as told ----

  /** A key that waits the seconds it was told, whatever other keys do meanwhile, is counted in a new window. */
  lemma {:induction false} WaitingOpensANewWindow(windows: Windows, q: Request, others: seq<Request>, again: Request)
    requires q.window > 0 && again.key == q.key
    requires forall i :: 0 <= i < |others| ==> others[i].key != q.key
    requires again.now >= q.now + Check(windows, q).1.resetAfter as real
    ensures Counted(Decisions(Check(windows, q).0, others).0, again).count == 1
    ensures Check(Decisions(Check(windows, q).0, others).0, again).1.allowed <==> again.limit >= 1
  {
    var w := Counted(windows, q);
    var after := Check(windows, q).0;
    assert w.expires > q.now;
    assert w.expires - q.now < (w.expires - q.now).Floor as real + 1.0;
    assert again.now > w.expires;
    OthersLeaveWindow(after, q.key, w.expires, others);
  }

  lemma {:induction false} OthersLeaveWindow(windows: Windows, key: string, expires: real, others: seq<Request>)
    requires key in windows ==> windows[key].expires <= expires
    requires forall i :: 0 <= i < |others| ==> others[i].key != key
    ensures var after := Decisions(windows, others).0; key in after ==> after[key].expires <= expires
  {
    if others != [] {
      OthersLeaveWindow(windows, key, expires, others[..|others| - 1]);
    }
  }
}
