/**
 * The fixed-window, per-client request limiter in front of the API
 * (infrastructure/web/filter/RateLimitingFilter.java).
 */
module RateLimiting {
  import opened Wrappers
  import opened JavaValues
  import opened JavaInts
  import opened JavaStrings
  import opened Sequences

  const API_PREFIX := "/api/"
  const UNKNOWN_CLIENT := "unknown"
  const TOO_MANY_REQUESTS := 429
  const DEFAULT_LIMIT := 100
  /** `TimeUnit.MINUTES.toMillis(1)`. */
  const DEFAULT_WINDOW_MS := 60000

  /** The parts of a servlet request the filter reads; an absent header or address is null. */
  datatype Request = Request(requestUri: Option<string>, forwardedFor: Option<string>, realIp: Option<string>,
                             remoteAddr: Option<string>)

  /** The filter either hands the request down the chain or answers it with 429 itself. */
  datatype Outcome = PassedOn | TooManyRequests

  /** `RequestCounter`: the window it was created in (a final field) and the requests counted. */
  datatype RequestCounter = RequestCounter(windowStartMs: int, count: Int32)

  /** `shouldNotFilter`: only requests whose URI starts with "/api/" are limited. */
  predicate ShouldNotFilter(path: Option<string>) {
    path.None? || !StartsWith(path.value, API_PREFIX)
  }

  /** The filter leaves a request alone exactly when its path is missing or outside the API. */
  lemma ApiPathsAreFiltered(path: string)
    ensures !ShouldNotFilter(Some(path)) <==> |path| >= 5 && path[..5] == "/api/"
  {
  }

  /** A header counts when it is present and not blank. */
  predicate Usable(header: Option<string>) {
    header.Some? && !IsBlank(header.value)
  }

  /**
   * `resolveClientIp`: the first hop of X-Forwarded-For (the part before its first comma,
   * when that comma is not at the start), else X-Real-IP, else the remote address, trimmed
   * where they come from headers.
   */
  function ResolveClientIp(request: Request): (key: string)
    ensures Usable(request.forwardedFor) ==>
      var x := request.forwardedFor.value;
      key == (if IndexOf(x, ',') > 0 then Trim(x[..IndexOf(x, ',')]) else Trim(x))
    ensures !Usable(request.forwardedFor) && Usable(request.realIp) ==> key == Trim(request.realIp.value)
    ensures !Usable(request.forwardedFor) && !Usable(request.realIp) ==>
      key == request.remoteAddr.GetOr(UNKNOWN_CLIENT)
  {
    if Usable(request.forwardedFor) then
      var x := request.forwardedFor.value;
      var comma := IndexOf(x, ',');
      if comma > 0 then Trim(x[..comma]) else Trim(x)
    else if Usable(request.realIp) then Trim(request.realIp.value)
    else request.remoteAddr.GetOr(UNKNOWN_CLIENT)
  }

  /** A proxy chain "client, proxy…" is keyed by the client, whatever the other headers say. */
  lemma FirstHopIsTheKey(client: string, rest: string, realIp: Option<string>, remoteAddr: Option<string>, uri: Option<string>)
    requires client != [] && ',' !in client
    ensures ResolveClientIp(Request(uri, Some(client + "," + rest), realIp, remoteAddr)) == Trim(client)
  {
    var x := client + "," + rest;
    assert x[|client|] == ',' && !IsJavaWhitespace(x[|client|]);
    assert ',' in x;
    assert x[..|client|] == client;
    assert ',' !in x[..|client|];
    assert IndexOf(x, ',') == |client|;
  }

  /** With no usable header, the key is the remote address, or "unknown" without one. */
  lemma NoHeadersUseRemoteAddress(uri: Option<string>, remoteAddr: Option<string>)
    ensures ResolveClientIp(Request(uri, None, None, remoteAddr)) == (if remoteAddr.Some? then remoteAddr.value else "unknown")
  {
  }

  /**
   * `(now / windowMs) * windowMs` in `long` arithmetic: the start of the window holding
   * `now`.  A zero window divides by zero.
   */
  function WindowStart(now: Int64, windowMs: Int64): (r: Result<Int64, JavaException>)
    ensures r.Err? <==> windowMs == 0
    ensures r.Err? ==> r.error == ArithmeticException
    ensures windowMs > 0 && now >= 0 ==>
      r.value <= now < r.value + windowMs && r.value % windowMs == 0
  {
    if windowMs == 0 then Err(ArithmeticException)
    else
      var q := TruncDiv(now, windowMs);
      if windowMs > 0 && now >= 0 then
        WholeWindows(now, windowMs);
        Ok(WrapLong(WrapLong(q) * windowMs))
      else
        Ok(WrapLong(WrapLong(q) * windowMs))
  }

  /** For a non-negative instant, the whole windows before it end at or before it, and within one window of it. */
  lemma WholeWindows(now: int, windowMs: int)
    requires now >= 0 && windowMs > 0
    ensures var start := (now / windowMs) * windowMs;
      0 <= now / windowMs <= now && 0 <= start <= now < start + windowMs && start % windowMs == 0
  {
    var q := now / windowMs;
    EuclideanDivision(now, windowMs);
    MulAtLeast(q, windowMs);
    MultipleHasNoRemainder(q, windowMs);
  }

  /** A multiple of a positive `w` by a non-negative factor is at least the factor, and a positive one at least `w`. */
  lemma {:induction false} MulAtLeast(d: int, w: int)
    requires d >= 0 && w > 0
    ensures d <= d * w
    ensures d >= 1 ==> w <= d * w
    decreases d
  {
    if d > 0 {
      MulAtLeast(d - 1, w);
      assert d * w == (d - 1) * w + w;
    }
  }

  /** A multiple of `w` leaves no remainder. */
  lemma MultipleHasNoRemainder(k: int, w: int)
    requires w > 0
    ensures (k * w) % w == 0 && (k * w) / w == k
  {
    DivisionIsUnique(k * w, w, k, 0);
  }

  /** Dafny's `/` and `%` are the unique quotient and remainder with the remainder in [0, w). */
  lemma DivisionIsUnique(a: int, w: int, q: int, rem: int)
    requires w > 0 && a == q * w + rem && 0 <= rem < w
    ensures a / w == q && a % w == rem
  {
    var q0, r0 := a / w, a % w;
    assert a == q0 * w + r0;
    if q0 < q {
      MulAtLeast(q - q0, w);
    } else if q < q0 {
      MulAtLeast(q0 - q, w);
    }
  }

  /** Two instants in the same window of a positive length share its start. */
  lemma SameWindowSameStart(t1: Int64, t2: Int64, windowMs: Int64, start: int)
    requires windowMs > 0 && t1 >= 0 && t2 >= 0
    requires start % windowMs == 0 && start <= t1 < start + windowMs && start <= t2 < start + windowMs
    ensures WindowStart(t1, windowMs) == WindowStart(t2, windowMs) == Ok(start)
  {
    UniqueWindowStart(start, WindowStart(t1, windowMs).value, t1, windowMs);
    UniqueWindowStart(start, WindowStart(t2, windowMs).value, t2, windowMs);
  }

  /** At most one multiple of the window length lies within one window length below `t`. */
  lemma UniqueWindowStart(s1: int, s2: int, t: int, windowMs: int)
    requires windowMs > 0
    requires s1 % windowMs == 0 && s1 <= t < s1 + windowMs
    requires s2 % windowMs == 0 && s2 <= t < s2 + windowMs
    ensures s1 == s2
  {
    var k1, k2 := s1 / windowMs, s2 / windowMs;
    assert s1 == k1 * windowMs && s2 == k2 * windowMs;
    assert (k2 - k1) * windowMs == s2 - s1;
    SmallMultipleIsZero(k2 - k1, windowMs);
  }

  /** A multiple of `w` strictly between `-w` and `w` is zero. */
  lemma SmallMultipleIsZero(d: int, w: int)
    requires w > 0 && -w < d * w < w
    ensures d == 0
  {
    var a := if d < 0 then -d else d;
    MulAtLeast(a, w);
    assert a * w == (if d < 0 then -(d * w) else d * w);
  }

  // ----- one client's counter -----

  /** The counter the cache holds for a key, if any. */
  function Lookup(cache: map<string, RequestCounter>, key: string): Option<RequestCounter> {
    if key in cache then Some(cache[key]) else None
  }

  /**
   * The counter after one request in the window starting at `ws`, as written: a missing
   * counter is created in this window at 0; a counter from another window is reset to 0
   * but keeps its (final) window start; then the count is incremented, rejected requests
   * included, in `int` arithmetic.
   */
  function Counted(existing: Option<RequestCounter>, ws: int): (c: RequestCounter)
    ensures existing.None? ==> c == RequestCounter(ws, 1)
    ensures existing.Some? ==> c.windowStartMs == existing.value.windowStartMs
    ensures existing.Some? && existing.value.windowStartMs == ws ==> c.count == Wrap(existing.value.count + 1)
    ensures existing.Some? && existing.value.windowStartMs != ws ==> c.count == 1
  {
    var counter := existing.GetOr(RequestCounter(ws, 0));
    var count := if counter.windowStartMs != ws then 0 else counter.count;
    counter.(count := Wrap(count + 1))
  }

  /**
   * The counter after one request when a new window starts a new counter: the count is
   * that of the current window only.
   */
  function CountedCorrected(existing: Option<RequestCounter>, ws: int): (c: RequestCounter)
    ensures c.windowStartMs == ws
    ensures existing.Some? && existing.value.windowStartMs == ws ==> c.count == Wrap(existing.value.count + 1)
    ensures existing.None? || existing.value.windowStartMs != ws ==> c.count == 1
  {
    if existing.Some? && existing.value.windowStartMs == ws then existing.value.(count := Wrap(existing.value.count + 1))
    else RequestCounter(ws, 1)
  }

  /** The filter's decision on an incremented counter. */
  function Decide(c: RequestCounter, limit: int): (o: Outcome)
    ensures o == PassedOn <==> c.count <= limit
  {
    if c.count > limit then TooManyRequests else PassedOn
  }

  /** What one client's requests leave behind: its counter and which of them were passed on. */
  datatype Trace = Trace(counter: Option<RequestCounter>, passed: seq<bool>)

  /**
   * One client's requests, given by the starts of the windows they fell in, replayed
   * through a counter update `step` against a `limit`.
   */
  function Replay(step: (Option<RequestCounter>, int) -> RequestCounter, windows: seq<int>, limit: int): (t: Trace)
    ensures |t.passed| == |windows|
    ensures windows != [] <==> t.counter.Some?
  {
    if windows == [] then Trace(None, [])
    else
      var before := Replay(step, windows[..|windows| - 1], limit);
      var c := step(before.counter, windows[|windows| - 1]);
      Trace(Some(c), before.passed + [Decide(c, limit) == PassedOn])
  }

  /** A counter update that, within one window, starts at 1 and adds one per request. */
  ghost predicate CountsWithinWindow(step: (Option<RequestCounter>, int) -> RequestCounter) {
    (forall ws :: step(None, ws) == RequestCounter(ws, 1))
    && (forall c: RequestCounter :: step(Some(c), c.windowStartMs) == c.(count := Wrap(c.count + 1)))
  }

  /** Both the as-written and the corrected update count that way. */
  lemma BothCountWithinWindow()
    ensures CountsWithinWindow(Counted)
    ensures CountsWithinWindow(CountedCorrected)
  {
    forall ws ensures Counted(None, ws) == RequestCounter(ws, 1) && CountedCorrected(None, ws) == RequestCounter(ws, 1) {
    }
    forall c: RequestCounter ensures Counted(Some(c), c.windowStartMs) == c.(count := Wrap(c.count + 1))
      && CountedCorrected(Some(c), c.windowStartMs) == c.(count := Wrap(c.count + 1)) {
    }
  }

  /**
   * Within one window, a client's n-th request is passed on exactly when n is at most the
   * limit, and its counter holds the number of requests so far.
   */
  lemma {:induction false} OneWindowPassesFirstLimit(step: (Option<RequestCounter>, int) -> RequestCounter,
                                                     windows: seq<int>, w: int, limit: int)
    requires CountsWithinWindow(step)
    requires |windows| <= INT_MAX
    requires forall i :: 0 <= i < |windows| ==> windows[i] == w
    ensures windows != [] ==> Replay(step, windows, limit).counter == Some(RequestCounter(w, |windows|))
    ensures forall i :: 0 <= i < |windows| ==> (Replay(step, windows, limit).passed[i] <==> i + 1 <= limit)
  {
    if windows != [] {
      var prefix := windows[..|windows| - 1];
      OneWindowPassesFirstLimit(step, prefix, w, limit);
      var before := Replay(step, prefix, limit);
      if prefix == [] {
        assert before.counter == None;
      } else {
        assert before.counter == Some(RequestCounter(w, |prefix|));
        assert step(before.counter, w) == RequestCounter(w, |prefix|).(count := Wrap(|prefix| + 1));
      }
      assert step(before.counter, windows[|windows| - 1]) == RequestCounter(w, |windows|);
    }
  }

  /**
   * As written: once a client's counter is from an earlier window, every later request
   * resets it to 0 and counts 1, so with a positive limit nothing is ever refused again.
   */
  lemma {:induction false} StaleCounterNeverLimits(first: int, later: seq<int>, limit: int)
    requires limit >= 1
    requires forall i :: 0 <= i < |later| ==> later[i] != first
    ensures Replay(Counted, [first] + later, limit).counter == Some(RequestCounter(first, 1))
    ensures forall i :: 0 <= i < |later| + 1 ==> Replay(Counted, [first] + later, limit).passed[i]
  {
    var windows := [first] + later;
    if later != [] {
      var shorter := later[..|later| - 1];
      assert windows[..|windows| - 1] == [first] + shorter;
      StaleCounterNeverLimits(first, shorter, limit);
    }
  }

  /** Requests in window `w` that were passed on. */
  function PassCount(windows: seq<int>, passed: seq<bool>, w: int): (n: nat)
    requires |passed| == |windows|
    ensures n <= Occurrences(windows, w)
  {
    if windows == [] then 0
    else PassCount(windows[..|windows| - 1], passed[..|passed| - 1], w)
         + (if windows[|windows| - 1] == w && passed[|passed| - 1] then 1 else 0)
  }

  function Min(a: int, b: int): int {
    if a <= b then a else b
  }

  predicate NonDecreasing(windows: seq<int>) {
    forall i, j :: 0 <= i < j < |windows| ==> windows[i] <= windows[j]
  }

  /** A window later than every earlier request's window holds none of them. */
  lemma {:induction false} NoneInLaterWindow(windows: seq<int>, w: int)
    requires forall i :: 0 <= i < |windows| ==> windows[i] < w
    ensures Occurrences(windows, w) == 0
  {
    if windows != [] {
      NoneInLaterWindow(windows[..|windows| - 1], w);
    }
  }

  /**
   * With the corrected update and a clock that does not run backwards, the requests a client
   * gets through in any window are the first `limit` of that window (none for a negative
   * limit): the limit holds per window.
   */
  lemma {:induction false} CorrectedLimitsEachWindow(windows: seq<int>, limit: Int32)
    requires NonDecreasing(windows) && |windows| <= INT_MAX
    ensures var t := Replay(CountedCorrected, windows, limit);
      forall w :: PassCount(windows, t.passed, w) == Min(Occurrences(windows, w), Clamp(limit))
    ensures windows != [] ==>
      Replay(CountedCorrected, windows, limit).counter ==
        Some(RequestCounter(windows[|windows| - 1], Occurrences(windows, windows[|windows| - 1])))
  {
    if windows != [] {
      var prefix := windows[..|windows| - 1];
      var x := windows[|windows| - 1];
      CorrectedLimitsEachWindow(prefix, limit);
      var before := Replay(CountedCorrected, prefix, limit);
      var t := Replay(CountedCorrected, windows, limit);
      if prefix != [] && prefix[|prefix| - 1] != x {
        NoneInLaterWindow(prefix, x);
      }
      var c := CountedCorrected(before.counter, x);
      assert c == RequestCounter(x, Occurrences(windows, x));
      assert t.passed[..|t.passed| - 1] == before.passed;
      forall w ensures PassCount(windows, t.passed, w) == Min(Occurrences(windows, w), Clamp(limit)) {
        assert PassCount(windows, t.passed, w) ==
          PassCount(prefix, before.passed, w) + (if x == w && c.count <= limit then 1 else 0);
      }
    }
  }

  // ----- the filter -----

  /**
   * The filter object.  Its Caffeine cache is a map from client key to counter, never
   * evicted; each key's counter belongs to that key alone, so it is held as a value.
   */
  class RateLimitingFilter {
    const limit: Int32
    const windowMs: Int64
    var cache: map<string, RequestCounter>

    /** `RateLimitingFilter(limit, windowMs)`: an empty cache. */
    constructor (limit: Int32, windowMs: Int64)
      ensures this.limit == limit && this.windowMs == windowMs && cache == map[]
    {
      this.limit := limit;
      this.windowMs := windowMs;
      cache := map[];
    }

    /** `RateLimitingFilter()`: 100 requests a minute. */
    constructor Default()
      ensures limit == DEFAULT_LIMIT && windowMs == DEFAULT_WINDOW_MS && cache == map[]
    {
      limit := DEFAULT_LIMIT;
      windowMs := DEFAULT_WINDOW_MS;
      cache := map[];
    }

    /**
     * `doFilterInternal` at instant `now`: the client's counter is created or updated, and
     * the request is refused once the count exceeds the limit.  A zero window throws
     * before the cache is touched.
     */
    method DoFilterInternal(request: Request, now: Int64) returns (r: Result<Outcome, JavaException>)
      modifies this
      ensures windowMs == 0 ==> r == Err(ArithmeticException) && cache == old(cache)
      ensures windowMs != 0 ==>
        var key := ResolveClientIp(request);
        var c := Counted(Lookup(old(cache), key), WindowStart(now, windowMs).value);
        cache == old(cache)[key := c] && r == Ok(Decide(c, limit))
    {
      var clientIp := ResolveClientIp(request);
      var currentWindowStart :- WindowStart(now, windowMs);
      var counter: RequestCounter;
      if clientIp in cache {
        counter := cache[clientIp];
      } else {
        counter := RequestCounter(currentWindowStart, 0);
      }
      if counter.windowStartMs != currentWindowStart {
        counter := counter.(count := 0);
      }
      counter := counter.(count := Wrap(counter.count + 1));
      cache := cache[clientIp := counter];
      if counter.count > limit {
        return Ok(TooManyRequests);
      }
      return Ok(PassedOn);
    }

    /** `doFilterInternal` with a counter from an earlier window replaced by a fresh one. */
    method DoFilterInternalCorrected(request: Request, now: Int64) returns (r: Result<Outcome, JavaException>)
      modifies this
      ensures windowMs == 0 ==> r == Err(ArithmeticException) && cache == old(cache)
      ensures windowMs != 0 ==>
        var key := ResolveClientIp(request);
        var c := CountedCorrected(Lookup(old(cache), key), WindowStart(now, windowMs).value);
        cache == old(cache)[key := c] && r == Ok(Decide(c, limit))
    {
      var clientIp := ResolveClientIp(request);
      var currentWindowStart :- WindowStart(now, windowMs);
      var counter := RequestCounter(currentWindowStart, 0);
      if clientIp in cache && cache[clientIp].windowStartMs == currentWindowStart {
        counter := cache[clientIp];
      }
      counter := counter.(count := Wrap(counter.count + 1));
      cache := cache[clientIp := counter];
      if counter.count > limit {
        return Ok(TooManyRequests);
      }
      return Ok(PassedOn);
    }

    /**
     * The filter as the servlet container runs it: requests outside the API pass on with
     * the cache untouched; the rest go through `doFilterInternal`.
     */
    method DoFilter(request: Request, now: Int64) returns (r: Result<Outcome, JavaException>)
      modifies this
      ensures ShouldNotFilter(request.requestUri) ==> r == Ok(PassedOn) && cache == old(cache)
      ensures !ShouldNotFilter(request.requestUri) && windowMs == 0 ==> r == Err(ArithmeticException) && cache == old(cache)
      ensures !ShouldNotFilter(request.requestUri) && windowMs != 0 ==>
        var key := ResolveClientIp(request);
        var c := Counted(Lookup(old(cache), key), WindowStart(now, windowMs).value);
        cache == old(cache)[key := c] && r == Ok(Decide(c, limit))
    {
      if ShouldNotFilter(request.requestUri) {
        return Ok(PassedOn);
      }
      r := DoFilterInternal(request, now);
    }
  }
}
