/** The fixed-window rate limiter: a call reads the clock, then waits for the lock, so calls may be served in another
    order than that of their readings. What a fixed window guarantees over sliding intervals, exactly. */
module RateLimiter {
  import opened Prelude

  datatype RateWindow = RateWindow(startedAt: real, requests: int)

  /** One subject's window before and after a request, and the answer. */
  function Admit(window: Option<RateWindow>, limit: int, length: real, now: real): (Option<RateWindow>, bool) {
    if window.None? || now - window.value.startedAt >= length then (Some(RateWindow(now, 1)), true)
    else if window.value.requests >= limit then (window, false)
    else (Some(window.value.(requests := window.value.requests + 1)), true)
  }

  function Lookup(windows: map<string, RateWindow>, subject: string): Option<RateWindow> {
    if subject in windows then Some(windows[subject]) else None
  }

  class InMemoryRateLimiter {
    const limit: int
    const windowSeconds: real
    var windows: map<string, RateWindow>

    constructor (limit: int, windowSeconds: real)
      ensures this.limit == limit && this.windowSeconds == windowSeconds && windows == map[]
    {
      this.limit, this.windowSeconds, windows := limit, windowSeconds, map[];
    }

    /** What a call does once it holds the lock; it read `now` from the clock before that. */
    method Allow(subject: string, now: real) returns (allowed: bool)
      modifies this
      ensures (windows, allowed) == Served(limit, windowSeconds, old(windows), Call(subject, now))
    {
      if subject !in windows || now - windows[subject].startedAt >= windowSeconds {
        windows := windows[subject := RateWindow(now, 1)];
        return true;
      }
      var window := windows[subject];
      if window.requests >= limit {
        assert windows[subject := window] == windows;
        return false;
      }
      windows := windows[subject := window.(requests := window.requests + 1)];
      return true;
    }
  }

  /** A call and its clock reading. */
  datatype Call = Call(subject: string, at: real)

  function Served(limit: int, length: real, windows: map<string, RateWindow>, call: Call)
    : (map<string, RateWindow>, bool)
  {
    var (window, allowed) := Admit(Lookup(windows, call.subject), limit, length, call.at);
    (windows[call.subject := window.value], allowed)
  }

  /** Calls served one after the other from an empty map: the final windows and the answers. */
  function Run(limit: int, length: real, calls: seq<Call>): (r: (map<string, RateWindow>, seq<bool>))
    ensures |r.1| == |calls|
  {
    if calls == [] then (map[], [])
    else
      var n := |calls| - 1;
      var (windows, answers) := Run(limit, length, calls[..n]);
      var (windows', allowed) := Served(limit, length, windows, calls[n]);
      (windows', answers + [allowed])
  }

  /** The same for a limiter that only ever sees one subject, with the given clock readings. */
  function RunAlone(limit: int, length: real, times: seq<real>): (r: (Option<RateWindow>, seq<bool>))
    ensures |r.1| == |times|
  {
    if times == [] then (None, [])
    else
      var n := |times| - 1;
      var (window, answers) := RunAlone(limit, length, times[..n]);
      var (window', allowed) := Admit(window, limit, length, times[n]);
      (window', answers + [allowed])
  }

  lemma RunAloneSnoc(limit: int, length: real, times: seq<real>, now: real)
    ensures var (window, answers) := RunAlone(limit, length, times);
            var (window', allowed) := Admit(window, limit, length, now);
            RunAlone(limit, length, times + [now]) == (window', answers + [allowed])
  {
    assert (times + [now])[..|times|] == times;
  }

  // ----- Projection: subjects do not affect each other -----

  function TimesOf(calls: seq<Call>, subject: string): seq<real> {
    if calls == [] then []
    else
      var n := |calls| - 1;
      TimesOf(calls[..n], subject) + if calls[n].subject == subject then [calls[n].at] else []
  }

  function AnswersOf(calls: seq<Call>, answers: seq<bool>, subject: string): (own: seq<bool>)
    requires |calls| == |answers|
    ensures |own| == |TimesOf(calls, subject)|
  {
    if calls == [] then []
    else
      var n := |calls| - 1;
      AnswersOf(calls[..n], answers[..n], subject) + if calls[n].subject == subject then [answers[n]] else []
  }

  /** In whatever order calls are served: seen by one subject, the shared limiter is a limiter of its own run on that
      subject's calls alone. */
  lemma {:induction false} SharedLimiterProjects(limit: int, length: real, calls: seq<Call>, subject: string)
    ensures var (windows, answers) := Run(limit, length, calls);
            (Lookup(windows, subject), AnswersOf(calls, answers, subject))
            == RunAlone(limit, length, TimesOf(calls, subject))
  {
    if calls != [] {
      var n := |calls| - 1;
      SharedLimiterProjects(limit, length, calls[..n], subject);
      var (windows, answers) := Run(limit, length, calls[..n]);
      var all := Run(limit, length, calls).1;
      assert all[..n] == answers;
      var times, own := TimesOf(calls[..n], subject), AnswersOf(calls[..n], answers, subject);
      if calls[n].subject == subject {
        RunAloneSnoc(limit, length, times, calls[n].at);
        assert TimesOf(calls, subject) == times + [calls[n].at];
        assert AnswersOf(calls, all, subject) == own + [all[n]];
      } else {
        assert TimesOf(calls, subject) == times;
        assert AnswersOf(calls, all, subject) == own;
      }
    }
  }

  // ----- Windows, in whatever order calls are served -----

  /** The i-th request finds no window it fits into and opens one. */
  predicate Opens(limit: int, length: real, times: seq<real>, i: nat)
    requires i < |times|
  {
    var window := RunAlone(limit, length, times[..i]).0;
    window.None? || times[i] - window.value.startedAt >= length
  }

  /** How many requests from the i-th on were allowed. */
  function AllowedFrom(answers: seq<bool>, i: nat): nat {
    if |answers| <= i then 0
    else
      var n := |answers| - 1;
      AllowedFrom(answers[..n], i) + if answers[n] then 1 else 0
  }

  /** The i-th request opened the latest window: everything before it lies before the window, earlier windows opened
      at least a window's length earlier, and everything from it on lies before the window's end. */
  ghost predicate LatestWindow(limit: int, length: real, times: seq<real>, i: nat) {
    && i < |times| && Opens(limit, length, times, i)
    && (forall m :: i < m < |times| ==> !Opens(limit, length, times, m))
    && (forall m :: 0 <= m < i ==> times[m] < times[i])
    && (forall m :: 0 <= m < i && Opens(limit, length, times, m) ==> times[m] + length <= times[i])
    && (forall m :: i <= m < |times| ==> times[m] < times[i] + length)
  }

  lemma OpensEarlier(limit: int, length: real, times: seq<real>, n: nat, m: nat)
    requires m < n <= |times|
    ensures Opens(limit, length, times[..n], m) == Opens(limit, length, times, m)
  {
    assert times[..n][..m] == times[..m];
  }

  /** In every serving order: the stored window is the one the latest opening made, its count is the number of requests
      allowed since, and that is between one and the limit. */
  lemma {:induction false} WindowsInEveryOrder(limit: int, length: real, times: seq<real>) returns (i: nat)
    requires limit >= 1 && length > 0.0 && times != []
    ensures LatestWindow(limit, length, times, i)
    ensures var (window, answers) := RunAlone(limit, length, times);
            && window == Some(RateWindow(times[i], AllowedFrom(answers, i)))
            && 1 <= AllowedFrom(answers, i) <= limit
  {
    hide RunAlone, Opens, LatestWindow, AllowedFrom;
    var n := |times| - 1;
    if n == 0 {
      i := 0;
      FirstWindow(limit, length, times);
    } else {
      var h := WindowsInEveryOrder(limit, length, times[..n]);
      i := if Opens(limit, length, times, n) then n else h;
      NextWindow(limit, length, times, h);
    }
  }

  lemma FirstWindow(limit: int, length: real, times: seq<real>)
    requires limit >= 1 && length > 0.0 && |times| == 1
    ensures LatestWindow(limit, length, times, 0)
    ensures var (window, answers) := RunAlone(limit, length, times);
            && window == Some(RateWindow(times[0], AllowedFrom(answers, 0)))
            && 1 <= AllowedFrom(answers, 0) <= limit
  {
    hide RunAlone;
    assert times == [] + [times[0]] && times[..0] == [];
    EmptyRun(limit, length, 0.0, 0.0);
    RunAloneSnoc(limit, length, [], times[0]);
    OneAllowed();
  }

  lemma OneAllowed()
    ensures AllowedFrom([true], 0) == 1
  {
    assert [true][..0] == [] && AllowedFrom([], 0) == 0;
  }

  /** One more request either opens a window or falls into the latest. */
  lemma NextWindow(limit: int, length: real, times: seq<real>, h: nat)
    requires limit >= 1 && length > 0.0 && |times| > 1
    requires var before := times[..|times| - 1];
             && LatestWindow(limit, length, before, h)
             && var (window, answers) := RunAlone(limit, length, before);
                && window == Some(RateWindow(before[h], AllowedFrom(answers, h)))
                && 1 <= AllowedFrom(answers, h) <= limit
    ensures var n := |times| - 1;
            var i := if Opens(limit, length, times, n) then n else h;
            && LatestWindow(limit, length, times, i)
            && var (window, answers) := RunAlone(limit, length, times);
               && window == Some(RateWindow(times[i], AllowedFrom(answers, i)))
               && 1 <= AllowedFrom(answers, i) <= limit
  {
    hide RunAlone, LatestWindow, Opens;
    var n := |times| - 1;
    var before, now := times[..n], times[n];
    assert times == before + [now];
    RunAloneSnoc(limit, length, before, now);
    OpeningRequest(limit, length, times);
    NextIsLatest(limit, length, times, h, RunAlone(limit, length, before).0.value.requests);
    AllowedFromEnd(RunAlone(limit, length, before).1);
    assert RunAlone(limit, length, times).1[..n] == RunAlone(limit, length, before).1;
  }

  lemma NextIsLatest(limit: int, length: real, times: seq<real>, h: nat, requests: int)
    requires length > 0.0 && |times| > 1
    requires LatestWindow(limit, length, times[..|times| - 1], h)
    requires RunAlone(limit, length, times[..|times| - 1]).0 == Some(RateWindow(times[h], requests))
    ensures h < |times| - 1
    ensures LatestWindow(limit, length, times, if Opens(limit, length, times, |times| - 1) then |times| - 1 else h)
  {
    hide RunAlone, Opens;
    var n := |times| - 1;
    OpeningRequest(limit, length, times);
    forall m | 0 <= m < n ensures Opens(limit, length, times, m) == Opens(limit, length, times[..n], m) {
      OpensEarlier(limit, length, times, n, m);
    }
    assert forall m :: 0 <= m < n ==> times[..n][m] == times[m];
  }

  lemma OpeningRequest(limit: int, length: real, times: seq<real>)
    requires times != []
    ensures var n := |times| - 1;
            var window := RunAlone(limit, length, times[..n]).0;
            Opens(limit, length, times, n) <==> window.None? || times[n] - window.value.startedAt >= length
  {
  }

  lemma AllowedFromEnd(answers: seq<bool>)
    ensures AllowedFrom(answers, |answers|) == 0
  {
  }

  /** In every serving order: a refusal of a call means that the subject's window is less than one window old, counts
      the limit, and that exactly that many requests of this subject were allowed since it was opened. */
  lemma RefusalsAreJustified(limit: int, length: real, calls: seq<Call>, call: Call) returns (i: nat)
    requires limit >= 1 && length > 0.0
    requires !Run(limit, length, calls + [call]).1[|calls|]
    ensures var (windows, answers) := Run(limit, length, calls);
            var times, own := TimesOf(calls, call.subject), AnswersOf(calls, answers, call.subject);
            && call.subject in windows
            && windows[call.subject].requests == limit && call.at < windows[call.subject].startedAt + length
            && LatestWindow(limit, length, times, i)
            && windows[call.subject].startedAt == times[i] && AllowedFrom(own, i) == limit
            && (Ordered(times + [call.at]) ==>
                  times[i] <= call.at && CountAllowed(times, own, times[i], times[i] + length) == limit)
  {
    hide Run, RunAlone, LatestWindow, CountAllowed, AllowedFrom;
    var times := TimesOf(calls, call.subject);
    var (windows, answers) := Run(limit, length, calls);
    RefusedByWindow(limit, length, calls, call);
    SharedLimiterProjects(limit, length, calls, call.subject);
    if times == [] {
      EmptyRun(limit, length, 0.0, 0.0);
    }
    i := WindowsInEveryOrder(limit, length, times);
    if Ordered(times + [call.at]) {
      OrderedWindow(limit, length, times, AnswersOf(calls, answers, call.subject), i, call.at);
    }
  }

  lemma RefusedByWindow(limit: int, length: real, calls: seq<Call>, call: Call)
    requires !Run(limit, length, calls + [call]).1[|calls|]
    ensures var window := Lookup(Run(limit, length, calls).0, call.subject);
            window.Some? && call.at < window.value.startedAt + length && window.value.requests >= limit
  {
    assert (calls + [call])[..|calls|] == calls;
  }

  lemma OrderedWindow(limit: int, length: real, times: seq<real>, own: seq<bool>, i: nat, now: real)
    requires |times| == |own| && LatestWindow(limit, length, times, i) && Ordered(times + [now])
    ensures times[i] <= now && CountAllowed(times, own, times[i], times[i] + length) == AllowedFrom(own, i)
  {
    hide Opens;
    var all := times + [now];
    assert all[i] <= all[|times|];
    forall m | i <= m < |times| ensures times[i] <= times[m] {
      assert m == i || all[i] <= all[m];
    }
    CountFromOpening(times, own, i, times[i], times[i] + length);
  }

  lemma {:induction false} CountFromOpening(times: seq<real>, answers: seq<bool>, i: nat, from: real, to: real)
    requires |times| == |answers|
    requires forall m :: 0 <= m < |times| && m < i ==> times[m] < from
    requires forall m :: i <= m < |times| ==> from <= times[m] < to
    ensures CountAllowed(times, answers, from, to) == AllowedFrom(answers, i)
  {
    if times != [] {
      CountFromOpening(times[..|times| - 1], answers[..|answers| - 1], i, from, to);
    }
  }

  // ----- Counting allowed requests by their clock readings -----

  /** How many requests with a reading at or after `from` and before `to` were allowed. */
  function CountAllowed(times: seq<real>, answers: seq<bool>, from: real, to: real): nat
    requires |times| == |answers|
  {
    if times == [] then 0
    else
      var n := |times| - 1;
      CountAllowed(times[..n], answers[..n], from, to) + if answers[n] && from <= times[n] < to then 1 else 0
  }

  lemma CountSnoc(times: seq<real>, answers: seq<bool>, now: real, allowed: bool, from: real, to: real)
    requires |times| == |answers|
    ensures CountAllowed(times + [now], answers + [allowed], from, to)
            == CountAllowed(times, answers, from, to) + if allowed && from <= now < to then 1 else 0
  {
    assert (times + [now])[..|times|] == times && (answers + [allowed])[..|answers|] == answers;
  }

  /** How many requests of a lone subject are allowed with readings in an interval. */
  function AllowedIn(limit: int, length: real, times: seq<real>, from: real, to: real): nat {
    CountAllowed(times, RunAlone(limit, length, times).1, from, to)
  }

  lemma AllowedSnoc(limit: int, length: real, times: seq<real>, now: real, from: real, to: real)
    ensures AllowedIn(limit, length, times + [now], from, to)
            == AllowedIn(limit, length, times, from, to)
               + if Admit(RunAlone(limit, length, times).0, limit, length, now).1 && from <= now < to then 1 else 0
  {
    RunAloneSnoc(limit, length, times, now);
    var (window, answers) := RunAlone(limit, length, times);
    CountSnoc(times, answers, now, Admit(window, limit, length, now).1, from, to);
  }

  /** No request is served after one whose reading is later by more than `delay`. */
  ghost predicate NearlyOrdered(times: seq<real>, delay: real) {
    forall i, j :: 0 <= i < j < |times| ==> times[i] <= times[j] + delay
  }

  ghost predicate Ordered(times: seq<real>) {
    NearlyOrdered(times, 0.0)
  }

  // ----- The bound -----

  /** Allowed requests in an interval when `n` windows can reach into it: each gives all but its first request, and
      only one of them its first as well. */
  function Bound(limit: int, n: nat): int {
    n * (limit - 1) + 1
  }

  /** The time n windows take, one after the other. */
  function Span(length: real, n: nat): real {
    if n == 0 then 0.0 else Span(length, n - 1) + length
  }

  lemma {:induction false} SpanIsProduct(length: real, n: nat)
    ensures Span(length, n) == n as real * length
  {
    if n > 0 {
      SpanIsProduct(length, n - 1);
      assert n as real * length == (n - 1) as real * length + length;
    }
  }

  lemma {:induction false} SpanIsMonotone(length: real, a: nat, b: nat)
    requires length > 0.0 && a <= b
    ensures 0.0 <= Span(length, a) <= Span(length, b)
  {
    if a < b {
      SpanIsMonotone(length, a, b - 1);
    } else if a > 0 {
      SpanIsMonotone(length, a - 1, a - 1);
    }
  }

  lemma BoundGrows(limit: int, n: nat)
    ensures Bound(limit, n + 1) == Bound(limit, n) + limit - 1
  {
    assert (n + 1) * (limit - 1) == n * (limit - 1) + (limit - 1);
  }

  lemma BoundIsMonotone(limit: int, a: nat, b: nat)
    requires limit >= 1 && a <= b
    ensures 1 <= Bound(limit, a) <= Bound(limit, b)
  {
    assert a * (limit - 1) >= 0 && (b - a) * (limit - 1) >= 0;
    assert b * (limit - 1) == a * (limit - 1) + (b - a) * (limit - 1);
  }

  /** The current window is the j-th that reaches into the interval from `from` on, counting from one, and `count`
      requests were allowed in the interval so far. */
  ghost predicate Tally(limit: int, length: real, window: Option<RateWindow>, from: real, count: int, j: nat) {
    match window
    case None => count == 0 && j == 0
    case Some(w) =>
      && 1 <= w.requests <= limit
      && if j == 0 then w.startedAt <= from - length && count == 0
         else && w.startedAt > from - length + Span(length, j - 1)
              && count < Bound(limit, j - 1) + w.requests - if w.startedAt < from then 1 else 0
  }

  lemma OneMoreTally(limit: int, length: real, window: Option<RateWindow>, from: real, count: int, j: nat, now: real)
    returns (j': nat)
    requires limit >= 1 && length > 0.0 && Tally(limit, length, window, from, count, j)
    ensures var (window', allowed) := Admit(window, limit, length, now);
            Tally(limit, length, window', from, count + if allowed && from <= now < from + length then 1 else 0, j')
  {
    hide Bound;
    var (window', allowed) := Admit(window, limit, length, now);
    if window.None? || now - window.value.startedAt >= length {
      j' := if now <= from - length then 0 else j + 1;
      if j > 0 {
        SpanIsMonotone(length, 0, j - 1);
        BoundGrows(limit, j - 1);
      } else {
        BoundIsMonotone(limit, 0, 0);
      }
    } else {
      j' := j;
    }
  }

  /** A tally whose window started within the reach of the interval, delayed by at most k windows. */
  lemma TallyIsBounded(limit: int, length: real, window: Option<RateWindow>, from: real, count: int, j: nat, k: nat)
    requires limit >= 1 && length > 0.0 && Tally(limit, length, window, from, count, j)
    requires window.Some? ==> window.value.startedAt < from + length + Span(length, k)
    ensures count <= Bound(limit, k + 2)
  {
    hide Bound;
    BoundIsMonotone(limit, 0, k + 2);
    if j > 0 {
      if j > k + 2 {
        SpanIsMonotone(length, k + 2, j - 1);
      }
      BoundIsMonotone(limit, j, k + 2);
      BoundGrows(limit, j - 1);
    }
  }

  /** The window of a nearly ordered history started at most `delay` after its last request. */
  lemma {:induction false} WindowIsNear(limit: int, length: real, times: seq<real>, delay: real)
    requires NearlyOrdered(times, delay) && times != [] && delay >= 0.0
    ensures var window := RunAlone(limit, length, times).0;
            window.Some? && window.value.startedAt in times
            && window.value.startedAt <= times[|times| - 1] + delay
  {
    var n := |times| - 1;
    if n > 0 {
      WindowIsNear(limit, length, times[..n], delay);
    }
  }

  /** If no reading is overtaken by more than k window lengths, at most (k + 2)(L - 1) + 1 requests are allowed in
      any interval as long as the window. */
  lemma {:induction false} NearlyOrderedBound(limit: int, length: real, times: seq<real>, from: real, delay: real, k: nat)
    returns (j: nat)
    requires limit >= 1 && length > 0.0 && NearlyOrdered(times, delay) && 0.0 <= delay <= Span(length, k)
    ensures Tally(limit, length, RunAlone(limit, length, times).0, from,
                  AllowedIn(limit, length, times, from, from + length), j)
    ensures AllowedIn(limit, length, times, from, from + length) <= Bound(limit, k + 2)
  {
    hide RunAlone, AllowedIn, Tally, Bound;
    if times == [] {
      j := 0;
      EmptyRun(limit, length, from, from + length);
      EmptyTally(limit, length, from, k);
    } else {
      var n := |times| - 1;
      var before, now := times[..n], times[n];
      assert times == before + [now];
      var i := NearlyOrderedBound(limit, length, before, from, delay, k);
      var window := RunAlone(limit, length, before).0;
      j := OneMoreTally(limit, length, window, from, AllowedIn(limit, length, before, from, from + length), i, now);
      RunAloneSnoc(limit, length, before, now);
      AllowedSnoc(limit, length, before, now, from, from + length);
      WindowIsNear(limit, length, times, delay);
      if now < from + length {
        TallyIsBounded(limit, length, RunAlone(limit, length, times).0, from,
                       AllowedIn(limit, length, times, from, from + length), j, k);
      }
    }
  }

  lemma EmptyTally(limit: int, length: real, from: real, k: nat)
    requires limit >= 1
    ensures Tally(limit, length, None, from, 0, 0) && 0 <= Bound(limit, k + 2)
  {
    BoundIsMonotone(limit, 0, k + 2);
  }

  lemma EmptyRun(limit: int, length: real, from: real, to: real)
    ensures RunAlone(limit, length, []) == (None, []) && AllowedIn(limit, length, [], from, to) == 0
  {
  }

  /** Served in the order of its readings, a subject gets at most 2L - 1 requests in an interval of one window. */
  lemma OrderedBound(limit: int, length: real, calls: seq<Call>, subject: string, from: real)
    requires limit >= 1 && length > 0.0 && Ordered(TimesOf(calls, subject))
    ensures CountAllowed(TimesOf(calls, subject), AnswersOf(calls, Run(limit, length, calls).1, subject),
                         from, from + length) <= 2 * limit - 1
  {
    SharedLimiterProjects(limit, length, calls, subject);
    var j := NearlyOrderedBound(limit, length, TimesOf(calls, subject), from, 0.0, 0);
  }

  // ----- Interleaved calls -----

  /** The windows, the calls that read the clock and wait for the lock, the clock, and the calls served so far with
      their answers. */
  datatype State = State(
    windows: map<string, RateWindow>, waiting: map<nat, Call>, clock: real, served: seq<Call>, answers: seq<bool>)

  datatype Event = ReadClock(id: nat, subject: string, now: real) | EnterLock(id: nat, now: real)

  function Idle(clock: real): State {
    State(map[], map[], clock, [], [])
  }

  /** The clock never runs backwards, and no call waits longer than `delay` for the lock. */
  predicate Possible(delay: real, s: State, e: Event) {
    match e
    case ReadClock(id, _, now) => id !in s.waiting && s.clock <= now
    case EnterLock(id, now) => id in s.waiting && s.clock <= now <= s.waiting[id].at + delay
  }

  function Next(limit: int, length: real, s: State, e: Event): State
    requires e.EnterLock? ==> e.id in s.waiting
  {
    match e
    case ReadClock(id, subject, now) => s.(waiting := s.waiting[id := Call(subject, now)], clock := now)
    case EnterLock(id, now) =>
      var (windows, allowed) := Served(limit, length, s.windows, s.waiting[id]);
      State(windows, s.waiting - {id}, now, s.served + [s.waiting[id]], s.answers + [allowed])
  }

  predicate Happens(limit: int, length: real, delay: real, s: State, events: seq<Event>)
    decreases |events|
  {
    events != [] ==>
      Possible(delay, s, events[0]) && Happens(limit, length, delay, Next(limit, length, s, events[0]), events[1..])
  }

  function After(limit: int, length: real, delay: real, s: State, events: seq<Event>): State
    requires Happens(limit, length, delay, s, events)
    decreases |events|
  {
    if events == [] then s else After(limit, length, delay, Next(limit, length, s, events[0]), events[1..])
  }

  ghost predicate CallsNearlyOrdered(calls: seq<Call>, delay: real) {
    forall i, j :: 0 <= i < j < |calls| ==> calls[i].at <= calls[j].at + delay
  }

  /** Served calls are what the limiter saw, in that order; their readings and those of the waiting calls are past. */
  ghost predicate Consistent(limit: int, length: real, delay: real, s: State) {
    && (s.windows, s.answers) == Run(limit, length, s.served)
    && (forall id :: id in s.waiting ==> s.waiting[id].at <= s.clock)
    && (forall i :: 0 <= i < |s.served| ==> s.served[i].at <= s.clock)
    && CallsNearlyOrdered(s.served, delay)
  }

  lemma {:induction false} RunsAreConsistent(limit: int, length: real, delay: real, s: State, events: seq<Event>)
    requires Consistent(limit, length, delay, s) && Happens(limit, length, delay, s, events)
    ensures Consistent(limit, length, delay, After(limit, length, delay, s, events))
    decreases |events|
  {
    hide Consistent, Next;
    if events != [] {
      EventKeepsConsistent(limit, length, delay, s, events[0]);
      RunsAreConsistent(limit, length, delay, Next(limit, length, s, events[0]), events[1..]);
    }
  }

  lemma EventKeepsConsistent(limit: int, length: real, delay: real, s: State, e: Event)
    requires Consistent(limit, length, delay, s) && Possible(delay, s, e)
    ensures Consistent(limit, length, delay, Next(limit, length, s, e))
  {
    hide Served;
    if e.EnterLock? {
      assert Next(limit, length, s, e).served[..|s.served|] == s.served;
    }
  }

  /** How many requests of a subject with a reading in the window's length from `from` on a run allowed. */
  function Granted(limit: int, length: real, delay: real, clock: real, events: seq<Event>, subject: string, from: real): nat
    requires Happens(limit, length, delay, Idle(clock), events)
  {
    RunsAreConsistent(limit, length, delay, Idle(clock), events);
    var s := After(limit, length, delay, Idle(clock), events);
    CountAllowed(TimesOf(s.served, subject), AnswersOf(s.served, s.answers, subject), from, from + length)
  }

  lemma {:induction false} TimesAreNearlyOrdered(calls: seq<Call>, subject: string, delay: real)
    requires CallsNearlyOrdered(calls, delay)
    ensures NearlyOrdered(TimesOf(calls, subject), delay)
    ensures forall t :: t in TimesOf(calls, subject) ==> exists i :: 0 <= i < |calls| && calls[i].at == t
  {
    if calls != [] {
      var n := |calls| - 1;
      TimesAreNearlyOrdered(calls[..n], subject, delay);
      var times := TimesOf(calls[..n], subject);
      forall i | 0 <= i < |times| ensures times[i] <= calls[n].at + delay {
        assert times[i] in times;
        var m :| 0 <= m < n && calls[..n][m].at == times[i];
      }
      forall t | t in TimesOf(calls, subject) ensures exists i :: 0 <= i < |calls| && calls[i].at == t {
        if t in times {
          var m :| 0 <= m < n && calls[..n][m].at == t;
          assert calls[m].at == t;
        } else {
          assert calls[n].at == t;
        }
      }
    }
  }

  /** In every interleaving whose calls wait at most k window lengths for the lock, any half-open interval as long as
      the window holds at most (k + 2)(L - 1) + 1 allowed requests of one subject; without waiting, 2L - 1. */
  lemma SlidingIntervalBound(limit: int, length: real, delay: real, k: nat, clock: real, events: seq<Event>,
                             subject: string, from: real)
    requires limit >= 1 && length > 0.0 && 0.0 <= delay <= Span(length, k)
    requires Happens(limit, length, delay, Idle(clock), events)
    ensures Granted(limit, length, delay, clock, events, subject, from) <= Bound(limit, k + 2)
    ensures Ordered(TimesOf(After(limit, length, delay, Idle(clock), events).served, subject)) ==>
              Granted(limit, length, delay, clock, events, subject, from) <= 2 * limit - 1
  {
    RunsAreConsistent(limit, length, delay, Idle(clock), events);
    var s := After(limit, length, delay, Idle(clock), events);
    SharedLimiterProjects(limit, length, s.served, subject);
    TimesAreNearlyOrdered(s.served, subject, delay);
    var j := NearlyOrderedBound(limit, length, TimesOf(s.served, subject), from, delay, k);
    if Ordered(TimesOf(s.served, subject)) {
      OrderedBound(limit, length, s.served, subject, from);
    }
  }

  // ----- Every serving order happens -----

  lemma {:induction false} ClockAdvances(limit: int, length: real, delay: real, s: State, events: seq<Event>)
    requires Happens(limit, length, delay, s, events)
    ensures s.clock <= After(limit, length, delay, s, events).clock
    decreases |events|
  {
    if events != [] {
      ClockAdvances(limit, length, delay, Next(limit, length, s, events[0]), events[1..]);
    }
  }

  lemma {:induction false} AfterSnoc(limit: int, length: real, delay: real, s: State, events: seq<Event>, e: Event)
    requires Happens(limit, length, delay, s, events)
    requires Possible(delay, After(limit, length, delay, s, events), e)
    ensures Happens(limit, length, delay, s, events + [e])
    ensures After(limit, length, delay, s, events + [e])
            == Next(limit, length, After(limit, length, delay, s, events), e)
    decreases |events|
  {
    if events == [] {
      assert events + [e] == [e] && [e][1..] == [];
    } else {
      AfterSnoc(limit, length, delay, Next(limit, length, s, events[0]), events[1..], e);
      assert (events + [e])[1..] == events[1..] + [e];
    }
  }

  ghost predicate Unmentioned(events: seq<Event>, id: nat) {
    forall e :: e in events ==> e.id != id
  }

  /** One more waiting call disturbs nobody. */
  lemma {:induction false} OneMoreWaiting(limit: int, length: real, delay: real, s: State, events: seq<Event>,
                                          id: nat, call: Call)
    requires Happens(limit, length, delay, s, events) && Unmentioned(events, id) && id !in s.waiting
    ensures var t := s.(waiting := s.waiting[id := call]);
            && Happens(limit, length, delay, t, events)
            && var u := After(limit, length, delay, s, events);
               && id !in u.waiting
               && After(limit, length, delay, t, events) == u.(waiting := u.waiting[id := call])
    decreases |events|
  {
    hide Next;
    if events != [] {
      assert events[0] in events;
      EventIgnoresWaiting(limit, length, delay, s, events[0], id, call);
      OneMoreWaiting(limit, length, delay, Next(limit, length, s, events[0]), events[1..], id, call);
    }
  }

  lemma EventIgnoresWaiting(limit: int, length: real, delay: real, s: State, e: Event, id: nat, call: Call)
    requires Possible(delay, s, e) && e.id != id && id !in s.waiting
    ensures var t := s.(waiting := s.waiting[id := call]);
            && Possible(delay, t, e)
            && var u := Next(limit, length, s, e);
               && id !in u.waiting
               && Next(limit, length, t, e) == u.(waiting := u.waiting[id := call])
  {
    hide Served;
    var t := s.(waiting := s.waiting[id := call]);
    assert Next(limit, length, t, e).waiting == Next(limit, length, s, e).waiting[id := call];
  }

  /** A clock that stood a little further changes nothing, up to the first event. */
  lemma LaterStart(limit: int, length: real, delay: real, s: State, events: seq<Event>, clock: real)
    requires Happens(limit, length, delay, s, events) && events != [] && s.clock <= clock <= events[0].now
    ensures Happens(limit, length, delay, s.(clock := clock), events)
    ensures After(limit, length, delay, s.(clock := clock), events) == After(limit, length, delay, s, events)
  {
    assert Next(limit, length, s.(clock := clock), events[0]) == Next(limit, length, s, events[0]);
  }

  /** A reading can be slipped into a run where its time fits. */
  lemma {:induction false} ReadingSlipsIn(limit: int, length: real, delay: real, s: State, events: seq<Event>,
                                          id: nat, call: Call) returns (more: seq<Event>)
    requires Happens(limit, length, delay, s, events) && Unmentioned(events, id) && id !in s.waiting
    requires s.clock <= call.at
    ensures Happens(limit, length, delay, s, more)
    ensures forall e :: e in more ==> e in events || e.id == id
    ensures var u, v := After(limit, length, delay, s, events), After(limit, length, delay, s, more);
            && v.waiting == u.waiting[id := call] && v.served == u.served
            && v.clock == if call.at <= u.clock then u.clock else call.at
    decreases |events|
  {
    var reading := ReadClock(id, call.subject, call.at);
    if events == [] || call.at < events[0].now {
      more := [reading] + events;
      assert more[1..] == events;
      var t := Next(limit, length, s, reading);
      if events != [] {
        LaterStart(limit, length, delay, s, events, call.at);
        OneMoreWaiting(limit, length, delay, s.(clock := call.at), events, id, call);
        assert t == s.(clock := call.at).(waiting := s.waiting[id := call]);
        ClockAdvances(limit, length, delay, Next(limit, length, s, events[0]), events[1..]);
      }
    } else {
      assert events[0] in events && events[0].id != id;
      var rest := ReadingSlipsIn(limit, length, delay, Next(limit, length, s, events[0]), events[1..], id, call);
      more := [events[0]] + rest;
      assert more[1..] == rest;
    }
  }

  /** Waiting for the lock can put calls in any order in which none overtakes another by more than the wait. */
  lemma {:induction false} EveryOrderHappens(limit: int, length: real, delay: real, clock: real, calls: seq<Call>)
    returns (events: seq<Event>)
    requires delay >= 0.0 && CallsNearlyOrdered(calls, delay)
    requires forall i :: 0 <= i < |calls| ==> clock <= calls[i].at
    ensures Happens(limit, length, delay, Idle(clock), events)
    ensures forall e :: e in events ==> e.id < |calls|
    ensures var s := After(limit, length, delay, Idle(clock), events);
            && s.served == calls && s.waiting == map[]
            && (s.clock == clock || exists i :: 0 <= i < |calls| && s.clock == calls[i].at)
  {
    hide Served;
    if calls == [] {
      events := [];
    } else {
      var n := |calls| - 1;
      var before := EveryOrderHappens(limit, length, delay, clock, calls[..n]);
      var s := After(limit, length, delay, Idle(clock), before);
      var read := ReadingSlipsIn(limit, length, delay, Idle(clock), before, n, calls[n]);
      var t := After(limit, length, delay, Idle(clock), read);
      var enter := EnterLock(n, t.clock);
      assert s.clock <= calls[n].at + delay by {
        if s.clock != clock {
          var i :| 0 <= i < n && s.clock == calls[..n][i].at;
          assert calls[i].at <= calls[n].at + delay;
        }
      }
      AfterSnoc(limit, length, delay, Idle(clock), read, enter);
      events := read + [enter];
      assert map[n := calls[n]] - {n} == map[];
      assert calls == calls[..n] + [calls[n]];
      if t.clock != clock && t.clock != calls[n].at {
        var i :| 0 <= i < n && s.clock == calls[..n][i].at;
        assert t.clock == calls[i].at;
      }
    }
  }

  // ----- The bound is attained, and 2L - 1 fails as soon as calls wait -----

  function Repeated(time: real, n: nat): seq<real> {
    if n == 0 then [] else Repeated(time, n - 1) + [time]
  }

  /** One request at 0, L - 1 more at `from`, L when the next window opens, and then in each further window the one
      that opens it and L - 1 that read the clock at `early`, in the interval, and got the lock only now. */
  function Burst(limit: int, length: real, from: real, early: real, windows: nat): seq<real>
    requires limit >= 1
  {
    if windows == 0 then [0.0] + Repeated(from, limit - 1) + [length] + Repeated(length, limit - 1)
    else
      Burst(limit, length, from, early, windows - 1) + [Span(length, windows + 1)] + Repeated(early, limit - 1)
  }

  /** Requests within an open window are allowed as long as they fit the limit. */
  lemma {:induction false} FillingAWindow(limit: int, length: real, times: seq<real>, start: real, k: int,
                                          time: real, n: nat, from: real, to: real)
    requires time < start + length && k + n <= limit && from <= time < to
    requires RunAlone(limit, length, times).0 == Some(RateWindow(start, k))
    ensures RunAlone(limit, length, times + Repeated(time, n)).0 == Some(RateWindow(start, k + n))
    ensures AllowedIn(limit, length, times + Repeated(time, n), from, to) == AllowedIn(limit, length, times, from, to) + n
  {
    hide RunAlone, AllowedIn;
    if n == 0 {
      assert times + [] == times;
    } else {
      FillingAWindow(limit, length, times, start, k, time, n - 1, from, to);
      var shorter := times + Repeated(time, n - 1);
      assert times + Repeated(time, n) == shorter + [time];
      RunAloneSnoc(limit, length, shorter, time);
      AllowedSnoc(limit, length, shorter, time, from, to);
    }
  }

  /** Opening a window and filling it. */
  lemma OpeningAWindow(limit: int, length: real, times: seq<real>, now: real, time: real, from: real, to: real)
    requires limit >= 1 && time < now + length && from <= time < to
    requires var window := RunAlone(limit, length, times).0; window.None? || now - window.value.startedAt >= length
    ensures var more := times + [now] + Repeated(time, limit - 1);
            && RunAlone(limit, length, more).0 == Some(RateWindow(now, limit))
            && AllowedIn(limit, length, more, from, to)
               == AllowedIn(limit, length, times, from, to) + limit - if from <= now < to then 0 else 1
  {
    hide RunAlone, AllowedIn;
    RunAloneSnoc(limit, length, times, now);
    AllowedSnoc(limit, length, times, now, from, to);
    FillingAWindow(limit, length, times + [now], now, 1, time, limit - 1, from, to);
  }

  lemma {:induction false} BurstIsGranted(limit: int, length: real, from: real, early: real, windows: nat)
    requires limit >= 1 && 0.0 < from < length && from <= early < from + length
    ensures var times := Burst(limit, length, from, early, windows);
            && RunAlone(limit, length, times).0 == Some(RateWindow(Span(length, windows + 1), limit))
            && AllowedIn(limit, length, times, from, from + length) == Bound(limit, windows + 2)
  {
    hide RunAlone, AllowedIn, Bound;
    SpanIsMonotone(length, 1, windows + 1);
    if windows == 0 {
      EmptyRun(limit, length, from, from + length);
      OpeningAWindow(limit, length, [], 0.0, from, from, from + length);
      assert [] + [0.0] + Repeated(from, limit - 1) == [0.0] + Repeated(from, limit - 1);
      OpeningAWindow(limit, length, [0.0] + Repeated(from, limit - 1), length, length, from, from + length);
      TwoWindows(limit);
    } else {
      BurstIsGranted(limit, length, from, early, windows - 1);
      SpanIsMonotone(length, 1, windows);
      OpeningAWindow(limit, length, Burst(limit, length, from, early, windows - 1), Span(length, windows + 1), early,
                     from, from + length);
      BoundGrows(limit, windows + 1);
    }
  }

  lemma TwoWindows(limit: int)
    ensures Bound(limit, 2) == 2 * limit - 1
  {
  }

  lemma {:induction false} RepeatedIs(time: real, n: nat)
    ensures |Repeated(time, n)| == n && forall i :: 0 <= i < n ==> Repeated(time, n)[i] == time
  {
    if n > 0 {
      RepeatedIs(time, n - 1);
    }
  }

  /** All readings lie between 0 and `top`, and none is overtaken by more than `delay`. */
  ghost predicate Spread(times: seq<real>, top: real, delay: real) {
    NearlyOrdered(times, delay) && forall i :: 0 <= i < |times| ==> 0.0 <= times[i] <= top
  }

  lemma SpreadGrows(times: seq<real>, top: real, delay: real, time: real, n: nat, higher: real)
    requires Spread(times, top, delay) && delay >= 0.0 && top <= time + delay && 0.0 <= time <= higher && top <= higher
    ensures Spread(times + Repeated(time, n), higher, delay)
  {
    RepeatedIs(time, n);
  }

  lemma {:induction false} BurstIsSpread(limit: int, length: real, from: real, early: real, delay: real, windows: nat)
    requires limit >= 1 && 0.0 < from < length && delay >= 0.0 && 0.0 <= early <= 2.0 * length
    requires windows > 0 ==> Span(length, windows + 1) <= early + delay
    ensures Spread(Burst(limit, length, from, early, windows), Span(length, windows + 1), delay)
  {
    hide Spread;
    if windows == 0 {
      FirstIsSpread(delay);
      WindowIsSpread([], 0.0, 0.0, from, limit - 1, delay);
      assert [] + [0.0] + Repeated(from, limit - 1) == [0.0] + Repeated(from, limit - 1);
      WindowIsSpread([0.0] + Repeated(from, limit - 1), from, length, length, limit - 1, delay);
    } else {
      SpanIsMonotone(length, 1, windows);
      BurstIsSpread(limit, length, from, early, delay, windows - 1);
      WindowIsSpread(Burst(limit, length, from, early, windows - 1), Span(length, windows), Span(length, windows + 1),
                     early, limit - 1, delay);
    }
  }

  lemma FirstIsSpread(delay: real)
    ensures Spread([], 0.0, delay)
  {
  }

  /** A request at the top and n more that it may have overtaken. */
  lemma WindowIsSpread(times: seq<real>, top: real, now: real, time: real, n: nat, delay: real)
    requires Spread(times, top, delay) && delay >= 0.0 && 0.0 <= top <= now <= time + delay && 0.0 <= time
    ensures Spread(times + [now] + Repeated(time, n), if time <= now then now else time, delay)
  {
    hide Spread;
    OneAtATime(now);
    SpreadGrows(times, top, delay, now, 1, now);
    SpreadGrows(times + [now], now, delay, time, n, if time <= now then now else time);
  }

  lemma OneAtATime(time: real)
    ensures Repeated(time, 1) == [time]
  {
    assert Repeated(time, 0) == [];
  }

  function CallsAt(subject: string, times: seq<real>): (calls: seq<Call>)
    ensures |calls| == |times|
  {
    seq(|times|, i requires 0 <= i < |times| => Call(subject, times[i]))
  }

  lemma {:induction false} TimesOfCallsAt(subject: string, times: seq<real>)
    ensures TimesOf(CallsAt(subject, times), subject) == times
  {
    if times != [] {
      var n := |times| - 1;
      assert CallsAt(subject, times)[..n] == CallsAt(subject, times[..n]);
      TimesOfCallsAt(subject, times[..n]);
      assert times == times[..n] + [times[n]];
    }
  }

  /** A serving order with its readings from 0 on, as a run. */
  lemma OrderAsRun(limit: int, length: real, delay: real, top: real, subject: string, times: seq<real>, from: real)
    returns (events: seq<Event>)
    requires delay >= 0.0 && Spread(times, top, delay)
    ensures Happens(limit, length, delay, Idle(0.0), events)
    ensures After(limit, length, delay, Idle(0.0), events).served == CallsAt(subject, times)
    ensures Granted(limit, length, delay, 0.0, events, subject, from)
            == AllowedIn(limit, length, times, from, from + length)
  {
    hide RunAlone;
    events := EveryOrderHappens(limit, length, delay, 0.0, CallsAt(subject, times));
    RunsAreConsistent(limit, length, delay, Idle(0.0), events);
    SharedLimiterProjects(limit, length, CallsAt(subject, times), subject);
    TimesOfCallsAt(subject, times);
  }

  /** For every limit, window and wait, some run attains the bound. */
  lemma BoundIsAttained(limit: int, length: real, delay: real, k: nat)
    returns (events: seq<Event>, subject: string, from: real)
    requires limit >= 1 && length > 0.0 && delay >= 0.0 && Span(length, k) - length < delay <= Span(length, k)
    ensures Happens(limit, length, delay, Idle(0.0), events)
    ensures Granted(limit, length, delay, 0.0, events, subject, from) == Bound(limit, k + 2)
  {
    var unused := delay - (Span(length, k) - length);
    from := length - unused / 2.0;
    var early := 2.0 * length - unused;
    subject := "subject";
    BurstIsGranted(limit, length, from, early, k);
    BurstIsSpread(limit, length, from, early, delay, k);
    events := OrderAsRun(limit, length, delay, Span(length, k + 1), subject,
                         Burst(limit, length, from, early, k), from);
  }

  /** In every run, for every subject and interval as long as the window, at most `bound` requests are allowed. */
  ghost predicate Within(limit: int, length: real, delay: real, bound: int) {
    forall clock, events, subject, from :: Happens(limit, length, delay, Idle(clock), events)
                                           ==> Granted(limit, length, delay, clock, events, subject, from) <= bound
  }

  /** The exact bound: when calls wait up to k window lengths for the lock, but not up to k - 1, what any interval as
      long as the window can hold is (k + 2)(L - 1) + 1, no less and no more. */
  lemma ExactSlidingBound(limit: int, length: real, delay: real, k: nat, bound: int)
    requires limit >= 1 && length > 0.0 && delay >= 0.0 && Span(length, k) - length < delay <= Span(length, k)
    ensures Within(limit, length, delay, bound) <==> Bound(limit, k + 2) <= bound
  {
    hide Bound, Granted, Happens;
    if Bound(limit, k + 2) <= bound {
      forall clock, events, subject, from | Happens(limit, length, delay, Idle(clock), events)
        ensures Granted(limit, length, delay, clock, events, subject, from) <= bound
      {
        SlidingIntervalBound(limit, length, delay, k, clock, events, subject, from);
      }
    } else {
      var events, subject, from := BoundIsAttained(limit, length, delay, k);
    }
  }

  lemma WindowsToWait(length: real, delay: real) returns (k: nat)
    requires length > 0.0 && delay >= 0.0
    ensures Span(length, k) - length < delay <= Span(length, k)
    ensures k == 0 <==> delay == 0.0
  {
    k := 0;
    var top := SpanReaches(length, delay);
    while Span(length, k) < delay
      invariant k <= top
      invariant k > 0 ==> Span(length, k) - length < delay
      decreases top - k
    {
      SpanIsMonotone(length, k, top);
      k := k + 1;
    }
    if k > 0 {
      SpanIsMonotone(length, 0, k - 1);
    }
  }

  lemma SpanReaches(length: real, delay: real) returns (n: nat)
    requires length > 0.0 && delay >= 0.0
    ensures Span(length, n) >= delay
  {
    n := (delay / length).Floor + 1;
    SpanIsProduct(length, n);
    assert (n as real - delay / length) * length > 0.0;
  }

  /** The familiar 2L - 1 holds in all runs if and only if calls never wait for the lock, or the limit is one. */
  lemma TwiceTheLimitExactlyWhen(limit: int, length: real, delay: real)
    requires limit >= 1 && length > 0.0 && delay >= 0.0
    ensures Within(limit, length, delay, 2 * limit - 1) <==> limit == 1 || delay == 0.0
  {
    var k := WindowsToWait(length, delay);
    ExactSlidingBound(limit, length, delay, k, 2 * limit - 1);
    assert (k + 2) * (limit - 1) == k * (limit - 1) + 2 * (limit - 1);
    if k > 0 && limit > 1 {
      assert k * (limit - 1) > 0;
    }
  }

  /** Readings of one subject, two of them served in the other order. */
  const OVERTAKEN := [0.0, 59.9, 60.0, 61.0, 120.0, 119.8]

  /** For instance: two requests a minute, and a call that waits a fifth of a second while another overtakes it. */
  lemma WaitingBreaksTheBound() returns (events: seq<Event>)
    ensures Happens(2, 60.0, 0.2, Idle(0.0), events)
    ensures After(2, 60.0, 0.2, Idle(0.0), events).served == CallsAt("subject", OVERTAKEN)
    ensures Granted(2, 60.0, 0.2, 0.0, events, "subject", 59.9) == 4
  {
    hide RunAlone, AllowedIn, Happens, After, Granted;
    FourAreAllowed();
    events := OrderAsRun(2, 60.0, 0.2, 120.0, "subject", OVERTAKEN, 59.9);
  }

  lemma FourAreAllowed()
    ensures AllowedIn(2, 60.0, OVERTAKEN, 59.9, 119.9) == 4
  {
    hide RunAlone, AllowedIn, Repeated;
    EmptyRun(2, 60.0, 59.9, 119.9);
    OneAtATime(59.9);
    OneAtATime(61.0);
    OneAtATime(119.8);
    OpeningAWindow(2, 60.0, [], 0.0, 59.9, 59.9, 119.9);
    assert [] + [0.0] + [59.9] == [0.0, 59.9];
    OpeningAWindow(2, 60.0, [0.0, 59.9], 60.0, 61.0, 59.9, 119.9);
    assert [0.0, 59.9] + [60.0] + [61.0] == [0.0, 59.9, 60.0, 61.0];
    OpeningAWindow(2, 60.0, [0.0, 59.9, 60.0, 61.0], 120.0, 119.8, 59.9, 119.9);
    assert [0.0, 59.9, 60.0, 61.0] + [120.0] + [119.8] == OVERTAKEN;
  }
}
