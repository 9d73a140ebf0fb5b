/**
 The in-process fixed-window limiter of the gateway. Clock readings are reals:
 the source reads a monotonic float clock.
 */
module RateLimiter {
  import opened Seqs

  datatype Window = Window(count: nat, start: real)

  /** One call of `allow`, with the clock reading it took. */
  datatype Call = Call(key: string, at: real, limit: int, span: real)

  type Windows = map<string, Window>

  /** The window a call falls in, with the call counted. */
  function Enter(ws: Windows, c: Call): Window {
    var w := if c.key in ws then ws[c.key] else Window(0, c.at);
    if c.at - w.start >= c.span then Window(1, c.at) else Window(w.count + 1, w.start)
  }

  function Step(ws: Windows, c: Call): Windows {
    ws[c.key := Enter(ws, c)]
  }

  predicate Allowed(ws: Windows, c: Call) {
    Enter(ws, c).count <= c.limit
  }

  function Run(h: seq<Call>): Windows {
    if h == [] then map[] else Step(Run(h[..|h| - 1]), h[|h| - 1])
  }

  lemma RunSnoc(h: seq<Call>, c: Call)
    ensures Run(h + [c]) == Step(Run(h), c)
  {
    assert (h + [c])[..|h|] == h;
  }

  class InMemoryRateLimiter {
    var windows: map<string, Window>
    ghost var history: seq<Call>

    ghost predicate Valid()
      reads this
    {
      windows == Run(history)
    }

    constructor ()
      ensures Valid() && history == []
    {
      windows := map[];
      history := [];
    }

    method Allow(now: real, key: string, limit: int, windowSeconds: real) returns (ok: bool)
      requires Valid()
      modifies this
      ensures Valid()
      ensures history == old(history) + [Call(key, now, limit, windowSeconds)]
      ensures ok == Allowed(Run(old(history)), Call(key, now, limit, windowSeconds))
    {
      var count, start := 0, now;
      if key in windows {
        count, start := windows[key].count, windows[key].start;
      }
      if now - start >= windowSeconds {
        count, start := 0, now;
      }
      count := count + 1;
      windows := windows[key := Window(count, start)];
      history := history + [Call(key, now, limit, windowSeconds)];
      assert history[..|history| - 1] == old(history);
      ok := count <= limit;
    }
  }

  // ----- one key used with one limit and one window length -----

  ghost predicate Monotone(h: seq<Call>) {
    forall i, j | 0 <= i < j < |h| :: h[i].at <= h[j].at
  }

  ghost predicate Uniform(h: seq<Call>, key: string, limit: int, span: real) {
    forall i | 0 <= i < |h| && h[i].key == key :: h[i].limit == limit && h[i].span == span
  }

  /** Allowed calls of `key` with a time in [t, t + span). */
  function AllowedIn(h: seq<Call>, key: string, t: real, span: real): nat {
    if h == [] then 0 else
      var p, c := h[..|h| - 1], h[|h| - 1];
      AllowedIn(p, key, t, span)
      + (if c.key == key && t <= c.at < t + span && Allowed(Run(p), c) then 1 else 0)
  }

  lemma AllowedSnoc(h: seq<Call>, c: Call, key: string, t: real, span: real)
    ensures AllowedIn(h + [c], key, t, span)
         == AllowedIn(h, key, t, span) + if c.key == key && t <= c.at < t + span && Allowed(Run(h), c) then 1 else 0
  {
    assert (h + [c])[..|h|] == h;
  }

  /**
   What the current window says about an interval starting at t. Calls older
   than the window's start are at or before that start, so an interval reaching
   back past the start sees this window only, and not its opening call.
   */
  ghost predicate Covers(w: Window, n: nat, limit: int, t: real, span: real)
    requires limit >= 1
  {
    && w.count >= 1
    && (w.start < t ==> n <= Min(w.count, limit) - 1)
    && (t <= w.start < t + span ==> n <= limit - 1 + Min(w.count, limit))
    && (t + span <= w.start ==> n <= 2 * limit - 1)
  }

  lemma {:induction false} WindowCovers(h: seq<Call>, key: string, limit: int, span: real, t: real)
    requires Monotone(h) && Uniform(h, key, limit, span) && limit >= 1 && span > 0.0
    ensures key !in Run(h) ==> AllowedIn(h, key, t, span) == 0
    ensures key in Run(h) ==> Covers(Run(h)[key], AllowedIn(h, key, t, span), limit, t, span)
    ensures key in Run(h) && h != [] ==> Run(h)[key].start <= h[|h| - 1].at
    ensures h != [] && h[|h| - 1].at < t ==> AllowedIn(h, key, t, span) == 0
  {
    if h == [] {
    } else {
      var p, c := h[..|h| - 1], h[|h| - 1];
      WindowCovers(p, key, limit, span, t);
      if p != [] {
        assert p[|p| - 1] == h[|h| - 2];
        assert h[|h| - 2].at <= c.at;
      }
    }
  }

  lemma {:induction false} NoneAllowedIn(h: seq<Call>, key: string, limit: int, span: real, t: real)
    requires Uniform(h, key, limit, span)
    requires limit <= 0 || span <= 0.0
    ensures AllowedIn(h, key, t, span) == 0
  {
    if h == [] {
    } else {
      NoneAllowedIn(h[..|h| - 1], key, limit, span, t);
    }
  }

  /**
   Sliding bound: whatever other keys do, no half-open interval as long as the
   window holds more than 2 * limit - 1 allowed calls of one key. One better
   than twice the limit, because an interval that reaches two windows misses
   the call that opened the first of them.
   */
  lemma SlidingBound(h: seq<Call>, key: string, limit: int, span: real, t: real)
    requires Monotone(h) && Uniform(h, key, limit, span)
    ensures AllowedIn(h, key, t, span) <= Max(0, 2 * limit - 1)
  {
    if limit >= 1 && span > 0.0 {
      WindowCovers(h, key, limit, span, t);
    } else {
      NoneAllowedIn(h, key, limit, span, t);
    }
  }

  // ----- the bound is reached -----

  function Repeat(key: string, at: real, limit: int, span: real, n: nat): seq<Call> {
    seq(n, _ => Call(key, at, limit, span))
  }

  lemma RepeatSnoc(h: seq<Call>, key: string, at: real, limit: int, span: real, n: nat)
    requires n > 0
    ensures h + Repeat(key, at, limit, span, n) == h + Repeat(key, at, limit, span, n - 1) + [Call(key, at, limit, span)]
  {
  }

  /** One more call inside an open window that is below the limit passes. */
  lemma OneMore(h: seq<Call>, c: Call, t: real)
    requires c.key in Run(h) && c.at - Run(h)[c.key].start < c.span
    requires Run(h)[c.key].count < c.limit && t <= c.at < t + c.span
    ensures var h' := h + [c];
            && c.key in Run(h') && Run(h')[c.key] == Window(Run(h)[c.key].count + 1, Run(h)[c.key].start)
            && AllowedIn(h', c.key, t, c.span) == AllowedIn(h, c.key, t, c.span) + 1
  {
    assert (h + [c])[..|h|] == h;
  }

  /** n more calls at one instant inside an open window: the first ones up to the limit pass. */
  lemma {:induction false} Burst(h: seq<Call>, key: string, at: real, limit: int, span: real, n: nat, t: real)
    requires key in Run(h) && at - Run(h)[key].start < span
    requires Run(h)[key].count + n <= limit && t <= at < t + span
    ensures var h' := h + Repeat(key, at, limit, span, n);
            && key in Run(h') && Run(h')[key] == Window(Run(h)[key].count + n, Run(h)[key].start)
            && AllowedIn(h', key, t, span) == AllowedIn(h, key, t, span) + n
    decreases n
  {
    if n == 0 {
      assert h + Repeat(key, at, limit, span, 0) == h;
    } else {
      Burst(h, key, at, limit, span, n - 1, t);
      OneMore(h + Repeat(key, at, limit, span, n - 1), Call(key, at, limit, span), t);
      RepeatSnoc(h, key, at, limit, span, n);
    }
  }

  /** A call at 0, the rest of that window's budget at `half`, and a full window at `span`. */
  function BusyRun(key: string, limit: int, half: real, span: real): seq<Call>
    requires limit >= 1
  {
    [Call(key, 0.0, limit, span)] + Repeat(key, half, limit, span, limit - 1)
    + [Call(key, span, limit, span)] + Repeat(key, span, limit, span, limit - 1)
  }

  /** For every positive limit and window some run reaches the bound exactly. */
  lemma BoundIsReached(key: string, limit: int, half: real, span: real)
    requires limit >= 1 && 0.0 < half < span
    ensures var h := BusyRun(key, limit, half, span);
            && Monotone(h) && Uniform(h, key, limit, span)
            && AllowedIn(h, key, half, span) == 2 * limit - 1
  {
    BusyRunCount(key, limit, half, span);
    BusyRunTimed(key, limit, half, span);
  }

  lemma BusyRunTimed(key: string, limit: int, half: real, span: real)
    requires limit >= 1 && 0.0 < half < span
    ensures Monotone(BusyRun(key, limit, half, span)) && Uniform(BusyRun(key, limit, half, span), key, limit, span)
  {
    var h := BusyRun(key, limit, half, span);
    assert forall i | 0 <= i < |h| :: h[i] == Call(key, if i == 0 then 0.0 else if i < limit then half else span, limit, span);
  }

  lemma Opening(key: string, limit: int, half: real, span: real)
    requires 0.0 < half < span
    ensures var opening := [Call(key, 0.0, limit, span)];
            key in Run(opening) && Run(opening)[key] == Window(1, 0.0) && AllowedIn(opening, key, half, span) == 0
  {
    var opening := [Call(key, 0.0, limit, span)];
    assert opening[..0] == [];
    assert Run(opening[..0]) == map[] && AllowedIn(opening[..0], key, half, span) == 0;
  }

  /** The first window: its opening call is before `half`, the rest of its budget at `half`. */
  lemma FirstWindow(key: string, limit: int, half: real, span: real)
    requires limit >= 1 && 0.0 < half < span
    ensures var first := [Call(key, 0.0, limit, span)] + Repeat(key, half, limit, span, limit - 1);
            key in Run(first) && Run(first)[key].start == 0.0 && AllowedIn(first, key, half, span) == limit - 1
  {
    Opening(key, limit, half, span);
    Burst([Call(key, 0.0, limit, span)], key, half, limit, span, limit - 1, half);
  }

  lemma BusyRunCount(key: string, limit: int, half: real, span: real)
    requires limit >= 1 && 0.0 < half < span
    ensures AllowedIn(BusyRun(key, limit, half, span), key, half, span) == 2 * limit - 1
  {
    var first := [Call(key, 0.0, limit, span)] + Repeat(key, half, limit, span, limit - 1);
    FirstWindow(key, limit, half, span);
    NextWindow(first, key, limit, half, span);
    Burst(first + [Call(key, span, limit, span)], key, span, limit, span, limit - 1, half);
  }

  lemma NextWindow(h: seq<Call>, key: string, limit: int, t: real, span: real)
    requires key in Run(h) && Run(h)[key].start == 0.0 && limit >= 1 && 0.0 < t < span
    ensures var h' := h + [Call(key, span, limit, span)];
            && key in Run(h') && Run(h')[key] == Window(1, span)
            && AllowedIn(h', key, t, span) == AllowedIn(h, key, t, span) + 1
  {
    var h' := h + [Call(key, span, limit, span)];
    assert h'[..|h|] == h;
  }

  // ----- which calls of a window pass -----

  function TimesOf(h: seq<Call>, key: string): seq<real> {
    if h == [] then [] else
      TimesOf(h[..|h| - 1], key) + (if h[|h| - 1].key == key then [h[|h| - 1].at] else [])
  }

  lemma TimesSnoc(h: seq<Call>, c: Call, key: string)
    ensures TimesOf(h + [c], key) == TimesOf(h, key) + if c.key == key then [c.at] else []
  {
    assert (h + [c])[..|h|] == h;
  }

  /** The call that opened the window of call i: the first one at least `span` after the previous opener. */
  function Opener(times: seq<real>, span: real, i: nat): (k: nat)
    requires i < |times|
    ensures k <= i
  {
    if i == 0 then 0
    else if times[i] - times[Opener(times, span, i - 1)] >= span then i
    else Opener(times, span, i - 1)
  }

  lemma {:induction false} OpenerPrefix(times: seq<real>, x: real, span: real, i: nat)
    requires i < |times|
    ensures Opener(times + [x], span, i) == Opener(times, span, i)
  {
    if i == 0 {
    } else {
      OpenerPrefix(times, x, span, i - 1);
    }
  }

  /**
   Each window allows exactly its first `limit` calls: a call of `key` passes
   if and only if fewer than `limit` calls of the key precede it in its window.
   */
  lemma {:induction false} FirstCallsPass(h: seq<Call>, key: string, limit: int, span: real)
    requires Uniform(h, key, limit, span) && span > 0.0
    ensures key in Run(h) <==> TimesOf(h, key) != []
    ensures var ts := TimesOf(h, key);
            ts != [] ==>
              var k := Opener(ts, span, |ts| - 1);
              Run(h)[key] == Window(|ts| - k, ts[k])
    ensures h != [] && h[|h| - 1].key == key ==>
              var ts := TimesOf(h, key);
              ts != [] && (Allowed(Run(h[..|h| - 1]), h[|h| - 1]) <==> |ts| - 1 - Opener(ts, span, |ts| - 1) < limit)
  {
    if h == [] {
    } else {
      var p, c := h[..|h| - 1], h[|h| - 1];
      FirstCallsPass(p, key, limit, span);
      if c.key == key {
        var ts := TimesOf(p, key);
        assert TimesOf(h, key) == ts + [c.at];
        if ts != [] {
          OpenerPrefix(ts, c.at, span, |ts| - 1);
          assert Opener(ts + [c.at], span, |ts|)
              == (if c.at - ts[Opener(ts, span, |ts| - 1)] >= span then |ts| else Opener(ts, span, |ts| - 1));
        }
      } else {
        assert TimesOf(h, key) == TimesOf(p, key);
      }
    }
  }
}
