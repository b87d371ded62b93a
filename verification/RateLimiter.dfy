/**
 The activation rate limiter of the tunnel (apps/pi-tunnel/src/server.ts, FixedWindowRateLimiter).
 A window starts at the first call that comes `windowMs` or more after the start of the previous one.
 */
module RateLimiter {

  datatype Window = Window(startedAt: int, count: nat)

  const INITIAL := Window(0, 0)

  /** One call of `take` at time `now`: the window it falls in and whether it is granted. */
  function Take(limit: nat, windowMs: nat, w: Window, now: int): (Window, bool) {
    var w0 := if now - w.startedAt >= windowMs then Window(now, 0) else w;
    var w1 := w0.(count := w0.count + 1);
    (w1, w1.count <= limit)
  }

  class FixedWindowRateLimiter {
    const limit: nat
    const windowMs: nat
    var windowStartedAt: int
    var count: nat

    ghost function View(): Window
      reads this
    {
      Window(windowStartedAt, count)
    }

    constructor (limit: nat, windowMs: nat)
      ensures this.limit == limit && this.windowMs == windowMs && View() == INITIAL
    {
      this.limit, this.windowMs := limit, windowMs;
      windowStartedAt, count := 0, 0;
    }

    method TakePermit(now: int) returns (granted: bool)
      modifies this
      ensures (View(), granted) == Take(limit, windowMs, old(View()), now)
    {
      if now - windowStartedAt >= windowMs {
        windowStartedAt := now;
        count := 0;
      }
      count := count + 1;
      granted := count <= limit;
    }
  }

  /** The state after calls at `times`, in order. */
  function After(limit: nat, windowMs: nat, times: seq<int>): Window {
    if times == [] then INITIAL
    else var n := |times| - 1; Take(limit, windowMs, After(limit, windowMs, times[..n]), times[n]).0
  }

  predicate Granted(limit: nat, windowMs: nat, times: seq<int>, i: nat)
    requires i < |times|
  {
    Take(limit, windowMs, After(limit, windowMs, times[..i]), times[i]).1
  }

  /** The number of granted calls whose time lies in the half-open interval [from, to). */
  function Grants(limit: nat, windowMs: nat, times: seq<int>, from: int, to: int): nat {
    if times == [] then 0
    else
      var n := |times| - 1;
      Grants(limit, windowMs, times[..n], from, to)
      + if from <= times[n] < to && Granted(limit, windowMs, times, n) then 1 else 0
  }

  /** The number of granted calls in the window that is open after `times`. */
  function GrantsInLastWindow(limit: nat, windowMs: nat, times: seq<int>): nat {
    if times == [] then 0
    else
      var n := |times| - 1;
      var before := After(limit, windowMs, times[..n]);
      (if times[n] - before.startedAt >= windowMs then 0 else GrantsInLastWindow(limit, windowMs, times[..n]))
      + if Granted(limit, windowMs, times, n) then 1 else 0
  }

  ghost predicate NonDecreasing(times: seq<int>) {
    forall i, j :: 0 <= i <= j < |times| ==> times[i] <= times[j]
  }

  /** A window grants its first `limit` calls and no other, whatever the times are. */
  lemma {:induction false} WindowGrantsUpToLimit(limit: nat, windowMs: nat, times: seq<int>)
    ensures var w := After(limit, windowMs, times);
      GrantsInLastWindow(limit, windowMs, times) == if w.count < limit then w.count else limit
    decreases |times|
  {
    if times != [] {
      WindowGrantsUpToLimit(limit, windowMs, times[..|times| - 1]);
    }
  }

  /** Where the grants in [from, from + windowMs) can come from: at most two windows. */
  ghost predicate Spread(limit: nat, windowMs: nat, times: seq<int>, from: int) {
    var w := After(limit, windowMs, times);
    var g := Grants(limit, windowMs, times, from, from + windowMs);
    var inWindow := if w.count < limit then w.count else limit;
    if times == [] || times[|times| - 1] < from then g == 0
    else
      || g <= inWindow
      || (w.startedAt >= from && g <= limit + inWindow)
      || (times[|times| - 1] >= from + windowMs && g <= 2 * limit)
  }

  lemma {:induction false} SpreadHolds(limit: nat, windowMs: nat, times: seq<int>, from: int)
    requires NonDecreasing(times)
    ensures Spread(limit, windowMs, times, from)
    decreases |times|
  {
    if times != [] {
      var n := |times| - 1;
      SpreadHolds(limit, windowMs, times[..n], from);
      if n > 0 {
        assert times[..n][n - 1] <= times[n];
      }
    }
  }

  /** For calls in non-decreasing time, no interval as long as a window sees more than 2 * limit grants. */
  lemma AnyIntervalGrantsAtMostTwiceTheLimit(limit: nat, windowMs: nat, times: seq<int>, from: int)
    requires NonDecreasing(times)
    ensures Grants(limit, windowMs, times, from, from + windowMs) <= 2 * limit
  {
    SpreadHolds(limit, windowMs, times, from);
  }

  /** `early` calls at the last moment of the first window, then `late` calls at the first moment of the next. */
  function Burst(windowMs: nat, early: nat, late: nat): seq<int> {
    seq(early, _ => windowMs - 1) + seq(late, _ => windowMs as int)
  }

  lemma CallAt(limit: nat, windowMs: nat, times: seq<int>, now: int, from: int, to: int)
    ensures After(limit, windowMs, times + [now]) == Take(limit, windowMs, After(limit, windowMs, times), now).0
    ensures Grants(limit, windowMs, times + [now], from, to)
         == Grants(limit, windowMs, times, from, to)
            + if from <= now < to && Take(limit, windowMs, After(limit, windowMs, times), now).1 then 1 else 0
  {
    assert (times + [now])[..|times|] == times;
  }

  lemma BurstSnoc(windowMs: nat, early: nat, late: nat)
    ensures Burst(windowMs, early, late + 1) == Burst(windowMs, early, late) + [windowMs as int]
    ensures Burst(windowMs, early + 1, 0) == Burst(windowMs, early, 0) + [windowMs - 1]
  {
  }

  lemma {:induction false} EarlyGrants(limit: nat, windowMs: nat, early: nat, to: int)
    requires windowMs >= 2 && early <= limit && windowMs <= to
    ensures var times := Burst(windowMs, early, 0);
      After(limit, windowMs, times) == Window(0, early) && Grants(limit, windowMs, times, windowMs - 1, to) == early
  {
    if early == 0 {
      assert |Burst(windowMs, early, 0)| == 0;
    } else {
      EarlyGrants(limit, windowMs, early - 1, to);
      BurstSnoc(windowMs, early - 1, 0);
      CallAt(limit, windowMs, Burst(windowMs, early - 1, 0), windowMs - 1, windowMs - 1, to);
    }
  }

  lemma {:induction false} LateGrants(limit: nat, windowMs: nat, late: nat, to: int)
    requires windowMs >= 2 && late <= limit && windowMs < to
    ensures var times := Burst(windowMs, limit, late);
      && After(limit, windowMs, times) == (if late == 0 then Window(0, limit) else Window(windowMs, late))
      && Grants(limit, windowMs, times, windowMs - 1, to) == limit + late
  {
    if late == 0 {
      EarlyGrants(limit, windowMs, limit, to);
    } else {
      LateGrants(limit, windowMs, late - 1, to);
      BurstSnoc(windowMs, limit, late - 1);
      CallAt(limit, windowMs, Burst(windowMs, limit, late - 1), windowMs, windowMs - 1, to);
    }
  }

  /** The factor two cannot be improved, whatever the limit and whatever the window of two or more milliseconds. */
  lemma TwiceTheLimitIsReached(limit: nat, windowMs: nat)
    requires windowMs >= 2
    ensures var times := Burst(windowMs, limit, limit); var from := windowMs - 1;
      NonDecreasing(times) && Grants(limit, windowMs, times, from, from + windowMs) == 2 * limit
  {
    LateGrants(limit, windowMs, limit, windowMs - 1 + windowMs);
  }
}
