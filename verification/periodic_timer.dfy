// The periodic timer of xcom_core/src/runtime/periodic_timer.cpp: a monotonic clock from a
// tick counter, a rounded wait, and a deadline that stays on one grid.
module PeriodicTimer {
  import opened Bytes

  const NS_PER_MS: nat := 1_000_000
  const NS_PER_S: nat := 1_000_000_000
  const MAX_WAIT: nat := 0xFFFF_FFFE   // one below INFINITE
  const U64: nat := 0x1_0000_0000_0000_0000

  // ---- arithmetic --------------------------------------------------------------------

  lemma Distribute(a: int, b: int, c: int)
    ensures a * (b + c) == a * b + a * c
  {}

  lemma Associate(a: int, b: int, c: int)
    ensures a * (b * c) == (a * b) * c
  {}

  lemma MulMonotone(d: nat, a: nat, b: nat)
    requires a <= b
    ensures d * a <= d * b
  {}

  lemma DivBounds(x: nat, d: nat)
    requires d > 0
    ensures d * (x / d) <= x < d * (x / d) + d
  {}

  lemma QuotientsOrdered(d: nat, a: nat, b: nat, x: nat, y: nat)
    requires d > 0 && d * a <= x <= y < d * b + d
    ensures a <= b
  {
    if b < a {
      MulMonotone(d, b + 1, a);
      Distribute(d, b, 1);
    }
  }

  lemma DivUnique(x: nat, d: nat, q: nat)
    requires d > 0 && d * q <= x < d * q + d
    ensures x / d == q
  {
    DivBounds(x, d);
    QuotientsOrdered(d, q, x / d, x, x);
    QuotientsOrdered(d, x / d, q, x, x);
  }

  // ---- the clock ---------------------------------------------------------------------

  // Whole seconds and rest, with every 64-bit product and sum reduced as the machine does.
  function Combine(whole: nat, rest: nat, frequency: nat): nat
    requires frequency > 0
  {
    (whole % U64 + rest % U64 / frequency) % U64
  }

  function MonotonicNs(ticks: nat, frequency: nat): nat
    requires frequency > 0
  {
    Combine(ticks / frequency * NS_PER_S, ticks % frequency * NS_PER_S, frequency)
  }

  lemma SplitParts(s: nat, t: nat, f: nat, q: nat)
    requires f * q <= t * NS_PER_S < f * q + f
    ensures f * (s * NS_PER_S + q) <= (f * s + t) * NS_PER_S < f * (s * NS_PER_S + q) + f
  {
    Associate(f, s, NS_PER_S);
    Distribute(f, s * NS_PER_S, q);
  }

  // Splitting off the whole seconds loses nothing to rounding.
  lemma SplitIsExact(ticks: nat, f: nat)
    requires f > 0
    ensures ticks * NS_PER_S / f == ticks / f * NS_PER_S + ticks % f * NS_PER_S / f
  {
    var s, t := ticks / f, ticks % f;
    var q := t * NS_PER_S / f;
    DivBounds(t * NS_PER_S, f);
    SplitParts(s, t, f, q);
    assert ticks == f * s + t;
    DivUnique(ticks * NS_PER_S, f, s * NS_PER_S + q);
  }

  lemma ModAdd(a: nat, b: nat)
    ensures (a % U64 + b) % U64 == (a + b) % U64
  {}

  lemma CombineIsSum(whole: nat, rest: nat, f: nat)
    requires f > 0 && rest < U64
    ensures Combine(whole, rest, f) == (whole + rest / f) % U64
  {
    ModAdd(whole, rest / f);
  }

  // The time the counter stands for, in whole nanoseconds.
  function Nanoseconds(ticks: nat, f: nat): nat
    requires f > 0
  {
    ticks * NS_PER_S / f
  }

  // The clock is floor(ticks * 10^9 / frequency) in 64 bits, without ever forming that product:
  // exact for every counter slower than 18.4 GHz.
  lemma ClockIsExact(ticks: nat, f: nat)
    requires 0 < f && f * NS_PER_S <= U64
    ensures MonotonicNs(ticks, f) == Nanoseconds(ticks, f) % U64
  {
    hide Combine;
    SplitIsExact(ticks, f);
    CombineIsSum(ticks / f * NS_PER_S, ticks % f * NS_PER_S, f);
  }

  lemma DivMonotone(x: nat, y: nat, d: nat)
    requires d > 0 && x <= y
    ensures x / d <= y / d
  {
    DivBounds(x, d);
    DivBounds(y, d);
    QuotientsOrdered(d, x / d, y / d, x, y);
  }

  lemma NanosecondsMonotone(t: nat, u: nat, f: nat)
    requires f > 0 && t <= u
    ensures Nanoseconds(t, f) <= Nanoseconds(u, f)
  {
    DivMonotone(t * NS_PER_S, u * NS_PER_S, f);
  }

  // The clock never runs backwards before it wraps.
  lemma ClockIsMonotone(t: nat, u: nat, f: nat)
    requires 0 < f && f * NS_PER_S <= U64 && t <= u && Nanoseconds(u, f) < U64
    ensures MonotonicNs(t, f) <= MonotonicNs(u, f)
  {
    hide MonotonicNs, Nanoseconds;
    ClockIsExact(t, f);
    ClockIsExact(u, f);
    NanosecondsMonotone(t, u, f);
  }

  // ---- the wait ------------------------------------------------------------------------

  function WaitMilliseconds(remaining: nat): nat {
    Min((remaining + (NS_PER_MS - 1)) % U64 / NS_PER_MS, MAX_WAIT)
  }

  // The wait is the least number of whole milliseconds that covers the rest, clamped below
  // INFINITE: it is never early but for the clamp, and never endless.
  lemma WaitCovers(remaining: nat)
    requires remaining + NS_PER_MS <= U64
    ensures
      var ms := WaitMilliseconds(remaining);
      && ms <= MAX_WAIT
      && (ms < MAX_WAIT ==> ms * NS_PER_MS >= remaining)
      && (ms > 0 ==> (ms - 1) * NS_PER_MS < remaining)
  {}

  // ---- the deadline grid -------------------------------------------------------------------

  // The k-th point of the grid.
  function Point(start: nat, interval: nat, k: nat): nat { start + interval * k }

  // What one firing makes of the deadline.
  function NextDeadline(deadline: nat, interval: nat, now: nat): nat
    requires interval > 0
  {
    var next := deadline + interval;
    if next <= now then next + ((now - next) / interval + 1) * interval else next
  }

  lemma PointPlus(start: nat, interval: nat, k: nat, n: nat)
    ensures Point(start, interval, k + n) == Point(start, interval, k) + n * interval
  {
    Distribute(interval, k, n);
  }

  lemma PointMonotone(start: nat, interval: nat, i: nat, j: nat)
    requires i <= j
    ensures Point(start, interval, i) <= Point(start, interval, j)
  {
    MulMonotone(interval, i, j);
  }

  // The index of the next deadline.
  function NextIndex(start: nat, interval: nat, k: nat, now: nat): nat
    requires interval > 0
  {
    var next := Point(start, interval, k + 1);
    if next <= now then k + 2 + (now - next) / interval else k + 1
  }

  lemma SkipBounds(gap: nat, d: nat)
    requires d > 0
    ensures gap / d * d <= gap < (gap / d + 1) * d
  {
    DivBounds(gap, d);
  }

  lemma NextIsPoint(start: nat, interval: nat, k: nat, now: nat)
    requires interval > 0
    ensures
      var j := NextIndex(start, interval, k, now);
      && NextDeadline(Point(start, interval, k), interval, now) == Point(start, interval, j)
      && j > k && Point(start, interval, j) > now
  {
    hide Point;
    PointPlus(start, interval, k, 1);
    var next := Point(start, interval, k + 1);
    if next <= now {
      var n := (now - next) / interval;
      SkipBounds(now - next, interval);
      PointPlus(start, interval, k + 1, n + 1);
    }
  }

  lemma NextIsFirst(start: nat, interval: nat, k: nat, now: nat, i: nat)
    requires interval > 0 && i > k && Point(start, interval, i) > now
    ensures i >= NextIndex(start, interval, k, now)
  {
    hide Point;
    var next := Point(start, interval, k + 1);
    if next <= now {
      var n := (now - next) / interval;
      SkipBounds(now - next, interval);
      PointPlus(start, interval, k + 1, n);
      if i <= k + 1 + n { PointMonotone(start, interval, i, k + 1 + n); }
    }
  }

  // The next deadline is the least grid point after both the last deadline and the end of the
  // callback.
  lemma NextDeadlineIsLeast(start: nat, interval: nat, k: nat, now: nat)
    requires interval > 0
    ensures
      var j := NextIndex(start, interval, k, now);
      && NextDeadline(Point(start, interval, k), interval, now) == Point(start, interval, j)
      && j > k && Point(start, interval, j) > now
      && forall i: nat :: i > k && Point(start, interval, i) > now ==> i >= j
  {
    hide *;
    NextIsPoint(start, interval, k, now);
    forall i: nat | i > k && Point(start, interval, i) > now ensures i >= NextIndex(start, interval, k, now) {
      NextIsFirst(start, interval, k, now, i);
    }
  }

  // One firing: the deadline it served, when it was seen due, when its callback ended.
  datatype Fire = Fire(deadline: nat, now: nat, done: nat)

  // No firing is early, each serves the grid point of its index, later firings serve later
  // points, and each of those comes after the end of the callback before it.
  ghost predicate OnGrid(fires: seq<Fire>, indices: seq<nat>, start: nat, interval: nat) {
    && |indices| == |fires|
    && (forall i :: 0 <= i < |fires| ==>
          Point(start, interval, indices[i]) == fires[i].deadline <= fires[i].now <= fires[i].done)
    && (forall i, j :: 0 <= i < j < |fires| ==>
          indices[i] < indices[j] && fires[i].done < fires[j].deadline)
  }

  // The firings of a deadline against the clock readings: a reading that is not due yet is a
  // wait, a due one fires, and the reading after it is the end of the callback.
  function Firings(clock: seq<nat>, deadline: nat, interval: nat): seq<Fire>
    requires interval > 0
    decreases |clock|
  {
    if |clock| < 2 then []
    else if clock[0] < deadline then Firings(clock[1..], deadline, interval)
    else
      [Fire(deadline, clock[0], clock[1])] + Firings(clock[2..], NextDeadline(deadline, interval, clock[1]), interval)
  }

  // The first due reading fires, and after its callback the next deadline takes over.
  lemma {:induction false} FirstDueFires(clock: seq<nat>, deadline: nat, interval: nat, i: nat)
    requires interval > 0 && i + 1 < |clock| && clock[i] >= deadline
    requires forall j :: 0 <= j < i ==> clock[j] < deadline
    ensures
      Firings(clock, deadline, interval) ==
        [Fire(deadline, clock[i], clock[i + 1])]
        + Firings(clock[i + 2..], NextDeadline(deadline, interval, clock[i + 1]), interval)
    decreases i
  {
    if i > 0 {
      FirstDueFires(clock[1..], deadline, interval, i - 1);
      assert clock[1..][i + 1..] == clock[i + 2..];
    }
  }

  // With no due reading nothing fires.
  lemma {:induction false} NothingDueNothingFires(clock: seq<nat>, deadline: nat, interval: nat)
    requires interval > 0 && forall j :: 0 <= j < |clock| - 1 ==> clock[j] < deadline
    ensures Firings(clock, deadline, interval) == []
    decreases |clock|
  {
    if |clock| >= 2 { NothingDueNothingFires(clock[1..], deadline, interval); }
  }

  lemma FiringsStep(clock: seq<nat>, deadline: nat, interval: nat)
    requires interval > 0
    ensures
      var fires := Firings(clock, deadline, interval);
      if |clock| < 2 then fires == []
      else if clock[0] < deadline then fires == Firings(clock[1..], deadline, interval)
      else fires == [Fire(deadline, clock[0], clock[1])]
                    + Firings(clock[2..], NextDeadline(deadline, interval, clock[1]), interval)
  {}

  predicate Earlier(fires: seq<Fire>, indices: seq<nat>, k: nat, deadline: nat) {
    |indices| == |fires| && forall i :: 0 <= i < |fires| ==> indices[i] < k && fires[i].done < deadline
  }

  lemma GridPush(fires: seq<Fire>, indices: seq<nat>, start: nat, interval: nat, f: Fire, k: nat, j: nat, next: nat)
    requires OnGrid(fires, indices, start, interval) && Earlier(fires, indices, k, f.deadline)
    requires Point(start, interval, k) == f.deadline <= f.now <= f.done < next && k < j
    ensures OnGrid(fires + [f], indices + [k], start, interval) && Earlier(fires + [f], indices + [k], j, next)
  {
    hide Point;
    assert forall i :: 0 <= i < |fires| ==> fires[i].done < f.deadline <= next;
  }

  class Timer {
    var deadline: nat
    var interval: nat

    constructor (period: nat)
      requires period > 0
      ensures interval == period
    {
      interval, deadline := period, 0;
    }

    // run(), over the clock readings it takes: on a monotone clock the deadline stays on the
    // grid start + k * interval, and no two firings fall into one cell, however long the
    // callbacks take.
    method Run(clock: seq<nat>) returns (fires: seq<Fire>, ghost indices: seq<nat>)
      requires interval > 0 && clock != []
      requires forall i, j :: 0 <= i < j < |clock| ==> clock[i] <= clock[j]
      modifies this`deadline
      ensures OnGrid(fires, indices, clock[0], interval)
      ensures fires == Firings(clock[1..], clock[0] + interval, interval)
    {
      hide OnGrid, Earlier, Firings, Point, NextIndex;
      var start, turn := clock[0], 1;
      deadline := start + interval;
      fires, indices := [], [];
      ghost var k := 1;
      FirstPoint(start, interval);
      while turn < |clock|
        invariant 1 <= turn <= |clock| && deadline == Point(start, interval, k)
        invariant OnGrid(fires, indices, start, interval) && Earlier(fires, indices, k, deadline)
        invariant Firings(clock[1..], start + interval, interval) == fires + Firings(clock[turn..], deadline, interval)
      {
        ghost var rest := clock[turn..];
        FiringsStep(rest, deadline, interval);
        assert rest[1..] == clock[turn + 1..];
        var now := clock[turn];
        turn := turn + 1;
        if now < deadline || turn == |clock| {
          FiringsStep(clock[turn..], deadline, interval);
          continue;
        }
        assert rest[2..] == clock[turn + 1..];
        var after := clock[turn];
        turn := turn + 1;
        NextDeadlineIsLeast(start, interval, k, after);
        ghost var f, j := Fire(deadline, now, after), NextIndex(start, interval, k, after);
        GridPush(fires, indices, start, interval, f, k, j, NextDeadline(deadline, interval, after));
        ghost var later := Firings(clock[turn..], NextDeadline(deadline, interval, after), interval);
        assert fires + ([f] + later) == (fires + [f]) + later;
        fires, indices := fires + [Fire(deadline, now, after)], indices + [k];
        k := j;
        deadline := deadline + interval;
        if deadline <= after {
          var skipped := (after - deadline) / interval + 1;
          deadline := deadline + skipped * interval;
        }
      }
      FiringsStep([], deadline, interval);
      assert clock[turn..] == [] && fires + [] == fires;
    }
  }

  lemma FirstPoint(start: nat, interval: nat)
    ensures Point(start, interval, 1) == start + interval
    ensures OnGrid([], [], start, interval) && Earlier([], [], 1, start + interval)
  {}
}
