/** Spike detection: each day against the median of the days before it. */
module Spike {
  import opened Base
  import opened Sorting

  const SPIKE_WINDOW := 7
  const SPIKE_MIN_BASELINE := 3
  const SPIKE_Z := 3.5
  const SPIKE_RATIO := 2.0

  datatype Point = Point(day: string, x: real)

  /** A number of standard deviations, without bound over a flat baseline. */
  datatype Z = Finite(z: real) | Infinite

  datatype Verdict = Verdict(
    day: string, x: real, n: nat, median: real, mad: real, excess: real, z: Z, ratio: real, fired: bool, why: string)

  // The statistics.

  predicate Below(a: real, b: real) { a < b }

  lemma BelowIsStrictWeak()
    ensures StrictWeak(Below)
  {
    forall a: real, b: real, c: real ensures Lawful(Below, a, b, c) {
    }
  }

  function Median(xs: seq<real>): real {
    if xs == [] then 0.0
    else
      var s, mid := StableSort(Below, xs), |xs| / 2;
      if |xs| % 2 == 1 then s[mid] else (s[mid - 1] + s[mid]) / 2.0
  }

  function Sum(xs: seq<real>): real {
    if xs == [] then 0.0 else Sum(xs[..|xs| - 1]) + xs[|xs| - 1]
  }

  function Mean(xs: seq<real>): real {
    if xs == [] then 0.0 else Sum(xs) / |xs| as real
  }

  function Abs(x: real): real { if x < 0.0 then -x else x }

  function Deviations(xs: seq<real>, m: real): (r: seq<real>)
    ensures |r| == |xs|
  {
    seq(|xs|, k requires 0 <= k < |xs| => Abs(xs[k] - m))
  }

  /** The spread the excess is measured in: from the median deviation, or from the mean deviation when that is nothing. */
  function Sigma(dev: seq<real>): real {
    if Median(dev) > 0.0 then Median(dev) / 0.6745
    else if Mean(dev) > 0.0 then 1.253314 * Mean(dev)
    else 0.0
  }

  function Score(x: real, median: real, sigma: real): Z {
    if sigma > 0.0 then Finite((x - median) / sigma) else if x > median then Infinite else Finite(0.0)
  }

  /** Which gate stops the day, or "fire". */
  function Gate(x: real, median: real, z: Z, floor: real): string {
    if z.Finite? && z.z < SPIKE_Z then "statistical"
    else if x - median < floor then "absolute"
    else if median > 0.0 && x < SPIKE_RATIO * median then "headline"
    else "fire"
  }

  /** The verdict on a day, from its baseline alone. */
  function Judged(baseline: seq<real>, p: Point, floor: real): Verdict {
    if |baseline| < SPIKE_MIN_BASELINE then Verdict(p.day, p.x, |baseline|, 0.0, 0.0, 0.0, Finite(0.0), 0.0, false, "warm-up")
    else
      var m := Median(baseline);
      var dev := Deviations(baseline, m);
      var z := Score(p.x, m, Sigma(dev));
      var why := Gate(p.x, m, z, floor);
      Verdict(p.day, p.x, |baseline|, m, Median(dev), p.x - m, z, if m != 0.0 then p.x / m else 0.0, why == "fire", why)
  }

  /** The spread of a baseline about its median: the median deviation scaled, or the mean deviation where half the days are at the median. */
  function Spread(baseline: seq<real>): real {
    var dev := Deviations(baseline, Median(baseline));
    if Median(dev) > 0.0 then Median(dev) / 0.6745 else if Mean(dev) > 0.0 then 1.253314 * Mean(dev) else 0.0
  }

  /** Three and a half spreads above the median, or above it at all where there is no spread. */
  predicate Unusual(baseline: seq<real>, x: real) {
    if Spread(baseline) > 0.0 then x - Median(baseline) >= 3.5 * Spread(baseline) else x > Median(baseline)
  }

  /**
   A day fires exactly when three days or more precede it and it is unusual, at
   least the floor above the median, and at least twice a median that is not
   nothing; otherwise it says which of these failed first.
   */
  lemma FiresByTheNumbers(baseline: seq<real>, p: Point, floor: real)
    ensures var v, m := Judged(baseline, p, floor), Median(baseline);
      && (v.fired <==> |baseline| >= 3 && Unusual(baseline, p.x) && p.x - m >= floor && (m > 0.0 ==> p.x >= m + m))
      && (v.why == "warm-up" <==> |baseline| < 3)
      && (v.why == "statistical" <==> |baseline| >= 3 && !Unusual(baseline, p.x))
      && (v.why == "absolute" <==> |baseline| >= 3 && Unusual(baseline, p.x) && p.x - m < floor)
      && (v.why == "headline" <==> |baseline| >= 3 && Unusual(baseline, p.x) && p.x - m >= floor && m > 0.0 && p.x < m + m)
      && (v.fired <==> v.why == "fire")
  {
    var m, sigma := Median(baseline), Spread(baseline);
    if sigma > 0.0 { OverSigma(p.x - m, sigma); }
    TwiceIs(m);
  }

  lemma OverSigma(excess: real, sigma: real)
    requires sigma > 0.0
    ensures excess / sigma >= 3.5 <==> excess >= 3.5 * sigma
  {
    var z := excess / sigma;
    assert z * sigma == excess;
    if z >= 3.5 { assert (z - 3.5) * sigma >= 0.0; } else { assert (3.5 - z) * sigma > 0.0; }
  }

  lemma TwiceIs(m: real)
    ensures SPIKE_RATIO * m == m + m
  {
  }

  /** The days before day `i`, newest first, down to day `j`, without those before `start`. */
  function Baseline(series: seq<Point>, i: nat, j: nat, start: string): seq<real>
    requires j <= i <= |series|
    decreases i - j
  {
    if j == i then []
    else Baseline(series, i, j + 1, start) + if start != "" && Before(series[j].day, start) then [] else [series[j].x]
  }

  function Oldest(i: nat): nat { if i < SPIKE_WINDOW then 0 else i - SPIKE_WINDOW }

  function VerdictOn(series: seq<Point>, i: nat, floor: real, start: string): Verdict
    requires i < |series|
  {
    Judged(Baseline(series, i, Oldest(i), start), series[i], floor)
  }

  /** A day from before the start of the series. */
  predicate TooEarly(p: Point, start: string) { start != "" && Before(p.day, start) }

  /** The values before day `i`, newest first, from day `from` on. */
  ghost predicate Backwards(b: seq<real>, series: seq<Point>, i: nat, from: nat)
    requires from <= i <= |series|
  {
    |b| == i - from && forall k :: 0 <= k < |b| ==> b[k] == series[i - 1 - k].x
  }

  lemma {:induction false} BaselineHolds(series: seq<Point>, i: nat, j: nat, from: nat, start: string)
    requires j <= from <= i <= |series|
    requires forall k :: j <= k < from ==> TooEarly(series[k], start)
    requires forall k :: from <= k < i ==> !TooEarly(series[k], start)
    ensures Backwards(Baseline(series, i, j, start), series, i, from)
    decreases i - j
  {
    if j < from {
      BaselineHolds(series, i, j + 1, from, start);
      assert TooEarly(series[j], start);
    } else if j < i {
      BaselineHolds(series, i, j + 1, j + 1, start);
      assert !TooEarly(series[j], start);
    }
  }

  /** The days a day is judged by: the seven before it, or as many as there are from the start on, newest first. */
  lemma BaselineIsTheWeekBefore(series: seq<Point>, i: nat, from: nat, start: string)
    requires i < |series| && i - 7 <= from <= i
    requires forall k :: 0 <= k < from && i - 7 <= k ==> TooEarly(series[k], start)
    requires forall k :: from <= k < i ==> !TooEarly(series[k], start)
    ensures Backwards(Baseline(series, i, Oldest(i), start), series, i, from)
  {
    BaselineHolds(series, i, Oldest(i), from, start);
  }

  // The code.

  method SortFloats(s: array<real>)
    modifies s
    ensures s[..] == StableSort(Below, old(s[..]))
  {
    Overwrite(s, StableSort(Below, s[..]));
  }

  /** `median`: sorts a copy. */
  method ComputeMedian(xs: seq<real>) returns (m: real)
    ensures m == Median(xs)
  {
    if |xs| == 0 { return 0.0; }
    var s := new real[|xs|](i requires 0 <= i < |xs| => xs[i]);
    assert s[..] == xs;
    SortFloats(s);
    ghost var sorted := s[..];
    var mid := |xs| / 2;
    assert s[mid] == sorted[mid];
    if |xs| % 2 == 1 { return s[mid]; }
    assert s[mid - 1] == sorted[mid - 1];
    return (s[mid - 1] + s[mid]) / 2.0;
  }

  /** `meanOf`. */
  method ComputeMean(xs: seq<real>) returns (m: real)
    ensures m == Mean(xs)
  {
    if |xs| == 0 { return 0.0; }
    var sum := 0.0;
    for i := 0 to |xs|
      invariant sum == Sum(xs[..i])
    {
      assert xs[..i + 1][..i] == xs[..i];
      sum := sum + xs[i];
    }
    assert xs[..|xs|] == xs;
    return sum / |xs| as real;
  }

  /** The inner loop of `Detect`: walks back over the window. */
  method CollectBaseline(series: seq<Point>, i: nat, start: string) returns (baseline: seq<real>)
    requires i < |series|
    ensures baseline == Baseline(series, i, Oldest(i), start)
  {
    baseline := [];
    var j: int := i - 1;
    while j >= 0 && j >= i - SPIKE_WINDOW
      invariant Oldest(i) <= j + 1 <= i && baseline == Baseline(series, i, j + 1, start)
    {
      if !(start != "" && Before(series[j].day, start)) { baseline := baseline + [series[j].x]; }
      j := j - 1;
    }
  }

  /** One day of `Detect`, field by field. */
  method Judge(baseline: seq<real>, p: Point, floor: real) returns (s: Verdict)
    ensures s == Judged(baseline, p, floor)
  {
    s := Verdict(p.day, p.x, |baseline|, 0.0, 0.0, 0.0, Finite(0.0), 0.0, false, "");
    if |baseline| < SPIKE_MIN_BASELINE { return s.(why := "warm-up"); }
    var m := ComputeMedian(baseline);
    var dev := Deviations(baseline, m);
    var mad := ComputeMedian(dev);
    s := s.(median := m, mad := mad);
    var sigma := 0.0;
    if mad > 0.0 {
      sigma := mad / 0.6745;
    } else {
      var mean := ComputeMean(dev);
      if mean > 0.0 { sigma := 1.253314 * mean; }
    }
    s := s.(excess := p.x - m);
    if sigma > 0.0 {
      s := s.(z := Finite(s.excess / sigma));
    } else if p.x > m {
      s := s.(z := Infinite);
    }
    if m != 0.0 { s := s.(ratio := p.x / m); }
    if s.z.Finite? && s.z.z < SPIKE_Z {
      s := s.(why := "statistical");
    } else if s.excess < floor {
      s := s.(why := "absolute");
    } else if m > 0.0 && p.x < SPIKE_RATIO * m {
      s := s.(why := "headline");
    } else {
      s := s.(fired := true, why := "fire");
    }
  }

  /** `Detect`. */
  method Detect(series: seq<Point>, floor: real, start: string) returns (out: seq<Verdict>)
    ensures |out| == |series| && forall i :: 0 <= i < |out| ==> out[i] == VerdictOn(series, i, floor, start)
  {
    out := [];
    for i := 0 to |series|
      invariant |out| == i && forall k :: 0 <= k < i ==> out[k] == VerdictOn(series, k, floor, start)
    {
      var baseline := CollectBaseline(series, i, start);
      var s := Judge(baseline, series[i], floor);
      out := out + [s];
    }
  }

  // Causality.

  lemma {:induction false} BaselineIsLocal(s: seq<Point>, t: seq<Point>, i: nat, j: nat, start: string)
    requires j <= i <= |s| && i <= |t| && forall k :: j <= k < i ==> s[k] == t[k]
    ensures Baseline(s, i, j, start) == Baseline(t, i, j, start)
    decreases i - j
  {
    if j < i { BaselineIsLocal(s, t, i, j + 1, start); }
  }

  /** A day's verdict depends on the day, on the seven days before it, on the floor and on the start: not on what came later or long before. */
  lemma VerdictIsCausal(s: seq<Point>, t: seq<Point>, i: nat, floor: real, start: string)
    requires i < |s| && i < |t| && forall k :: i - SPIKE_WINDOW <= k <= i && k >= 0 ==> s[k] == t[k]
    ensures VerdictOn(s, i, floor, start) == VerdictOn(t, i, floor, start)
  {
    BaselineIsLocal(s, t, i, Oldest(i), start);
  }

  // Monotonicity.

  /** A bigger day against the same baseline never stops firing. */
  lemma MoreStillFires(baseline: seq<real>, p: Point, more: real, floor: real)
    requires Judged(baseline, p, floor).fired && more >= p.x
    ensures Judged(baseline, p.(x := more), floor).fired
  {
    var m := Median(baseline);
    var sigma := Sigma(Deviations(baseline, m));
    if sigma > 0.0 { Dividing(p.x - m, more - m, sigma); }
  }

  lemma Dividing(x: real, y: real, d: real)
    requires x <= y && d > 0.0
    ensures x / d <= y / d
  {
    assert (x / d) * d == x && (y / d) * d == y;
  }

  /** Over the whole series: raising one day's value keeps that day fired. */
  lemma RaisingADayKeepsItFired(series: seq<Point>, i: nat, more: real, floor: real, start: string)
    requires i < |series| && more >= series[i].x && VerdictOn(series, i, floor, start).fired
    ensures VerdictOn(series[i := series[i].(x := more)], i, floor, start).fired
  {
    BaselineIsLocal(series, series[i := series[i].(x := more)], i, Oldest(i), start);
    MoreStillFires(Baseline(series, i, Oldest(i), start), series[i], more, floor);
  }

  // Robustness.

  function Tally(p: real -> bool, s: seq<real>): nat {
    if s == [] then 0 else Tally(p, s[..|s| - 1]) + if p(s[|s| - 1]) then 1 else 0
  }

  lemma TallyMore(p: real -> bool, s: seq<real>, x: real)
    ensures Tally(p, s + [x]) == Tally(p, s) + if p(x) then 1 else 0
  {
    assert (s + [x])[..|s|] == s;
  }

  lemma {:induction false} TallyInsert(p: real -> bool, x: real, s: seq<real>)
    ensures Tally(p, Insert(Below, x, s)) == Tally(p, s) + if p(x) then 1 else 0
    decreases |s|
  {
    if s == [] || !Below(x, s[|s| - 1]) {
      TallyMore(p, s, x);
    } else {
      TallyInsert(p, x, s[..|s| - 1]);
      TallyMore(p, Insert(Below, x, s[..|s| - 1]), s[|s| - 1]);
    }
  }

  lemma {:induction false} TallyConcat(p: real -> bool, a: seq<real>, b: seq<real>)
    ensures Tally(p, a + b) == Tally(p, a) + Tally(p, b)
    decreases |b|
  {
    if b == [] {
      assert a + b == a;
    } else {
      TallyConcat(p, a, b[..|b| - 1]);
      TallyMore(p, a + b[..|b| - 1], b[|b| - 1]);
      assert a + b == a + b[..|b| - 1] + [b[|b| - 1]];
    }
  }

  lemma {:induction false} TallyInsertAll(p: real -> bool, acc: seq<real>, s: seq<real>)
    ensures Tally(p, InsertAll(Below, acc, s)) == Tally(p, acc) + Tally(p, s)
    decreases |s|
  {
    if s != [] {
      TallyInsert(p, s[0], acc);
      TallyInsertAll(p, Insert(Below, s[0], acc), s[1..]);
      TallyConcat(p, [s[0]], s[1..]);
      assert s == [s[0]] + s[1..];
      TallyMore(p, [], s[0]);
      assert [] + [s[0]] == [s[0]];
    }
  }

  /** How many days differ. */
  function Differences(a: seq<real>, b: seq<real>): nat
    requires |a| == |b|
  {
    if a == [] then 0
    else var k := |a| - 1; Differences(a[..k], b[..k]) + if a[k] != b[k] then 1 else 0
  }

  /** More days have the property than differ, so one that has it is the same in both. */
  lemma {:induction false} OneUntouched(p: real -> bool, a: seq<real>, b: seq<real>) returns (k: nat)
    requires |a| == |b| && Tally(p, b) > Differences(a, b)
    ensures k < |a| && a[k] == b[k] && p(b[k])
  {
    var n := |a| - 1;
    if a[n] == b[n] && p(b[n]) {
      k := n;
    } else {
      k := OneUntouched(p, a[..n], b[..n]);
    }
  }

  function AtLeast(m: real): real -> bool { x => x >= m }
  function AtMost(m: real): real -> bool { x => x <= m }

  lemma {:induction false} TallyFrom(p: real -> bool, s: seq<real>, j: nat)
    requires j <= |s| && forall k :: j <= k < |s| ==> p(s[k])
    ensures Tally(p, s) >= |s| - j
    decreases |s|
  {
    if j < |s| { TallyFrom(p, s[..|s| - 1], j); }
  }

  lemma {:induction false} TallyUpto(p: real -> bool, s: seq<real>, j: nat)
    requires j <= |s| && forall k :: 0 <= k < j ==> p(s[k])
    ensures Tally(p, s) >= j
    decreases |s|
  {
    if s != [] { TallyUpto(p, s[..|s| - 1], if j < |s| then j else j - 1); }
  }

  lemma TallySorted(p: real -> bool, xs: seq<real>)
    ensures Tally(p, StableSort(Below, xs)) == Tally(p, xs)
  {
    TallyInsertAll(p, [], xs);
  }

  /** In an ordered list everything from the middle on is at least the median, and everything up to it at most. */
  lemma AroundTheMiddle(s: seq<real>, m: real)
    requires Ordered(Below, s) && s != []
    requires var mid := |s| / 2; m == if |s| % 2 == 1 then s[mid] else (s[mid - 1] + s[mid]) / 2.0
    ensures forall k :: |s| / 2 <= k < |s| ==> s[k] >= m
    ensures forall k :: 0 <= k < (|s| + 1) / 2 ==> s[k] <= m
  {
    var mid := |s| / 2;
    forall k | mid <= k < |s| ensures s[k] >= s[mid] {
      if k > mid { assert !Below(s[k], s[mid]); }
    }
    var last := (|s| + 1) / 2 - 1;
    forall k | 0 <= k <= last ensures s[k] <= s[last] {
      if k < last { assert !Below(s[last], s[k]); }
    }
    if last < mid { assert !Below(s[mid], s[last]); }
  }

  lemma MedianSorted(xs: seq<real>)
    requires xs != []
    ensures var s := StableSort(Below, xs);
      && (forall k :: |s| / 2 <= k < |s| ==> s[k] >= Median(xs))
      && (forall k :: 0 <= k < (|s| + 1) / 2 ==> s[k] <= Median(xs))
  {
    BelowIsStrictWeak();
    SortIsStable(Below, xs);
    AroundTheMiddle(StableSort(Below, xs), Median(xs));
  }

  lemma UpperHalf(xs: seq<real>, s: seq<real>, m: real)
    requires s == StableSort(Below, xs) && forall k :: |s| / 2 <= k < |s| ==> s[k] >= m
    ensures Tally(AtLeast(m), xs) >= |xs| - |xs| / 2
  {
    TallyFrom(AtLeast(m), s, |s| / 2);
    TallySorted(AtLeast(m), xs);
  }

  lemma LowerHalf(xs: seq<real>, s: seq<real>, m: real)
    requires s == StableSort(Below, xs) && forall k :: 0 <= k < (|s| + 1) / 2 ==> s[k] <= m
    ensures Tally(AtMost(m), xs) >= (|xs| + 1) / 2
  {
    TallyUpto(AtMost(m), s, (|s| + 1) / 2);
    TallySorted(AtMost(m), xs);
  }

  /** Half the values or more are at least the median, and half or more at most. */
  lemma MedianHalves(xs: seq<real>)
    requires xs != []
    ensures 2 * Tally(AtLeast(Median(xs)), xs) >= |xs| && 2 * Tally(AtMost(Median(xs)), xs) >= |xs|
  {
    MedianSorted(xs);
    UpperHalf(xs, StableSort(Below, xs), Median(xs));
    LowerHalf(xs, StableSort(Below, xs), Median(xs));
  }

  /** Changing fewer than half of the days leaves the median between two of the days that were not touched. */
  lemma MedianIsRobust(a: seq<real>, b: seq<real>) returns (low: nat, high: nat)
    requires |a| == |b| && a != [] && 2 * Differences(a, b) < |a|
    ensures low < |a| && high < |a| && a[low] == b[low] && a[high] == b[high]
    ensures a[low] <= Median(b) <= a[high]
  {
    MedianHalves(b);
    low := OneUntouched(AtMost(Median(b)), a, b);
    high := OneUntouched(AtLeast(Median(b)), a, b);
  }
}
