/**
 The nearest-rank percentile of a benchmark and the target check built on it.

 Times and percentages are exact reals; the program's floats are idealised.
 */
module Percentile {
  import opened Sorting

  /** A value, `None` for no values, or an `IndexError` when the rank is past the end. */
  datatype Result = Nothing | Value(value: real) | IndexError

  const TARGET_PERCENT: real := 95.0

  predicate Le(a: real, b: real) {
    a <= b
  }

  function Sorted(s: seq<real>): (r: seq<real>)
    ensures multiset(r) == multiset(s) && |r| == |s|
  {
    var r := Sort(s, Le);
    assert |r| == |multiset(r)| == |multiset(s)| == |s|;
    r
  }

  /** `math.ceil`. */
  function Ceil(x: real): (r: int)
    ensures r as real >= x > r as real - 1.0
  {
    -((-x).Floor)
  }

  /** pct percent of n. */
  function Share(pct: real, n: nat): real {
    pct / 100.0 * n as real
  }

  function Rank(pct: real, n: nat): nat {
    var c := Ceil(Share(pct, n));
    if c < 1 then 1 else c
  }

  /** `percentile`. */
  function Nearest(values: seq<real>, pct: real): Result {
    if values == [] then Nothing
    else
      var rank := Rank(pct, |values|);
      if rank > |values| then IndexError else Value(Sorted(values)[rank - 1])
  }

  /** How many values are below a limit, the limit itself included or not. */
  function Count(s: seq<real>, limit: real, inclusive: bool): (n: nat)
    ensures n <= |s|
  {
    if s == [] then 0
    else Count(s[..|s| - 1], limit, inclusive) + if Below(s[|s| - 1], limit, inclusive) then 1 else 0
  }

  predicate Below(x: real, limit: real, inclusive: bool) {
    x < limit || (inclusive && x == limit)
  }

  predicate Ascending(s: seq<real>) {
    forall i, j :: 0 <= i < j < |s| ==> s[i] <= s[j]
  }

  // ----- Sorting keeps counts --------------------------------------------------------------------

  lemma CountAppend(s: seq<real>, x: real, limit: real, inclusive: bool)
    ensures Count(s + [x], limit, inclusive) == Count(s, limit, inclusive) + if Below(x, limit, inclusive) then 1 else 0
  {
    assert (s + [x])[..|s|] == s;
  }

  lemma {:induction false} CountInsert(s: seq<real>, x: real, limit: real, inclusive: bool)
    ensures Count(Insert(s, x, Le), limit, inclusive) == Count(s + [x], limit, inclusive)
    decreases |s|
  {
    CountAppend(s, x, limit, inclusive);
    if s != [] && !Le(s[|s| - 1], x) {
      var n := |s| - 1;
      CountInsert(s[..n], x, limit, inclusive);
      CountAppend(s[..n], x, limit, inclusive);
      CountAppend(Insert(s[..n], x, Le), s[n], limit, inclusive);
    }
  }

  lemma {:induction false} CountSort(s: seq<real>, limit: real, inclusive: bool)
    ensures Count(Sort(s, Le), limit, inclusive) == Count(s, limit, inclusive)
  {
    if s != [] {
      var n := |s| - 1;
      CountSort(s[..n], limit, inclusive);
      CountInsert(Sort(s[..n], Le), s[n], limit, inclusive);
      CountAppend(Sort(s[..n], Le), s[n], limit, inclusive);
    }
  }

  lemma AscendingAppend(s: seq<real>, x: real)
    requires Ascending(s) && forall y :: y in multiset(s) ==> y <= x
    ensures Ascending(s + [x])
  {
    forall i | 0 <= i < |s| ensures s[i] <= x {
      assert s[i] in multiset(s);
    }
  }

  lemma {:induction false} InsertAscending(s: seq<real>, x: real)
    requires Ascending(s)
    ensures Ascending(Insert(s, x, Le))
    decreases |s|
  {
    if s == [] || Le(s[|s| - 1], x) {
      forall y | y in multiset(s) ensures y <= x {
        var i :| 0 <= i < |s| && s[i] == y;
      }
      AscendingAppend(s, x);
    } else {
      var n := |s| - 1;
      InsertAscending(s[..n], x);
      forall y | y in multiset(s[..n]) + multiset{x} ensures y <= s[n] {
        if y != x {
          var i :| 0 <= i < n && s[i] == y;
        }
      }
      AscendingAppend(Insert(s[..n], x, Le), s[n]);
    }
  }

  lemma {:induction false} SortAscending(s: seq<real>)
    ensures Ascending(Sort(s, Le))
  {
    if s != [] {
      var n := |s| - 1;
      SortAscending(s[..n]);
      InsertAscending(Sort(s[..n], Le), s[n]);
    }
  }

  lemma SameLeast(a: seq<real>, b: seq<real>)
    requires a != [] && b != [] && multiset(a) == multiset(b) && Ascending(a) && Ascending(b)
    ensures a[0] == b[0]
  {
    assert a[0] in multiset(b) && b[0] in multiset(a);
    var j :| 0 <= j < |b| && b[j] == a[0];
    var i :| 0 <= i < |a| && a[i] == b[0];
  }

  /** Sorted lists of the same values are the same list. */
  lemma {:induction false} AscendingIsUnique(a: seq<real>, b: seq<real>)
    requires multiset(a) == multiset(b) && Ascending(a) && Ascending(b)
    ensures a == b
    decreases |a|
  {
    assert |a| == |multiset(a)| == |multiset(b)| == |b|;
    if a != [] {
      SameLeast(a, b);
      SameTails(a, b);
      AscendingIsUnique(a[1..], b[1..]);
      assert a == [a[0]] + a[1..] && b == [b[0]] + b[1..];
    }
  }

  // ----- Counts in a sorted list -----------------------------------------------------------------

  /** Element k and everything before it are at or below it. */
  lemma {:induction false} AtLeast(s: seq<real>, k: nat)
    requires Ascending(s) && k < |s|
    ensures Count(s, s[k], true) >= k + 1
  {
    var n := |s| - 1;
    if k < n {
      AtLeast(s[..n], k);
    } else {
      AllBelow(s[..n], s[k]);
    }
  }

  lemma {:induction false} AllBelow(s: seq<real>, limit: real)
    requires forall i :: 0 <= i < |s| ==> s[i] <= limit
    ensures Count(s, limit, true) == |s|
  {
    if s != [] {
      AllBelow(s[..|s| - 1], limit);
    }
  }

  /** Only elements before k can be strictly below element k. */
  lemma {:induction false} AtMost(s: seq<real>, k: nat)
    requires Ascending(s) && k < |s|
    ensures Count(s, s[k], false) <= k
  {
    var n := |s| - 1;
    if k < n {
      AtMost(s[..n], k);
    }
  }

  lemma {:induction false} CountMonotone(s: seq<real>, low: real, inLow: bool, high: real, inHigh: bool)
    requires low < high || (low == high && (inLow ==> inHigh))
    ensures Count(s, low, inLow) <= Count(s, high, inHigh)
  {
    if s != [] {
      CountMonotone(s[..|s| - 1], low, inLow, high, inHigh);
    }
  }

  // ----- The percentile --------------------------------------------------------------------------

  /** An observed value with at least pct percent at or below it and less than pct percent strictly below it. */
  predicate IsPercentile(values: seq<real>, pct: real, v: real) {
    && v in values
    && Count(values, v, true) as real >= Share(pct, |values|)
    && (Count(values, v, false) as real) < Share(pct, |values|)
  }

  lemma ShareInRange(pct: real, n: nat)
    requires 0.0 < pct <= 100.0 && n > 0
    ensures 0.0 < Share(pct, n) <= n as real
  {
    var f, m := pct / 100.0, n as real;
    assert 0.0 < f <= 1.0;
    assert f * m > 0.0;
    assert (1.0 - f) * m >= 0.0;
  }

  lemma RankInRange(pct: real, n: nat)
    requires 0.0 < pct <= 100.0 && n > 0
    ensures 1 <= Rank(pct, n) <= n
    ensures Rank(pct, n) as real >= Share(pct, n) > Rank(pct, n) as real - 1.0
  {
    ShareInRange(pct, n);
  }

  lemma NearestIsPercentile(values: seq<real>, pct: real)
    requires values != [] && 0.0 < pct <= 100.0
    ensures Nearest(values, pct).Value? && IsPercentile(values, pct, Nearest(values, pct).value)
  {
    var s, k := Sorted(values), Rank(pct, |values|) - 1;
    RankInRange(pct, |values|);
    SortAscending(values);
    AtLeast(s, k);
    AtMost(s, k);
    CountSort(values, s[k], true);
    CountSort(values, s[k], false);
    assert s[k] in multiset(s);
  }

  lemma PercentileIsUnique(values: seq<real>, pct: real, v: real, w: real)
    requires IsPercentile(values, pct, v) && IsPercentile(values, pct, w)
    ensures v == w
  {
    if v < w {
      CountMonotone(values, v, true, w, false);
    } else if w < v {
      CountMonotone(values, w, true, v, false);
    }
  }

  /** The function computes the one value that the definition of a percentile allows. */
  lemma NearestExactlyWhenPercentile(values: seq<real>, pct: real, v: real)
    requires values != [] && 0.0 < pct <= 100.0
    ensures Nearest(values, pct) == Value(v) <==> IsPercentile(values, pct, v)
  {
    NearestIsPercentile(values, pct);
    if IsPercentile(values, pct, v) {
      PercentileIsUnique(values, pct, v, Nearest(values, pct).value);
    }
  }

  lemma NotPositive(f: real, m: real)
    requires f <= 0.0 <= m
    ensures f * m <= 0.0
  {
  }

  /** Outside 0 < pct <= 100: nothing below, an error above. */
  lemma FailsExactlyAboveHundred(values: seq<real>, pct: real)
    requires values != []
    ensures Nearest(values, pct) == IndexError <==> Share(pct, |values|) > |values| as real
    ensures pct <= 0.0 ==> Nearest(values, pct) == Value(Sorted(values)[0])
  {
    if pct <= 0.0 {
      NotPositive(pct / 100.0, |values| as real);
    }
  }

  /** The order in which the runs were measured does not matter. */
  lemma OrderDoesNotMatter(a: seq<real>, b: seq<real>, pct: real)
    requires multiset(a) == multiset(b)
    ensures Nearest(a, pct) == Nearest(b, pct)
  {
    assert |a| == |multiset(a)| == |multiset(b)| == |b|;
    SortAscending(a);
    SortAscending(b);
    AscendingIsUnique(Sorted(a), Sorted(b));
  }

  lemma BetweenExtremes(values: seq<real>, pct: real, low: real, high: real)
    requires values != [] && 0.0 < pct <= 100.0
    requires forall v :: v in values ==> low <= v <= high
    ensures Nearest(values, pct).Value? && low <= Nearest(values, pct).value <= high
  {
    NearestIsPercentile(values, pct);
  }

  /**
   At 95 percent a rounded product does no harm: a share computed less than a twentieth too low, and not
   above the next whole number, has the exact rank.
   */
  lemma NinetyFifthRankAllowsRounding(n: nat, computed: real)
    requires Share(TARGET_PERCENT, n) - 0.05 < computed <= Ceil(Share(TARGET_PERCENT, n)) as real
    ensures Ceil(computed) == Ceil(Share(TARGET_PERCENT, n))
  {
    var c := Ceil(Share(TARGET_PERCENT, n));
    assert Share(TARGET_PERCENT, n) * 20.0 == (19 * n) as real;
    assert 19 * n > 20 * (c - 1);
    assert 19 * n >= 20 * (c - 1) + 1;
  }

  // ----- The target ------------------------------------------------------------------------------

  datatype Summary = Summary(runs: nat, ok: nat, failed: nat, p95: Result, meetsTarget: bool)

  /** `summarize`, without the statistics that only describe. */
  function Summarize(seconds: seq<real>, failures: seq<string>, target: real): Summary {
    var p95 := Nearest(seconds, TARGET_PERCENT);
    Summary(|seconds| + |failures|, |seconds|, |failures|, p95,
            seconds != [] && failures == [] && p95.Value? && p95.value < target)
  }

  /**
   The summary counts the runs that succeeded, those that failed and both, and its 95th percentile is that of
   the successful ones: absent without any, never an error, else the value the definition allows.
   */
  lemma SummaryDescribesRuns(seconds: seq<real>, failures: seq<string>, target: real)
    ensures var s := Summarize(seconds, failures, target);
            && s.ok == |seconds| && s.failed == |failures| && s.runs == s.ok + s.failed
            && (s.p95 == Nothing <==> s.ok == 0) && s.p95 != IndexError
            && (s.p95.Value? ==> IsPercentile(seconds, 95.0, s.p95.value))
            && (s.meetsTarget ==> s.failed == 0 && s.p95.Value? && s.p95.value < target)
  {
    if seconds != [] {
      NearestIsPercentile(seconds, TARGET_PERCENT);
    }
  }

  /** The target is met exactly when some run was made, none failed, and 95% of them were faster than it. */
  lemma TargetMetExactlyWhen(seconds: seq<real>, failures: seq<string>, target: real)
    ensures Summarize(seconds, failures, target).meetsTarget <==>
            (seconds != [] && failures == [] &&
             Count(seconds, target, false) as real >= Share(TARGET_PERCENT, |seconds| + |failures|))
  {
    if seconds != [] {
      NearestIsPercentile(seconds, TARGET_PERCENT);
      var p95 := Nearest(seconds, TARGET_PERCENT).value;
      if p95 < target {
        CountMonotone(seconds, p95, true, target, false);
      } else {
        CountMonotone(seconds, target, false, p95, false);
      }
    }
  }
}
