/** Latency statistics of one group of results, in exact arithmetic. */
module LatencySummary {
  import opened Ordering

  /** A recorded duration: a number, or a value that is not one (absent, text, a flag). */
  datatype Sample = Number(value: real) | NotANumber

  datatype Summary =
    | NoSamples
    | Stats(count: nat, min: real, max: real, mean: real, median: real, p95: real, p99: real)

  function RealLe(): (real, real) -> bool {
    (a: real, b: real) => a <= b
  }

  function Numeric(values: seq<Sample>): (r: seq<real>)
    ensures forall x :: x in r ==> x >= 0.0
  {
    if values == [] then []
    else if values[0].Number? && values[0].value >= 0.0 then [values[0].value] + Numeric(values[1..])
    else Numeric(values[1..])
  }

  function Sum(v: seq<real>): real {
    if v == [] then 0.0 else v[0] + Sum(v[1..])
  }

  /** Quantise to a thousandth; halves go up. The argument is never negative here. */
  function Round(x: real): real {
    (x * 1000.0 + 0.5).Floor as real / 1000.0
  }

  function Ceil(a: nat, b: nat): (r: nat)
    requires b > 0
    ensures r * b >= a && (r == 0 || (r - 1) * b < a)
  {
    (a + b - 1) / b
  }

  function Rank(n: nat, percentile: nat): (r: nat)
    requires n > 0
    ensures 1 <= r <= n
  {
    var c := Ceil(percentile * n, 100);
    var m := if c < n then c else n;
    if m < 1 then 1 else m
  }

  function NearestRank(sorted: seq<real>, percentile: nat): real
    requires sorted != []
  {
    sorted[Rank(|sorted|, percentile) - 1]
  }

  function Median(sorted: seq<real>): real
    requires sorted != []
  {
    var n := |sorted|;
    if n % 2 == 1 then sorted[n / 2] else (sorted[n / 2 - 1] + sorted[n / 2]) / 2.0
  }

  function LatencySummary(values: seq<Sample>): Summary {
    Summarise(Sort(Numeric(values), RealLe()))
  }

  /** The statistics of a sorted list. */
  function Summarise(numeric: seq<real>): Summary {
    var n := |numeric|;
    if n == 0 then NoSamples
    else Stats(n, Round(numeric[0]), Round(numeric[n - 1]), Round(Sum(numeric) / n as real),
               Round(Median(numeric)), Round(NearestRank(numeric, 95)),
               Round(NearestRank(numeric, 99)))
  }

  // ---- what the numbers mean ----

  function CountAtMost(v: seq<real>, x: real): (c: nat)
    ensures c <= |v|
  {
    if v == [] then 0 else (if v[0] <= x then 1 else 0) + CountAtMost(v[1..], x)
  }

  /** x is a sample that covers p percent of the samples, and no smaller sample does. */
  ghost predicate LeastCovering(v: seq<real>, p: nat, x: real) {
    && x in v
    && CountAtMost(v, x) * 100 >= p * |v|
    && (forall y :: y in v && y < x ==> CountAtMost(v, y) * 100 < p * |v|)
  }

  lemma {:induction false} CountSplit(a: seq<real>, b: seq<real>, x: real)
    ensures CountAtMost(a + b, x) == CountAtMost(a, x) + CountAtMost(b, x)
  {
    if a == [] {
      assert a + b == b;
    } else {
      assert (a + b)[1..] == a[1..] + b;
      CountSplit(a[1..], b, x);
    }
  }

  lemma {:induction false} CountAll(v: seq<real>, x: real)
    requires forall y :: y in v ==> y <= x
    ensures CountAtMost(v, x) == |v|
  {
    if v != [] {
      assert v[0] in v;
      assert forall y :: y in v[1..] ==> y in v;
      CountAll(v[1..], x);
    }
  }

  lemma {:induction false} CountNone(v: seq<real>, x: real)
    requires forall y :: y in v ==> x < y
    ensures CountAtMost(v, x) == 0
  {
    if v != [] {
      assert v[0] in v;
      assert forall y :: y in v[1..] ==> y in v;
      CountNone(v[1..], x);
    }
  }

  /** In a sorted list the first k samples are at most x, when x is one of the later ones. */
  lemma CountPrefix(v: seq<real>, k: nat, x: real)
    requires Sorted(v, RealLe()) && k <= |v|
    ensures k > 0 && v[k - 1] <= x ==> CountAtMost(v, x) >= k
    ensures k < |v| && x < v[k] ==> CountAtMost(v, x) <= k
  {
    var a, b := v[..k], v[k..];
    assert v == a + b;
    CountSplit(a, b, x);
    SortedAround(v, k);
    if k > 0 && v[k - 1] <= x {
      CountAll(a, x);
    }
    if k < |v| && x < v[k] {
      CountNone(b, x);
    }
  }

  lemma SortedAround(v: seq<real>, k: nat)
    requires Sorted(v, RealLe()) && k <= |v|
    ensures k > 0 ==> forall y :: y in v[..k] ==> y <= v[k - 1]
    ensures k < |v| ==> forall y :: y in v[k..] ==> v[k] <= y
  {
    if k > 0 {
      assert forall i :: 0 <= i < k - 1 ==> RealLe()(v[i], v[k - 1]);
    }
    if k < |v| {
      assert forall i :: k < i < |v| ==> RealLe()(v[k], v[i]);
    }
  }

  /** The nearest-rank percentile is the least sample covering p percent of the samples. */
  lemma NearestRankLeastCovering(v: seq<real>, p: nat)
    requires v != [] && Sorted(v, RealLe()) && 1 <= p <= 100
    ensures LeastCovering(v, p, NearestRank(v, p))
  {
    var n := |v|;
    var r := Rank(n, p);
    RankBounds(n, p);
    var x := v[r - 1];
    CountPrefix(v, r, x);
    forall y | y in v && y < x ensures CountAtMost(v, y) * 100 < p * n {
      CountPrefix(v, r - 1, y);
    }
  }

  lemma RankBounds(n: nat, p: nat)
    requires n > 0 && 1 <= p <= 100
    ensures Rank(n, p) * 100 >= p * n
    ensures (Rank(n, p) - 1) * 100 < p * n
  {
    assert 0 < p * n <= 100 * n;
    CeilWithin(p * n, n);
  }

  lemma CeilWithin(k: nat, n: nat)
    requires 0 < k <= 100 * n
    ensures 1 <= Ceil(k, 100) <= n
  {
  }

  lemma RoundMonotone(x: real, y: real)
    requires x <= y
    ensures Round(x) <= Round(y)
  {
    assert (x * 1000.0 + 0.5).Floor <= (y * 1000.0 + 0.5).Floor;
  }

  /** Rounding moves a value by at most half a thousandth. */
  lemma RoundClose(x: real)
    ensures -0.0005 <= Round(x) - x <= 0.0005
  {
    var f := (x * 1000.0 + 0.5).Floor as real;
    assert f <= x * 1000.0 + 0.5 < f + 1.0;
  }

  lemma {:induction false} SumBounds(v: seq<real>, lo: real, hi: real)
    requires forall i :: 0 <= i < |v| ==> lo <= v[i] <= hi
    ensures lo * |v| as real <= Sum(v) <= hi * |v| as real
  {
    if v != [] {
      SumBounds(v[1..], lo, hi);
      assert |v| as real == |v[1..]| as real + 1.0;
      assert lo * |v| as real == lo * |v[1..]| as real + lo;
      assert hi * |v| as real == hi * |v[1..]| as real + hi;
    }
  }

  lemma MeanBounds(v: seq<real>)
    requires v != [] && Sorted(v, RealLe())
    ensures v[0] <= Sum(v) / |v| as real <= v[|v| - 1]
  {
    var n := |v|;
    forall i | 0 <= i < n ensures v[0] <= v[i] <= v[n - 1] {
      assert i > 0 ==> RealLe()(v[0], v[i]);
      assert i < n - 1 ==> RealLe()(v[i], v[n - 1]);
    }
    SumBounds(v, v[0], v[n - 1]);
    DivBounds(v[0], Sum(v), v[n - 1], n as real);
  }

  lemma DivBounds(lo: real, s: real, hi: real, n: real)
    requires n > 0.0 && lo * n <= s <= hi * n
    ensures lo <= s / n <= hi
  {
    assert s / n * n == s;
  }

  lemma QuantileOrder(v: seq<real>)
    requires v != [] && Sorted(v, RealLe())
    ensures v[0] <= Median(v) <= NearestRank(v, 95) <= NearestRank(v, 99) <= v[|v| - 1]
  {
    var n := |v|;
    RankBounds(n, 95);
    RankBounds(n, 99);
    var i, j := Rank(n, 95) - 1, Rank(n, 99) - 1;
    assert n / 2 <= i <= j;
    forall a, b | 0 <= a <= b < n ensures v[a] <= v[b] {
      assert a < b ==> RealLe()(v[a], v[b]);
    }
    assert v[0] <= v[n / 2] <= v[i];
    if n % 2 == 0 {
      assert v[0] <= v[n / 2 - 1] <= v[n / 2];
    }
  }

  lemma SortedNumeric(values: seq<Sample>) returns (v: seq<real>)
    ensures v == Sort(Numeric(values), RealLe())
    ensures Sorted(v, RealLe()) && multiset(v) == multiset(Numeric(values))
    ensures |v| == |Numeric(values)|
  {
    v := Sort(Numeric(values), RealLe());
    SortElements(Numeric(values), RealLe());
    SortSorted(Numeric(values), RealLe());
  }

  /** The published statistics stay ordered after rounding. */
  lemma SummaryOrdered(values: seq<Sample>)
    ensures var s := LatencySummary(values);
            if Numeric(values) == [] then s == NoSamples
            else s.Stats? && s.count == |Numeric(values)|
                 && s.min <= s.median <= s.p95 <= s.p99 <= s.max && s.min <= s.mean <= s.max
  {
    var v := SortedNumeric(values);
    SummariseOrdered(v);
  }

  lemma SummariseOrdered(v: seq<real>)
    requires Sorted(v, RealLe())
    ensures var s := Summarise(v);
            if v == [] then s == NoSamples
            else s.Stats? && s.count == |v|
                 && s.min <= s.median <= s.p95 <= s.p99 <= s.max && s.min <= s.mean <= s.max
  {
    if v != [] {
      RoundedQuantiles(v);
      RoundedMean(v);
    }
  }

  lemma RoundedQuantiles(v: seq<real>)
    requires v != [] && Sorted(v, RealLe())
    ensures Round(v[0]) <= Round(Median(v)) <= Round(NearestRank(v, 95))
    ensures Round(NearestRank(v, 95)) <= Round(NearestRank(v, 99)) <= Round(v[|v| - 1])
  {
    QuantileOrder(v);
    RoundMonotone(v[0], Median(v));
    RoundMonotone(Median(v), NearestRank(v, 95));
    RoundMonotone(NearestRank(v, 95), NearestRank(v, 99));
    RoundMonotone(NearestRank(v, 99), v[|v| - 1]);
  }

  lemma RoundedMean(v: seq<real>)
    requires v != [] && Sorted(v, RealLe())
    ensures Round(v[0]) <= Round(Sum(v) / |v| as real) <= Round(v[|v| - 1])
  {
    MeanBounds(v);
    RoundMonotone(v[0], Sum(v) / |v| as real);
    RoundMonotone(Sum(v) / |v| as real, v[|v| - 1]);
  }

  /** The published values are the roundings of the extreme samples, of the arithmetic
      mean, of the middle, and of the least samples covering 95 and 99 percent. */
  lemma SummaryMeaning(values: seq<Sample>, s: Summary) returns (v: seq<real>)
    requires s == LatencySummary(values) && s.Stats?
    ensures multiset(v) == multiset(Numeric(values)) && |v| == s.count > 0
    ensures forall x :: x in v ==> v[0] <= x <= v[|v| - 1]
    ensures s.min == Round(v[0]) && s.max == Round(v[|v| - 1])
    ensures s.mean == Round(Sum(v) / |v| as real)
    ensures exists x, y :: LeastCovering(v, 95, x) && s.p95 == Round(x)
                           && LeastCovering(v, 99, y) && s.p99 == Round(y)
    ensures exists m :: s.median == Round(m) && 2 * CountAtMost(v, m) >= |v|
                        && 2 * CountAtLeast(v, m) >= |v|
  {
    v := SortedNumeric(values);
    var n := |v|;
    forall x | x in v ensures v[0] <= x <= v[n - 1] {
      var i :| 0 <= i < n && v[i] == x;
      assert i > 0 ==> RealLe()(v[0], v[i]);
      assert i < n - 1 ==> RealLe()(v[i], v[n - 1]);
    }
    NearestRankLeastCovering(v, 95);
    NearestRankLeastCovering(v, 99);
    MedianSplits(v);
    assert s.median == Round(Median(v));
    assert s.p95 == Round(NearestRank(v, 95)) && s.p99 == Round(NearestRank(v, 99));
  }

  function CountAtLeast(v: seq<real>, x: real): nat {
    if v == [] then 0 else (if v[0] >= x then 1 else 0) + CountAtLeast(v[1..], x)
  }

  lemma {:induction false} CountAtLeastSuffix(v: seq<real>, k: nat, x: real)
    requires Sorted(v, RealLe()) && k < |v| && x <= v[k]
    ensures CountAtLeast(v, x) >= |v| - k
  {
    assert forall i, j :: 0 <= i < j < |v[1..]| ==> RealLe()(v[1..][i], v[1..][j]);
    if k > 0 {
      CountAtLeastSuffix(v[1..], k - 1, x);
    } else if |v| > 1 {
      assert RealLe()(v[0], v[1]);
      CountAtLeastSuffix(v[1..], 0, x);
    }
  }

  /** At least half of the samples lie on either side of the median. */
  lemma MedianSplits(v: seq<real>)
    requires v != [] && Sorted(v, RealLe())
    ensures 2 * CountAtMost(v, Median(v)) >= |v| && 2 * CountAtLeast(v, Median(v)) >= |v|
  {
    var n := |v|;
    if n % 2 == 1 {
      CountPrefix(v, n / 2 + 1, Median(v));
      CountAtLeastSuffix(v, n / 2, Median(v));
    } else {
      assert RealLe()(v[n / 2 - 1], v[n / 2]);
      CountPrefix(v, n / 2, Median(v));
      CountAtLeastSuffix(v, n / 2, Median(v));
    }
  }
}
