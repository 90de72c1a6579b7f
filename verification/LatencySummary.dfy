/** The average and the percentiles of the multiplexed session benchmark. */
module LatencySummary {
  import opened Arithmetic
  import opened Sorting

  /** What `toFixed(2)` prints: NaN, or a number of hundredths. */
  datatype Figure = NaN | Hundredths(n: int)

  datatype Summary = Summary(avg: Figure, p50: Figure, p90: Figure, p99: Figure)

  /** The nearest number of hundredths, and the one further from zero of two. */
  function ToFixed2(x: real): int {
    if x < 0.0 then -(-100.0 * x + 0.5).Floor else (100.0 * x + 0.5).Floor
  }

  lemma ToFixed2Monotone(x: real, y: real)
    requires x <= y
    ensures ToFixed2(x) <= ToFixed2(y)
  {
  }

  /** It is the one number of hundredths within half a hundredth of the number, or of
      two the one further from zero. */
  lemma ToFixed2Nearest(x: real, n: int)
    ensures n == ToFixed2(x) <==>
            && -0.5 <= 100.0 * x - n as real <= 0.5
            && (100.0 * x - n as real == 0.5 ==> x < 0.0)
            && (100.0 * x - n as real == -0.5 ==> x >= 0.0)
  {
  }

  /** `Math.floor(q / 100 * n)`. */
  function PercentIndex(q: nat, n: nat): nat {
    q * n / 100
  }

  /** A missing element parses to NaN. */
  function FigureAt(sorted: seq<real>, k: nat): Figure {
    if k < |sorted| then Hundredths(ToFixed2(sorted[k])) else NaN
  }

  function SumOfReals(s: seq<real>): real {
    if s == [] then 0.0 else SumOfReals(s[..|s| - 1]) + s[|s| - 1]
  }

  function Average(s: seq<real>): real
    requires s != []
  {
    SumOfReals(s) / |s| as real
  }

  function SummaryOf(s: seq<real>): Summary {
    var sorted := SortedCopy(s);
    Summary(if s == [] then NaN else Hundredths(ToFixed2(Average(sorted))),
            FigureAt(sorted, PercentIndex(50, |s|)),
            FigureAt(sorted, PercentIndex(90, |s|)),
            FigureAt(sorted, PercentIndex(99, |s|)))
  }

  /** `calculatePercentiles` sorts a copy and leaves its argument alone. */
  method CalculatePercentiles(latencies: array<real>) returns (r: Summary)
    ensures r == SummaryOf(latencies[..])
    ensures latencies[..] == old(latencies[..])
  {
    var n := latencies.Length;
    var sorted := new real[n](i requires 0 <= i < n reads latencies => latencies[i]);
    assert sorted[..] == latencies[..];
    SortInPlace(sorted);
    var sum := 0.0;
    for i := 0 to n
      invariant sum == SumOfReals(sorted[..i])
    {
      sum := sum + sorted[i];
      assert sorted[..i + 1][..i] == sorted[..i];
    }
    assert sorted[..n] == sorted[..];
    var avg := NaN;
    if n > 0 {
      avg := Hundredths(ToFixed2(sum / n as real));
    }
    r := Summary(avg, FigureAt(sorted[..], PercentIndex(50, n)),
                 FigureAt(sorted[..], PercentIndex(90, n)), FigureAt(sorted[..], PercentIndex(99, n)));
  }

  // ----- what the figures promise -----

  predicate Reported(q: nat) {
    q == 50 || q == 90 || q == 99
  }

  /** The sample a percentile picks. */
  function Picked(s: seq<real>, q: nat): real
    requires s != [] && Reported(q)
  {
    SortedCopy(s)[PercentIndex(q, |s|)]
  }

  /** At least floor(q*n/100)+1 samples are no larger than the picked one and at
      most floor(q*n/100) are smaller. */
  lemma {:induction false} RankGuarantee(s: seq<real>, q: nat)
    requires s != [] && Reported(q)
    ensures Picked(s, q) in s
    ensures Count(s, UpTo(Picked(s, q))) >= q * |s| / 100 + 1
    ensures Count(s, Below(Picked(s, q))) <= q * |s| / 100
  {
    var k := PercentIndex(q, |s|);
    var x := SortedCopy(s)[k];
    SortedCopyIs(s);
    assert x in multiset(SortedCopy(s));
    RankInSortedCopy(s, UpTo(x), k);
    RankInSortedCopy(s, Below(x), k);
  }

  lemma {:induction false} SumFromFront(x: real, s: seq<real>)
    ensures SumOfReals([x] + s) == x + SumOfReals(s)
  {
    if s == [] {
      assert ([x] + s)[..0] == [];
    } else {
      SumFromFront(x, s[..|s| - 1]);
      assert ([x] + s)[..|s|] == [x] + s[..|s| - 1];
    }
  }

  lemma {:induction false} SumInsert(x: real, s: seq<real>)
    ensures SumOfReals(Insert(x, s)) == x + SumOfReals(s)
  {
    if s == [] || x <= s[0] {
      SumFromFront(x, s);
    } else {
      SumInsert(x, s[1..]);
      SumFromFront(s[0], Insert(x, s[1..]));
      SumFromFront(s[0], s[1..]);
      assert s == [s[0]] + s[1..];
    }
  }

  lemma {:induction false} SumSorted(s: seq<real>)
    ensures SumOfReals(SortedCopy(s)) == SumOfReals(s)
  {
    if s != [] {
      SumSorted(s[1..]);
      SumInsert(s[0], SortedCopy(s[1..]));
      SumFromFront(s[0], s[1..]);
      assert s == [s[0]] + s[1..];
    }
  }

  /** The printed figures are those of the samples as they came in: their average and
      the picked ranks, to two decimals. */
  lemma FiguresOfSamples(s: seq<real>)
    requires s != []
    ensures SummaryOf(s) ==
            Summary(Hundredths(ToFixed2(Average(s))), Hundredths(ToFixed2(Picked(s, 50))),
                    Hundredths(ToFixed2(Picked(s, 90))), Hundredths(ToFixed2(Picked(s, 99))))
  {
    SumSorted(s);
  }

  /** The sample `x` is what a percentile of `q` percent picks: more than `q` percent of
      the samples are no larger, and no more than `q` percent are smaller. */
  predicate IsPercentile(s: seq<real>, q: nat, x: real) {
    x in s && 100 * Count(s, UpTo(x)) > q * |s| && 100 * Count(s, Below(x)) <= q * |s|
  }

  lemma {:induction false} PercentileIsUnique(s: seq<real>, q: nat, x: real, y: real)
    requires IsPercentile(s, q, x) && IsPercentile(s, q, y)
    ensures x == y
  {
    if x < y {
      CountGrows(s, UpTo(x), Below(y));
    } else if y < x {
      CountGrows(s, UpTo(y), Below(x));
    }
  }

  lemma {:induction false} CountGrows(s: seq<real>, p: real -> bool, q: real -> bool)
    requires forall x :: p(x) ==> q(x)
    ensures Count(s, p) <= Count(s, q)
  {
    if s != [] {
      CountGrows(s[1..], p, q);
    }
  }

  lemma {:induction false} PickedIsPercentile(s: seq<real>, q: nat)
    requires s != [] && Reported(q)
    ensures IsPercentile(s, q, Picked(s, q))
  {
    RankGuarantee(s, q);
  }

  /** The four printed figures, in terms of the samples alone: the average is their sum
      over their number, and each percentile is the one sample with that share of the
      samples around it; all to two decimals. */
  lemma {:induction false} FiguresAre(s: seq<real>, average: real, p50: real, p90: real, p99: real)
    requires s != [] && average * |s| as real == SumOfReals(s)
    requires IsPercentile(s, 50, p50) && IsPercentile(s, 90, p90) && IsPercentile(s, 99, p99)
    ensures SummaryOf(s) ==
            Summary(Hundredths(ToFixed2(average)), Hundredths(ToFixed2(p50)),
                    Hundredths(ToFixed2(p90)), Hundredths(ToFixed2(p99)))
  {
    FiguresOfSamples(s);
    AverageIs(s, average);
    PickedIsPercentile(s, 50);
    PickedIsPercentile(s, 90);
    PickedIsPercentile(s, 99);
    PercentileIsUnique(s, 50, p50, Picked(s, 50));
    PercentileIsUnique(s, 90, p90, Picked(s, 90));
    PercentileIsUnique(s, 99, p99, Picked(s, 99));
  }

  lemma {:induction false} AverageIs(s: seq<real>, average: real)
    requires s != [] && average * |s| as real == SumOfReals(s)
    ensures average == Average(s)
  {
    assert |s| as real > 0.0;
  }

  /** There are such samples. */
  lemma {:induction false} PercentilesExist(s: seq<real>) returns (p50: real, p90: real, p99: real)
    requires s != []
    ensures IsPercentile(s, 50, p50) && IsPercentile(s, 90, p90) && IsPercentile(s, 99, p99)
    ensures SummaryOf(s).p50 == Hundredths(ToFixed2(p50))
    ensures SummaryOf(s).p90 == Hundredths(ToFixed2(p90))
    ensures SummaryOf(s).p99 == Hundredths(ToFixed2(p99))
  {
    FiguresOfSamples(s);
    PickedIsPercentile(s, 50);
    PickedIsPercentile(s, 90);
    PickedIsPercentile(s, 99);
    p50, p90, p99 := Picked(s, 50), Picked(s, 90), Picked(s, 99);
  }

  lemma {:induction false} SumBounds(s: seq<real>, lo: real, hi: real)
    requires forall i :: 0 <= i < |s| ==> lo <= s[i] <= hi
    ensures lo * |s| as real <= SumOfReals(s) <= hi * |s| as real
  {
    if s != [] {
      var front := s[..|s| - 1];
      SumBounds(front, lo, hi);
      assert |s| as real == |front| as real + 1.0;
      assert lo * |s| as real == lo * |front| as real + lo;
      assert hi * |s| as real == hi * |front| as real + hi;
    }
  }

  lemma DivideBounds(sum: real, n: real, lo: real, hi: real)
    requires n > 0.0 && lo * n <= sum <= hi * n
    ensures lo <= sum / n <= hi
  {
    var a := sum / n;
    assert a * n == sum;
    assert (lo - a) * n == lo * n - a * n;
    assert (a - hi) * n == a * n - hi * n;
    if a < lo {
      PositiveProduct(lo - a, n);
    } else if a > hi {
      PositiveProduct(a - hi, n);
    }
  }

  lemma PercentilesInOrder(s: seq<real>)
    requires s != []
    ensures var r := SummaryOf(s);
            && r.p50.Hundredths? && r.p90.Hundredths? && r.p99.Hundredths?
            && r.p50.n <= r.p90.n <= r.p99.n
  {
    var t := SortedCopy(s);
    var i, j, k := PercentIndex(50, |s|), PercentIndex(90, |s|), PercentIndex(99, |s|);
    assert 0 <= i <= j <= k < |s|;
    SortedCopyIs(s);
    ToFixed2Monotone(t[i], t[j]);
    ToFixed2Monotone(t[j], t[k]);
  }

  lemma AverageInside(s: seq<real>, lo: real, hi: real)
    requires s != []
    requires forall i :: 0 <= i < |s| ==> lo <= s[i] <= hi
    ensures lo <= Average(s) <= hi
  {
    var n := |s| as real;
    SumBounds(s, lo, hi);
    DivideBounds(SumOfReals(s), n, lo, hi);
  }

  /** With a sample at all, every figure is a number; the percentiles are printed in
      order, and the average lies between the printed extremes. Without one, all four
      print NaN. */
  lemma FiguresInOrder(s: seq<real>)
    ensures var r := SummaryOf(s);
            if s == [] then r == Summary(NaN, NaN, NaN, NaN)
            else
              && r.avg.Hundredths? && r.p50.Hundredths? && r.p90.Hundredths? && r.p99.Hundredths?
              && r.p50.n <= r.p90.n <= r.p99.n
              && exists lo, hi :: lo in s && hi in s && ToFixed2(lo) <= r.avg.n <= ToFixed2(hi)
  {
    if s != [] {
      PercentilesInOrder(s);
      var t := SortedCopy(s);
      var lo, hi := t[0], t[|t| - 1];
      SortedCopyIs(s);
      AverageInside(t, lo, hi);
      ToFixed2Monotone(lo, Average(t));
      ToFixed2Monotone(Average(t), hi);
      assert lo in multiset(t) && hi in multiset(t);
      assert lo in s && hi in s;
    }
  }

  /** The figures do not depend on the order in which the samples came in. */
  lemma SummaryOrderIrrelevant(a: seq<real>, b: seq<real>)
    requires multiset(a) == multiset(b)
    ensures SummaryOf(a) == SummaryOf(b)
  {
    SortedCopyIs(a);
    SortedCopyIs(b);
    SortedUnique(SortedCopy(a), SortedCopy(b));
  }
}
