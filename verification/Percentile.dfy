/** The interpolated percentile of the session pool benchmark. */
module Percentile {
  import opened Arithmetic
  import opened Sorting

  /** A JavaScript result: `undefined`, NaN, or a number. */
  datatype Outcome = Undefined | NaN | Number(r: real)

  /** Where the fraction `p` falls in a list of `n` elements. */
  function Position(n: nat, p: real): real {
    (n - 1) as real * p
  }

  function Blend(x: real, y: real, t: real): real {
    x + t * (y - x)
  }

  /** The branches on what lies at `base` and `base + 1`; a missing element is
      `undefined`, and arithmetic on it yields NaN. */
  function Interpolate(sorted: seq<real>, pos: real): Outcome {
    var base := pos.Floor;
    if 0 <= base + 1 < |sorted| then
      if base >= 0 then Number(Blend(sorted[base], sorted[base + 1], pos - base as real)) else NaN
    else if 0 <= base < |sorted| then Number(sorted[base])
    else Undefined
  }

  function PercentileOf(s: seq<real>, p: real): Outcome {
    Interpolate(SortedCopy(s), Position(|s|, p))
  }

  /** `percentile` sorts its argument in place. */
  method Percentile(arr: array<real>, p: real) returns (r: Outcome)
    modifies arr
    ensures arr[..] == SortedCopy(old(arr[..]))
    ensures r == PercentileOf(old(arr[..]), p)
  {
    SortInPlace(arr);
    var pos := Position(arr.Length, p);
    var base := pos.Floor;
    var rest := pos - base as real;
    if 0 <= base + 1 < arr.Length {
      if base < 0 {
        return NaN;
      }
      return Number(Blend(arr[base], arr[base + 1], rest));
    }
    if 0 <= base < arr.Length {
      return Number(arr[base]);
    }
    return Undefined;
  }

  // ----- linear interpolation on a sorted list -----

  function Lerp(s: seq<real>, pos: real): real
    requires 0.0 <= pos < |s| as real
  {
    var base := pos.Floor;
    if base + 1 < |s| then Blend(s[base], s[base + 1], pos - base as real) else s[base]
  }

  lemma BlendUpper(x: real, y: real, y': real, t: real)
    requires y <= y' && 0.0 <= t
    ensures Blend(x, y, t) <= Blend(x, y', t)
  {
    ScaleMonotone(y - x, y' - x, t);
  }

  lemma BlendAt(x: real, y: real, t: real, z: real)
    requires z == y - x
    ensures Blend(x, y, t) == x + t * z
  {
  }

  lemma BlendLower(x: real, x': real, y: real, t: real)
    requires x <= x' && 0.0 <= t <= 1.0
    ensures Blend(x, y, t) <= Blend(x', y, t)
  {
    var z, z', d := y - x, y - x', x' - x;
    calc {
      Blend(x, y, t);
      { BlendAt(x, y, t, z); }
      x + t * z;
      { Distribute(t, z', d, z); }
      x + t * z' + t * d;
    <= { Shrinks(t, d); }
      x + t * z' + d;
      x' + t * z';
      { BlendAt(x', y, t, z'); }
      Blend(x', y, t);
    }
  }

  lemma BlendPointwise(x: real, y: real, x': real, y': real, t: real)
    requires x <= x' && y <= y' && 0.0 <= t <= 1.0
    ensures Blend(x, y, t) <= Blend(x', y', t)
  {
    BlendUpper(x, y, y', t);
    BlendLower(x, x', y', t);
  }

  lemma BlendBetween(x: real, y: real, t: real)
    requires x <= y && 0.0 <= t <= 1.0
    ensures x <= Blend(x, y, t) <= y
  {
    var z := y - x;
    BlendAt(x, y, t, z);
    Shrinks(t, z);
  }

  lemma BlendMonotone(x: real, y: real, t: real, t': real)
    requires x <= y && t <= t'
    ensures Blend(x, y, t) <= Blend(x, y, t')
  {
    ScaleMonotone(t, t', y - x);
  }

  /** The value lies between the two elements around the position. */
  lemma LerpBetween(s: seq<real>, pos: real)
    requires Sorted(s) && 0.0 <= pos < |s| as real
    ensures s[pos.Floor] <= Lerp(s, pos)
    ensures Lerp(s, pos) <= s[if pos.Floor + 1 < |s| then pos.Floor + 1 else pos.Floor]
  {
    var base := pos.Floor;
    if base + 1 < |s| {
      BlendBetween(s[base], s[base + 1], pos - base as real);
    }
  }

  lemma LerpMonotone(s: seq<real>, x: real, y: real)
    requires Sorted(s) && 0.0 <= x <= y < |s| as real
    ensures Lerp(s, x) <= Lerp(s, y)
  {
    if x.Floor == y.Floor {
      var base := x.Floor;
      if base + 1 < |s| {
        BlendMonotone(s[base], s[base + 1], x - base as real, y - base as real);
      }
    } else {
      LerpBetween(s, x);
      LerpBetween(s, y);
      assert x.Floor + 1 <= y.Floor;
    }
  }

  lemma LerpPointwise(a: seq<real>, b: seq<real>, pos: real)
    requires Pointwise(a, b) && 0.0 <= pos < |a| as real
    ensures Lerp(a, pos) <= Lerp(b, pos)
  {
    var base := pos.Floor;
    if base + 1 < |a| {
      BlendPointwise(a[base], a[base + 1], b[base], b[base + 1], pos - base as real);
    }
  }

  ghost predicate KeepsBlends(f: real -> real) {
    forall x, y, t :: f(Blend(x, y, t)) == Blend(f(x), f(y), t)
  }

  lemma LerpMap(s: seq<real>, pos: real, f: real -> real)
    requires 0.0 <= pos < |s| as real && KeepsBlends(f)
    ensures Lerp(Map(s, f), pos) == f(Lerp(s, pos))
  {
  }

  lemma InterpolateIsLerp(s: seq<real>, pos: real)
    requires 0.0 <= pos < |s| as real
    ensures Interpolate(s, pos) == Number(Lerp(s, pos))
  {
  }

  // ----- positions -----

  lemma PositionSign(n: nat, p: real)
    requires n > 1
    ensures Position(n, p) >= 0.0 <==> p >= 0.0
  {
    var m := (n - 1) as real;
    if p >= 0.0 {
      ScaleMonotone(0.0, p, m);
    } else {
      assert m * (-p) > 0.0;
    }
  }

  lemma PositionMonotone(n: nat, p: real, q: real)
    requires n > 0 && p <= q
    ensures Position(n, p) <= Position(n, q)
  {
    ScaleMonotone(p, q, (n - 1) as real);
  }

  lemma PositionInRange(n: nat, p: real)
    requires n > 0 && 0.0 <= p <= 1.0
    ensures 0.0 <= Position(n, p) < n as real
  {
    PositionMonotone(n, 0.0, p);
    PositionMonotone(n, p, 1.0);
    assert Position(n, 0.0) == 0.0 && Position(n, 1.0) == (n - 1) as real;
  }

  lemma PositionAt(n: nat, pos: real)
    requires n > 1
    ensures Position(n, pos / (n - 1) as real) == pos
  {
  }

  // ----- what the percentile promises -----

  lemma InterpolateNumberIff(s: seq<real>, pos: real)
    ensures Interpolate(s, pos).Number? <==> 0.0 <= pos < |s| as real
  {
  }

  /** It is a number exactly for a list that is not empty and a fraction whose
      position falls inside it, which every fraction in [0, 1] does: no element past
      either end enters the result. */
  lemma NumberIff(s: seq<real>, p: real)
    ensures PercentileOf(s, p).Number? <==>
            s != [] && (|s| == 1 || (0.0 <= p && (|s| - 1) as real * p < |s| as real))
    ensures s != [] && 0.0 <= p <= 1.0 ==> PercentileOf(s, p).Number?
  {
    InterpolateNumberIff(SortedCopy(s), Position(|s|, p));
    if |s| == 1 {
      assert Position(1, p) == 0.0;
    } else if |s| > 1 {
      PositionSign(|s|, p);
    }
    if s != [] && 0.0 <= p <= 1.0 {
      PositionInRange(|s|, p);
    }
  }

  /** What is no number: an empty list, a position past the last element and one more
      than an element before the first give `undefined`; a position up to one element
      before the first gives NaN. */
  lemma {:induction false} NoNumber(s: seq<real>, p: real)
    ensures var pos := (|s| - 1) as real * p;
            && (PercentileOf(s, p) == NaN <==> s != [] && -1.0 <= pos < 0.0)
            && (PercentileOf(s, p) == Undefined <==> s == [] || pos >= |s| as real || pos < -1.0)
  {
    InterpolateNothing(SortedCopy(s), Position(|s|, p));
  }

  lemma InterpolateNothing(s: seq<real>, pos: real)
    ensures Interpolate(s, pos) == NaN <==> s != [] && -1.0 <= pos < 0.0
    ensures Interpolate(s, pos) == Undefined <==> s == [] || pos >= |s| as real || pos < -1.0
  {
  }

  /** Monotone in the fraction, also from one pair of elements to the next. */
  lemma {:induction false} MonotoneInFraction(s: seq<real>, p: real, q: real)
    requires s != [] && 0.0 <= p <= q <= 1.0
    ensures PercentileOf(s, p).Number? && PercentileOf(s, q).Number?
    ensures PercentileOf(s, p).r <= PercentileOf(s, q).r
  {
    var x, y := Position(|s|, p), Position(|s|, q);
    PositionInRange(|s|, p);
    PositionInRange(|s|, q);
    PositionMonotone(|s|, p, q);
    InterpolateIsLerp(SortedCopy(s), x);
    InterpolateIsLerp(SortedCopy(s), y);
    SortedCopyIs(s);
    LerpMonotone(SortedCopy(s), x, y);
  }

  /** Raising elements raises the percentile. */
  lemma MonotoneInElements(a: seq<real>, b: seq<real>, p: real)
    requires a != [] && Pointwise(a, b) && 0.0 <= p <= 1.0
    ensures PercentileOf(a, p).Number? && PercentileOf(b, p).Number?
    ensures PercentileOf(a, p).r <= PercentileOf(b, p).r
  {
    var x := Position(|a|, p);
    PositionInRange(|a|, p);
    InterpolateIsLerp(SortedCopy(a), x);
    InterpolateIsLerp(SortedCopy(b), x);
    OrderStatisticsMonotone(a, b);
    LerpPointwise(SortedCopy(a), SortedCopy(b), x);
  }

  /** It lies between the smallest and the largest element. */
  lemma BetweenMinAndMax(s: seq<real>, p: real)
    requires s != [] && 0.0 <= p <= 1.0
    ensures PercentileOf(s, p).Number?
    ensures exists x, y :: x in s && y in s && x <= PercentileOf(s, p).r <= y
  {
    var t, pos := SortedCopy(s), Position(|s|, p);
    PositionInRange(|s|, p);
    InterpolateIsLerp(t, pos);
    SortedCopyIs(s);
    LerpBetween(t, pos);
    var x, y := t[pos.Floor], t[if pos.Floor + 1 < |t| then pos.Floor + 1 else pos.Floor];
    assert x in multiset(t) && y in multiset(t);
    assert x in s && y in s;
  }

  /** At k/(n-1) it is the k-th smallest element: at most k elements are below it
      and more than k are not above it. */
  lemma {:induction false} AtAnElement(s: seq<real>, k: nat)
    requires |s| > 1 && k < |s|
    ensures var r := PercentileOf(s, k as real / (|s| - 1) as real);
            && r == Number(SortedCopy(s)[k])
            && Count(s, Below(r.r)) <= k < Count(s, UpTo(r.r))
  {
    PositionAt(|s|, k as real);
    InterpolateAtElement(SortedCopy(s), k);
    var x := SortedCopy(s)[k];
    RankInSortedCopy(s, Below(x), k);
    RankInSortedCopy(s, UpTo(x), k);
  }

  /** Between neighbours it is the straight line from one to the other, both ends
      included: no jump anywhere. */
  lemma {:induction false} LinearBetweenElements(s: seq<real>, p: real, k: nat, t: real)
    requires k + 1 < |s| && 0.0 <= t <= 1.0
    requires (|s| - 1) as real * p == k as real + t
    ensures var x, y := SortedCopy(s)[k], SortedCopy(s)[k + 1];
            PercentileOf(s, p) == Number(x + t * (y - x))
  {
    InterpolateBetween(SortedCopy(s), k, t);
  }

  lemma {:induction false} InterpolateBetween(s: seq<real>, k: nat, t: real)
    requires k + 1 < |s| && 0.0 <= t <= 1.0
    ensures Interpolate(s, k as real + t) == Number(Blend(s[k], s[k + 1], t))
  {
    if t == 1.0 {
      BlendAt(s[k], s[k + 1], t, s[k + 1] - s[k]);
      InterpolateAtElement(s, k + 1);
    } else {
      assert (k as real + t).Floor == k;
    }
  }

  lemma InterpolateAtElement(s: seq<real>, k: nat)
    requires k < |s|
    ensures Interpolate(s, k as real) == Number(s[k])
  {
    if k + 1 < |s| {
      assert Blend(s[k], s[k + 1], 0.0) == s[k];
    }
  }

  /** Only the multiset of the elements matters. */
  lemma OrderIrrelevant(a: seq<real>, b: seq<real>, p: real)
    requires multiset(a) == multiset(b)
    ensures PercentileOf(a, p) == PercentileOf(b, p)
  {
    SortedCopyIs(a);
    SortedCopyIs(b);
    SortedUnique(SortedCopy(a), SortedCopy(b));
  }

  lemma EquivariantUnder(s: seq<real>, p: real, f: real -> real)
    requires s != [] && 0.0 <= p <= 1.0
    requires StrictlyIncreasing(f) && KeepsBlends(f)
    ensures PercentileOf(s, p).Number?
    ensures PercentileOf(Map(s, f), p) == Number(f(PercentileOf(s, p).r))
  {
    var pos := Position(|s|, p);
    PositionInRange(|s|, p);
    SortMap(s, f);
    InterpolateIsLerp(SortedCopy(s), pos);
    InterpolateIsLerp(Map(SortedCopy(s), f), pos);
    LerpMap(SortedCopy(s), pos, f);
  }

  function Affine(c: real, d: real): real -> real {
    x => c * x + d
  }

  lemma AffineOrder(c: real, d: real, x: real, y: real)
    requires c > 0.0
    ensures x <= y <==> c * x + d <= c * y + d
  {
    if x <= y {
      ScaleMonotone(x, y, c);
    } else {
      ScaleStrictlyMonotone(y, x, c);
    }
  }

  lemma AffineBlend(c: real, d: real, x: real, y: real, t: real)
    ensures c * Blend(x, y, t) + d == Blend(c * x + d, c * y + d, t)
  {
    var cx, cy, z := c * x, c * y, y - x;
    Distribute(c, x, t * z, x + t * z);
    Distribute(c, z, x, y);
    assert t * (cy - cx) == t * (c * z);
    assert t * (c * z) == c * (t * z);
  }

  lemma AffineIsNice(c: real, d: real)
    requires c > 0.0
    ensures StrictlyIncreasing(Affine(c, d)) && KeepsBlends(Affine(c, d))
  {
    var f := Affine(c, d);
    forall x, y
      ensures x <= y <==> f(x) <= f(y)
    {
      assert f(x) == c * x + d && f(y) == c * y + d;
      AffineOrder(c, d, x, y);
    }
    forall x, y, t
      ensures f(Blend(x, y, t)) == Blend(f(x), f(y), t)
    {
      assert f(x) == c * x + d && f(y) == c * y + d;
      AffineBlend(c, d, x, y, t);
    }
  }

  /** A change of unit and origin carries over to the percentile. */
  lemma AffineEquivariant(s: seq<real>, p: real, c: real, d: real)
    requires s != [] && 0.0 <= p <= 1.0 && c > 0.0
    ensures PercentileOf(s, p).Number?
    ensures PercentileOf(Map(s, Affine(c, d)), p) == Number(Affine(c, d)(PercentileOf(s, p).r))
  {
    AffineIsNice(c, d);
    EquivariantUnder(s, p, Affine(c, d));
  }
}
