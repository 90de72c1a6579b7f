/** What sorting a list of numbers does to counts and ranks. */
module Sorting {
  predicate Sorted(s: seq<real>) {
    forall i, j :: 0 <= i <= j < |s| ==> s[i] <= s[j]
  }

  function Insert(x: real, s: seq<real>): (r: seq<real>)
    ensures |r| == |s| + 1
  {
    if s == [] || x <= s[0] then [x] + s else [s[0]] + Insert(x, s[1..])
  }

  lemma {:induction false} InsertIs(x: real, s: seq<real>)
    requires Sorted(s)
    ensures Sorted(Insert(x, s)) && multiset(Insert(x, s)) == multiset{x} + multiset(s)
  {
    if s != [] && s[0] < x {
      InsertIs(x, s[1..]);
      assert s == [s[0]] + s[1..];
      var r := Insert(x, s[1..]);
      forall k | 0 <= k < |r|
        ensures s[0] <= r[k]
      {
        assert r[k] in multiset(r);
      }
    }
  }

  /** The list that `sort((a, b) => a - b)` makes of `s`. */
  function SortedCopy(s: seq<real>): (r: seq<real>)
    ensures |r| == |s|
  {
    if s == [] then [] else Insert(s[0], SortedCopy(s[1..]))
  }

  /** It is sorted and holds the same elements. */
  lemma {:induction false} SortedCopyIs(s: seq<real>)
    ensures Sorted(SortedCopy(s)) && multiset(SortedCopy(s)) == multiset(s)
  {
    if s != [] {
      SortedCopyIs(s[1..]);
      InsertIs(s[0], SortedCopy(s[1..]));
      assert s == [s[0]] + s[1..];
    }
  }

  /** Sorting in place. */
  method SortInPlace(a: array<real>)
    modifies a
    ensures a[..] == SortedCopy(old(a[..]))
  {
    var sorted := SortedCopy(a[..]);
    forall i | 0 <= i < a.Length {
      a[i] := sorted[i];
    }
  }

  // ----- counting -----

  function Count(s: seq<real>, p: real -> bool): (n: nat)
    ensures n <= |s|
  {
    if s == [] then 0 else (if p(s[0]) then 1 else 0) + Count(s[1..], p)
  }

  function Below(y: real): real -> bool { x => x < y }
  function UpTo(y: real): real -> bool { x => x <= y }

  ghost predicate DownClosed(p: real -> bool) {
    forall x, y :: x <= y && p(y) ==> p(x)
  }

  lemma {:induction false} CountConcat(a: seq<real>, b: seq<real>, p: real -> bool)
    ensures Count(a + b, p) == Count(a, p) + Count(b, p)
  {
    if a == [] {
      assert a + b == b;
    } else {
      assert (a + b)[1..] == a[1..] + b;
      CountConcat(a[1..], b, p);
    }
  }

  /** The place in `b` of the first element of `a`, and what is left without it. */
  lemma FindFirst(a: seq<real>, b: seq<real>) returns (front: seq<real>, back: seq<real>)
    requires a != [] && multiset(a) == multiset(b)
    ensures b == front + ([a[0]] + back)
    ensures multiset(a[1..]) == multiset(front + back)
  {
    assert a[0] in multiset(b);
    var k :| 0 <= k < |b| && b[k] == a[0];
    front, back := b[..k], b[k + 1..];
    assert b == front + ([a[0]] + back);
    assert a == [a[0]] + a[1..];
    calc {
      multiset(a[1..]);
      multiset(a) - multiset{a[0]};
      multiset(b) - multiset{a[0]};
      multiset(front) + multiset(back);
      multiset(front + back);
    }
  }

  /** A count depends on the multiset alone. */
  lemma {:induction false} CountPermutation(a: seq<real>, b: seq<real>, p: real -> bool)
    requires multiset(a) == multiset(b)
    ensures Count(a, p) == Count(b, p)
    decreases |a|
  {
    if a == [] {
      assert |multiset(b)| == 0;
    } else {
      var front, back := FindFirst(a, b);
      CountPermutation(a[1..], front + back, p);
      CountConcat(front, back, p);
      CountConcat(front, [a[0]] + back, p);
      assert ([a[0]] + back)[1..] == back;
    }
  }

  lemma {:induction false} NoneHolds(s: seq<real>, p: real -> bool)
    requires forall i :: 0 <= i < |s| ==> !p(s[i])
    ensures Count(s, p) == 0
  {
    if s != [] {
      NoneHolds(s[1..], p);
    }
  }

  /** In a sorted list a downward closed property holds of the first elements, as
      many as it holds of. */
  lemma {:induction false} RankIff(s: seq<real>, p: real -> bool, k: nat)
    requires Sorted(s) && DownClosed(p) && k < |s|
    ensures k < Count(s, p) <==> p(s[k])
  {
    if !p(s[0]) {
      NoneHolds(s, p);
    } else if k > 0 {
      RankIff(s[1..], p, k - 1);
    }
  }

  /** Two sorted lists with the same elements are the same list. */
  lemma SortedUnique(a: seq<real>, b: seq<real>)
    requires Sorted(a) && Sorted(b) && multiset(a) == multiset(b)
    ensures a == b
  {
    assert |multiset(a)| == |a| && |multiset(b)| == |b|;
    forall k | 0 <= k < |a|
      ensures a[k] == b[k]
    {
      CountPermutation(a, b, UpTo(b[k]));
      RankIff(b, UpTo(b[k]), k);
      RankIff(a, UpTo(b[k]), k);
      CountPermutation(a, b, UpTo(a[k]));
      RankIff(b, UpTo(a[k]), k);
      RankIff(a, UpTo(a[k]), k);
    }
  }

  /** Ranks read from a sorted copy are counts over the unsorted list. */
  lemma {:induction false} RankInSortedCopy(s: seq<real>, p: real -> bool, k: nat)
    requires DownClosed(p) && k < |s|
    ensures k < Count(s, p) <==> p(SortedCopy(s)[k])
  {
    SortedCopyIs(s);
    CountPermutation(SortedCopy(s), s, p);
    RankIff(SortedCopy(s), p, k);
  }

  predicate Pointwise(a: seq<real>, b: seq<real>) {
    |a| == |b| && forall i :: 0 <= i < |a| ==> a[i] <= b[i]
  }

  lemma {:induction false} FewerBelow(a: seq<real>, b: seq<real>, p: real -> bool)
    requires Pointwise(a, b) && DownClosed(p)
    ensures Count(b, p) <= Count(a, p)
  {
    if a != [] {
      FewerBelow(a[1..], b[1..], p);
    }
  }

  /** Raising elements raises every order statistic, although the two lists are
      sorted independently. */
  lemma OrderStatisticsMonotone(a: seq<real>, b: seq<real>)
    requires Pointwise(a, b)
    ensures Pointwise(SortedCopy(a), SortedCopy(b))
  {
    forall k | 0 <= k < |a|
      ensures SortedCopy(a)[k] <= SortedCopy(b)[k]
    {
      var p := UpTo(SortedCopy(b)[k]);
      RankInSortedCopy(b, p, k);
      FewerBelow(a, b, p);
      RankInSortedCopy(a, p, k);
    }
  }

  function Map(s: seq<real>, f: real -> real): seq<real> {
    seq(|s|, i requires 0 <= i < |s| => f(s[i]))
  }

  ghost predicate StrictlyIncreasing(f: real -> real) {
    forall x, y :: x <= y <==> f(x) <= f(y)
  }

  lemma {:induction false} InsertMap(x: real, t: seq<real>, f: real -> real)
    requires StrictlyIncreasing(f)
    ensures Insert(f(x), Map(t, f)) == Map(Insert(x, t), f)
  {
    if t == [] || x <= t[0] {
      assert Map([x] + t, f) == [f(x)] + Map(t, f);
    } else {
      assert Map(t, f)[1..] == Map(t[1..], f);
      InsertMap(x, t[1..], f);
      var r := Insert(x, t[1..]);
      assert Map([t[0]] + r, f) == [f(t[0])] + Map(r, f);
    }
  }

  /** Sorting commutes with a strictly increasing map. */
  lemma {:induction false} SortMap(s: seq<real>, f: real -> real)
    requires StrictlyIncreasing(f)
    ensures SortedCopy(Map(s, f)) == Map(SortedCopy(s), f)
  {
    if s != [] {
      assert Map(s, f)[1..] == Map(s[1..], f);
      SortMap(s[1..], f);
      InsertMap(s[0], SortedCopy(s[1..]), f);
    }
  }
}
