/** The YCSB report: totals, and a histogram of latencies obtained from binary
    searches in the sorted list. */
module Metrics {
  import opened Wrappers
  import opened Arithmetic
  import opened Options
  import opened Sorting
  import opened Workload

  /** The lines printed for one operation. */
  datatype Report = Report(op: string, ops: nat, buckets: seq<int>, overflow: int)

  // ----- binary-search bounds -----

  /** The last index whose element is below `y`, or -1. */
  method Lt(a: seq<real>, y: real) returns (i: int)
    requires Sorted(a)
    ensures -1 <= i < |a|
    ensures forall k :: 0 <= k < |a| ==> (k <= i <==> a[k] < y)
  {
    var l, h := 0, |a| - 1;
    i := l - 1;
    while l <= h
      invariant 0 <= l <= h + 1 <= |a|
      invariant i == l - 1
      invariant forall k :: 0 <= k < l ==> a[k] < y
      invariant forall k :: h < k < |a| ==> !(a[k] < y)
    {
      var m := (l + h) / 2;
      if a[m] < y {
        i, l := m, m + 1;
      } else {
        h := m - 1;
      }
    }
  }

  /** The last index whose element is at most `y`, or -1. */
  method Le(a: seq<real>, y: real) returns (i: int)
    requires Sorted(a)
    ensures -1 <= i < |a|
    ensures forall k :: 0 <= k < |a| ==> (k <= i <==> a[k] <= y)
  {
    var l, h := 0, |a| - 1;
    i := l - 1;
    while l <= h
      invariant 0 <= l <= h + 1 <= |a|
      invariant i == l - 1
      invariant forall k :: 0 <= k < l ==> a[k] <= y
      invariant forall k :: h < k < |a| ==> !(a[k] <= y)
    {
      var m := (l + h) / 2;
      if a[m] <= y {
        i, l := m, m + 1;
      } else {
        h := m - 1;
      }
    }
  }

  /** A bound is one less than a count. */
  lemma BoundIsCount(a: seq<real>, p: real -> bool, i: int)
    requires Sorted(a) && DownClosed(p) && -1 <= i < |a|
    requires forall k :: 0 <= k < |a| ==> (k <= i <==> p(a[k]))
    ensures i == Count(a, p) - 1
  {
    var n := Count(a, p);
    if 0 <= i {
      RankIff(a, p, i);
    }
    if i + 1 < |a| {
      RankIff(a, p, i + 1);
    }
  }

  // ----- what is printed -----

  function Inside(i: int): real -> bool { x => i as real < x < i as real + 1.0 }
  function Above(n: int): real -> bool { x => n as real < x }
  function Exactly(n: int): real -> bool { x => x == n as real }
  function Whole(n: int): real -> bool { (x: real) => x == x.Floor as real && 0 <= x.Floor <= n }

  /** The naive histogram: bucket i counts the latencies strictly between i and i+1,
      and the last line is one more than the number of those above the last bucket. */
  function NaiveReport(op: string, lats: seq<real>, numBucket: int): Report {
    Report(op, |lats|,
           seq(if numBucket < 0 then 0 else numBucket, i => Count(lats, Inside(i))),
           Count(lats, Above(numBucket)) + 1)
  }

  /** A property that splits in two adds up. */
  lemma {:induction false} CountSplit(s: seq<real>, p: real -> bool, q: real -> bool, r: real -> bool)
    requires forall x :: p(x) <==> q(x) || r(x)
    requires forall x :: !(q(x) && r(x))
    ensures Count(s, p) == Count(s, q) + Count(s, r)
  {
    if s != [] {
      CountSplit(s[1..], p, q, r);
    }
  }

  lemma {:induction false} CountAll(s: seq<real>, p: real -> bool)
    requires forall i :: 0 <= i < |s| ==> p(s[i])
    ensures Count(s, p) == |s|
  {
    if s != [] {
      CountAll(s[1..], p);
    }
  }

  /** One bucket, as the difference of two bounds in the sorted list. */
  method Bucket(lats: seq<real>, i: int) returns (n: int)
    requires Sorted(lats)
    ensures n == Count(lats, Inside(i))
  {
    var hi := Lt(lats, (i + 1) as real);
    var lo := Le(lats, i as real);
    BoundIsCount(lats, Below((i + 1) as real), hi);
    BoundIsCount(lats, UpTo(i as real), lo);
    CountSplit(lats, Below((i + 1) as real), UpTo(i as real), Inside(i));
    n := hi - lo;
  }

  /** The lines of one operation, from its latencies once they are sorted. */
  method ReportOne(op: string, lats: seq<real>, numBucket: int) returns (r: Report)
    requires Sorted(lats)
    ensures r == NaiveReport(op, lats, numBucket)
  {
    var buckets := [];
    var i := 0;
    while i < numBucket
      invariant i == |buckets|
      invariant if numBucket < 0 then i == 0 else i <= numBucket
      invariant forall k :: 0 <= k < i ==> buckets[k] == Count(lats, Inside(k))
    {
      var n := Bucket(lats, i);
      buckets := buckets + [n];
      i := i + 1;
    }
    var lo := Le(lats, numBucket as real);
    BoundIsCount(lats, UpTo(numBucket as real), lo);
    CountSplit(lats, x => true, UpTo(numBucket as real), Above(numBucket));
    CountAll(lats, x => true);
    r := Report(op, |lats|, buckets, |lats| - lo);
    assert r.buckets == NaiveReport(op, lats, numBucket).buckets;
  }

  lemma NaiveReportOfSorted(op: string, lats: seq<real>, numBucket: int)
    ensures NaiveReport(op, SortedCopy(lats), numBucket) == NaiveReport(op, lats, numBucket)
  {
    var a, b := NaiveReport(op, SortedCopy(lats), numBucket), NaiveReport(op, lats, numBucket);
    SortedCopyIs(lats);
    CountPermutation(SortedCopy(lats), lats, Above(numBucket));
    forall i | 0 <= i < |a.buckets|
      ensures a.buckets[i] == b.buckets[i]
    {
      CountPermutation(SortedCopy(lats), lats, Inside(i));
    }
  }

  /** The first loop of `printMetrics`. */
  method CountOps(w: Workload) returns (totalOps: nat)
    requires w.Valid()
    ensures totalOps == TotalOps(w.operations, w.latencies)
  {
    var n := |w.operations|;
    totalOps := 0;
    for k := 0 to n
      invariant totalOps == TotalOps(w.operations[..k], w.latencies)
    {
      assert w.operations[..k + 1][..k] == w.operations[..k];
      totalOps := totalOps + |w.latencies[w.operations[k]]|;
    }
    assert w.operations[..n] == w.operations;
  }

  predicate HasKeys<V>(keys: seq<string>, m: map<string, V>) {
    Distinct(keys) && forall i :: 0 <= i < |keys| ==> keys[i] in m
  }

  /** The entries of the first `k` keys changed by `f`, the others as they were. */
  function ChangeFirst<V>(keys: seq<string>, m: map<string, V>, f: V -> V, k: nat): (r: map<string, V>)
    requires k <= |keys| && HasKeys(keys, m)
    ensures r.Keys == m.Keys
  {
    if k == 0 then m else ChangeFirst(keys, m, f, k - 1)[keys[k - 1] := f(m[keys[k - 1]])]
  }

  lemma {:induction false} ChangeFirstAt<V>(keys: seq<string>, m: map<string, V>, f: V -> V, k: nat, i: nat)
    requires k <= |keys| && i < |keys| && HasKeys(keys, m)
    ensures ChangeFirst(keys, m, f, k)[keys[i]] == if i < k then f(m[keys[i]]) else m[keys[i]]
  {
    if k > 0 {
      ChangeFirstAt(keys, m, f, k - 1, i);
      assert i != k - 1 ==> keys[i] != keys[k - 1];
    }
  }

  const SORT := (lats: seq<real>) => SortedCopy(lats)

  /** The reports are the naive ones of the lists. */
  predicate AreNaive(reports: seq<Report>, operations: seq<string>, latencies: map<string, seq<real>>, numBucket: int)
    requires |reports| <= |operations| && HasKeys(operations, latencies)
  {
    forall i :: 0 <= i < |reports| ==> reports[i] == NaiveReport(operations[i], latencies[operations[i]], numBucket)
  }

  /** The body of the second loop: a list is sorted in its place and reported. */
  method PrintOne(w: Workload, k: nat, ghost before: map<string, seq<real>>, numBucket: int) returns (r: Report)
    requires HasKeys(w.operations, before) && k < |w.operations|
    requires w.latencies == ChangeFirst(w.operations, before, SORT, k)
    modifies w`latencies
    ensures w.latencies == ChangeFirst(w.operations, before, SORT, k + 1)
    ensures r == NaiveReport(w.operations[k], before[w.operations[k]], numBucket)
  {
    var op := w.operations[k];
    ChangeFirstAt(w.operations, before, SORT, k, k);
    assert w.latencies[op] == before[op];
    var lats := SortedCopy(w.latencies[op]);
    SortedCopyIs(w.latencies[op]);
    NaiveReportOfSorted(op, w.latencies[op], numBucket);
    w.latencies := w.latencies[op := lats];
    r := ReportOne(op, lats, numBucket);
  }

  lemma PushNaive(reports: seq<Report>, r: Report, operations: seq<string>,
                  latencies: map<string, seq<real>>, numBucket: int)
    requires |reports| < |operations| && HasKeys(operations, latencies)
    requires AreNaive(reports, operations, latencies, numBucket)
    requires r == NaiveReport(operations[|reports|], latencies[operations[|reports|]], numBucket)
    ensures AreNaive(reports + [r], operations, latencies, numBucket)
  {
  }

  /** The second loop of `printMetrics`. */
  method PrintAll(w: Workload, numBucket: int) returns (reports: seq<Report>)
    requires HasKeys(w.operations, w.latencies)
    modifies w`latencies
    ensures w.latencies == ChangeFirst(w.operations, old(w.latencies), SORT, |w.operations|)
    ensures |reports| == |w.operations| && AreNaive(reports, w.operations, old(w.latencies), numBucket)
  {
    ghost var before := w.latencies;
    reports := [];
    for k := 0 to |w.operations|
      invariant w.latencies == ChangeFirst(w.operations, before, SORT, k)
      invariant |reports| == k && AreNaive(reports, w.operations, before, numBucket)
    {
      var r := PrintOne(w, k, before, numBucket);
      PushNaive(reports, r, w.operations, before, numBucket);
      reports := reports + [r];
    }
  }

  /** `printMetrics`: it prints the total over all operations and the naive
      histograms of the recorded latencies, and sorts each list in its place, which
      changes neither the total nor the books. */
  method PrintMetrics(w: Workload, numBucket: int) returns (totalOps: nat, reports: seq<Report>)
    requires w.Valid()
    modifies w`latencies
    ensures w.Valid()
    ensures w.latencies == ChangeFirst(w.operations, old(w.latencies), SORT, |w.operations|)
    ensures forall op :: op in w.operations ==>
              && op in w.latencies && op in old(w.latencies)
              && Sorted(w.latencies[op]) && multiset(w.latencies[op]) == multiset(old(w.latencies)[op])
    ensures |reports| == |w.operations| && AreNaive(reports, w.operations, old(w.latencies), numBucket)
    ensures totalOps == old(TotalOps(w.operations, w.latencies)) == TotalOps(w.operations, w.latencies)
  {
    totalOps := CountOps(w);
    SortingKeepsAccounts(w.operations, w.TheQueue());
    ghost var before := w.latencies;
    reports := PrintAll(w, numBucket);
    forall op | op in w.operations
      ensures op in w.latencies && op in before
      ensures Sorted(w.latencies[op]) && multiset(w.latencies[op]) == multiset(before[op])
    {
      SortedEntry(w.operations, before, op);
    }
  }

  /** The list of an operation once all lists are sorted. */
  lemma {:induction false} SortedEntry(operations: seq<string>, before: map<string, seq<real>>, op: string)
    requires HasKeys(operations, before) && op in operations
    ensures var after := ChangeFirst(operations, before, SORT, |operations|);
            op in after && Sorted(after[op]) && multiset(after[op]) == multiset(before[op])
  {
    var i :| 0 <= i < |operations| && operations[i] == op;
    ChangeFirstAt(operations, before, SORT, |operations|, i);
    SortedCopyIs(before[op]);
  }

  /** The console output of one worker: the total and one report per operation. */
  datatype Printed = Printed(totalOps: nat, reports: seq<Report>)

  /** What the queue does with the pending operations, one event after another; an
      event that is not due does not happen. */
  method RunQueue(w: Workload, evs: seq<Event>)
    requires w.Valid()
    modifies w`tasks, w`latencies
    ensures w.Valid() && w.TheQueue() == ApplyAll(old(w.TheQueue()), evs)
  {
    for n := 0 to |evs|
      invariant w.Valid() && ApplyAll(w.TheQueue(), evs[n..]) == ApplyAll(old(w.TheQueue()), evs)
    {
      assert evs[n..][0] == evs[n] && evs[n..][1..] == evs[n + 1..];
      var k := evs[n].k;
      if k < |w.tasks| {
        match evs[n]
        case Start(_) =>
          if w.tasks[k].status == Waiting { w.StartTask(k); }
        case Finish(_, latency) =>
          if w.tasks[k].status == InFlight { w.FinishTask(k, latency); }
        case Fail(_) =>
          if w.tasks[k].status == InFlight { w.FailTask(k); }
      }
    }
  }

  /** The figures of a finished run: the configured operation count less the failed
      operations if the proportions are usable, and 0 if they are not, with the naive
      reports of what was recorded. */
  ghost predicate IsReportOf(printed: Printed, plan: Plan, q: QueueState, numBucket: int) {
    var operations := plan.table.operations;
    && HasKeys(operations, q.latencies)
    && printed.totalOps == (if Usable(plan.shares) then plan.count - CountStatus(q.tasks, Failed) else 0)
    && |printed.reports| == |operations|
    && AreNaive(printed.reports, operations, q.latencies, numBucket)
  }

  predicate HasBuckets(options: map<string, OptionValue>) {
    "numBucket" in options && options["numBucket"].Number?
  }

  /** Building the workload, running it and letting the queue work. */
  method Prepare(options: map<string, OptionValue>, parseFloat: OptionValue -> Num,
                 parseInt: OptionValue -> Option<int>, random: nat -> real, evs: seq<Event>)
    returns (w: Workload)
    ensures fresh(w) && w.Valid()
    ensures var plan := PlanOf(options, parseFloat, parseInt, random);
            w.operations == plan.table.operations && w.TheQueue() == QueueAfter(plan, evs)
  {
    ghost var plan := PlanOf(options, parseFloat, parseInt, random);
    w := new Workload(options, parseFloat);
    w.Run(parseInt, random);
    assert w.tasks == Enqueued(plan.table, plan.draws);
    RunQueue(w, evs);
  }

  /** One worker, from the options to the console: nothing is printed before the queue
      is idle, and then the figures are those of the run. */
  method RunWorkload(options: map<string, OptionValue>, parseFloat: OptionValue -> Num,
                     parseInt: OptionValue -> Option<int>, random: nat -> real, evs: seq<Event>)
    returns (printed: Option<Printed>)
    requires HasBuckets(options) && Unit(random)
    ensures var plan := PlanOf(options, parseFloat, parseInt, random);
            var q := QueueAfter(plan, evs);
            && (printed.Some? <==> Idle(q.tasks))
            && (printed.Some? ==> IsReportOf(printed.value, plan, q, options["numBucket"].n))
  {
    var w := Prepare(options, parseFloat, parseInt, random, evs);
    if !Idle(w.tasks) {
      return None;
    }
    WholeRun(options, parseFloat, parseInt, random, evs);
    var totalOps, reports := PrintMetrics(w, options["numBucket"].n);
    return Some(Printed(totalOps, reports));
  }

  /** The same from the command line, where options that cannot be read throw. */
  method RunWorkloads(workload: Option<string>, parameter: Argument, numBucket: int,
                      parseFloat: OptionValue -> Num, parseInt: OptionValue -> Option<int>,
                      random: nat -> real, evs: seq<Event>)
    returns (printed: Result<Option<Printed>, TypeError>)
    requires Unit(random)
    ensures printed.Err? <==> workload.None? || !parameter.Repeated?
    ensures printed.Ok? ==>
              var options := FormatOptions(workload, parameter, numBucket).value;
              var plan := PlanOf(options, parseFloat, parseInt, random);
              var q := QueueAfter(plan, evs);
              && (printed.value.Some? <==> Idle(q.tasks))
              && (printed.value.Some? ==> IsReportOf(printed.value.value, plan, q, numBucket))
  {
    var options := FormatOptions(workload, parameter, numBucket);
    if options.Err? {
      return Err(options.error);
    }
    MergePrecedence(workload.value, parameter.texts, numBucket, "numBucket");
    var printed' := RunWorkload(options.value, parseFloat, parseInt, random, evs);
    return Ok(printed');
  }

  /** Sorting the lists keeps the books balanced and the total what it was. */
  lemma {:induction false} SortingKeepsAccounts(operations: seq<string>, q: QueueState)
    requires Accounted(operations, q)
    ensures HasKeys(operations, q.latencies)
    ensures var q' := q.(latencies := ChangeFirst(operations, q.latencies, SORT, |operations|));
            Accounted(operations, q') && TotalOps(operations, q'.latencies) == TotalOps(operations, q.latencies)
  {
    var now := ChangeFirst(operations, q.latencies, SORT, |operations|);
    forall i: nat | i < |operations|
      ensures |now[operations[i]]| == |q.latencies[operations[i]]|
    {
      ChangeFirstAt(operations, q.latencies, SORT, |operations|, i);
    }
    TotalOpsOfLengths(operations, q.latencies, now);
  }

  lemma {:induction false} TotalOpsOfLengths(operations: seq<string>, a: map<string, seq<real>>, b: map<string, seq<real>>)
    requires forall i :: 0 <= i < |operations| ==>
               && operations[i] in a && operations[i] in b
               && |a[operations[i]]| == |b[operations[i]]|
    ensures TotalOps(operations, a) == TotalOps(operations, b)
  {
    if operations != [] {
      TotalOpsOfLengths(operations[..|operations| - 1], a, b);
    }
  }

  lemma {:induction false} CountPush(s: seq<real>, x: real, p: real -> bool)
    ensures Count(s + [x], p) == Count(s, p) + (if p(x) then 1 else 0)
  {
    CountConcat(s, [x], p);
  }

  /** What one more latency does to the lines: one more operation, one more in bucket i
      if it is strictly between i and i+1, and one more in the last line if it is above
      the last bucket. Without any, all buckets are 0 and the last line is 1. */
  lemma {:induction false} OneMoreLatency(op: string, lats: seq<real>, x: real, numBucket: int)
    ensures var a, b := NaiveReport(op, lats, numBucket), NaiveReport(op, lats + [x], numBucket);
            && a.op == b.op == op && b.ops == a.ops + 1
            && |a.buckets| == |b.buckets| == (if numBucket < 0 then 0 else numBucket)
            && (forall i :: 0 <= i < |a.buckets| ==>
                  b.buckets[i] == a.buckets[i] + (if i as real < x < (i + 1) as real then 1 else 0))
            && b.overflow == a.overflow + (if x > numBucket as real then 1 else 0)
    ensures var none := NaiveReport(op, [], numBucket);
            none.ops == 0 && none.overflow == 1 && forall i :: 0 <= i < |none.buckets| ==> none.buckets[i] == 0
  {
    CountPush(lats, x, Above(numBucket));
    forall i: int
      ensures Count(lats + [x], Inside(i)) == Count(lats, Inside(i)) + (if i as real < x < (i + 1) as real then 1 else 0)
    {
      CountPush(lats, x, Inside(i));
    }
  }

  // ----- what the lines add up to -----

  predicate NonNegative(lats: seq<real>) {
    forall i :: 0 <= i < |lats| ==> lats[i] >= 0.0
  }

  /** Up to `n`, what the buckets hold and what is above them is what is not a whole
      number. */
  lemma {:induction false} BucketsTelescope(lats: seq<real>, n: nat)
    requires NonNegative(lats)
    ensures Sum(seq(n, i => Count(lats, Inside(i)))) + Count(lats, Above(n)) + Count(lats, Whole(n)) == |lats|
  {
    if n == 0 {
      var p := x => x >= 0.0;
      CountSplit(lats, p, Above(0), Whole(0));
      CountAll(lats, p);
    } else {
      BucketsTelescope(lats, n - 1);
      assert seq(n, i => Count(lats, Inside(i)))[..n - 1] == seq(n - 1, i => Count(lats, Inside(i)));
      WholeStep(lats, n);
      var rest := x => (n - 1) as real < x && !(x < n as real);
      CountSplit(lats, Above(n - 1), Inside(n - 1), rest);
      CountSplit(lats, rest, Exactly(n), Above(n));
    }
  }

  lemma WholeStep(lats: seq<real>, n: nat)
    requires n > 0
    ensures Count(lats, Whole(n)) == Count(lats, Whole(n - 1)) + Count(lats, Exactly(n))
  {
    CountSplit(lats, Whole(n), Whole(n - 1), Exactly(n));
  }

  /** The accounting of the printed histogram: its lines add up to one more than the
      number of operations, less the latencies that are a whole number in 0..N, which
      no bucket holds. */
  lemma HistogramAccounting(op: string, lats: seq<real>, numBucket: int)
    requires NonNegative(lats)
    ensures var r := NaiveReport(op, lats, numBucket);
            Sum(r.buckets) + r.overflow == r.ops + 1 - Count(lats, Whole(numBucket))
  {
    if numBucket >= 0 {
      BucketsTelescope(lats, numBucket);
    } else {
      CountAll(lats, Above(numBucket));
      NoneHolds(lats, Whole(numBucket));
    }
  }

  /** So the histogram covers each operation once exactly when one latency is a whole
      number in range. */
  lemma HistogramCoversIff(op: string, lats: seq<real>, numBucket: int)
    requires NonNegative(lats)
    ensures var r := NaiveReport(op, lats, numBucket);
            Sum(r.buckets) + r.overflow == r.ops <==> Count(lats, Whole(numBucket)) == 1
  {
    HistogramAccounting(op, lats, numBucket);
  }
}
