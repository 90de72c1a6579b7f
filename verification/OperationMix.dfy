/** Which operations a benchmark runs, and what becomes of each: from the option file's
    own names and the random numbers to the recorded latencies. */
module OperationMix {
  import opened Wrappers
  import opened Options
  import opened Workload
  import opened Arithmetic

  // ----- the draw of one operation -----

  function AtLeastZero(w: real): real {
    if w > 0.0 then w else 0.0
  }

  /** What the proportions before the `m`-th add up to. */
  function Before(shares: seq<Share>, m: nat): real
    requires AllNumbers(shares) && m <= |shares|
  {
    if m == 0 then 0.0 else Before(shares, m - 1) + AtLeastZero(shares[m - 1].weight.r)
  }

  lemma {:induction false} BeforeOfFront(shares: seq<Share>, n: nat, m: nat)
    requires AllNumbers(shares) && m <= n <= |shares|
    ensures AllNumbers(shares[..n]) && Before(shares[..n], m) == Before(shares, m)
  {
    if m > 0 {
      BeforeOfFront(shares, n, m - 1);
    }
  }

  /** The kept shares add up to the same. */
  lemma {:induction false} KeptSum(shares: seq<Share>)
    requires AllNumbers(shares)
    ensures SumOf(Positive(shares)) == Before(shares, |shares|)
  {
    if shares != [] {
      var n := |shares| - 1;
      BeforeOfFront(shares, n, n);
      KeptSum(shares[..n]);
      if shares[n].weight.r > 0.0 {
        PrefixOfPush(Positive(shares[..n]), shares[n], |Positive(shares[..n])|);
      }
    }
  }

  /** Where a positive share is kept. */
  lemma {:induction false} PlaceOf(shares: seq<Share>, m: nat) returns (k: nat)
    requires AllNumbers(shares) && m < |shares| && shares[m].weight.r > 0.0
    ensures k < |Positive(shares)| && Positive(shares)[k] == shares[m]
    ensures Prefix(Positive(shares), k) == Before(shares, m)
  {
    var n := |shares| - 1;
    var front := shares[..n];
    BeforeOfFront(shares, n, m);
    if m == n {
      k := |Positive(front)|;
      KeptSum(front);
    } else {
      k := PlaceOf(front, m);
    }
    if shares[n].weight.r > 0.0 {
      PrefixOfPush(Positive(front), shares[n], k);
    }
  }

  lemma {:induction false} KeptFrom(shares: seq<Share>, k: nat) returns (m: nat)
    requires AllNumbers(shares) && k < |Positive(shares)|
    ensures m < |shares| && shares[m] == Positive(shares)[k] && shares[m].weight.r > 0.0
  {
    var n := |shares| - 1;
    if k < |Positive(shares[..n])| {
      m := KeptFrom(shares[..n], k);
    } else {
      m := n;
    }
  }

  /** One task per draw, and which one: the operation of the interval that the draw,
      scaled to the total, falls into. */
  lemma {:induction false} TaskIsDrawn(shares: seq<Share>, draws: seq<real>, i: nat)
    requires Usable(shares) && UnitDraws(draws) && i < |draws|
    ensures |Enqueued(BuildTable(shares), draws)| == |draws|
    ensures var op := Drawn(BuildTable(shares), draws[i]);
            op.Some? && Enqueued(BuildTable(shares), draws)[i] == Task(op.value, Waiting)
  {
    var n := |draws| - 1;
    EnqueuesAllIff(shares, draws);
    EnqueuesAllIff(shares, draws[..n]);
    DrawsOneIff(shares, draws[n]);
    if i < n {
      TaskIsDrawn(shares, draws[..n], i);
    }
  }

  /** Where a draw falls in the range from 0 to the total. */
  predicate Scales(shares: seq<Share>, u: real, x: real) {
    Times(u, BuildTable(shares).total) == Fin(x)
  }

  lemma {:induction false} ScaledDraw(shares: seq<Share>, u: real)
    requires AllNumbers(shares)
    ensures Scales(shares, u, u * Before(shares, |shares|))
  {
    TableIsPrefixSums(shares);
    KeptSum(shares);
  }

  /** The draw falls into the interval of the `k`-th kept operation. */
  predicate InInterval(shares: seq<Share>, x: real, k: nat)
    requires AllNumbers(shares) && k < |Positive(shares)|
  {
    var kept := Positive(shares);
    (Prefix(kept, k) < x || k == 0) && x <= Prefix(kept, k + 1)
  }

  lemma {:induction false} DrawnIsFound(shares: seq<Share>, u: real, x: real) returns (k: nat)
    requires Usable(shares) && 0.0 <= u < 1.0 && Scales(shares, u, x)
    ensures k < |Positive(shares)| && Drawn(BuildTable(shares), u) == Some(Positive(shares)[k].op)
    ensures InInterval(shares, x, k)
  {
    var t := BuildTable(shares);
    DrawInRange(shares, u);
    ScanFindsIff(shares, Fin(x));
    ScanIsFirst(t.weights, Fin(x), 0);
    k := Scan(t.weights, Fin(x), 0).value;
    FoundIsKept(shares, x, k);
  }

  lemma {:induction false} FoundIsKept(shares: seq<Share>, x: real, k: nat)
    requires AllNumbers(shares) && 0.0 <= x <= SumOf(Positive(shares))
    requires Scan(BuildTable(shares).weights, Fin(x), 0) == Some(k) && k < |BuildTable(shares).weights|
    ensures k < |Positive(shares)| && BuildTable(shares).operations[k] == Positive(shares)[k].op
    ensures InInterval(shares, x, k)
  {
    TableIsPrefixSums(shares);
    DrawIsIntervalOf(shares, x, k);
  }

  lemma {:induction false} IntervalsApart(shares: seq<Share>, x: real, j: nat, k: nat)
    requires AllNumbers(shares) && j < |Positive(shares)| && k < |Positive(shares)|
    requires InInterval(shares, x, j) && InInterval(shares, x, k)
    ensures j == k
  {
    if j < k {
      PrefixesIncrease(Positive(shares), j + 1, k);
    } else if k < j {
      PrefixesIncrease(Positive(shares), k + 1, j);
    }
  }

  /** Every task a run enqueues is of a kept operation, and of the `j`-th exactly when
      its draw, scaled to the total, lies above the proportions before that one and not
      above its own. */
  lemma {:induction false} TaskInInterval(shares: seq<Share>, draws: seq<real>, i: nat, j: nat, x: real)
    requires Usable(shares) && DistinctShares(shares) && UnitDraws(draws)
    requires i < |draws| && j < |Positive(shares)| && Scales(shares, draws[i], x)
    ensures |Enqueued(BuildTable(shares), draws)| == |draws|
    ensures Enqueued(BuildTable(shares), draws)[i] == Task(Positive(shares)[j].op, Waiting) <==>
            InInterval(shares, x, j)
  {
    TaskIsDrawn(shares, draws, i);
    var k := DrawnIsFound(shares, draws[i], x);
    KeptDistinct(shares, j, k);
    if InInterval(shares, x, j) {
      IntervalsApart(shares, x, j, k);
    }
  }

  lemma {:induction false} KeptDistinct(shares: seq<Share>, j: nat, k: nat)
    requires AllNumbers(shares) && DistinctShares(shares)
    requires j < |Positive(shares)| && k < |Positive(shares)|
    ensures Positive(shares)[j].op == Positive(shares)[k].op ==> j == k
  {
    var n := |shares| - 1;
    var front := Positive(shares[..n]);
    if j < |front| && k < |front| {
      KeptDistinct(shares[..n], j, k);
    } else if j < |front| {
      var m := KeptFrom(shares[..n], j);
    } else if k < |front| {
      var m := KeptFrom(shares[..n], k);
    }
  }

  /** The part of the range that belongs to the `m`-th share, if it has any. */
  predicate Owns(shares: seq<Share>, x: real, m: nat)
    requires AllNumbers(shares) && m < |shares|
  {
    var lo, w := Before(shares, m), shares[m].weight.r;
    w > 0.0 && (lo < x || lo == 0.0) && x <= lo + w
  }

  lemma {:induction false} OwnsIsInterval(shares: seq<Share>, x: real, m: nat) returns (j: nat)
    requires AllNumbers(shares) && m < |shares| && shares[m].weight.r > 0.0
    ensures j < |Positive(shares)| && Positive(shares)[j] == shares[m]
    ensures InInterval(shares, x, j) <==> Owns(shares, x, m)
  {
    j := PlaceOf(shares, m);
    PrefixesIncrease(Positive(shares), 0, j);
  }

  /** The same over all shares: none without a positive proportion is ever drawn. */
  lemma {:induction false} TaskOfShare(shares: seq<Share>, draws: seq<real>, i: nat, m: nat, x: real)
    requires Usable(shares) && DistinctShares(shares) && UnitDraws(draws)
    requires i < |draws| && m < |shares| && Scales(shares, draws[i], x)
    ensures |Enqueued(BuildTable(shares), draws)| == |draws|
    ensures Enqueued(BuildTable(shares), draws)[i] == Task(shares[m].op, Waiting) <==> Owns(shares, x, m)
  {
    if shares[m].weight.r > 0.0 {
      var j := OwnsIsInterval(shares, x, m);
      TaskInInterval(shares, draws, i, j, x);
    } else {
      TaskIsDrawn(shares, draws, i);
      var k := DrawnIsFound(shares, draws[i], x);
      var m' := KeptFrom(shares, k);
    }
  }

  // ----- the four operations by name -----

  /** The proportions of the four operations, as the options give them. */
  predicate HasProportions(options: map<string, OptionValue>, parseFloat: OptionValue -> Num,
                           r: real, u: real, s: real, n: real)
  {
    && "readproportion" in options && parseFloat(options["readproportion"]) == Fin(r)
    && "updateproportion" in options && parseFloat(options["updateproportion"]) == Fin(u)
    && "scanproportion" in options && parseFloat(options["scanproportion"]) == Fin(s)
    && "insertproportion" in options && parseFloat(options["insertproportion"]) == Fin(n)
  }

  function FourShares(r: real, u: real, s: real, n: real): seq<Share> {
    [Share("read", Fin(r)), Share("update", Fin(u)), Share("scan", Fin(s)), Share("insert", Fin(n))]
  }

  const KEYS := ["readproportion", "updateproportion", "scanproportion", "insertproportion"]

  /** Each operation is named by its option. */
  lemma OptionName(m: nat)
    requires m < 4
    ensures |OPERATIONS| == |KEYS| == 4 && OPERATIONS[m] + "proportion" == KEYS[m]
  {
    if m == 0 {
      assert "read" + "proportion" == "readproportion";
    } else if m == 1 {
      assert "update" + "proportion" == "updateproportion";
    } else if m == 2 {
      assert "scan" + "proportion" == "scanproportion";
    } else {
      assert "insert" + "proportion" == "insertproportion";
    }
  }

  lemma ShareOf(options: map<string, OptionValue>, parseFloat: OptionValue -> Num, m: nat)
    requires m < 4
    ensures |Shares(options, parseFloat)| == 4 == |OPERATIONS|
    ensures Shares(options, parseFloat)[m] ==
            Share(OPERATIONS[m], parseFloat(if KEYS[m] in options then options[KEYS[m]] else Absent))
  {
    OptionName(m);
    var key := OPERATIONS[m] + "proportion";
    assert Shares(options, parseFloat)[m] == Share(OPERATIONS[m], parseFloat(Get(options, key)));
    assert key == KEYS[m];
  }

  lemma SharesAre(options: map<string, OptionValue>, parseFloat: OptionValue -> Num,
                  r: real, u: real, s: real, n: real)
    requires HasProportions(options, parseFloat, r, u, s, n)
    ensures Shares(options, parseFloat) == FourShares(r, u, s, n)
  {
    ShareOf(options, parseFloat, 0);
    ShareOf(options, parseFloat, 1);
    ShareOf(options, parseFloat, 2);
    ShareOf(options, parseFloat, 3);
  }

  lemma {:induction false} BeforeFour(r: real, u: real, s: real, n: real)
    ensures var shares := FourShares(r, u, s, n);
            && Before(shares, 0) == 0.0
            && Before(shares, 1) == AtLeastZero(r)
            && Before(shares, 2) == AtLeastZero(r) + AtLeastZero(u)
            && Before(shares, 3) == AtLeastZero(r) + AtLeastZero(u) + AtLeastZero(s)
            && Before(shares, 4) == AtLeastZero(r) + AtLeastZero(u) + AtLeastZero(s) + AtLeastZero(n)
  {
    var shares := FourShares(r, u, s, n);
    assert Before(shares, 1) == Before(shares, 0) + AtLeastZero(r);
    assert Before(shares, 2) == Before(shares, 1) + AtLeastZero(u);
    assert Before(shares, 3) == Before(shares, 2) + AtLeastZero(s);
  }

  /** The `i`-th task, for a draw that falls at `x`: reads take the first part of the
      range, then updates, scans and inserts, each as long a part as its option says. */
  predicate NamedByDraw(task: Task, x: real, r: real, u: real, s: real, n: real) {
    var a := AtLeastZero(r);
    var b := a + AtLeastZero(u);
    var c := b + AtLeastZero(s);
    var d := c + AtLeastZero(n);
    && (task == Task("read", Waiting) <==> r > 0.0 && x <= a)
    && (task == Task("update", Waiting) <==> u > 0.0 && (a < x || a == 0.0) && x <= b)
    && (task == Task("scan", Waiting) <==> s > 0.0 && (b < x || b == 0.0) && x <= c)
    && (task == Task("insert", Waiting) <==> n > 0.0 && (c < x || c == 0.0) && x <= d)
  }

  lemma {:induction false} NamedFour(draws: seq<real>, r: real, u: real, s: real, n: real, i: nat, x: real)
    requires r > 0.0 || u > 0.0 || s > 0.0 || n > 0.0
    requires DistinctShares(FourShares(r, u, s, n)) && UnitDraws(draws)
    requires i < |draws| && x >= 0.0 && Scales(FourShares(r, u, s, n), draws[i], x)
    ensures var tasks := Enqueued(BuildTable(FourShares(r, u, s, n)), draws);
            |tasks| == |draws| && NamedByDraw(tasks[i], x, r, u, s, n)
  {
    var shares := FourShares(r, u, s, n);
    BeforeFour(r, u, s, n);
    SomePositive(shares, if r > 0.0 then 0 else if u > 0.0 then 1 else if s > 0.0 then 2 else 3);
    TaskOfShare(shares, draws, i, 0, x);
    TaskOfShare(shares, draws, i, 1, x);
    TaskOfShare(shares, draws, i, 2, x);
    TaskOfShare(shares, draws, i, 3, x);
  }

  /** A draw scaled to the four proportions together. */
  function OfTotal(r: real, u: real, s: real, n: real, draw: real): real {
    draw * (AtLeastZero(r) + AtLeastZero(u) + AtLeastZero(s) + AtLeastZero(n))
  }

  /** As many tasks are enqueued as the options say, and the `i`-th is named by the
      `i`-th random number, scaled to the four proportions together. */
  lemma {:induction false} TheMix(options: map<string, OptionValue>, parseFloat: OptionValue -> Num,
                                  parseInt: OptionValue -> Option<int>, random: nat -> real,
                                  r: real, u: real, s: real, n: real, count: nat, i: nat)
    requires HasProportions(options, parseFloat, r, u, s, n)
    requires r > 0.0 || u > 0.0 || s > 0.0 || n > 0.0
    requires "operationcount" in options && parseInt(options["operationcount"]) == Some(count)
    requires Unit(random) && i < count
    ensures var plan := PlanOf(options, parseFloat, parseInt, random);
            var tasks := Enqueued(plan.table, plan.draws);
            |tasks| == count && NamedByDraw(tasks[i], OfTotal(r, u, s, n, random(i)), r, u, s, n)
  {
    FourScale(r, u, s, n, random(i));
    PlanIs(options, parseFloat, parseInt, random, r, u, s, n, count);
    NamedFour(Draws(random, count), r, u, s, n, i, OfTotal(r, u, s, n, random(i)));
  }

  lemma {:induction false} FourScale(r: real, u: real, s: real, n: real, draw: real)
    requires draw >= 0.0
    ensures OfTotal(r, u, s, n, draw) >= 0.0
    ensures Scales(FourShares(r, u, s, n), draw, OfTotal(r, u, s, n, draw))
  {
    BeforeFour(r, u, s, n);
    ScaledDraw(FourShares(r, u, s, n), draw);
    NonNegativeProduct(draw, AtLeastZero(r) + AtLeastZero(u) + AtLeastZero(s) + AtLeastZero(n));
  }

  lemma PlanIs(options: map<string, OptionValue>, parseFloat: OptionValue -> Num,
               parseInt: OptionValue -> Option<int>, random: nat -> real,
               r: real, u: real, s: real, n: real, count: nat)
    requires HasProportions(options, parseFloat, r, u, s, n)
    requires "operationcount" in options && parseInt(options["operationcount"]) == Some(count)
    ensures PlanOf(options, parseFloat, parseInt, random) ==
            Plan(FourShares(r, u, s, n), BuildTable(FourShares(r, u, s, n)), count, Draws(random, count))
    ensures DistinctShares(FourShares(r, u, s, n))
  {
    SharesAre(options, parseFloat, r, u, s, n);
    OperationsDistinct(options, parseFloat);
  }

  /** An option that is missing leaves its proportion undefined, and then nothing is
      enqueued at all. */
  lemma {:induction false} NothingWithoutOption(options: map<string, OptionValue>, parseFloat: OptionValue -> Num,
                                                parseInt: OptionValue -> Option<int>, random: nat -> real, key: string)
    requires key in {"readproportion", "updateproportion", "scanproportion", "insertproportion"}
    requires key !in options && parseFloat(Absent) == NaN && Unit(random)
    ensures var plan := PlanOf(options, parseFloat, parseInt, random);
            Enqueued(plan.table, plan.draws) == []
  {
    var plan := PlanOf(options, parseFloat, parseInt, random);
    var m := if key == "readproportion" then 0 else if key == "updateproportion" then 1
             else if key == "scanproportion" then 2 else 3;
    ShareOf(options, parseFloat, m);
    assert KEYS[m] == key;
    assert plan.shares[m].weight == NaN;
    EnqueuesAllIff(plan.shares, plan.draws);
  }

  lemma {:induction false} SomePositive(shares: seq<Share>, m: nat)
    requires AllNumbers(shares) && m < |shares| && shares[m].weight.r > 0.0
    ensures Usable(shares)
  {
    var k := PlaceOf(shares, m);
  }

  // ----- what becomes of one operation -----

  lemma {:induction false} ApplyConcat(q: QueueState, a: seq<Event>, b: seq<Event>)
    ensures ApplyAll(q, a + b) == ApplyAll(ApplyAll(q, a), b)
    decreases |a|
  {
    if a == [] {
      assert a + b == b;
    } else {
      assert (a + b)[1..] == a[1..] + b;
      ApplyConcat(Apply(q, a[0]), a[1..], b);
    }
  }

  /** What happens to other operations does not touch this one. */
  lemma {:induction false} OthersLeaveIt(q: QueueState, evs: seq<Event>, k: nat)
    requires k < |q.tasks| && forall ev :: ev in evs ==> ev.k != k
    ensures var q' := ApplyAll(q, evs);
            |q'.tasks| == |q.tasks| && q'.tasks[k] == q.tasks[k] && q'.latencies.Keys == q.latencies.Keys
    decreases |evs|
  {
    if evs != [] {
      assert evs[0] in evs;
      OthersLeaveIt(Apply(q, evs[0]), evs[1..], k);
    }
  }

  /** However others are interleaved, an operation that is started and finishes has its
      latency at the end of its own list and nowhere else if it is a read or an update;
      any other kind has failed and its latency is ignored. */
  lemma {:induction false} StartedAndFinished(q: QueueState, k: nat, between: seq<Event>, latency: real)
    requires k < |q.tasks| && q.tasks[k].status == Waiting && q.tasks[k].op in q.latencies
    requires forall ev :: ev in between ==> ev.k != k
    ensures var op := q.tasks[k].op;
            var before, after := ApplyAll(q, [Start(k)] + between),
                                 ApplyAll(q, [Start(k)] + between + [Finish(k, latency)]);
            && op in before.latencies && k < |before.tasks|
            && (if op == "read" || op == "update" then
                  && after.tasks == before.tasks[k := Task(op, Done)]
                  && after.latencies == before.latencies[op := before.latencies[op] + [latency]]
                else after == before && after.tasks[k] == Task(op, Failed))
  {
    var op := q.tasks[k].op;
    var started := Apply(q, Start(k));
    assert ([Start(k)] + between)[1..] == between;
    OthersLeaveIt(started, between, k);
    ApplyConcat(q, [Start(k)] + between, [Finish(k, latency)]);
    assert [Finish(k, latency)][1..] == [];
  }

  /** One that is started and rejected has failed and records nothing. */
  lemma {:induction false} StartedAndRejected(q: QueueState, k: nat, between: seq<Event>)
    requires k < |q.tasks| && q.tasks[k].status == Waiting
    requires forall ev :: ev in between ==> ev.k != k
    ensures var op := q.tasks[k].op;
            var before, after := ApplyAll(q, [Start(k)] + between), ApplyAll(q, [Start(k)] + between + [Fail(k)]);
            && k < |before.tasks|
            && after == before.(tasks := before.tasks[k := Task(op, Failed)])
  {
    assert ([Start(k)] + between)[1..] == between;
    OthersLeaveIt(Apply(q, Start(k)), between, k);
    ApplyConcat(q, [Start(k)] + between, [Fail(k)]);
    assert [Fail(k)][1..] == [];
  }

  /** Without being started an operation waits, and once it has settled nothing more
      becomes of it. */
  lemma {:induction false} WaitsAndSettles(q: QueueState, evs: seq<Event>, k: nat)
    requires k < |q.tasks|
    requires q.tasks[k].status == Done || q.tasks[k].status == Failed ||
             (q.tasks[k].status == Waiting && Start(k) !in evs)
    ensures var q' := ApplyAll(q, evs);
            |q'.tasks| == |q.tasks| && q'.tasks[k] == q.tasks[k]
    decreases |evs|
  {
    if evs != [] {
      assert evs[0] in evs;
      WaitsAndSettles(Apply(q, evs[0]), evs[1..], k);
    }
  }
}
