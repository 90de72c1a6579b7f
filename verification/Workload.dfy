/** The YCSB workload: the cumulative weight table, the weighted draws, and the
    operations that complete concurrently. */
module Workload {
  import opened Wrappers
  import opened Arithmetic
  import opened Options

  /** A JavaScript number as far as comparing and adding goes. */
  datatype Num = NaN | Fin(r: real)

  /** A comparison with NaN is false. */
  predicate AtMost(x: Num, y: Num) {
    x.Fin? && y.Fin? && x.r <= y.r
  }

  function Plus(x: Num, y: Num): Num {
    if x.Fin? && y.Fin? then Fin(x.r + y.r) else NaN
  }

  function Times(u: real, y: Num): Num {
    if y.Fin? then Fin(u * y.r) else NaN
  }

  /** The operations by their short names; the option of each is its name followed by
      "proportion". */
  const OPERATIONS := ["read", "update", "scan", "insert"]

  datatype Share = Share(op: string, weight: Num)

  /** `options.get`, which yields `undefined` for a missing key. */
  function Get(options: map<string, OptionValue>, key: string): OptionValue {
    if key in options then options[key] else Absent
  }

  function Shares(options: map<string, OptionValue>, parseFloat: OptionValue -> Num): seq<Share> {
    seq(|OPERATIONS|, i requires 0 <= i < |OPERATIONS| =>
      Share(OPERATIONS[i], parseFloat(Get(options, OPERATIONS[i] + "proportion"))))
  }

  // ----- the weight table -----

  datatype Table = Table(operations: seq<string>, weights: seq<Num>, total: Num)

  /** What the constructor's loop has built after the given shares. */
  function BuildTable(shares: seq<Share>): (t: Table)
    ensures |t.operations| == |t.weights|
  {
    if shares == [] then Table([], [], Fin(0.0))
    else
      var t, s := BuildTable(shares[..|shares| - 1]), shares[|shares| - 1];
      if AtMost(s.weight, Fin(0.0)) then t
      else
        var total := Plus(t.total, s.weight);
        Table(t.operations + [s.op], t.weights + [total], total)
  }

  predicate AllNumbers(shares: seq<Share>) {
    forall i :: 0 <= i < |shares| ==> shares[i].weight.Fin?
  }

  function Positive(shares: seq<Share>): (kept: seq<Share>)
    requires AllNumbers(shares)
    ensures AllNumbers(kept) && forall i :: 0 <= i < |kept| ==> kept[i].weight.r > 0.0
  {
    if shares == [] then []
    else
      var kept, s := Positive(shares[..|shares| - 1]), shares[|shares| - 1];
      if s.weight.r > 0.0 then kept + [s] else kept
  }

  /** The sum of the first `j` proportions. */
  function Prefix(kept: seq<Share>, j: nat): real
    requires AllNumbers(kept) && j <= |kept|
  {
    if j == 0 then 0.0 else Prefix(kept, j - 1) + kept[j - 1].weight.r
  }

  function SumOf(kept: seq<Share>): real
    requires AllNumbers(kept)
  {
    Prefix(kept, |kept|)
  }

  lemma {:induction false} PrefixOfPush(kept: seq<Share>, s: Share, j: nat)
    requires AllNumbers(kept) && s.weight.Fin? && j <= |kept|
    ensures AllNumbers(kept + [s]) && Prefix(kept + [s], j) == Prefix(kept, j)
  {
    if j > 0 {
      PrefixOfPush(kept, s, j - 1);
    }
  }

  /** The table `t` holds the prefix sums of the shares `kept`. */
  predicate HoldsPrefixSums(t: Table, kept: seq<Share>)
    requires AllNumbers(kept)
  {
    && |t.weights| == |t.operations| == |kept|
    && t.total == Fin(SumOf(kept))
    && forall j :: 0 <= j < |kept| ==>
         t.operations[j] == kept[j].op && t.weights[j] == Fin(Prefix(kept, j + 1))
  }

  lemma PushShare(t: Table, kept: seq<Share>, s: Share)
    requires AllNumbers(kept) && s.weight.Fin? && HoldsPrefixSums(t, kept)
    ensures AllNumbers(kept + [s])
    ensures var total := Plus(t.total, s.weight);
            HoldsPrefixSums(Table(t.operations + [s.op], t.weights + [total], total), kept + [s])
  {
    forall j: nat | j <= |kept|
      ensures Prefix(kept + [s], j) == Prefix(kept, j)
    {
      PrefixOfPush(kept, s, j);
    }
  }

  /** The weights are the prefix sums of the positive proportions, in the order of
      the operations that have one, and the last is the total. */
  lemma {:induction false} TableIsPrefixSums(shares: seq<Share>)
    requires AllNumbers(shares)
    ensures HoldsPrefixSums(BuildTable(shares), Positive(shares))
  {
    if shares != [] {
      var front, s := shares[..|shares| - 1], shares[|shares| - 1];
      TableIsPrefixSums(front);
      if s.weight.r > 0.0 {
        PushShare(BuildTable(front), Positive(front), s);
      }
    }
  }

  lemma {:induction false} PrefixesIncrease(kept: seq<Share>, i: nat, j: nat)
    requires AllNumbers(kept) && i <= j <= |kept|
    requires forall k :: 0 <= k < |kept| ==> kept[k].weight.r > 0.0
    ensures Prefix(kept, i) <= Prefix(kept, j)
    ensures i < j ==> Prefix(kept, i) < Prefix(kept, j)
    decreases j
  {
    if i < j {
      PrefixesIncrease(kept, i, j - 1);
    }
  }

  /** The weights of the table increase strictly. */
  lemma WeightsIncrease(shares: seq<Share>, i: nat, j: nat)
    requires AllNumbers(shares) && i < j < |BuildTable(shares).weights|
    ensures var w := BuildTable(shares).weights;
            w[i].Fin? && w[j].Fin? && 0.0 < w[i].r < w[j].r
  {
    TableIsPrefixSums(shares);
    PrefixesIncrease(Positive(shares), 0, i + 1);
    PrefixesIncrease(Positive(shares), i + 1, j + 1);
  }

  /** One proportion that is not a number makes the total one that is not. */
  lemma {:induction false} NaNPoisonsTotal(shares: seq<Share>)
    requires !AllNumbers(shares)
    ensures BuildTable(shares).total == NaN
  {
    var front := shares[..|shares| - 1];
    if shares[|shares| - 1].weight.Fin? {
      NaNPoisonsTotal(front);
    }
  }

  // ----- drawing -----

  /** The scan from index `j` on: the first weight that the draw does not exceed. */
  function Scan(weights: seq<Num>, x: Num, j: nat): Option<nat>
    requires j <= |weights|
    decreases |weights| - j
  {
    if j == |weights| then None
    else if AtMost(x, weights[j]) then Some(j)
    else Scan(weights, x, j + 1)
  }

  lemma {:induction false} ScanIsFirst(weights: seq<Num>, x: Num, j: nat)
    requires j <= |weights|
    ensures var k := Scan(weights, x, j);
            && (k.Some? ==> j <= k.value < |weights| && AtMost(x, weights[k.value]))
            && forall i :: j <= i < (if k.Some? then k.value else |weights|) ==> !AtMost(x, weights[i])
    decreases |weights| - j
  {
    if j < |weights| && !AtMost(x, weights[j]) {
      ScanIsFirst(weights, x, j + 1);
    }
  }

  /** The scan cuts [0, total] into one interval per kept operation: operation k gets
      the draws above the weights before it up to its own, the first one also 0, and
      each interval is as long as the operation's proportion. */
  lemma DrawIsIntervalOf(shares: seq<Share>, x: real, k: nat)
    requires AllNumbers(shares) && k < |Positive(shares)|
    requires 0.0 <= x <= SumOf(Positive(shares))
    ensures var kept, found := Positive(shares), Scan(BuildTable(shares).weights, Fin(x), 0);
            && found.Some?
            && (found == Some(k) <==> (Prefix(kept, k) < x || k == 0) && x <= Prefix(kept, k + 1))
            && Prefix(kept, k + 1) - Prefix(kept, k) == kept[k].weight.r
  {
    var kept, w := Positive(shares), BuildTable(shares).weights;
    TableIsPrefixSums(shares);
    ScanIsFirst(w, Fin(x), 0);
    assert AtMost(Fin(x), w[|kept| - 1]);
    var found := Scan(w, Fin(x), 0).value;
    if found < k {
      PrefixesIncrease(kept, found + 1, k);
    } else if k < found {
      assert !AtMost(Fin(x), w[k]);
    } else if k > 0 {
      assert !AtMost(Fin(x), w[k - 1]);
    }
  }

  // ----- the queue of operations -----

  datatype Status = Waiting | InFlight | Done | Failed

  datatype Task = Task(op: string, status: Status)

  /** The queued operations and the latencies recorded so far. */
  datatype QueueState = QueueState(tasks: seq<Task>, latencies: map<string, seq<real>>)

  /** The queue starts a task; its request succeeds after a time, or fails. */
  datatype Event = Start(k: nat) | Finish(k: nat, latency: real) | Fail(k: nat)

  /** The class has a method for these operations only; running another one throws. */
  predicate Supported(op: string) {
    op == "read" || op == "update"
  }

  function Apply(q: QueueState, ev: Event): QueueState {
    if ev.k >= |q.tasks| then q
    else
      var task := q.tasks[ev.k];
      match ev
      case Start(k) =>
        if !task.status.Waiting? then q
        else q.(tasks := q.tasks[k := task.(status := if Supported(task.op) then InFlight else Failed)])
      case Finish(k, latency) =>
        if !task.status.InFlight? || task.op !in q.latencies then q
        else
          q.(tasks := q.tasks[k := task.(status := Done)],
             latencies := q.latencies[task.op := q.latencies[task.op] + [latency]])
      case Fail(k) =>
        if !task.status.InFlight? then q
        else q.(tasks := q.tasks[k := task.(status := Failed)])
  }

  function ApplyAll(q: QueueState, evs: seq<Event>): QueueState
    decreases |evs|
  {
    if evs == [] then q else ApplyAll(Apply(q, evs[0]), evs[1..])
  }

  /** The operation drawn for one value of `Math.random()`. */
  function Drawn(t: Table, u: real): (op: Option<string>)
    requires |t.operations| == |t.weights|
    ensures op.Some? ==> op.value in t.operations
  {
    var x := Times(u, t.total);
    ScanIsFirst(t.weights, x, 0);
    match Scan(t.weights, x, 0)
    case None => None
    case Some(k) => Some(t.operations[k])
  }

  /** The tasks enqueued for successive values of `Math.random()`. */
  function Enqueued(t: Table, draws: seq<real>): seq<Task>
    requires |t.operations| == |t.weights|
  {
    if draws == [] then []
    else
      var front, op := Enqueued(t, draws[..|draws| - 1]), Drawn(t, draws[|draws| - 1]);
      if op.Some? then front + [Task(op.value, Waiting)] else front
  }

  predicate UnitDraws(draws: seq<real>) {
    forall i :: 0 <= i < |draws| ==> 0.0 <= draws[i] < 1.0
  }

  lemma ScanFindsIff(shares: seq<Share>, x: Num)
    requires if AllNumbers(shares) then x.Fin? && 0.0 <= x.r <= SumOf(Positive(shares)) else x == NaN
    ensures Scan(BuildTable(shares).weights, x, 0).Some? <==> AllNumbers(shares) && Positive(shares) != []
  {
    ScanIsFirst(BuildTable(shares).weights, x, 0);
    if AllNumbers(shares) {
      TableIsPrefixSums(shares);
      if Positive(shares) != [] {
        DrawIsIntervalOf(shares, x.r, 0);
      }
    }
  }

  /** A draw picks an operation exactly when every proportion is a number and one of
      them is positive. */
  lemma {:induction false} DrawsOneIff(shares: seq<Share>, u: real)
    requires 0.0 <= u < 1.0
    ensures Drawn(BuildTable(shares), u).Some? <==> AllNumbers(shares) && Positive(shares) != []
  {
    DrawInRange(shares, u);
    ScanFindsIff(shares, Times(u, BuildTable(shares).total));
  }

  lemma {:induction false} DrawInRange(shares: seq<Share>, u: real)
    requires 0.0 <= u < 1.0
    ensures var x := Times(u, BuildTable(shares).total);
            if AllNumbers(shares) then x.Fin? && 0.0 <= x.r <= SumOf(Positive(shares)) else x == NaN
  {
    if AllNumbers(shares) {
      var sum := TotalOfTable(shares);
      TimesInRange(u, sum);
    } else {
      NaNPoisonsTotal(shares);
    }
  }

  lemma {:induction false} TotalOfTable(shares: seq<Share>) returns (sum: real)
    requires AllNumbers(shares)
    ensures sum == SumOf(Positive(shares)) && BuildTable(shares).total == Fin(sum) && sum >= 0.0
  {
    TableIsPrefixSums(shares);
    PrefixesIncrease(Positive(shares), 0, |Positive(shares)|);
    sum := SumOf(Positive(shares));
  }

  lemma TimesInRange(u: real, sum: real)
    requires 0.0 <= u < 1.0 && sum >= 0.0
    ensures Times(u, Fin(sum)).Fin? && 0.0 <= Times(u, Fin(sum)).r <= sum
  {
    var x := u * sum;
    assert Times(u, Fin(sum)) == Fin(x);
    Shrinks(u, sum);
  }

  /** `run` enqueues one operation per draw exactly when every proportion is a number
      and one of them is positive; otherwise it enqueues none at all. */
  lemma {:induction false} EnqueuesAllIff(shares: seq<Share>, draws: seq<real>)
    requires UnitDraws(draws)
    ensures var tasks := Enqueued(BuildTable(shares), draws);
            if AllNumbers(shares) && Positive(shares) != [] then |tasks| == |draws| else tasks == []
  {
    if draws != [] {
      EnqueuesAllIff(shares, draws[..|draws| - 1]);
      DrawsOneIff(shares, draws[|draws| - 1]);
    }
  }

  // ----- accounting -----

  function CountStatus(tasks: seq<Task>, st: Status): nat {
    if tasks == [] then 0
    else CountStatus(tasks[..|tasks| - 1], st) + (if tasks[|tasks| - 1].status == st then 1 else 0)
  }

  function CountDone(tasks: seq<Task>, op: string): nat {
    if tasks == [] then 0
    else CountDone(tasks[..|tasks| - 1], op) + (if tasks[|tasks| - 1] == Task(op, Done) then 1 else 0)
  }

  /** The reporter's total. */
  function TotalOps(operations: seq<string>, latencies: map<string, seq<real>>): nat
    requires forall i :: 0 <= i < |operations| ==> operations[i] in latencies
  {
    if operations == [] then 0
    else
      var n := |operations| - 1;
      TotalOps(operations[..n], latencies) + |latencies[operations[n]]|
  }

  predicate Distinct(operations: seq<string>) {
    forall i, j :: 0 <= i < j < |operations| ==> operations[i] != operations[j]
  }

  /** Every list of latencies belongs to a kept operation, every task is of one, and
      each list holds one entry per completed task of its own operation. */
  ghost predicate Accounted(operations: seq<string>, q: QueueState) {
    && Distinct(operations)
    && (forall op :: op in q.latencies <==> op in operations)
    && (forall k :: 0 <= k < |q.tasks| ==> q.tasks[k].op in operations)
    && (forall op :: op in q.latencies ==> |q.latencies[op]| == CountDone(q.tasks, op))
  }

  lemma {:induction false} CountsAfterUpdate(tasks: seq<Task>, k: nat, st: Status, op: string)
    requires k < |tasks| && tasks[k].status != Done
    ensures CountDone(tasks[k := tasks[k].(status := st)], op) ==
            CountDone(tasks, op) + (if st == Done && tasks[k].op == op then 1 else 0)
  {
    var n := |tasks| - 1;
    var task := tasks[k].(status := st);
    if k < n {
      assert tasks[k := task][..n] == tasks[..n][k := task];
      CountsAfterUpdate(tasks[..n], k, st, op);
    } else {
      assert tasks[k := task][..n] == tasks[..n];
    }
  }

  lemma ApplyAccounted(operations: seq<string>, q: QueueState, ev: Event)
    requires Accounted(operations, q)
    ensures Accounted(operations, Apply(q, ev))
    ensures |Apply(q, ev).tasks| == |q.tasks|
  {
    var q' := Apply(q, ev);
    if q' != q {
      var st := q'.tasks[ev.k].status;
      forall op | op in q'.latencies
        ensures |q'.latencies[op]| == CountDone(q'.tasks, op)
      {
        CountsAfterUpdate(q.tasks, ev.k, st, op);
      }
    }
  }

  lemma {:induction false} RunAccounted(operations: seq<string>, q: QueueState, evs: seq<Event>)
    requires Accounted(operations, q)
    ensures Accounted(operations, ApplyAll(q, evs))
    ensures |ApplyAll(q, evs).tasks| == |q.tasks|
    decreases |evs|
  {
    if evs != [] {
      ApplyAccounted(operations, q, evs[0]);
      RunAccounted(operations, Apply(q, evs[0]), evs[1..]);
    }
  }

  /** Only supported operations ever get under way. */
  predicate OnlySupportedRun(tasks: seq<Task>) {
    forall k :: 0 <= k < |tasks| && (tasks[k].status == InFlight || tasks[k].status == Done) ==>
      Supported(tasks[k].op)
  }

  lemma {:induction false} RunOnlySupported(q: QueueState, evs: seq<Event>)
    requires OnlySupportedRun(q.tasks)
    ensures OnlySupportedRun(ApplyAll(q, evs).tasks)
    decreases |evs|
  {
    if evs != [] {
      RunOnlySupported(Apply(q, evs[0]), evs[1..]);
    }
  }

  lemma {:induction false} UnsupportedNeverDone(tasks: seq<Task>, op: string)
    requires OnlySupportedRun(tasks) && !Supported(op)
    ensures CountDone(tasks, op) == 0
  {
    if tasks != [] {
      UnsupportedNeverDone(tasks[..|tasks| - 1], op);
    }
  }

  function DonePerOperation(operations: seq<string>, tasks: seq<Task>): nat {
    if operations == [] then 0
    else
      var n := |operations| - 1;
      DonePerOperation(operations[..n], tasks) + CountDone(tasks, operations[n])
  }

  /** One more task counts once if it is done and of one of these operations. */
  lemma {:induction false} DoneOneMore(operations: seq<string>, tasks: seq<Task>, task: Task)
    requires Distinct(operations)
    ensures DonePerOperation(operations, tasks + [task]) ==
            DonePerOperation(operations, tasks) +
            (if task.status == Done && task.op in operations then 1 else 0)
  {
    if operations != [] {
      var n := |operations| - 1;
      assert operations == operations[..n] + [operations[n]];
      DoneOneMore(operations[..n], tasks, task);
      assert (tasks + [task])[..|tasks|] == tasks;
    }
  }

  lemma {:induction false} DoneOfNoTasks(operations: seq<string>)
    ensures DonePerOperation(operations, []) == 0
  {
    if operations != [] {
      DoneOfNoTasks(operations[..|operations| - 1]);
    }
  }

  lemma {:induction false} DoneTwice(operations: seq<string>, tasks: seq<Task>)
    requires Distinct(operations)
    requires forall k :: 0 <= k < |tasks| ==> tasks[k].op in operations
    ensures DonePerOperation(operations, tasks) == CountStatus(tasks, Done)
    decreases |tasks|
  {
    if tasks == [] {
      DoneOfNoTasks(operations);
    } else {
      var n := |tasks| - 1;
      assert tasks == tasks[..n] + [tasks[n]];
      DoneTwice(operations, tasks[..n]);
      DoneOneMore(operations, tasks[..n], tasks[n]);
    }
  }

  lemma {:induction false} TotalIsDone(operations: seq<string>, q: QueueState)
    requires forall i :: 0 <= i < |operations| ==>
               operations[i] in q.latencies && |q.latencies[operations[i]]| == CountDone(q.tasks, operations[i])
    ensures TotalOps(operations, q.latencies) == DonePerOperation(operations, q.tasks)
  {
    if operations != [] {
      TotalIsDone(operations[..|operations| - 1], q);
    }
  }

  lemma {:induction false} StatusesPartition(tasks: seq<Task>)
    ensures CountStatus(tasks, Waiting) + CountStatus(tasks, InFlight) +
            CountStatus(tasks, Done) + CountStatus(tasks, Failed) == |tasks|
  {
    if tasks != [] {
      StatusesPartition(tasks[..|tasks| - 1]);
    }
  }

  /** Conservation: waiting, in flight, failed and recorded operations add up to the
      enqueued ones. */
  lemma Conservation(operations: seq<string>, q: QueueState)
    requires Accounted(operations, q)
    ensures CountStatus(q.tasks, Waiting) + CountStatus(q.tasks, InFlight) +
            CountStatus(q.tasks, Failed) + TotalOps(operations, q.latencies) == |q.tasks|
  {
    TotalIsDone(operations, q);
    DoneTwice(operations, q.tasks);
    StatusesPartition(q.tasks);
  }

  predicate Idle(tasks: seq<Task>) {
    CountStatus(tasks, Waiting) == 0 && CountStatus(tasks, InFlight) == 0
  }

  function EmptyLists(operations: seq<string>): map<string, seq<real>> {
    map op | op in operations :: []
  }

  predicate DistinctShares(shares: seq<Share>) {
    forall i, j :: 0 <= i < j < |shares| ==> shares[i].op != shares[j].op
  }

  predicate HasOp(shares: seq<Share>, op: string) {
    exists i :: 0 <= i < |shares| && shares[i].op == op
  }

  lemma {:induction false} TableOperations(shares: seq<Share>)
    requires DistinctShares(shares)
    ensures var ops := BuildTable(shares).operations;
            Distinct(ops) && forall k :: 0 <= k < |ops| ==> HasOp(shares, ops[k])
  {
    if shares != [] {
      var n := |shares| - 1;
      TableOperations(shares[..n]);
      var before, ops := BuildTable(shares[..n]).operations, BuildTable(shares).operations;
      forall k | 0 <= k < |before|
        ensures HasOp(shares, before[k]) && before[k] != shares[n].op
      {
        assert HasOp(shares[..n], before[k]);
        var i :| 0 <= i < n && shares[..n][i].op == before[k];
        assert shares[i].op == before[k];
      }
    }
  }

  predicate Queued(operations: seq<string>, tasks: seq<Task>) {
    forall k :: 0 <= k < |tasks| ==> tasks[k].op in operations && tasks[k].status == Waiting
  }

  lemma {:induction false} EnqueuedTasks(t: Table, draws: seq<real>)
    requires |t.operations| == |t.weights|
    ensures Queued(t.operations, Enqueued(t, draws))
  {
    if draws != [] {
      EnqueuedTasks(t, draws[..|draws| - 1]);
    }
  }

  lemma {:induction false} NoneDoneYet(operations: seq<string>, tasks: seq<Task>, op: string)
    requires Queued(operations, tasks)
    ensures CountDone(tasks, op) == 0
  {
    if tasks != [] {
      NoneDoneYet(operations, tasks[..|tasks| - 1], op);
    }
  }

  /** What `run` has just enqueued balances with the empty lists. */
  lemma EnqueuedAccounted(t: Table, draws: seq<real>)
    requires |t.operations| == |t.weights| && Distinct(t.operations)
    ensures Accounted(t.operations, QueueState(Enqueued(t, draws), EmptyLists(t.operations)))
  {
    EnqueuedTasks(t, draws);
    forall op | op in t.operations
      ensures CountDone(Enqueued(t, draws), op) == 0
    {
      NoneDoneYet(t.operations, Enqueued(t, draws), op);
    }
  }

  lemma OperationsDistinct(options: map<string, OptionValue>, parseFloat: OptionValue -> Num)
    ensures DistinctShares(Shares(options, parseFloat))
  {
    assert "read"[0] == 'r' && "scan"[0] == 's';
    assert "update"[0] == 'u' && "insert"[0] == 'i';
  }

  /** How often a loop `i < n` from 0 runs; no index is below NaN, here `None`. */
  function Rounds(n: Option<int>): nat {
    if n.Some? && n.value > 0 then n.value else 0
  }

  /** The first `n` values of `Math.random()`. */
  function Draws(random: nat -> real, n: nat): seq<real> {
    seq(n, i requires i >= 0 => random(i))
  }

  ghost predicate Unit(random: nat -> real) {
    forall i: nat :: 0.0 <= random(i) < 1.0
  }

  /** What the options and the random numbers fix before the queue starts. */
  datatype Plan = Plan(shares: seq<Share>, table: Table, count: nat, draws: seq<real>)

  function PlanOf(options: map<string, OptionValue>, parseFloat: OptionValue -> Num,
                  parseInt: OptionValue -> Option<int>, random: nat -> real): Plan
  {
    var shares, count := Shares(options, parseFloat), Rounds(parseInt(Get(options, "operationcount")));
    Plan(shares, BuildTable(shares), count, Draws(random, count))
  }

  /** Every proportion is a number and one of them is positive. */
  predicate Usable(shares: seq<Share>) {
    AllNumbers(shares) && Positive(shares) != []
  }

  /** The queue after the given events. */
  function QueueAfter(plan: Plan, evs: seq<Event>): QueueState
    requires |plan.table.operations| == |plan.table.weights|
  {
    ApplyAll(QueueState(Enqueued(plan.table, plan.draws), EmptyLists(plan.table.operations)), evs)
  }

  /** A whole benchmark: from any options and random numbers, in every state the
      concurrent queue can reach the books balance over the configured number of
      operations, and once it is idle the total is that number less the failed ones,
      provided the proportions are usable; otherwise nothing was ever enqueued. Only
      reads and updates ever record a latency. */
  lemma {:induction false} WholeRun(options: map<string, OptionValue>, parseFloat: OptionValue -> Num,
                                    parseInt: OptionValue -> Option<int>, random: nat -> real, evs: seq<Event>)
    requires Unit(random)
    ensures var plan := PlanOf(options, parseFloat, parseInt, random);
            var t, q := plan.table, QueueAfter(plan, evs);
            && Accounted(t.operations, q)
            && (Usable(plan.shares) ==>
                  CountStatus(q.tasks, Waiting) + CountStatus(q.tasks, InFlight) +
                  CountStatus(q.tasks, Failed) + TotalOps(t.operations, q.latencies) == plan.count)
            && (!Usable(plan.shares) ==> q.tasks == [] && TotalOps(t.operations, q.latencies) == 0)
            && (Usable(plan.shares) && Idle(q.tasks) ==>
                  TotalOps(t.operations, q.latencies) == plan.count - CountStatus(q.tasks, Failed))
            && (forall op :: op in q.latencies && op != "read" && op != "update" ==> q.latencies[op] == [])
  {
    var plan := PlanOf(options, parseFloat, parseInt, random);
    var t := plan.table;
    OperationsDistinct(options, parseFloat);
    TableOperations(plan.shares);
    EnqueuedAccounted(t, plan.draws);
    EnqueuesAllIff(plan.shares, plan.draws);
    var q0 := QueueState(Enqueued(t, plan.draws), EmptyLists(t.operations));
    RunAccounted(t.operations, q0, evs);
    var q := ApplyAll(q0, evs);
    Conservation(t.operations, q);
    EnqueuedTasks(t, plan.draws);
    RunOnlySupported(q0, evs);
    forall op | op in q.latencies && op != "read" && op != "update"
      ensures q.latencies[op] == []
    {
      UnsupportedNeverDone(q.tasks, op);
    }
  }

  // ----- the class -----

  class Workload {
    const options: map<string, OptionValue>
    var weights: seq<Num>
    var totalWeight: Num
    var operations: seq<string>
    var latencies: map<string, seq<real>>
    var tasks: seq<Task>

    ghost function TheTable(): Table
      reads this
    {
      Table(operations, weights, totalWeight)
    }

    ghost function TheQueue(): QueueState
      reads this
    {
      QueueState(tasks, latencies)
    }

    ghost predicate Valid()
      reads this
    {
      |operations| == |weights| && Accounted(operations, TheQueue())
    }

    constructor (options: map<string, OptionValue>, parseFloat: OptionValue -> Num)
      ensures Valid() && this.options == options
      ensures TheTable() == BuildTable(Shares(options, parseFloat))
      ensures TheQueue() == QueueState([], EmptyLists(operations))
    {
      var weights, operations := [], [];
      var latencies: map<string, seq<real>> := map[];
      var totalWeight := Fin(0.0);
      ghost var shares := Shares(options, parseFloat);
      for i := 0 to |OPERATIONS|
        invariant Table(operations, weights, totalWeight) == BuildTable(shares[..i])
        invariant latencies == EmptyLists(operations)
      {
        assert shares[..i + 1][..i] == shares[..i];
        var weight := parseFloat(Get(options, OPERATIONS[i] + "proportion"));
        if AtMost(weight, Fin(0.0)) {
          continue;
        }
        operations := operations + [OPERATIONS[i]];
        latencies := latencies[OPERATIONS[i] := []];
        totalWeight := Plus(totalWeight, weight);
        weights := weights + [totalWeight];
      }
      assert shares[..|OPERATIONS|] == shares;
      OperationsDistinct(options, parseFloat);
      TableOperations(shares);
      this.options := options;
      this.weights, this.operations, this.latencies := weights, operations, latencies;
      this.totalWeight := totalWeight;
      tasks := [];
    }

    /** The loops of `run`. */
    method Run(parseInt: OptionValue -> Option<int>, random: nat -> real)
      requires Valid()
      modifies this`tasks
      ensures Valid()
      ensures var count := Rounds(parseInt(Get(options, "operationcount")));
              tasks == old(tasks) + Enqueued(TheTable(), Draws(random, count))
    {
      var operationCount := parseInt(Get(options, "operationcount"));
      ghost var draws := Draws(random, Rounds(operationCount));
      var i := 0;
      while operationCount.Some? && i < operationCount.value
        invariant 0 <= i <= |draws|
        invariant tasks == old(tasks) + Enqueued(TheTable(), draws[..i])
      {
        assert draws[..i + 1][..i] == draws[..i];
        var randomWeight := Times(random(i), totalWeight);
        ghost var before := tasks;
        var j := 0;
        while j < |weights|
          invariant 0 <= j <= |weights|
          invariant tasks == before
          invariant Scan(weights, randomWeight, 0) == Scan(weights, randomWeight, j)
          decreases |weights| - j
        {
          if AtMost(randomWeight, weights[j]) {
            tasks := tasks + [Task(operations[j], Waiting)];
            break;
          }
          j := j + 1;
        }
        i := i + 1;
      }
      assert draws[..|draws|] == draws;
      EnqueuedTasks(TheTable(), draws);
      forall op | op in operations
        ensures CountDone(tasks, op) == CountDone(old(tasks), op)
      {
        NoneDoneYet(operations, Enqueued(TheTable(), draws), op);
        CountDoneConcat(old(tasks), Enqueued(TheTable(), draws), op);
      }
    }

    /** The queue runs task `k`: `runOperation` up to the request, or its throw. */
    method StartTask(k: nat)
      requires Valid() && k < |tasks| && tasks[k].status == Waiting
      modifies this`tasks
      ensures Valid() && TheQueue() == Apply(old(TheQueue()), Start(k))
    {
      ApplyAccounted(operations, TheQueue(), Start(k));
      if Supported(tasks[k].op) {
        tasks := tasks[k := tasks[k].(status := InFlight)];
      } else {
        tasks := tasks[k := tasks[k].(status := Failed)];
      }
    }

    /** The `then` of `runOperation`. */
    method FinishTask(k: nat, latency: real)
      requires Valid() && k < |tasks| && tasks[k].status == InFlight
      modifies this`tasks, this`latencies
      ensures Valid() && TheQueue() == Apply(old(TheQueue()), Finish(k, latency))
      ensures latencies == old(latencies)[tasks[k].op := old(latencies)[tasks[k].op] + [latency]]
    {
      ApplyAccounted(operations, TheQueue(), Finish(k, latency));
      var op := tasks[k].op;
      latencies := latencies[op := latencies[op] + [latency]];
      tasks := tasks[k := Task(op, Done)];
    }

    method FailTask(k: nat)
      requires Valid() && k < |tasks| && tasks[k].status == InFlight
      modifies this`tasks
      ensures Valid() && TheQueue() == Apply(old(TheQueue()), Fail(k))
    {
      ApplyAccounted(operations, TheQueue(), Fail(k));
      tasks := tasks[k := tasks[k].(status := Failed)];
    }
  }

  lemma {:induction false} CountDoneConcat(a: seq<Task>, b: seq<Task>, op: string)
    ensures CountDone(a + b, op) == CountDone(a, op) + CountDone(b, op)
  {
    if b == [] {
      assert a + b == a;
    } else {
      var n := |b| - 1;
      assert (a + b)[..|a| + n] == a + b[..n];
      CountDoneConcat(a, b[..n], op);
    }
  }
}
