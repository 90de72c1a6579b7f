/** The batch sample: partitions are executed at once and their rows are counted by
    completions that arrive in any order. */
module FanIn {
  import opened Wrappers
  import opened Arithmetic

  datatype Status = Pending | Succeeded | Rejected

  /** `reported` is the count printed once `Promise.all` resolves. */
  datatype State = State(rows: seq<nat>, status: seq<Status>, rowCount: int, reported: Option<int>)

  datatype Event = Succeed(i: nat) | Reject(i: nat)

  predicate AllSucceeded(status: seq<Status>) {
    forall i :: 0 <= i < |status| ==> status[i] == Succeeded
  }

  /** `Promise.all` of no promises resolves at once. */
  function Begin(rows: seq<nat>): State {
    State(rows, seq(|rows|, _ => Pending), 0, if rows == [] then Some(0) else None)
  }

  /** A promise settles once. */
  function Step(s: State, ev: Event): State
    requires |s.status| == |s.rows|
  {
    if ev.i >= |s.status| || s.status[ev.i] != Pending then s
    else if ev.Reject? then s.(status := s.status[ev.i := Rejected])
    else
      var status := s.status[ev.i := Succeeded];
      var rowCount := s.rowCount + s.rows[ev.i];
      State(s.rows, status, rowCount, if AllSucceeded(status) then Some(rowCount) else s.reported)
  }

  function Run(s: State, evs: seq<Event>): (s': State)
    requires |s.status| == |s.rows|
    ensures |s'.status| == |s'.rows| && s'.rows == s.rows
    decreases |evs|
  {
    if evs == [] then s else Run(Step(s, evs[0]), evs[1..])
  }

  function SucceededRows(rows: seq<nat>, status: seq<Status>): nat
    requires |rows| == |status|
  {
    if rows == [] then 0
    else
      var n := |rows| - 1;
      SucceededRows(rows[..n], status[..n]) + (if status[n] == Succeeded then rows[n] else 0)
  }

  lemma {:induction false} SettleOne(rows: seq<nat>, status: seq<Status>, i: nat, st: Status)
    requires |rows| == |status| && i < |rows| && status[i] == Pending
    ensures SucceededRows(rows, status[i := st]) ==
            SucceededRows(rows, status) + (if st == Succeeded then rows[i] else 0)
  {
    var n := |rows| - 1;
    if i < n {
      assert status[i := st][..n] == status[..n][i := st];
      SettleOne(rows[..n], status[..n], i, st);
    } else {
      assert status[i := st][..n] == status[..n];
    }
  }

  lemma {:induction false} AllRows(rows: seq<nat>, status: seq<Status>)
    requires |rows| == |status| && AllSucceeded(status)
    ensures SucceededRows(rows, status) == Sum(rows)
  {
    if rows != [] {
      AllRows(rows[..|rows| - 1], status[..|rows| - 1]);
    }
  }

  predicate Counted(s: State) {
    && |s.status| == |s.rows|
    && s.rowCount == SucceededRows(s.rows, s.status)
    && s.reported == (if AllSucceeded(s.status) then Some(Sum(s.rows)) else None)
  }

  lemma StepCounted(s: State, ev: Event)
    requires Counted(s)
    ensures Counted(Step(s, ev))
  {
    var s' := Step(s, ev);
    if s' != s {
      SettleOne(s.rows, s.status, ev.i, s'.status[ev.i]);
      assert s.status[ev.i] == Pending;
      if AllSucceeded(s'.status) {
        AllRows(s.rows, s'.status);
      }
    }
  }

  lemma {:induction false} RunCounted(s: State, evs: seq<Event>)
    requires Counted(s)
    ensures Counted(Run(s, evs))
    decreases |evs|
  {
    if evs != [] {
      StepCounted(s, evs[0]);
      RunCounted(Step(s, evs[0]), evs[1..]);
    }
  }

  lemma {:induction false} NoneSucceeded(rows: seq<nat>)
    ensures SucceededRows(rows, seq(|rows|, _ => Pending)) == 0
  {
    if rows != [] {
      var n := |rows| - 1;
      assert seq(n + 1, _ => Pending)[..n] == seq(n, _ => Pending);
      NoneSucceeded(rows[..n]);
    }
  }

  /** The first event of partition `i` settles it; there may be none. */
  function FirstOf(evs: seq<Event>, i: nat): Option<Event> {
    if evs == [] then None else if evs[0].i == i then Some(evs[0]) else FirstOf(evs[1..], i)
  }

  function StatusFrom(ev: Option<Event>): Status {
    match ev
    case None => Pending
    case Some(Succeed(_)) => Succeeded
    case Some(Reject(_)) => Rejected
  }

  lemma {:induction false} FirstSettles(s: State, evs: seq<Event>, i: nat)
    requires |s.status| == |s.rows| && i < |s.rows|
    ensures Run(s, evs).status[i] == if s.status[i] == Pending then StatusFrom(FirstOf(evs, i)) else s.status[i]
    decreases |evs|
  {
    if evs != [] {
      FirstSettles(Step(s, evs[0]), evs[1..], i);
    }
  }

  /** The rows of the partitions among the first `n` that succeed in a run. */
  function RowsOf(rows: seq<nat>, evs: seq<Event>, n: nat): nat
    requires n <= |rows|
  {
    if n == 0 then 0
    else RowsOf(rows, evs, n - 1) + (if FirstOf(evs, n - 1) == Some(Succeed(n - 1)) then rows[n - 1] else 0)
  }

  lemma {:induction false} FirstIsOf(evs: seq<Event>, i: nat)
    ensures FirstOf(evs, i).Some? ==> FirstOf(evs, i).value.i == i
  {
    if evs != [] {
      FirstIsOf(evs[1..], i);
    }
  }

  lemma {:induction false} SucceededAre(rows: seq<nat>, status: seq<Status>, evs: seq<Event>, n: nat)
    requires n <= |rows| == |status|
    requires forall i: nat :: i < n ==> status[i] == StatusFrom(FirstOf(evs, i))
    ensures SucceededRows(rows[..n], status[..n]) == RowsOf(rows, evs, n)
  {
    if n > 0 {
      assert rows[..n][..n - 1] == rows[..n - 1] && status[..n][..n - 1] == status[..n - 1];
      FirstIsOf(evs, n - 1);
      SucceededAre(rows, status, evs, n - 1);
    }
  }

  /** Whatever the order of completions, the running count is the rows of the
      partitions whose own first event is a success; a count is printed exactly when
      that is all of them, and it is then the number of rows of all partitions. Two
      runs in which every partition settles alike agree. */
  lemma {:induction false} EveryOrderCounts(rows: seq<nat>, evs: seq<Event>, evs': seq<Event>)
    ensures var s := Run(Begin(rows), evs);
            && s.rowCount == RowsOf(rows, evs, |rows|)
            && s.reported == (if forall i: nat :: i < |rows| ==> FirstOf(evs, i) == Some(Succeed(i))
                              then Some(Sum(rows)) else None)
            && ((forall i: nat :: i < |rows| ==> FirstOf(evs', i) == FirstOf(evs, i)) ==> Run(Begin(rows), evs') == s)
  {
    var s := Run(Begin(rows), evs);
    BeginCounted(rows);
    RunCounted(Begin(rows), evs);
    RunCounted(Begin(rows), evs');
    forall i: nat | i < |rows|
      ensures s.status[i] == StatusFrom(FirstOf(evs, i))
      ensures Run(Begin(rows), evs').status[i] == StatusFrom(FirstOf(evs', i))
      ensures s.status[i] == Succeeded <==> FirstOf(evs, i) == Some(Succeed(i))
    {
      FirstSettles(Begin(rows), evs, i);
      FirstSettles(Begin(rows), evs', i);
      FirstIsOf(evs, i);
    }
    SucceededAre(rows, s.status, evs, |rows|);
    assert rows[..|rows|] == rows && s.status[..|rows|] == s.status;
    if forall i: nat :: i < |rows| ==> FirstOf(evs', i) == FirstOf(evs, i) {
      assert Run(Begin(rows), evs').status == s.status;
    }
  }

  lemma {:induction false} BeginCounted(rows: seq<nat>)
    ensures Counted(Begin(rows))
  {
    NoneSucceeded(rows);
    if rows != [] {
      assert Begin(rows).status[0] == Pending;
    }
  }
}
