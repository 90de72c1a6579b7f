/** The interleaved loops of the multiplexed session benchmark, which all push onto
    the same two arrays. */
module Threads {
  import opened Arithmetic

  /** An array entry, with the thread that pushed it. */
  datatype Entry = Entry(thread: nat, time: real)

  datatype Thread = Running(done: nat) | Finished | Rejected(done: nat)

  datatype State = State(
    numQueries: int,
    threads: seq<Thread>,
    transactionTimes: seq<Entry>,
    threadTimes: seq<Entry>)

  /** The transaction a thread is waiting for succeeds or fails. */
  datatype Event = Complete(t: nat, time: real, threadTime: real) | Reject(t: nat)

  function Iterations(s: State): nat {
    if s.numQueries < 0 then 0 else s.numQueries
  }

  /** `runConcurrently` starts every thread before any of them can go on; with no
      queries to run a thread is through at once, after the given time. */
  method RunConcurrently(numQueries: int, times: seq<real>) returns (s: State)
    ensures s == Launch(numQueries, times)
  {
    var threads: seq<Thread>, threadTimes: seq<Entry> := [], [];
    for i := 0 to |times|
      invariant State(numQueries, threads, [], threadTimes) == Launch(numQueries, times[..i])
    {
      if 0 < numQueries {
        threads := threads + [Running(0)];
      } else {
        threads := threads + [Finished];
        threadTimes := threadTimes + [Entry(i, times[i])];
      }
      assert times[..i + 1][..i] == times[..i];
    }
    assert times[..|times|] == times;
    s := State(numQueries, threads, [], threadTimes);
  }

  function Launch(numQueries: int, times: seq<real>): (s: State)
    ensures |s.threads| == |times|
    ensures s.transactionTimes == [] && s.numQueries == numQueries
  {
    if times == [] then State(numQueries, [], [], [])
    else
      var n := |times| - 1;
      var s := Launch(numQueries, times[..n]);
      if 0 < numQueries then s.(threads := s.threads + [Running(0)])
      else s.(threads := s.threads + [Finished], threadTimes := s.threadTimes + [Entry(n, times[n])])
  }

  /** From one `await` to the next: the transaction's time is pushed, and after the
      last one the thread's. */
  function Step(s: State, ev: Event): State {
    if ev.t >= |s.threads| || !s.threads[ev.t].Running? then s
    else
      var done := s.threads[ev.t].done;
      match ev
      case Reject(t) => s.(threads := s.threads[t := Rejected(done)])
      case Complete(t, time, threadTime) =>
        var s' := s.(transactionTimes := s.transactionTimes + [Entry(t, time)]);
        if done + 1 < s.numQueries then s'.(threads := s.threads[t := Running(done + 1)])
        else s'.(threads := s.threads[t := Finished], threadTimes := s.threadTimes + [Entry(t, threadTime)])
  }

  function Run(s: State, evs: seq<Event>): State
    decreases |evs|
  {
    if evs == [] then s else Run(Step(s, evs[0]), evs[1..])
  }

  function DoneBy(th: Thread, n: nat): nat {
    if th.Finished? then n else th.done
  }

  function TotalDone(threads: seq<Thread>, n: nat): nat {
    if threads == [] then 0 else TotalDone(threads[..|threads| - 1], n) + DoneBy(threads[|threads| - 1], n)
  }

  function CountFinished(threads: seq<Thread>): nat {
    if threads == [] then 0
    else CountFinished(threads[..|threads| - 1]) + (if threads[|threads| - 1].Finished? then 1 else 0)
  }

  function PushedBy(entries: seq<Entry>, t: nat): nat {
    if entries == [] then 0
    else PushedBy(entries[..|entries| - 1], t) + (if entries[|entries| - 1].thread == t then 1 else 0)
  }

  lemma PushedByPush(entries: seq<Entry>, e: Entry, t: nat)
    ensures PushedBy(entries + [e], t) == PushedBy(entries, t) + (if e.thread == t then 1 else 0)
  {
    assert (entries + [e])[..|entries|] == entries;
  }

  /** One entry per completed iteration, from each thread and in all, and one per
      finished thread. */
  predicate Accounted(s: State) {
    var n := Iterations(s);
    && (forall t :: 0 <= t < |s.threads| ==>
          && PushedBy(s.transactionTimes, t) == DoneBy(s.threads[t], n)
          && PushedBy(s.threadTimes, t) == (if s.threads[t].Finished? then 1 else 0)
          && (!s.threads[t].Finished? ==> s.threads[t].done < n))
    && |s.transactionTimes| == TotalDone(s.threads, n)
    && |s.threadTimes| == CountFinished(s.threads)
  }

  lemma {:induction false} TotalsAfterUpdate(threads: seq<Thread>, i: nat, th: Thread, n: nat)
    requires i < |threads|
    ensures TotalDone(threads[i := th], n) == TotalDone(threads, n) - DoneBy(threads[i], n) + DoneBy(th, n)
    ensures CountFinished(threads[i := th]) ==
            CountFinished(threads) - (if threads[i].Finished? then 1 else 0) + (if th.Finished? then 1 else 0)
  {
    var k := |threads| - 1;
    if i < k {
      assert threads[i := th][..k] == threads[..k][i := th];
      TotalsAfterUpdate(threads[..k], i, th, n);
    } else {
      assert threads[i := th][..k] == threads[..k];
    }
  }

  /** Right after the launch every thread waits for its first transaction, or with
      nothing to run is through and has pushed its time. */
  lemma {:induction false} LaunchThreads(numQueries: int, times: seq<real>, t: nat)
    ensures var s := Launch(numQueries, times);
            && PushedBy(s.threadTimes, t) == (if t < |times| && numQueries <= 0 then 1 else 0)
            && (t < |times| ==> s.threads[t] == if 0 < numQueries then Running(0) else Finished)
  {
    if times != [] {
      var n := |times| - 1;
      LaunchThreads(numQueries, times[..n], t);
      PushedByPush(Launch(numQueries, times[..n]).threadTimes, Entry(n, times[n]), t);
    }
  }

  lemma {:induction false} LaunchTotals(numQueries: int, times: seq<real>)
    ensures var s := Launch(numQueries, times);
            && TotalDone(s.threads, Iterations(s)) == 0
            && CountFinished(s.threads) == |s.threadTimes|
  {
    if times != [] {
      var n := |times| - 1;
      LaunchTotals(numQueries, times[..n]);
      assert Launch(numQueries, times).threads[..n] == Launch(numQueries, times[..n]).threads;
    }
  }

  lemma LaunchAccounted(numQueries: int, times: seq<real>)
    ensures Accounted(Launch(numQueries, times))
  {
    LaunchTotals(numQueries, times);
    forall t: nat | t < |times| {
      LaunchThreads(numQueries, times, t);
    }
  }

  lemma StepAccounted(s: State, ev: Event)
    requires Accounted(s)
    ensures Accounted(Step(s, ev))
  {
    var s' := Step(s, ev);
    if s' != s {
      TotalsAfterUpdate(s.threads, ev.t, s'.threads[ev.t], Iterations(s));
      assert s'.threads == s.threads[ev.t := s'.threads[ev.t]];
      if ev.Complete? {
        forall t: nat | t < |s.threads|
          ensures PushedBy(s'.transactionTimes, t) == PushedBy(s.transactionTimes, t) + (if t == ev.t then 1 else 0)
          ensures PushedBy(s.threadTimes + [Entry(ev.t, ev.threadTime)], t)
               == PushedBy(s.threadTimes, t) + (if t == ev.t then 1 else 0)
        {
          PushedByPush(s.transactionTimes, Entry(ev.t, ev.time), t);
          PushedByPush(s.threadTimes, Entry(ev.t, ev.threadTime), t);
        }
      }
    }
  }

  lemma {:induction false} RunAccounted(s: State, evs: seq<Event>)
    requires Accounted(s)
    ensures Accounted(Run(s, evs))
    ensures Run(s, evs).numQueries == s.numQueries && |Run(s, evs).threads| == |s.threads|
    decreases |evs|
  {
    if evs != [] {
      StepAccounted(s, evs[0]);
      RunAccounted(Step(s, evs[0]), evs[1..]);
    }
  }

  lemma {:induction false} TotalsWhenFinished(threads: seq<Thread>, n: nat)
    requires forall th :: th in threads ==> th.Finished?
    ensures TotalDone(threads, n) == |threads| * n
    ensures CountFinished(threads) == |threads|
  {
    if threads != [] {
      TotalsWhenFinished(threads[..|threads| - 1], n);
      assert |threads| * n == (|threads| - 1) * n + n;
    }
  }

  /** In every reachable state the two arrays account for every thread's progress;
      once all threads have finished they hold numThreads*numQueries times and one
      per thread. */
  lemma EveryRunAccounted(numQueries: int, times: seq<real>, evs: seq<Event>)
    ensures var s := Run(Launch(numQueries, times), evs);
            && Accounted(s)
            && ((forall th :: th in s.threads ==> th.Finished?) ==>
                  && |s.transactionTimes| == |times| * Iterations(s)
                  && |s.threadTimes| == |times|)
  {
    LaunchAccounted(numQueries, times);
    RunAccounted(Launch(numQueries, times), evs);
    var s := Run(Launch(numQueries, times), evs);
    if forall th :: th in s.threads ==> th.Finished? {
      TotalsWhenFinished(s.threads, Iterations(s));
    }
  }

  // ----- no thread disturbs another's times -----

  /** The times a thread has pushed, in order. */
  function TimesOf(entries: seq<Entry>, t: nat): seq<real> {
    if entries == [] then []
    else
      var n := |entries| - 1;
      TimesOf(entries[..n], t) + (if entries[n].thread == t then [entries[n].time] else [])
  }

  lemma TimesOfPush(entries: seq<Entry>, e: Entry, t: nat)
    ensures TimesOf(entries + [e], t) == TimesOf(entries, t) + (if e.thread == t then [e.time] else [])
  {
    assert (entries + [e])[..|entries|] == entries;
  }

  /** What a thread running by itself would push, given only its own events. */
  function Alone(th: Thread, n: nat, t: nat, evs: seq<Event>): seq<real>
    decreases |evs|
  {
    if evs == [] || !th.Running? then []
    else if evs[0].t != t then Alone(th, n, t, evs[1..])
    else
      match evs[0]
      case Reject(_) => []
      case Complete(_, time, _) =>
        [time] + Alone(if th.done + 1 < n then Running(th.done + 1) else Finished, n, t, evs[1..])
  }

  /** What thread `t` pushes in one step. */
  function PushedIn(s: State, ev: Event, t: nat): seq<real>
    requires t < |s.threads|
  {
    if ev.Complete? && ev.t == t && s.threads[t].Running? then [ev.time] else []
  }

  lemma {:induction false} TimesAfterStep(s: State, ev: Event, t: nat)
    requires t < |s.threads|
    ensures TimesOf(Step(s, ev).transactionTimes, t) == TimesOf(s.transactionTimes, t) + PushedIn(s, ev, t)
  {
    if ev.Complete? {
      TimesOfPush(s.transactionTimes, Entry(ev.t, ev.time), t);
    }
  }

  lemma {:induction false} AloneAfterStep(s: State, evs: seq<Event>, t: nat)
    requires t < |s.threads| && evs != []
    ensures Alone(s.threads[t], Iterations(s), t, evs) ==
            PushedIn(s, evs[0], t) + Alone(Step(s, evs[0]).threads[t], Iterations(s), t, evs[1..])
  {
  }

  /** However the threads interleave on the shared array, the times of each are the
      ones it would have pushed running alone, in the same order. */
  lemma {:induction false} NoInterference(s: State, evs: seq<Event>, t: nat)
    requires t < |s.threads|
    ensures TimesOf(Run(s, evs).transactionTimes, t) ==
            TimesOf(s.transactionTimes, t) + Alone(s.threads[t], Iterations(s), t, evs)
    decreases |evs|
  {
    if evs != [] {
      var s' := Step(s, evs[0]);
      NoInterference(s', evs[1..], t);
      TimesAfterStep(s, evs[0], t);
      AloneAfterStep(s, evs, t);
    }
  }

  // ----- which times, by the events alone -----

  /** The transactions of thread `t` that succeed before one of them is rejected. */
  function Successes(evs: seq<Event>, t: nat): (r: seq<Event>)
    ensures forall i :: 0 <= i < |r| ==> r[i].Complete? && r[i].t == t
  {
    if evs == [] then []
    else if evs[0].t != t then Successes(evs[1..], t)
    else if evs[0].Reject? then []
    else [evs[0]] + Successes(evs[1..], t)
  }

  /** The times of the first `n` of them, or of all if there are fewer. */
  function FirstTimes(cs: seq<Event>, n: nat): seq<real>
    requires forall i :: 0 <= i < |cs| ==> cs[i].Complete?
  {
    seq(if n < |cs| then n else |cs|, i requires 0 <= i < |cs| => cs[i].time)
  }

  /** The time of the whole thread, which is known with the `n`-th of them. */
  function LastThreadTime(cs: seq<Event>, n: nat): seq<real>
    requires n > 0 && forall i :: 0 <= i < |cs| ==> cs[i].Complete?
  {
    if n <= |cs| then [cs[n - 1].threadTime] else []
  }

  /** What an event of another thread leaves alone. */
  lemma {:induction false} OtherStep(s: State, ev: Event, t: nat)
    requires t < |s.threads| && ev.t != t
    ensures var s' := Step(s, ev);
            && |s'.threads| == |s.threads| && s'.numQueries == s.numQueries && s'.threads[t] == s.threads[t]
            && TimesOf(s'.transactionTimes, t) == TimesOf(s.transactionTimes, t)
            && TimesOf(s'.threadTimes, t) == TimesOf(s.threadTimes, t)
  {
    if ev.Complete? {
      TimesOfPush(s.transactionTimes, Entry(ev.t, ev.time), t);
      TimesOfPush(s.threadTimes, Entry(ev.t, ev.threadTime), t);
    }
  }

  /** What a success of its own adds for a thread. */
  lemma {:induction false} CompleteStep(s: State, ev: Event, t: nat)
    requires t < |s.threads| && s.threads[t].Running? && ev.Complete? && ev.t == t
    ensures var s', last := Step(s, ev), s.threads[t].done + 1 >= s.numQueries;
            && |s'.threads| == |s.threads| && s'.numQueries == s.numQueries
            && s'.threads[t] == (if last then Finished else Running(s.threads[t].done + 1))
            && TimesOf(s'.transactionTimes, t) == TimesOf(s.transactionTimes, t) + [ev.time]
            && TimesOf(s'.threadTimes, t) == TimesOf(s.threadTimes, t) + (if last then [ev.threadTime] else [])
  {
    TimesOfPush(s.transactionTimes, Entry(t, ev.time), t);
    TimesOfPush(s.threadTimes, Entry(t, ev.threadTime), t);
  }

  /** A thread that is through or rejected pushes nothing more. */
  lemma {:induction false} QuietAfterwards(s: State, evs: seq<Event>, t: nat)
    requires t < |s.threads| && !s.threads[t].Running?
    ensures TimesOf(Run(s, evs).transactionTimes, t) == TimesOf(s.transactionTimes, t)
    ensures TimesOf(Run(s, evs).threadTimes, t) == TimesOf(s.threadTimes, t)
    decreases |evs|
  {
    if evs != [] {
      var ev := evs[0];
      if ev.Complete? {
        TimesOfPush(s.transactionTimes, Entry(ev.t, ev.time), t);
        TimesOfPush(s.threadTimes, Entry(ev.t, ev.threadTime), t);
      }
      QuietAfterwards(Step(s, ev), evs[1..], t);
    }
  }

  /** What thread `t` has pushed in a run, given what it had before. */
  predicate HasPushed(before: State, after: State, evs: seq<Event>, t: nat)
    requires t < |before.threads| && before.threads[t].Running? && before.threads[t].done < before.numQueries
  {
    var n, cs := before.numQueries - before.threads[t].done, Successes(evs, t);
    && TimesOf(after.transactionTimes, t) == TimesOf(before.transactionTimes, t) + FirstTimes(cs, n)
    && TimesOf(after.threadTimes, t) == TimesOf(before.threadTimes, t) + LastThreadTime(cs, n)
  }

  lemma {:induction false} RunningTimes(s: State, evs: seq<Event>, t: nat)
    requires t < |s.threads| && s.threads[t].Running? && s.threads[t].done < s.numQueries
    ensures HasPushed(s, Run(s, evs), evs, t)
    decreases |evs|
  {
    if evs != [] {
      var s' := Step(s, evs[0]);
      if evs[0].t != t {
        OtherStep(s, evs[0], t);
        RunningTimes(s', evs[1..], t);
      } else {
        if evs[0].Complete? {
          CompleteStep(s, evs[0], t);
        }
        if s'.threads[t].Running? {
          RunningTimes(s', evs[1..], t);
        }
        OwnStep(s, evs, t);
      }
    }
  }

  lemma {:induction false} OwnStep(s: State, evs: seq<Event>, t: nat)
    requires t < |s.threads| && s.threads[t].Running? && s.threads[t].done < s.numQueries
    requires evs != [] && evs[0].t == t
    requires var s' := Step(s, evs[0]);
             |s'.threads| == |s.threads| &&
             (s'.threads[t].Running? ==>
                s'.threads[t].done < s'.numQueries && HasPushed(s', Run(s', evs[1..]), evs[1..], t))
    ensures HasPushed(s, Run(s, evs), evs, t)
  {
    var s' := Step(s, evs[0]);
    if evs[0].Complete? {
      CompleteStep(s, evs[0], t);
      FirstOfTimes(evs[0], Successes(evs[1..], t), s.numQueries - s.threads[t].done);
    }
    if !s'.threads[t].Running? {
      QuietAfterwards(s', evs[1..], t);
    }
  }

  lemma {:induction false} FirstOfTimes(ev: Event, cs: seq<Event>, n: nat)
    requires n > 0 && ev.Complete? && forall i :: 0 <= i < |cs| ==> cs[i].Complete?
    ensures FirstTimes([ev] + cs, n) == [ev.time] + FirstTimes(cs, n - 1)
    ensures n == 1 ==> FirstTimes([ev] + cs, n) == [ev.time] && LastThreadTime([ev] + cs, n) == [ev.threadTime]
    ensures n > 1 ==> LastThreadTime([ev] + cs, n) == LastThreadTime(cs, n - 1)
  {
  }

  lemma {:induction false} LaunchTimes(numQueries: int, times: seq<real>, t: nat)
    ensures var s := Launch(numQueries, times);
            TimesOf(s.threadTimes, t) == if t < |times| && numQueries <= 0 then [times[t]] else []
  {
    if times != [] {
      var n := |times| - 1;
      LaunchTimes(numQueries, times[..n], t);
      TimesOfPush(Launch(numQueries, times[..n]).threadTimes, Entry(n, times[n]), t);
    }
  }

  /** In every interleaving each thread has pushed the times of its own first
      `numQueries` transactions, in order and up to a rejection, and its thread time
      exactly once it has completed them all: the one known with the last of them. */
  lemma {:induction false} TimesOfEachThread(numQueries: int, times: seq<real>, evs: seq<Event>, t: nat)
    requires t < |times|
    ensures var s, cs := Run(Launch(numQueries, times), evs), Successes(evs, t);
            if numQueries > 0 then
              && TimesOf(s.transactionTimes, t) == FirstTimes(cs, numQueries)
              && TimesOf(s.threadTimes, t) == LastThreadTime(cs, numQueries)
            else
              TimesOf(s.transactionTimes, t) == [] && TimesOf(s.threadTimes, t) == [times[t]]
  {
    var s := Launch(numQueries, times);
    LaunchTimes(numQueries, times, t);
    LaunchThreads(numQueries, times, t);
    if numQueries > 0 {
      RunningTimes(s, evs, t);
      assert [] + FirstTimes(Successes(evs, t), numQueries) == FirstTimes(Successes(evs, t), numQueries);
    } else {
      QuietAfterwards(s, evs, t);
    }
  }
}
