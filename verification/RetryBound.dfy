/** Why `retry` counts the chunks that came without a token. */
module RetryBound {
  import opened Wrappers
  import opened Merging
  import opened ResultStream
  import opened Resumption
  import opened RetryRuns

  predicate RightIfLegal(limit: nat, fields: Columns, truth: seq<Value>, answer: seq<Chunk>, evs: seq<Event>) {
    |truth| % |fields| == 0 && LegalAnswer(fields, truth, START, answer) &&
    LegalRun(limit, fields, truth, Connect(fields, answer), evs) &&
    SettledRun(limit, Connect(fields, answer), evs) ==>
      RowsAreRight(truth, Run(limit, Connect(fields, answer), evs))
  }

  /** Every legal run with settled resets pushes its rows once and in order. */
  ghost predicate AlwaysRight(limit: nat) {
    forall fields: Columns, truth: seq<Value>, answer: seq<Chunk>, evs: seq<Event> ::
      RightIfLegal(limit, fields, truth, answer, evs)
  }

  /** The promise rests on the retry bound: it holds exactly when the checkpoint
      stream keeps back more chunks than `retry` is ready to ask for again. */
  lemma {:induction false} RightIffQueueOutlastsRetry(limit: nat)
    requires limit >= 1
    ensures AlwaysRight(limit) <==> limit > 10
  {
    if limit > MAX_QUEUED {
      forall fields: Columns, truth: seq<Value>, answer: seq<Chunk>, evs: seq<Event>
        ensures RightIfLegal(limit, fields, truth, answer, evs)
      {
        if |truth| % |fields| == 0 && LegalAnswer(fields, truth, START, answer) &&
           LegalRun(limit, fields, truth, Connect(fields, answer), evs) &&
           SettledRun(limit, Connect(fields, answer), evs) {
          RowsOnceInOrder(limit, fields, truth, answer, evs);
        }
      }
    } else {
      RowsRepeat(limit);
      assert !RightIfLegal(limit, [Scalar], Ones(limit), Plain(limit), RepeatingRun(limit));
    }
  }

  // ----- a run that repeats every row -----

  function Ones(n: nat): seq<Value> {
    seq(n, _ => Number(1.0))
  }

  /** Chunks of one value each, without tokens. */
  function Plain(n: nat): seq<Chunk> {
    seq(n, _ => Chunk([Number(1.0)], false, None, false))
  }

  /** A queueful arrives, the request breaks, and all of it is sent again. */
  function RepeatingRun(limit: nat): seq<Event> {
    Times(limit, Receive) + [Break(true, false, Plain(limit))] + Unbroken(limit, 2 * limit + 1)
  }

  lemma {:induction false} LegalPlain(sent: seq<Value>, n: nat)
    ensures LegalAnswer([Scalar], sent + Ones(n), Position(sent, None), Plain(n))
    decreases n
  {
    if n == 0 {
      assert sent + Ones(0) == sent;
    } else {
      LegalPlain(sent + [Number(1.0)], n - 1);
      assert sent + [Number(1.0)] + Ones(n - 1) == sent + Ones(n);
      assert Plain(n)[1..] == Plain(n - 1);
    }
  }

  lemma {:induction false} ReleasePlain(s: Stream, n: nat)
    requires s.fields == [Scalar] && s.values == [] && !Truthy(s.pending) && !s.ended
    ensures Release(s, Plain(n)).Some?
    ensures var s' := Release(s, Plain(n)).value;
            |s'.rows| == |s.rows| + n && s' == s.(rows := s'.rows)
    decreases n
  {
    if n > 0 {
      var s' := Transform(s, Plain(n)[0]).value;
      AddSingle(s, Number(1.0));
      assert Plain(n)[1..] == Plain(n - 1);
      ReleasePlain(s', n - 1);
    }
  }

  /** The `limit`-th chunk without a token makes the checkpoint stream release them
      all. */
  lemma {:induction false} ReceivePlain(limit: nat, c: Client, n: nat)
    requires 0 < n <= limit && c.phase == Reading
    requires c.pipe == [] && c.queue == Plain(limit - n) && c.incoming == Plain(n)
    ensures Run(limit, c, Times(n, Receive)) ==
            c.(pipe := Plain(limit), queue := [], incoming := [], sinceToken := c.sinceToken + n)
    decreases n
  {
    RunTimes(limit, c, n, Receive);
    assert Plain(n)[1..] == Plain(n - 1);
    assert c.queue + [Plain(n)[0]] == Plain(limit - n + 1);
    if n > 1 {
      ReceivePlain(limit, Step(limit, c, Receive), n - 1);
    } else {
      assert [] + Plain(limit) == Plain(limit);
      assert Times(0, Receive) == [];
    }
  }

  lemma {:induction false} NothingSettles(limit: nat, c: Client, a: seq<Event>, b: seq<Event>)
    requires forall i :: 0 <= i < |a| ==> !a[i].Break?
    ensures SettledRun(limit, c, a + b) <==> SettledRun(limit, Run(limit, c, a), b)
    decreases |a|
  {
    if a == [] {
      assert a + b == b;
    } else {
      assert (a + b)[1..] == a[1..] + b;
      NothingSettles(limit, Step(limit, c, a[0]), a[1..], b);
    }
  }

  lemma {:induction false} FlattenSingletons(rows: seq<seq<Value>>)
    requires forall i :: 0 <= i < |rows| ==> |rows[i]| == 1
    ensures |Flatten(rows)| == |rows|
  {
    if rows != [] {
      FlattenSingletons(rows[..|rows| - 1]);
    }
  }

  /** The client when the request breaks: everything is released, and no token seen. */
  function FullPipe(limit: nat): Client {
    Client(Fresh([Scalar]), Plain(limit), [], limit, None, [], Reading)
  }

  function Asked(limit: nat): Client {
    FullPipe(limit).(incoming := Plain(limit))
  }

  lemma {:induction false} AskAgain(limit: nat)
    requires limit <= MAX_QUEUED
    ensures Step(limit, FullPipe(limit), Break(true, false, Plain(limit))) == Asked(limit)
  {
  }

  lemma {:induction false} RunToFullPipe(limit: nat)
    requires limit >= 1
    ensures Run(limit, Connect([Scalar], Plain(limit)), Times(limit, Receive)) == FullPipe(limit)
  {
    assert Plain(0) == [];
    ReceivePlain(limit, Connect([Scalar], Plain(limit)), limit);
  }

  lemma {:induction false} RepeatingRunIsLegal(limit: nat)
    requires 1 <= limit <= MAX_QUEUED
    ensures LegalAnswer([Scalar], Ones(limit), START, Plain(limit))
    ensures LegalRun(limit, [Scalar], Ones(limit), Connect([Scalar], Plain(limit)), RepeatingRun(limit))
  {
    var again, after := Break(true, false, Plain(limit)), Unbroken(limit, 2 * limit + 1);
    LegalPlain([], limit);
    assert [] + Ones(limit) == Ones(limit);
    RunToFullPipe(limit);
    assert RepeatingRun(limit) == Times(limit, Receive) + ([again] + after);
    NothingBreaks(limit, [Scalar], Ones(limit), Connect([Scalar], Plain(limit)), Times(limit, Receive), [again] + after);
    BreakThenNone(limit, [Scalar], Ones(limit), FullPipe(limit), again, after);
  }

  lemma {:induction false} RepeatingRunIsSettled(limit: nat)
    requires 1 <= limit <= MAX_QUEUED
    ensures SettledRun(limit, Connect([Scalar], Plain(limit)), RepeatingRun(limit))
  {
    var again, after := Break(true, false, Plain(limit)), Unbroken(limit, 2 * limit + 1);
    RunToFullPipe(limit);
    assert RepeatingRun(limit) == Times(limit, Receive) + ([again] + after);
    NothingSettles(limit, Connect([Scalar], Plain(limit)), Times(limit, Receive), [again] + after);
    assert ([again] + after)[1..] == after && ([again] + after)[0] == again;
    NothingSettles(limit, Asked(limit), after, []);
    assert after + [] == after;
    AskAgain(limit);
  }

  /** If the checkpoint stream releases its queue after at most as many chunks as may
      be asked for again, a break right then makes every row appear twice. */
  lemma {:induction false} RowsRepeat(limit: nat)
    requires 1 <= limit <= MAX_QUEUED
    ensures LegalAnswer([Scalar], Ones(limit), START, Plain(limit))
    ensures LegalRun(limit, [Scalar], Ones(limit), Connect([Scalar], Plain(limit)), RepeatingRun(limit))
    ensures SettledRun(limit, Connect([Scalar], Plain(limit)), RepeatingRun(limit))
    ensures var c := Run(limit, Connect([Scalar], Plain(limit)), RepeatingRun(limit));
            Finished(c) && |c.stream.rows| == 2 * limit && !RowsAreRight(Ones(limit), c)
  {
    RepeatingRunIsLegal(limit);
    RepeatingRunIsSettled(limit);
    RepeatingRows(limit);
  }

  lemma {:induction false} RepeatingRows(limit: nat)
    requires 1 <= limit <= MAX_QUEUED
    ensures var c := Run(limit, Connect([Scalar], Plain(limit)), RepeatingRun(limit));
            Finished(c) && |c.stream.rows| == 2 * limit && !RowsAreRight(Ones(limit), c)
  {
    var again, after := Break(true, false, Plain(limit)), Unbroken(limit, 2 * limit + 1);
    RunToFullPipe(limit);
    RunThrough(limit, Connect([Scalar], Plain(limit)), Times(limit, Receive), again, after);
    AskAgain(limit);
    AskedRows(limit);
    TooManyRows(limit, Run(limit, Asked(limit), after));
  }

  lemma {:induction false} AskedRows(limit: nat)
    ensures var c := Run(limit, Asked(limit), Unbroken(limit, 2 * limit + 1));
            Finished(c) && |c.stream.rows| == 2 * limit && c.stream.fields == [Scalar]
  {
    assert ToCome(Asked(limit)) == Plain(2 * limit);
    UnbrokenRows(limit, Asked(limit));
    ReleasePlain(Fresh([Scalar]), 2 * limit);
  }

  lemma {:induction false} TooManyRows(limit: nat, c: Client)
    requires limit >= 1 && c.stream.fields == [Scalar] && |c.stream.rows| == 2 * limit
    ensures !RowsAreRight(Ones(limit), c)
  {
    var rows := c.stream.rows;
    if forall i :: 0 <= i < |rows| ==> |rows[i]| == 1 {
      FlattenSingletons(rows);
    }
  }
}
