/** Retries over whole runs: which ones end with the right rows, in terms of what the
    server has sent and how much of it the row stream has taken. */
module RetryRuns {
  import opened Wrappers
  import opened Merging
  import opened ResultStream
  import opened Resumption
  import opened Resets

  /** A beginning of a legal answer, with more to come. */
  predicate Begins(fields: Columns, p: Position, cs: seq<Chunk>)
    decreases |cs|
  {
    cs == [] ||
    (LegalChunk(fields, p, cs[0]) && !cs[0].last &&
     (cs[0].token.Some? ==> cs[0].token.value == Advance(p, cs[0])) &&
     Begins(fields, Advance(p, cs[0]), cs[1..]))
  }

  /** What is saved after some chunks. */
  function KeptAfter(p: Position, k: Kept, cs: seq<Chunk>): Kept
    decreases |cs|
  {
    if cs == [] then k else KeptAfter(Next(p, cs[0]), NextKept(p, k, cs[0]), cs[1..])
  }

  lemma {:induction false} BeginsThen(fields: Columns, truth: seq<Value>, p: Position, a: seq<Chunk>, b: seq<Chunk>)
    requires Begins(fields, p, a) && LegalAnswer(fields, truth, Reach(p, a), b)
    ensures LegalAnswer(fields, truth, p, a + b)
    decreases |a|
  {
    if a == [] {
      assert a + b == b;
    } else {
      assert (a + b)[1..] == a[1..] + b;
      BeginsThen(fields, truth, Next(p, a[0]), a[1..], b);
    }
  }

  lemma {:induction false} ReleaseBeginning(s: Stream, p: Position, cs: seq<Chunk>)
    requires At(s, p) && !s.ended && SharedOk(s) && Begins(s.fields, p, cs)
    ensures Release(s, cs).Some?
    ensures var s' := Release(s, cs).value;
            && s'.fields == s.fields && At(s', Reach(p, cs)) && !s'.ended && SharedOk(s')
            && KeptOf(s') == KeptAfter(p, KeptOf(s), cs)
    decreases |cs|
  {
    if cs != [] {
      TransformFollowsProtocol(s, p, cs[0]);
      KeptFollowsChunks(s, p, cs[0]);
      ReleaseBeginning(Transform(s, cs[0]).value, Next(p, cs[0]), cs[1..]);
    }
  }

  function Reached(taken: seq<Chunk>): Position {
    Reach(START, taken)
  }

  lemma {:induction false} ReachConcat(p: Position, a: seq<Chunk>, b: seq<Chunk>)
    ensures Reach(p, a + b) == Reach(Reach(p, a), b)
    decreases |a|
  {
    if a == [] {
      assert a + b == b;
    } else {
      assert (a + b)[1..] == a[1..] + b;
      ReachConcat(Next(p, a[0]), a[1..], b);
    }
  }

  lemma {:induction false} BeginsConcat(fields: Columns, p: Position, a: seq<Chunk>, b: seq<Chunk>)
    requires Begins(fields, p, a) && Begins(fields, Reach(p, a), b)
    ensures Begins(fields, p, a + b)
    decreases |a|
  {
    if a == [] {
      assert a + b == b;
    } else {
      assert (a + b)[1..] == a[1..] + b;
      BeginsConcat(fields, Next(p, a[0]), a[1..], b);
    }
  }

  /** A token at the end stands for what has been reached. */
  lemma {:induction false} TokenIsReached(fields: Columns, p: Position, cs: seq<Chunk>)
    requires Begins(fields, p, cs) && EndsWithToken(cs)
    ensures cs[|cs| - 1].token.value == Reach(p, cs)
    decreases |cs|
  {
    if |cs| == 1 {
      assert Reach(p, cs) == Reach(Next(p, cs[0]), cs[1..]);
    } else {
      TokenIsReached(fields, Next(p, cs[0]), cs[1..]);
    }
  }

  // ----- a run with one retry -----

  /** A beginning up to a token arrives, of which the row stream takes the first part
      and lets the second wait; the request breaks, and the answer to the next one
      does not. */
  datatype Retry = Retry(taken: seq<Chunk>, waiting: seq<Chunk>, resumption: seq<Chunk>)

  function Answer(r: Retry): seq<Chunk> {
    r.taken + r.waiting + r.resumption
  }

  function BeforeBreak(r: Retry): seq<Event> {
    Times(|r.taken| + |r.waiting|, Receive) + Times(|r.taken|, Deliver)
  }

  function AfterBreak(r: Retry): seq<Event> {
    Unbroken(|r.resumption|, |r.waiting| + |r.resumption| + 1)
  }

  function Events(r: Retry): seq<Event> {
    BeforeBreak(r) + [Break(true, false, r.resumption)] + AfterBreak(r)
  }

  function Outcome(limit: nat, fields: Columns, r: Retry): Client {
    Run(limit, Connect(fields, Answer(r)), Events(r))
  }

  predicate LegalRetry(fields: Columns, truth: seq<Value>, r: Retry) {
    && Begins(fields, START, r.taken) && Begins(fields, Reached(r.taken), r.waiting)
    && EndsWithToken(r.taken + r.waiting)
    && Completes(fields, truth, Reach(Reached(r.taken), r.waiting), r.resumption)
  }

  function AtBreak(s: Stream, q: Position, r: Retry): Client {
    Client(s, r.waiting, [], 0, Some(q), r.resumption, Reading)
  }

  /** The client right before the break. */
  lemma {:induction false} RunBeforeBreak(limit: nat, fields: Columns, truth: seq<Value>, r: Retry)
    requires LegalRetry(fields, truth, r)
    ensures Release(Fresh(fields), r.taken).Some?
    ensures Run(limit, Connect(fields, Answer(r)), BeforeBreak(r)) ==
            AtBreak(Release(Fresh(fields), r.taken).value, Reach(Reached(r.taken), r.waiting), r)
  {
    var all := r.taken + r.waiting;
    var c, n, m := Connect(fields, Answer(r)), |all|, |r.taken|;
    ReleaseBeginning(Fresh(fields), START, r.taken);
    RunConcat(limit, c, Times(n, Receive), Times(m, Deliver));
    ReceiveSome(limit, c, n);
    var c1 := Run(limit, c, Times(n, Receive));
    assert c.incoming[..n] == all && c.incoming[n..] == r.resumption && c.incoming[n - 1] == all[n - 1];
    BeginsConcat(fields, START, r.taken, r.waiting);
    TokenIsReached(fields, START, all);
    ReachConcat(START, r.taken, r.waiting);
    assert c1.pipe + c1.queue == c1.pipe == all;
    DeliverSome(limit, c1, m);
    assert all[..m] == r.taken && all[m..] == r.waiting;
  }

  lemma {:induction false} NothingBreaks(limit: nat, fields: Columns, truth: seq<Value>, c: Client,
                                         a: seq<Event>, b: seq<Event>)
    requires forall i :: 0 <= i < |a| ==> !a[i].Break?
    ensures LegalRun(limit, fields, truth, c, a + b) <==> LegalRun(limit, fields, truth, Run(limit, c, a), b)
    decreases |a|
  {
    if a == [] {
      assert a + b == b;
    } else {
      assert (a + b)[1..] == a[1..] + b;
      NothingBreaks(limit, fields, truth, Step(limit, c, a[0]), a[1..], b);
    }
  }

  lemma {:induction false} BreakThenNone(limit: nat, fields: Columns, truth: seq<Value>, c: Client,
                                         ev: Event, after: seq<Event>)
    requires LegalEvent(fields, truth, c, ev)
    requires forall i :: 0 <= i < |after| ==> !after[i].Break?
    ensures LegalRun(limit, fields, truth, c, [ev] + after)
  {
    assert ([ev] + after)[0] == ev && ([ev] + after)[1..] == after;
    NothingBreaks(limit, fields, truth, Step(limit, c, ev), after, []);
    assert after + [] == after;
  }

  lemma {:induction false} AnswerIsLegal(fields: Columns, truth: seq<Value>, r: Retry)
    requires LegalRetry(fields, truth, r)
    ensures LegalAnswer(fields, truth, START, Answer(r))
  {
    BeginsThen(fields, truth, Reached(r.taken), r.waiting, r.resumption);
    BeginsThen(fields, truth, START, r.taken, r.waiting + r.resumption);
    assert Answer(r) == r.taken + (r.waiting + r.resumption);
  }

  /** The run is one the network may bring about. */
  lemma {:induction false} RetryIsLegal(limit: nat, fields: Columns, truth: seq<Value>, r: Retry)
    requires LegalRetry(fields, truth, r)
    ensures LegalRun(limit, fields, truth, Connect(fields, Answer(r)), Events(r))
  {
    var c, ev := Connect(fields, Answer(r)), Break(true, false, r.resumption);
    assert Events(r) == BeforeBreak(r) + ([ev] + AfterBreak(r));
    NothingBreaks(limit, fields, truth, c, BeforeBreak(r), [ev] + AfterBreak(r));
    RunBeforeBreak(limit, fields, truth, r);
    BreakThenNone(limit, fields, truth, Run(limit, c, BeforeBreak(r)), ev, AfterBreak(r));
  }

  /** From the break on: the reset row stream takes the waiting chunks and then the
      resumption. */
  lemma {:induction false} RunFromBreak(limit: nat, s: Stream, q: Position, r: Retry)
    ensures var c := Run(limit, Step(limit, AtBreak(s, q, r), Break(true, false, r.resumption)), AfterBreak(r));
            var s' := Release(ResetPending(s), r.waiting + r.resumption);
            if s'.Some? then Finished(c) && c.stream.rows == s'.value.rows else c.phase == Crashed
  {
    var c := AtBreak(ResetPending(s), q, r);
    assert Step(limit, AtBreak(s, q, r), Break(true, false, r.resumption)) == c;
    assert ToCome(c) == r.waiting + r.resumption;
    UnbrokenRows(limit, c);
  }

  lemma {:induction false} RunRetry(limit: nat, fields: Columns, truth: seq<Value>, r: Retry)
    requires LegalRetry(fields, truth, r)
    ensures Release(Fresh(fields), r.taken).Some?
    ensures var c := Outcome(limit, fields, r);
            var s' := Release(ResetPending(Release(Fresh(fields), r.taken).value), r.waiting + r.resumption);
            if s'.Some? then Finished(c) && c.stream.rows == s'.value.rows else c.phase == Crashed
  {
    RunThrough(limit, Connect(fields, Answer(r)), BeforeBreak(r), Break(true, false, r.resumption), AfterBreak(r));
    RunBeforeBreak(limit, fields, truth, r);
    RunFromBreak(limit, Release(Fresh(fields), r.taken).value, Reach(Reached(r.taken), r.waiting), r);
  }

  /** The stream has finished with all the rows. */
  predicate EndsRight(truth: seq<Value>, c: Client) {
    Finished(c) && Flatten(c.stream.rows) == truth
  }

  /** The run ends right exactly when the reset does no harm to what is to come, and
      otherwise with wrong rows or a throw. */
  lemma {:induction false} RetryRows(limit: nat, fields: Columns, truth: seq<Value>, r: Retry)
    requires LegalRetry(fields, truth, r)
    ensures Release(Fresh(fields), r.taken).Some?
    ensures EndsRight(truth, Outcome(limit, fields, r)) <==>
            RightAfter(ResetPending(Release(Fresh(fields), r.taken).value), truth, r.waiting + r.resumption)
    ensures !EndsRight(truth, Outcome(limit, fields, r)) ==> !RowsAreRight(truth, Outcome(limit, fields, r))
  {
    RunRetry(limit, fields, truth, r);
  }

  // ----- which retries end right -----

  /** Every legal retry at this point ends right: with nothing waiting, or with
      something waiting, whatever that is and whatever comes after. */
  ghost predicate RetriesEndRight(limit: nat, fields: Columns, taken: seq<Chunk>, drained: bool) {
    forall truth: seq<Value>, r: Retry ::
      r.taken == taken && (r.waiting == [] <==> drained) && LegalRetry(fields, truth, r) ==>
        EndsRight(truth, Outcome(limit, fields, r))
  }

  /** What has been taken determines what the row stream has saved. */
  lemma {:induction false} AfterBeginning(fields: Columns, taken: seq<Chunk>)
    requires Begins(fields, START, taken)
    ensures Release(Fresh(fields), taken).Some?
    ensures var s := Release(Fresh(fields), taken).value;
            && s.fields == fields && At(s, Reached(taken)) && !s.ended
            && (Settled(s) <==> !Lost(Reached(taken), KeptAfter(START, Nothing, taken)))
  {
    ReleaseBeginning(Fresh(fields), START, taken);
    SettledIffNotLost(Release(Fresh(fields), taken).value, Reached(taken));
  }

  lemma {:induction false} KeptEndsRight(limit: nat, fields: Columns, truth: seq<Value>, r: Retry)
    requires LegalRetry(fields, truth, r)
    requires !Lost(Reached(r.taken), KeptAfter(START, Nothing, r.taken))
    ensures EndsRight(truth, Outcome(limit, fields, r))
  {
    AfterBeginning(fields, r.taken);
    BeginsThen(fields, truth, Reached(r.taken), r.waiting, r.resumption);
    SettledIsHarmless(Release(Fresh(fields), r.taken).value, Reached(r.taken), truth, r.waiting + r.resumption);
    RetryRows(limit, fields, truth, r);
  }

  /** The retry that shows the harm: what closes the open value is waiting, or it is
      the answer to the retry. */
  function Witness(fields: Columns, taken: seq<Chunk>, drained: bool): Retry
    requires var p := Reached(taken); p.open.Some? ==> Mergeable(p.open.value, Closing(p.open))
  {
    var c := Sequel(fields, Reached(taken), !drained);
    if drained then Retry(taken, [], [c]) else Retry(taken, [c], [])
  }

  /** A beginning that has lost its open fragment has a legal run with a retry there
      and wrong rows, with or without a chunk waiting. */
  lemma {:induction false} LostGoesWrong(limit: nat, fields: Columns, taken: seq<Chunk>, drained: bool,
                                         truth: seq<Value>, rest: seq<Chunk>)
    requires Begins(fields, START, taken) && LegalAnswer(fields, truth, Reached(taken), rest)
    requires drained ==> EndsWithToken(taken)
    requires Lost(Reached(taken), KeptAfter(START, Nothing, taken))
    ensures var p := Reached(taken); p.open.Some? ==> Mergeable(p.open.value, Closing(p.open))
    ensures var all, r := SequelTruth(fields, Reached(taken)), Witness(fields, taken, drained);
            var c := Connect(fields, Answer(r));
            && LegalRetry(fields, all, r) && !EndsRight(all, Outcome(limit, fields, r))
            && LegalAnswer(fields, all, START, Answer(r))
            && LegalRun(limit, fields, all, c, Events(r)) && !RowsAreRight(all, Run(limit, c, Events(r)))
  {
    var p := Reached(taken);
    AfterBeginning(fields, taken);
    SequelCompletes(fields, p, !drained, truth, rest);
    var all, r := SequelTruth(fields, p), Witness(fields, taken, drained);
    WitnessIsLegal(fields, taken, drained);
    UnsettledGoesWrong(Release(Fresh(fields), taken).value, p, !drained, truth, rest);
    assert r.waiting + r.resumption == [Sequel(fields, p, !drained)];
    AnswerIsLegal(fields, all, r);
    RetryIsLegal(limit, fields, all, r);
    RetryRows(limit, fields, all, r);
  }

  lemma {:induction false} WitnessIsLegal(fields: Columns, taken: seq<Chunk>, drained: bool)
    requires Begins(fields, START, taken) && (drained ==> EndsWithToken(taken))
    requires var p := Reached(taken); p.open.Some? ==> Mergeable(p.open.value, Closing(p.open))
    requires var p := Reached(taken); Completes(fields, SequelTruth(fields, p), p, [Sequel(fields, p, !drained)])
    ensures LegalRetry(fields, SequelTruth(fields, Reached(taken)), Witness(fields, taken, drained))
  {
    var p, c := Reached(taken), Sequel(fields, Reached(taken), !drained);
    assert [c][1..] == [];
    if drained {
      assert taken + [] == taken;
    } else {
      assert Reach(p, [c]) == Reach(Next(p, c), []) == Next(p, c);
      assert (taken + [c])[|taken|] == c;
    }
  }

  /** The exact condition, in terms of what the row stream has taken: every retry at
      this point ends right, with chunks waiting or with none, if and only if the
      fragment that was saved is still the one that is open. */
  lemma {:induction false} RetriesEndRightIff(limit: nat, fields: Columns, taken: seq<Chunk>, drained: bool,
                                              truth: seq<Value>, rest: seq<Chunk>)
    requires Begins(fields, START, taken) && LegalAnswer(fields, truth, Reached(taken), rest)
    requires drained ==> EndsWithToken(taken)
    ensures RetriesEndRight(limit, fields, taken, drained) <==>
            !Lost(Reached(taken), KeptAfter(START, Nothing, taken))
  {
    if Lost(Reached(taken), KeptAfter(START, Nothing, taken)) {
      LostGoesWrong(limit, fields, taken, drained, truth, rest);
    } else {
      forall truth: seq<Value>, r: Retry
        | r.taken == taken && (r.waiting == [] <==> drained) && LegalRetry(fields, truth, r)
        ensures EndsRight(truth, Outcome(limit, fields, r))
      {
        KeptEndsRight(limit, fields, truth, r);
      }
    }
  }

  lemma {:induction false} KeptAfterPush(p: Position, k: Kept, cs: seq<Chunk>, c: Chunk)
    ensures KeptAfter(p, k, cs + [c]) == NextKept(Reach(p, cs), KeptAfter(p, k, cs), c)
    ensures Reach(p, cs + [c]) == Next(Reach(p, cs), c)
    decreases |cs|
  {
    if cs == [] {
      assert cs + [c] == [c] && [c][1..] == [];
    } else {
      assert (cs + [c])[1..] == cs[1..] + [c];
      KeptAfterPush(Next(p, cs[0]), NextKept(p, k, cs[0]), cs[1..], c);
    }
  }

  /** So with everything taken, a token can be resumed from if and only if it came
      with values or what was saved before it is still the open fragment. */
  lemma {:induction false} TokenResumableIff(limit: nat, fields: Columns, sent: seq<Chunk>, c: Chunk,
                                             truth: seq<Value>, rest: seq<Chunk>)
    requires Begins(fields, START, sent + [c]) && c.token.Some?
    requires LegalAnswer(fields, truth, Reached(sent + [c]), rest)
    ensures RetriesEndRight(limit, fields, sent + [c], true) <==>
            c.values != [] || !Lost(Reached(sent), KeptAfter(START, Nothing, sent))
  {
    RetriesEndRightIff(limit, fields, sent + [c], true, truth, rest);
    KeptAfterPush(START, Nothing, sent, c);
  }

  // ----- instances -----

  const A := Chunk([Str("a")], true, Some(Position([], Some(Str("a")))), false)
  const B := Chunk([Str("b"), Str("y")], true, None, false)
  const C := Chunk([Str("z")], false, Some(Position([Str("ab"), Str("yz")], None)), false)

  lemma {:induction false} AddSingle(s: Stream, v: Value)
    requires s.fields == [Scalar] && s.values == []
    ensures AddValues(s, [v]) == s.(rows := s.rows + [[v]])
  {
    assert [v][..0] == [] && s.values + [v] == [v];
    assert AddValues(s, [v]) == AddValue(s, v);
  }

  lemma {:induction false} TakeOne(s: Stream, c: Chunk)
    ensures Release(s, [c]) == Transform(s, c)
  {
    assert [c][1..] == [];
  }

  /** A row stream that takes two chunks, and what they say it has saved. */
  lemma {:induction false} TakeTwo(fields: Columns, s: Stream, c: Chunk, d: Chunk, s1: Stream, p: Position, k: Kept)
    requires Transform(s, c) == Some(s1) && Transform(s1, d).Some?
    requires Next(START, c) == p && NextKept(START, Nothing, c) == k
    requires LegalChunk(fields, START, c) && LegalChunk(fields, p, d) && !c.last && !d.last
    requires (c.token.Some? ==> c.token.value == p) && (d.token.Some? ==> d.token.value == Next(p, d))
    ensures Release(s, [c, d]) == Transform(s1, d)
    ensures Begins(fields, START, [c, d]) && Reached([c, d]) == Next(p, d)
    ensures KeptAfter(START, Nothing, [c, d]) == NextKept(p, k, d)
  {
    assert [c, d][1..] == [d] && [d][1..] == [];
    TakeOne(s1, d);
    assert Reach(p, [d]) == Reach(Next(p, d), []);
    assert KeptAfter(p, k, [d]) == KeptAfter(Next(p, d), NextKept(p, k, d), []);
  }

  lemma {:induction false} TakeA()
    ensures var s := Fresh([Scalar]);
            Transform(s, A) == Some(s.(pending := Str("a"), forResume := Str("a"), shared := true))
  {
    assert [Str("a")][..0] == [];
  }

  lemma {:induction false} TakeB()
    ensures var s := Fresh([Scalar]).(pending := Str("a"), forResume := Str("a"), shared := true);
            Transform(s, B) == Some(s.(pending := Str("y"), shared := false, rows := [[Str("ab")]]))
    ensures Next(Position([], Some(Str("a"))), B) == Position([Str("ab")], Some(Str("y")))
  {
    var s := Fresh([Scalar]).(pending := Str("y"), forResume := Str("a"));
    assert "a" + "b" == "ab";
    assert [Str("ab")] + [Str("b"), Str("y")][1..] == [Str("ab"), Str("y")];
    assert [Str("ab"), Str("y")][..1] == [Str("ab")];
    AddSingle(s, Str("ab"));
    assert [] + [[Str("ab")]] == [[Str("ab")]];
    assert Joined(Position([], Some(Str("a"))), B) == [Str("ab"), Str("y")];
  }

  lemma {:induction false} TakeAB()
    ensures var s := Fresh([Scalar]);
            Release(s, [A, B]) == Some(s.(pending := Str("y"), forResume := Str("a"), rows := [[Str("ab")]]))
    ensures Begins([Scalar], START, [A, B]) && Reached([A, B]) == Position([Str("ab")], Some(Str("y")))
    ensures KeptAfter(START, Nothing, [A, B]) == Other(Str("a"))
  {
    var s := Fresh([Scalar]);
    TakeA();
    TakeB();
    TakeTwo([Scalar], s, A, B, s.(pending := Str("a"), forResume := Str("a"), shared := true),
            Position([], Some(Str("a"))), TheOpenOne);
  }

  lemma {:induction false} TakeC()
    ensures var s := Fresh([Scalar]).(pending := Str("a"), forResume := Str("a"), shared := true, rows := [[Str("ab")]]);
            Release(s, [C]).Some? && Release(s, [C]).value.rows == [[Str("ab")], [Str("az")]]
  {
    var s := Fresh([Scalar]).(pending := Str("a"), forResume := Str("a"), shared := true, rows := [[Str("ab")]]);
    TakeOne(s, C);
    assert "a" + "z" == "az";
    assert [Str("az")] + [Str("z")][1..] == [Str("az")];
    AddSingle(s.(pending := Undefined, forResume := Undefined, shared := false), Str("az"));
  }

  lemma {:induction false} CIsLegal()
    ensures var p := Position([Str("ab")], Some(Str("y")));
            Begins([Scalar], p, [C]) && Reach(p, [C]) == Position([Str("ab"), Str("yz")], None)
  {
    var p := Position([Str("ab")], Some(Str("y")));
    assert [C][1..] == [];
    assert "y" + "z" == "yz";
    assert Joined(p, C) == [Str("yz")];
    assert [Str("ab")] + [Str("yz")] == [Str("ab"), Str("yz")];
    assert Next(p, C) == Position([Str("ab"), Str("yz")], None);
    assert Reach(p, [C]) == Reach(Next(p, C), []);
  }

  /** The row stream has taken the first two chunks of an answer and the third is
      waiting when the request breaks. The reset brings "a" back over the open "y", and
      the row reads "az" where the server sent "yz". */
  lemma {:induction false} WaitingChunkGoesWrong()
    ensures LegalRetry([Scalar], [Str("ab"), Str("yz")], Retry([A, B], [C], []))
    ensures KeptAfter(START, Nothing, [A, B]) == Other(Str("a")) && Reached([A, B]).open == Some(Str("y"))
    ensures var c := Outcome(MAX_QUEUED + 1, [Scalar], Retry([A, B], [C], []));
            Finished(c) && c.stream.rows == [[Str("ab")], [Str("az")]]
  {
    TakeAB();
    TakeC();
    CIsLegal();
    var r := Retry([A, B], [C], []);
    assert [C][1..] == [] && r.taken + r.waiting == [A, B, C];
    RunRetry(MAX_QUEUED + 1, [Scalar], [Str("ab"), Str("yz")], r);
    assert [C] + [] == [C];
  }

  const HEAD := Chunk([Str("a")], true, None, false)
  const EMPTY := Chunk([], false, Some(Position([], Some(Str("a")))), false)
  const TAIL := Chunk([Str("b")], false, None, false)

  lemma {:induction false} TakeHeadAndEmpty()
    ensures var s := Fresh([Scalar]);
            Release(s, [HEAD, EMPTY]) == Some(s.(pending := Str("a")))
    ensures Begins([Scalar], START, [HEAD, EMPTY]) && Reached([HEAD, EMPTY]) == Position([], Some(Str("a")))
    ensures KeptAfter(START, Nothing, [HEAD, EMPTY]) == Nothing
  {
    var s, p := Fresh([Scalar]), Position([], Some(Str("a")));
    assert [Str("a")][..0] == [];
    assert Transform(s, HEAD) == Some(s.(pending := Str("a"))) && Next(START, HEAD) == p;
    TakeTwo([Scalar], s, HEAD, EMPTY, s.(pending := Str("a")), p, Nothing);
  }

  lemma {:induction false} TakeTail()
    ensures LegalAnswer([Scalar], [Str("ab")], Position([], Some(Str("a"))), [TAIL])
    ensures var s := Fresh([Scalar]);
            Release(s, [TAIL]) == Some(s.(rows := [[Str("b")]]))
  {
    var s := Fresh([Scalar]);
    TakeOne(s, TAIL);
    assert [TAIL][1..] == [] && "a" + "b" == "ab";
    assert Joined(Position([], Some(Str("a"))), TAIL) == [Str("ab")];
    AddSingle(s, Str("b"));
    assert [] + [[Str("b")]] == [[Str("b")]];
  }

  /** The server sends "ab" in two fragments with a token on an empty chunk between.
      The open fragment "a" was never saved, so it is lost with the retry. */
  lemma {:induction false} EmptyTokenLosesFragment()
    ensures LegalRetry([Scalar], [Str("ab")], Retry([HEAD, EMPTY], [], [TAIL]))
    ensures KeptAfter(START, Nothing, [HEAD, EMPTY]) == Nothing
    ensures var c := Outcome(MAX_QUEUED + 1, [Scalar], Retry([HEAD, EMPTY], [], [TAIL]));
            Finished(c) && c.stream.rows == [[Str("b")]]
  {
    TakeHeadAndEmpty();
    TakeTail();
    var r := Retry([HEAD, EMPTY], [], [TAIL]);
    assert [TAIL][1..] == [] && r.taken + r.waiting == [HEAD, EMPTY];
    RunRetry(MAX_QUEUED + 1, [Scalar], [Str("ab")], r);
    assert [] + [TAIL] == [TAIL];
  }
}
