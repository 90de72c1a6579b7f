/** When resets need no care: what a server may promise about tokens on chunks
    without values, and what that spares the client. */
module KeptTokens {
  import opened Wrappers
  import opened Merging
  import opened ResultStream
  import opened Resumption

  /** A chunk without values carries a token only while what is saved is the very
      fragment that is open: nothing with values has come since the last token that
      came with values, or nothing is saved and nothing is open. */
  predicate KeepsTokens(p: Position, k: Kept, cs: seq<Chunk>)
    decreases |cs|
  {
    cs == [] ||
    ((cs[0].values == [] && cs[0].token.Some? ==> k == Fitting(p)) &&
     KeepsTokens(Next(p, cs[0]), NextKept(p, k, cs[0]), cs[1..]))
  }

  /** Every answer to a retry keeps its tokens, and every reset meets a row stream
      that has taken all that was released, or would change nothing. */
  predicate CarefulRun(limit: nat, c: Client, evs: seq<Event>)
    decreases |evs|
  {
    evs == [] ||
    ((Retries(c, evs[0]) ==>
        && KeepsTokens(ResumesFrom(c), Fitting(ResumesFrom(c)), evs[0].resumption)
        && (c.pipe == [] || Settled(c.stream))) &&
     CarefulRun(limit, Step(limit, c, evs[0]), evs[1..]))
  }

  // ----- the invariant -----

  /** What is still to come keeps its tokens, and as long as a retry is allowed a
      drained row stream is settled. */
  predicate Kind(c: Client, p: Position) {
    && SharedOk(c.stream)
    && KeepsTokens(p, KeptOf(c.stream), ToCome(c))
    && (c.phase == Reading && c.sinceToken <= MAX_QUEUED ==>
          if c.lastToken.None? then KeptOf(c.stream) == Nothing
          else if c.pipe == [] then Settled(c.stream)
          else EndsWithToken(c.pipe))
  }

  lemma {:induction false} DeliverKeepsKind(limit: nat, truth: seq<Value>, c: Client, p: Position)
    requires Good(truth, c, p) && Kind(c, p)
    ensures Kind(Step(limit, c, Deliver), Moved(c, p, Deliver))
  {
    if c.pipe != [] {
      var s, chunk := c.stream, c.pipe[0];
      TransformInStep(truth, s, p, ToCome(c));
      assert ToCome(c)[1..] == c.pipe[1..] + c.queue + c.incoming;
      if s.ended {
        NothingAfterTheEnd(s.fields, truth, p, ToCome(c));
      } else {
        KeptFollowsChunks(s, p, chunk);
      }
      SettledIffNotLost(Transform(s, chunk).value, Next(p, chunk));
    }
  }

  lemma {:induction false} ReceiveKeepsKind(limit: nat, c: Client, p: Position)
    requires limit > MAX_QUEUED && |c.queue| <= c.sinceToken && Kind(c, p)
    ensures Kind(Step(limit, c, Receive), p)
  {
    assert ToCome(Step(limit, c, Receive)) == ToCome(c);
  }

  lemma {:induction false} FlushIsKind(p: Position, k: Kept, cs: seq<Chunk>)
    requires KeepsTokens(p, k, cs)
    ensures KeepsTokens(p, k, cs + [FLUSH])
    decreases |cs|
  {
    if cs == [] {
      assert (cs + [FLUSH])[1..] == [];
    } else {
      assert (cs + [FLUSH])[1..] == cs[1..] + [FLUSH];
      FlushIsKind(Next(p, cs[0]), NextKept(p, k, cs[0]), cs[1..]);
    }
  }

  /** Behind a fragment left by an earlier token hardly any token is allowed, so what
      is allowed there is allowed behind any fragment. */
  lemma {:induction false} OtherIsStrictest(p: Position, fragment: Value, k: Kept, cs: seq<Chunk>)
    requires k != Nothing && KeepsTokens(p, Other(fragment), cs)
    ensures KeepsTokens(p, k, cs)
    decreases |cs|
  {
    if cs != [] {
      var c := cs[0];
      if c.values == [] || c.token.None? {
        OtherIsStrictest(Next(p, c), fragment, NextKept(p, k, c), cs[1..]);
      }
    }
  }

  /** After chunks that end with a token the answer to a retry keeps its tokens. */
  lemma {:induction false} SpliceKind(p: Position, k: Kept, a: seq<Chunk>, b: seq<Chunk>, b': seq<Chunk>)
    requires EndsWithToken(a) && KeepsTokens(p, k, a + b)
    requires KeepsTokens(Reach(p, a), Fitting(Reach(p, a)), b')
    ensures KeepsTokens(p, k, a + b')
    decreases |a|
  {
    assert (a + b)[1..] == a[1..] + b && (a + b')[1..] == a[1..] + b';
    if |a| == 1 {
      assert a[1..] + b' == b' && Reach(p, a) == Next(p, a[0]) by { assert a[1..] == []; }
      assert NextKept(p, k, a[0]) == Fitting(Next(p, a[0]));
    } else {
      SpliceKind(Next(p, a[0]), NextKept(p, k, a[0]), a[1..], b, b');
    }
  }

  /** A reset that changes nothing may turn a fragment that happens to be equal into
      the very one that is open, and nothing else. */
  lemma {:induction false} ResetKeepsKind(s: Stream, p: Position, cs: seq<Chunk>)
    requires At(s, p) && SharedOk(s) && Settled(s) && KeepsTokens(p, KeptOf(s), cs)
    ensures var s' := ResetPending(s);
            && At(s', p) && SharedOk(s') && Settled(s')
            && KeptOf(s') == Fitting(p) && KeepsTokens(p, KeptOf(s'), cs)
  {
    if KeptOf(s).Other? {
      OtherIsStrictest(p, s.forResume, TheOpenOne, cs);
    }
  }

  lemma {:induction false} RetryKeepsKind(limit: nat, truth: seq<Value>, c: Client, p: Position, ev: Event)
    requires Good(truth, c, p) && Kind(c, p) && Retries(c, ev)
    requires KeepsTokens(ResumesFrom(c), Fitting(ResumesFrom(c)), ev.resumption)
    requires c.pipe == [] || Settled(c.stream)
    ensures c.lastToken.Some? ==> Settled(c.stream)
    ensures Kind(Step(limit, c, ev), p)
  {
    var s, c' := c.stream, Step(limit, c, ev);
    var later := c.queue + c.incoming;
    assert ToCome(c) == c.pipe + later && ToCome(c') == c.pipe + ev.resumption;
    if c.lastToken.Some? {
      ResetKeepsKind(s, p, ToCome(c));
      if c.pipe == [] {
        assert [] + ev.resumption == ev.resumption;
      } else {
        SpliceKind(p, KeptOf(c'.stream), c.pipe, later, ev.resumption);
      }
    } else {
      assert p == START && [] + ev.resumption == ev.resumption;
    }
  }

  lemma {:induction false} RunIsSettled(limit: nat, truth: seq<Value>, c: Client, p: Position, evs: seq<Event>)
    requires limit > MAX_QUEUED && Good(truth, c, p) && Kind(c, p)
    requires LegalRun(limit, c.stream.fields, truth, c, evs) && CarefulRun(limit, c, evs)
    ensures SettledRun(limit, c, evs)
    decreases |evs|
  {
    if evs != [] {
      var ev, c' := evs[0], Step(limit, c, evs[0]);
      match ev {
        case Deliver => DeliverKeepsKind(limit, truth, c, p);
        case Receive => if c.phase == Reading { ReceiveKeepsKind(limit, c, p); }
        case End => EndKeepsKind(limit, c, p);
        case Break(_, _, _) =>
          if Retries(c, ev) {
            RetryKeepsKind(limit, truth, c, p, ev);
          } else {
            assert ToCome(c') == ToCome(c);
          }
      }
      StepKeepsGood(limit, truth, c, p, ev);
      RunIsSettled(limit, truth, c', Moved(c, p, ev), evs[1..]);
    }
  }

  lemma {:induction false} EndKeepsKind(limit: nat, c: Client, p: Position)
    requires Kind(c, p)
    ensures Kind(Step(limit, c, End), p)
  {
    if c.phase == Reading && c.incoming == [] {
      FlushIsKind(p, KeptOf(c.stream), ToCome(c));
      assert ToCome(Step(limit, c, End)) == ToCome(c) + [FLUSH];
    }
  }

  // ----- the promise -----

  /** With answers that keep their tokens, every row comes once and in order in every
      run whose resets meet a drained row stream, or one they would not change. */
  lemma {:induction false} RowsOnceInOrderWithCare(limit: nat, fields: Columns, truth: seq<Value>, answer: seq<Chunk>, evs: seq<Event>)
    requires limit > MAX_QUEUED
    requires |truth| % |fields| == 0 && LegalAnswer(fields, truth, START, answer)
    requires KeepsTokens(START, Nothing, answer)
    requires LegalRun(limit, fields, truth, Connect(fields, answer), evs)
    requires CarefulRun(limit, Connect(fields, answer), evs)
    ensures SettledRun(limit, Connect(fields, answer), evs)
    ensures RowsAreRight(truth, Run(limit, Connect(fields, answer), evs))
  {
    var c := Connect(fields, answer);
    ConnectIsGood(fields, truth, answer);
    assert ToCome(c) == answer;
    RunIsSettled(limit, truth, c, START, evs);
    RowsOnceInOrder(limit, fields, truth, answer, evs);
  }
}
