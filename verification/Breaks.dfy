/** What a break does to a run, in terms of the chunks that have arrived so far: when
    the request is sent again, and which rows come out before the error when it is
    not. */
module Breaks {
  import opened Wrappers
  import opened Merging
  import opened ResultStream
  import opened Resumption

  /** The chunk that arrives with an event, if any. */
  function Arrival(c: Client, ev: Event): seq<Chunk> {
    if ev.Receive? && c.phase == Reading && c.incoming != [] then [c.incoming[0]] else []
  }

  /** The chunks that arrive in a run, over all its requests. */
  function Received(limit: nat, c: Client, evs: seq<Event>): seq<Chunk>
    decreases |evs|
  {
    if evs == [] then [] else Arrival(c, evs[0]) + Received(limit, Step(limit, c, evs[0]), evs[1..])
  }

  /** How many chunks have come since the last one with a token. */
  function SinceToken(cs: seq<Chunk>): nat {
    if cs == [] || cs[|cs| - 1].token.Some? then 0 else SinceToken(cs[..|cs| - 1]) + 1
  }

  function LastToken(cs: seq<Chunk>): Option<Position> {
    if cs == [] then None
    else if cs[|cs| - 1].token.Some? then cs[|cs| - 1].token
    else LastToken(cs[..|cs| - 1])
  }

  /** The client knows these two of all it has received, also over retries. */
  predicate Knows(c: Client, got: seq<Chunk>) {
    c.sinceToken == SinceToken(got) && c.lastToken == LastToken(got)
  }

  lemma {:induction false} StepKnows(limit: nat, c: Client, got: seq<Chunk>, ev: Event)
    requires Knows(c, got)
    ensures Knows(Step(limit, c, ev), got + Arrival(c, ev))
  {
    if Arrival(c, ev) != [] {
      assert (got + Arrival(c, ev))[..|got|] == got;
    } else {
      assert got + Arrival(c, ev) == got;
    }
  }

  lemma {:induction false} RunKnows(limit: nat, c: Client, got: seq<Chunk>, evs: seq<Event>)
    requires Knows(c, got)
    ensures Knows(Run(limit, c, evs), got + Received(limit, c, evs))
    decreases |evs|
  {
    if evs == [] {
      assert got + [] == got;
    } else {
      var c' := Step(limit, c, evs[0]);
      StepKnows(limit, c, got, evs[0]);
      RunKnows(limit, c', got + Arrival(c, evs[0]), evs[1..]);
      var later := Received(limit, c', evs[1..]);
      assert got + (Arrival(c, evs[0]) + later) == got + Arrival(c, evs[0]) + later;
    }
  }

  lemma {:induction false} BreakOf(limit: nat, c: Client, got: seq<Chunk>,
                                   retryable: bool, expired: bool, resumption: seq<Chunk>)
    requires c.phase == Reading && Knows(c, got)
    ensures var c' := Step(limit, c, Break(retryable, expired, resumption));
            && (c'.phase == Reading <==> retryable && !expired && SinceToken(got) <= 10)
            && (c'.phase != Reading ==> c'.phase == Failed && c'.stream == c.stream)
            && (c'.phase == Reading ==> c' == c.(
                  stream := if LastToken(got).Some? then ResetPending(c.stream) else c.stream,
                  queue := [], incoming := resumption))
  {
  }

  /** A broken request is sent again exactly when the error is retryable, the time is
      not up, and no more than 10 chunks have come without a token since the last one
      that had one. The queue is then dropped, what was released before stays, and the
      pending value is reset exactly if there has been a token. */
  lemma {:induction false} SentAgainIff(limit: nat, fields: Columns, answer: seq<Chunk>, evs: seq<Event>,
                                        retryable: bool, expired: bool, resumption: seq<Chunk>)
    requires Run(limit, Connect(fields, answer), evs).phase == Reading
    ensures var c := Run(limit, Connect(fields, answer), evs);
            var got := Received(limit, Connect(fields, answer), evs);
            var c' := Step(limit, c, Break(retryable, expired, resumption));
            && (c'.phase == Reading <==> retryable && !expired && SinceToken(got) <= 10)
            && (c'.phase != Reading ==> c'.phase == Failed && c'.stream == c.stream)
            && (c'.phase == Reading ==> c' == c.(
                  stream := if LastToken(got).Some? then ResetPending(c.stream) else c.stream,
                  queue := [], incoming := resumption))
  {
    var c0 := Connect(fields, answer);
    var got := Received(limit, c0, evs);
    RunKnows(limit, c0, [], evs);
    assert [] + got == got;
    BreakOf(limit, Run(limit, c0, evs), got, retryable, expired, resumption);
  }

  // ----- the rows that come out before the error -----

  lemma {:induction false} ReleaseLegal(truth: seq<Value>, s: Stream, p: Position, a: seq<Chunk>, b: seq<Chunk>)
    requires InStep(truth, s, p, a + b)
    ensures Release(s, a).Some?
    ensures var s' := Release(s, a).value;
            s'.fields == s.fields && InStep(truth, s', Reach(p, a), b)
    decreases |a|
  {
    if a == [] {
      assert a + b == b;
    } else {
      TransformInStep(truth, s, p, a + b);
      assert (a + b)[1..] == a[1..] + b;
      ReleaseLegal(truth, Transform(s, a[0]).value, Next(p, a[0]), a[1..], b);
    }
  }

  /** A break that is not retried flushes the checkpoint queue: once the row stream has
      taken what is then waiting, it has pushed the rows of every chunk received. */
  lemma {:induction false} FatalBreakFlushes(limit: nat, truth: seq<Value>, c: Client, p: Position,
                                             retryable: bool, expired: bool, resumption: seq<Chunk>)
    requires c.phase == Reading && Good(truth, c, p)
    requires !retryable || expired || c.sinceToken > 10
    ensures var all := c.pipe + c.queue;
            var c' := Run(limit, c, [Break(retryable, expired, resumption)] + Times(|all|, Deliver));
            && c'.phase == Failed && c'.pipe == [] && c'.queue == []
            && Release(c.stream, all) == Some(c'.stream) && At(c'.stream, Reach(p, all))
  {
    var all, ev := c.pipe + c.queue, Break(retryable, expired, resumption);
    ReleaseLegal(truth, c.stream, p, all, c.incoming);
    assert ([ev] + Times(|all|, Deliver))[1..] == Times(|all|, Deliver);
    FlushedAfter(limit, c, all, ev);
  }

  /** The client once the chunks have arrived, before the row stream takes any. */
  lemma {:induction false} AllArrived(limit: nat, c: Client, cs: seq<Chunk>, rest: seq<Chunk>)
    requires c.phase == Reading && c.incoming == cs + rest && c.pipe == [] && c.queue == []
    requires Knows(c, [])
    ensures var c' := Run(limit, c, Times(|cs|, Receive));
            && c'.phase == Reading && c'.stream == c.stream && c'.pipe + c'.queue == cs
            && c'.incoming == rest && Knows(c', cs)
  {
    ReceiveSome(limit, c, |cs|);
    assert (cs + rest)[..|cs|] == cs;
    ReceivesAll(limit, c, cs, rest);
    RunKnows(limit, c, [], Times(|cs|, Receive));
    assert [] + cs == cs;
  }

  /** Over a whole run with one request: whatever has arrived when it breaks for good,
      with tokens or without, comes out in full before the error. */
  lemma {:induction false} RowsBeforeTheError(limit: nat, fields: Columns, truth: seq<Value>, cs: seq<Chunk>, rest: seq<Chunk>,
                                              retryable: bool, expired: bool, resumption: seq<Chunk>)
    requires LegalAnswer(fields, truth, START, cs + rest)
    requires !retryable || expired || SinceToken(cs) > 10
    ensures var evs := Times(|cs|, Receive) + [Break(retryable, expired, resumption)] + Times(|cs|, Deliver);
            var c := Run(limit, Connect(fields, cs + rest), evs);
            && c.phase == Failed && c.pipe == [] && c.queue == []
            && Release(Fresh(fields), cs) == Some(c.stream)
            && Flatten(c.stream.rows) + c.stream.values == Reach(START, cs).done
  {
    var c0, ev := Connect(fields, cs + rest), Break(retryable, expired, resumption);
    RunThrough(limit, c0, Times(|cs|, Receive), ev, Times(|cs|, Deliver));
    AllArrived(limit, c0, cs, rest);
    ReleaseLegal(truth, Fresh(fields), START, cs, rest);
    FlushedAfter(limit, Run(limit, c0, Times(|cs|, Receive)), cs, ev);
  }

  lemma {:induction false} FlushedAfter(limit: nat, c: Client, cs: seq<Chunk>, ev: Event)
    requires c.phase == Reading && c.pipe + c.queue == cs
    requires ev.Break? && (!ev.retryable || ev.expired || c.sinceToken > 10)
    requires Release(c.stream, cs).Some?
    ensures Run(limit, Step(limit, c, ev), Times(|cs|, Deliver)) ==
            c.(stream := Release(c.stream, cs).value, pipe := [], queue := [], phase := Failed)
  {
    var c1 := Step(limit, c, ev);
    DeliverSome(limit, c1, |cs|);
    assert c1.pipe == cs && cs[..|cs|] == cs && cs[|cs|..] == [];
  }

  lemma {:induction false} ReceivesAll(limit: nat, c: Client, cs: seq<Chunk>, rest: seq<Chunk>)
    requires c.phase == Reading && c.incoming == cs + rest
    ensures Received(limit, c, Times(|cs|, Receive)) == cs
    decreases |cs|
  {
    if cs != [] {
      assert Times(|cs|, Receive)[1..] == Times(|cs[1..]|, Receive);
      assert (cs + rest)[1..] == cs[1..] + rest;
      ReceivesAll(limit, Step(limit, c, Receive), cs[1..], rest);
    }
  }

  // ----- the end -----

  /** After a chunk marked `last` nothing more enters the rows, whatever comes. */
  lemma {:induction false} LastEndsTheStream(s: Stream, c: Chunk, cs: seq<Chunk>)
    requires c.last && Transform(s, c).Some? && !s.ended
    ensures Release(s, [c] + cs) == Release(s, [c])
  {
    assert ([c] + cs)[1..] == cs && [c][1..] == [];
    EndedStays(Transform(s, c).value, cs);
  }

  lemma {:induction false} EndedStays(s: Stream, cs: seq<Chunk>)
    requires s.ended
    ensures Release(s, cs) == Some(s)
    decreases |cs|
  {
    if cs != [] {
      EndedStays(s, cs[1..]);
    }
  }
}
