/** `partialResultStream`: the checkpoint queue, the chunks it has released and the
    row stream has not taken yet, the retry after a broken request and the resume
    token, as a state machine over what the network and the consumer may do. */
module Resumption {
  import opened Wrappers
  import opened Merging
  import opened ResultStream

  const MAX_QUEUED: nat := 10

  datatype Phase = Reading | Ended | Failed | Crashed

  /** `queue` is the checkpoint stream's queue, `pipe` what it has released and the
      row stream has yet to take, `sinceToken` is `withoutCheckpointCount`, and
      `incoming` is what the server is still going to send in answer to the current
      request. */
  datatype Client = Client(
    stream: Stream,
    pipe: seq<Chunk>,
    queue: seq<Chunk>,
    sinceToken: nat,
    lastToken: Option<Position>,
    incoming: seq<Chunk>,
    phase: Phase)

  /** A chunk arrives, or the row stream takes one, which it may put off for as long
      as the consumer refuses rows; the request ends, or breaks. A broken request
      carries the answer the server would give to the next one. */
  datatype Event =
    | Receive
    | Deliver
    | End
    | Break(retryable: bool, expired: bool, resumption: seq<Chunk>)

  function Connect(fields: Columns, answer: seq<Chunk>): Client {
    Client(Fresh(fields), [], [], 0, None, answer, Reading)
  }

  /** The chunk pushed at the end. It carries a token only to make the checkpoint
      stream release its queue, which `End` does. */
  const FLUSH := Chunk([], false, None, false)

  /** `retry`: whether a broken request is sent again. */
  predicate Retries(c: Client, ev: Event) {
    c.phase == Reading && ev.Break? &&
    !ev.expired && ev.retryable && c.sinceToken <= MAX_QUEUED
  }

  /** `limit` is the number of chunks at which the checkpoint stream releases its
      queue without having seen a token. A retry resets the row stream at once,
      whatever has been released and not been taken. */
  function Step(limit: nat, c: Client, ev: Event): Client {
    match ev
    case Deliver =>
      if c.pipe == [] || c.phase == Crashed then c
      else
        (match Transform(c.stream, c.pipe[0])
         case None => c.(phase := Crashed)
         case Some(s') => c.(stream := s', pipe := c.pipe[1..]))
    case Receive =>
      if c.phase != Reading || c.incoming == [] then c
      else
        var chunk := c.incoming[0];
        var c' := c.(queue := c.queue + [chunk], incoming := c.incoming[1..],
                     sinceToken := if chunk.token.Some? then 0 else c.sinceToken + 1,
                     lastToken := if chunk.token.Some? then chunk.token else c.lastToken);
        if chunk.token.Some? || |c'.queue| >= limit then c'.(pipe := c.pipe + c'.queue, queue := []) else c'
    case End =>
      if c.phase != Reading || c.incoming != [] then c
      else c.(pipe := c.pipe + c.queue + [FLUSH], queue := [], phase := Ended)
    case Break(_, _, resumption) =>
      if c.phase != Reading then c
      else if Retries(c, ev) then
        c.(stream := if c.lastToken.Some? then ResetPending(c.stream) else c.stream,
           queue := [], incoming := resumption)
      else c.(pipe := c.pipe + c.queue, queue := [], phase := Failed)
  }

  function Run(limit: nat, c: Client, evs: seq<Event>): Client
    decreases |evs|
  {
    if evs == [] then c else Run(limit, Step(limit, c, evs[0]), evs[1..])
  }

  // ----- what the server may do -----

  /** The chunks sent from position `p` on, all of them, read as `truth`. A token, on
      whatever chunk, stands for the position after it. A chunk may be marked `last`
      once everything has been sent. */
  predicate LegalAnswer(fields: Columns, truth: seq<Value>, p: Position, cs: seq<Chunk>)
    decreases |cs|
  {
    if cs == [] then p == Position(truth, None)
    else
      LegalChunk(fields, p, cs[0]) &&
      (cs[0].token.Some? ==> cs[0].token.value == Advance(p, cs[0])) &&
      (cs[0].last ==> Advance(p, cs[0]) == Position(truth, None)) &&
      LegalAnswer(fields, truth, Advance(p, cs[0]), cs[1..])
  }

  /** Where the answer to the next request starts. */
  function ResumesFrom(c: Client): Position {
    if c.lastToken.Some? then c.lastToken.value else START
  }

  /** A request that carries a token is answered from that token's position on,
      and one without from the beginning; the chunks may be cut differently. */
  predicate LegalEvent(fields: Columns, truth: seq<Value>, c: Client, ev: Event) {
    Retries(c, ev) ==> LegalAnswer(fields, truth, ResumesFrom(c), ev.resumption)
  }

  predicate LegalRun(limit: nat, fields: Columns, truth: seq<Value>, c: Client, evs: seq<Event>)
    decreases |evs|
  {
    evs == [] ||
    (LegalEvent(fields, truth, c, evs[0]) &&
     LegalRun(limit, fields, truth, Step(limit, c, evs[0]), evs[1..]))
  }

  /** Every reset in the run meets a row stream whose saved fragment is the pending
      one. */
  predicate SettledRun(limit: nat, c: Client, evs: seq<Event>)
    decreases |evs|
  {
    evs == [] ||
    ((Retries(c, evs[0]) && c.lastToken.Some? ==> Settled(c.stream)) &&
     SettledRun(limit, Step(limit, c, evs[0]), evs[1..]))
  }

  /** What has been sent is a beginning of the truth, and a value still open is
      not yet among it. */
  lemma {:induction false} SentIsPrefix(fields: Columns, truth: seq<Value>, p: Position, cs: seq<Chunk>)
    requires LegalAnswer(fields, truth, p, cs)
    ensures p.done <= truth
    ensures p.open.Some? ==> |p.done| < |truth|
    decreases |cs|
  {
    if cs != [] {
      SentIsPrefix(fields, truth, Advance(p, cs[0]), cs[1..]);
      assert p.done <= Advance(p, cs[0]).done;
    }
  }

  /** Once everything has been sent no chunk has values any more. */
  lemma {:induction false} NothingAfterTheEnd(fields: Columns, truth: seq<Value>, p: Position, cs: seq<Chunk>)
    requires cs != [] && LegalAnswer(fields, truth, p, cs) && p.done == truth
    ensures cs[0].values == [] && p.open == None
  {
    SentIsPrefix(fields, truth, p, cs);
    SentIsPrefix(fields, truth, Advance(p, cs[0]), cs[1..]);
  }

  predicate EndsWithToken(cs: seq<Chunk>) {
    cs != [] && cs[|cs| - 1].token.Some?
  }

  /** Where reading some chunks leads. */
  function Reach(p: Position, cs: seq<Chunk>): Position
    decreases |cs|
  {
    if cs == [] then p else Reach(Next(p, cs[0]), cs[1..])
  }

  lemma {:induction false} ReachToken(fields: Columns, truth: seq<Value>, p: Position, a: seq<Chunk>, b: seq<Chunk>)
    requires LegalAnswer(fields, truth, p, a + b)
    requires EndsWithToken(a)
    ensures Reach(p, a) == a[|a| - 1].token.value
    decreases |a|
  {
    assert (a + b)[1..] == a[1..] + b;
    if |a| == 1 {
      assert Reach(p, a) == Reach(Next(p, a[0]), a[1..]) == Next(p, a[0]);
    } else {
      ReachToken(fields, truth, Next(p, a[0]), a[1..], b);
    }
  }

  /** What comes after some chunks can be replaced by another legal answer. */
  lemma {:induction false} Splice(fields: Columns, truth: seq<Value>, p: Position,
                                  a: seq<Chunk>, b: seq<Chunk>, b': seq<Chunk>)
    requires LegalAnswer(fields, truth, p, a + b)
    requires LegalAnswer(fields, truth, Reach(p, a), b')
    ensures LegalAnswer(fields, truth, p, a + b')
    decreases |a|
  {
    if a == [] {
      assert a + b' == b';
    } else {
      assert (a + b)[1..] == a[1..] + b;
      assert (a + b')[1..] == a[1..] + b';
      Splice(fields, truth, Next(p, a[0]), a[1..], b, b');
    }
  }

  // ----- the invariant -----

  /** The row stream stands at `p`, and a legal answer can go on from there with
      `cs`. */
  predicate InStep(truth: seq<Value>, s: Stream, p: Position, cs: seq<Chunk>) {
    && At(s, p) && LegalAnswer(s.fields, truth, p, cs)
    && (s.ended ==> p.done == truth)
  }

  /** One chunk leaves the row stream in step with the rest. */
  lemma {:induction false} TransformInStep(truth: seq<Value>, s: Stream, p: Position, cs: seq<Chunk>)
    requires cs != [] && InStep(truth, s, p, cs)
    ensures Transform(s, cs[0]).Some?
    ensures var s' := Transform(s, cs[0]).value;
            s'.fields == s.fields && InStep(truth, s', Next(p, cs[0]), cs[1..])
  {
    if s.ended {
      NothingAfterTheEnd(s.fields, truth, p, cs);
    } else {
      TransformFollowsProtocol(s, p, cs[0]);
    }
  }

  /** Everything the row stream has yet to take if nothing breaks. */
  function ToCome(c: Client): seq<Chunk> {
    c.pipe + c.queue + c.incoming
  }

  /** What has been released takes the row stream from `p` to the last token. */
  predicate ReachesToken(c: Client, p: Position) {
    Reach(p, c.pipe) == ResumesFrom(c) && (c.lastToken.None? ==> c.pipe == [])
  }

  /** The row stream stands at `p`, what it has yet to take completes the result, and
      as long as a retry is allowed it can be taken up again at the last token. */
  predicate Good(truth: seq<Value>, c: Client, p: Position) {
    && c.phase != Crashed
    && InStep(truth, c.stream, p, ToCome(c))
    && (c.phase == Reading ==> |c.queue| <= c.sinceToken && (c.sinceToken <= MAX_QUEUED ==> ReachesToken(c, p)))
    && (c.phase == Ended ==> c.queue == [] && c.incoming == [])
  }

  /** Where the row stream stands after an event. */
  function Moved(c: Client, p: Position, ev: Event): Position {
    if ev.Deliver? && c.pipe != [] then Next(p, c.pipe[0]) else p
  }

  lemma {:induction false} DeliverKeepsGood(limit: nat, truth: seq<Value>, c: Client, p: Position)
    requires Good(truth, c, p)
    ensures var c' := Step(limit, c, Deliver);
            c'.stream.fields == c.stream.fields && Good(truth, c', Moved(c, p, Deliver))
  {
    if c.pipe != [] {
      TransformInStep(truth, c.stream, p, ToCome(c));
      assert ToCome(c)[1..] == c.pipe[1..] + c.queue + c.incoming;
    }
  }

  lemma {:induction false} ReceiveKeepsGood(limit: nat, truth: seq<Value>, c: Client, p: Position)
    requires limit > MAX_QUEUED && Good(truth, c, p)
    ensures var c' := Step(limit, c, Receive);
            c'.stream == c.stream && Good(truth, c', p)
  {
    if c.phase == Reading && c.incoming != [] {
      var chunk := c.incoming[0];
      var released := c.pipe + (c.queue + [chunk]);
      var c' := Step(limit, c, Receive);
      assert ToCome(c) == released + c.incoming[1..];
      assert ToCome(c') == ToCome(c);
      if chunk.token.Some? {
        ReachToken(c.stream.fields, truth, p, released, c.incoming[1..]);
      }
    }
  }

  lemma {:induction false} FlushIsLegal(fields: Columns, truth: seq<Value>, p: Position, cs: seq<Chunk>)
    requires LegalAnswer(fields, truth, p, cs)
    ensures LegalAnswer(fields, truth, p, cs + [FLUSH])
    decreases |cs|
  {
    if cs == [] {
      assert (cs + [FLUSH])[1..] == [];
    } else {
      assert (cs + [FLUSH])[1..] == cs[1..] + [FLUSH];
      FlushIsLegal(fields, truth, Next(p, cs[0]), cs[1..]);
    }
  }

  lemma {:induction false} EndKeepsGood(limit: nat, truth: seq<Value>, c: Client, p: Position)
    requires Good(truth, c, p)
    ensures var c' := Step(limit, c, End);
            c'.stream == c.stream && Good(truth, c', p)
  {
    if c.phase == Reading && c.incoming == [] {
      FlushIsLegal(c.stream.fields, truth, p, ToCome(c));
      assert ToCome(Step(limit, c, End)) == ToCome(c) + [FLUSH];
    }
  }

  lemma {:induction false} BreakKeepsGood(limit: nat, truth: seq<Value>, c: Client, p: Position, ev: Event)
    requires ev.Break? && Good(truth, c, p)
    requires LegalEvent(c.stream.fields, truth, c, ev)
    requires Retries(c, ev) && c.lastToken.Some? ==> Settled(c.stream)
    ensures var c' := Step(limit, c, ev);
            c'.stream.fields == c.stream.fields && Good(truth, c', p)
  {
    var c' := Step(limit, c, ev);
    if Retries(c, ev) {
      assert ToCome(c) == c.pipe + (c.queue + c.incoming);
      Splice(c.stream.fields, truth, p, c.pipe, c.queue + c.incoming, ev.resumption);
      assert ToCome(c') == c.pipe + ev.resumption;
    } else if c.phase == Reading {
      assert ToCome(c') == ToCome(c);
    }
  }

  lemma {:induction false} StepKeepsGood(limit: nat, truth: seq<Value>, c: Client, p: Position, ev: Event)
    requires limit > MAX_QUEUED && Good(truth, c, p)
    requires LegalEvent(c.stream.fields, truth, c, ev)
    requires Retries(c, ev) && c.lastToken.Some? ==> Settled(c.stream)
    ensures var c' := Step(limit, c, ev);
            c'.stream.fields == c.stream.fields && Good(truth, c', Moved(c, p, ev))
  {
    match ev
    case Deliver => DeliverKeepsGood(limit, truth, c, p);
    case Receive => ReceiveKeepsGood(limit, truth, c, p);
    case End => EndKeepsGood(limit, truth, c, p);
    case Break(_, _, _) => BreakKeepsGood(limit, truth, c, p, ev);
  }

  lemma {:induction false} RunKeepsGood(limit: nat, truth: seq<Value>, c: Client, p: Position, evs: seq<Event>)
    returns (p': Position)
    requires limit > MAX_QUEUED && Good(truth, c, p)
    requires LegalRun(limit, c.stream.fields, truth, c, evs) && SettledRun(limit, c, evs)
    ensures Good(truth, Run(limit, c, evs), p')
    ensures Run(limit, c, evs).stream.fields == c.stream.fields
    decreases |evs|
  {
    if evs == [] {
      p' := p;
    } else {
      StepKeepsGood(limit, truth, c, p, evs[0]);
      p' := RunKeepsGood(limit, truth, Step(limit, c, evs[0]), Moved(c, p, evs[0]), evs[1..]);
    }
  }

  // ----- the promise -----

  /** The request has ended and the row stream has taken everything. */
  predicate Finished(c: Client) {
    c.phase == Ended && c.pipe == []
  }

  /** The rows pushed are full rows that spell a beginning of the truth, nothing
      is ever thrown, and a stream that finishes has pushed all of it. */
  predicate RowsAreRight(truth: seq<Value>, c: Client) {
    && c.phase != Crashed
    && (forall i :: 0 <= i < |c.stream.rows| ==> |c.stream.rows[i]| == |c.stream.fields|)
    && Flatten(c.stream.rows) <= truth
    && (Finished(c) ==> Flatten(c.stream.rows) == truth)
  }

  lemma {:induction false} GoodRowsAreRight(truth: seq<Value>, c: Client, p: Position)
    requires Good(truth, c, p) && |truth| % |c.stream.fields| == 0
    ensures RowsAreRight(truth, c)
  {
    var s := c.stream;
    SentIsPrefix(s.fields, truth, p, ToCome(c));
    ColumnOfPosition(s.rows, s.values, |s.fields|);
  }

  lemma {:induction false} ConnectIsGood(fields: Columns, truth: seq<Value>, answer: seq<Chunk>)
    requires LegalAnswer(fields, truth, START, answer)
    ensures Good(truth, Connect(fields, answer), START)
  {
    assert ToCome(Connect(fields, answer)) == answer;
  }

  /** In every run, however often the request breaks and resumes and however long the
      row stream puts off what has been released, every row comes once and in order,
      provided each reset meets a saved fragment that is the pending one. */
  lemma {:induction false} RowsOnceInOrder(limit: nat, fields: Columns, truth: seq<Value>, answer: seq<Chunk>, evs: seq<Event>)
    requires limit > MAX_QUEUED
    requires |truth| % |fields| == 0 && LegalAnswer(fields, truth, START, answer)
    requires LegalRun(limit, fields, truth, Connect(fields, answer), evs)
    requires SettledRun(limit, Connect(fields, answer), evs)
    ensures RowsAreRight(truth, Run(limit, Connect(fields, answer), evs))
  {
    ConnectIsGood(fields, truth, answer);
    var p := RunKeepsGood(limit, truth, Connect(fields, answer), START, evs);
    GoodRowsAreRight(truth, Run(limit, Connect(fields, answer), evs), p);
  }

  // ----- undisturbed stretches -----

  lemma {:induction false} RunConcat(limit: nat, c: Client, a: seq<Event>, b: seq<Event>)
    ensures Run(limit, c, a + b) == Run(limit, Run(limit, c, a), b)
    decreases |a|
  {
    if a == [] {
      assert a + b == b;
    } else {
      assert (a + b)[1..] == a[1..] + b;
      RunConcat(limit, Step(limit, c, a[0]), a[1..], b);
    }
  }

  lemma {:induction false} RunThrough(limit: nat, c: Client, a: seq<Event>, ev: Event, b: seq<Event>)
    ensures Run(limit, c, a + [ev] + b) == Run(limit, Step(limit, Run(limit, c, a), ev), b)
  {
    RunConcat(limit, c, a, [ev] + b);
    assert a + [ev] + b == a + ([ev] + b);
    assert ([ev] + b)[1..] == b;
  }

  function Times(n: nat, ev: Event): seq<Event> {
    seq(n, _ => ev)
  }

  lemma {:induction false} RunTimes(limit: nat, c: Client, n: nat, ev: Event)
    requires n > 0
    ensures Run(limit, c, Times(n, ev)) == Run(limit, Step(limit, c, ev), Times(n - 1, ev))
  {
    assert Times(n, ev)[1..] == Times(n - 1, ev);
  }

  /** The next `n` chunks arrive. */
  lemma {:induction false} ReceiveSome(limit: nat, c: Client, n: nat)
    requires c.phase == Reading && n <= |c.incoming|
    ensures var c' := Run(limit, c, Times(n, Receive));
            && c'.phase == Reading && c'.stream == c.stream && c'.incoming == c.incoming[n..]
            && c'.pipe + c'.queue == c.pipe + c.queue + c.incoming[..n]
            && (n == 0 ==> c' == c)
            && (n > 0 && c.incoming[n - 1].token.Some? ==>
                  c'.queue == [] && c'.sinceToken == 0 && c'.lastToken == c.incoming[n - 1].token)
    decreases n
  {
    if n > 0 {
      RunTimes(limit, c, n, Receive);
      var c1 := Step(limit, c, Receive);
      assert c1.pipe + c1.queue == c.pipe + c.queue + [c.incoming[0]];
      ReceiveSome(limit, c1, n - 1);
      assert [c.incoming[0]] + c1.incoming[..n - 1] == c.incoming[..n];
      assert c1.incoming[n - 1..] == c.incoming[n..];
    }
  }

  /** The chunks, taken by the row stream one after the other. */
  function Release(s: Stream, cs: seq<Chunk>): Option<Stream>
    decreases |cs|
  {
    if cs == [] then Some(s)
    else
      match Transform(s, cs[0])
      case None => None
      case Some(s') => Release(s', cs[1..])
  }

  /** The row stream takes the next `n` released chunks. */
  lemma {:induction false} DeliverSome(limit: nat, c: Client, n: nat)
    requires c.phase != Crashed && n <= |c.pipe|
    ensures var s', c' := Release(c.stream, c.pipe[..n]), Run(limit, c, Times(n, Deliver));
            if s'.Some? then c' == c.(stream := s'.value, pipe := c.pipe[n..]) else c'.phase == Crashed
    decreases n
  {
    if n > 0 {
      RunTimes(limit, c, n, Deliver);
      var c' := Step(limit, c, Deliver);
      assert c.pipe[..n][1..] == c.pipe[1..][..n - 1];
      if c'.phase == Crashed {
        CrashedStays(limit, c', Times(n - 1, Deliver));
      } else {
        DeliverSome(limit, c', n - 1);
      }
    }
  }

  lemma {:induction false} CrashedStays(limit: nat, c: Client, evs: seq<Event>)
    requires c.phase == Crashed
    ensures Run(limit, c, evs) == c
    decreases |evs|
  {
    if evs != [] {
      CrashedStays(limit, Step(limit, c, evs[0]), evs[1..]);
    }
  }

  /** An answer of `n` chunks arrives and ends, and the row stream takes `m` chunks. */
  function Unbroken(n: nat, m: nat): seq<Event> {
    Times(n, Receive) + [End] + Times(m, Deliver)
  }

  lemma {:induction false} RunUnbroken(limit: nat, c: Client)
    requires c.phase == Reading
    ensures var all := ToCome(c) + [FLUSH];
            var s', c' := Release(c.stream, all), Run(limit, c, Unbroken(|c.incoming|, |all|));
            if s'.Some? then Finished(c') && c'.stream == s'.value else c'.phase == Crashed
  {
    var n, m := |c.incoming|, |ToCome(c)| + 1;
    RunThrough(limit, c, Times(n, Receive), End, Times(m, Deliver));
    ReceiveSome(limit, c, n);
    var c1 := Run(limit, c, Times(n, Receive));
    assert c.incoming[..n] == c.incoming;
    var c2 := Step(limit, c1, End);
    assert c2.pipe == ToCome(c) + [FLUSH];
    DeliverSome(limit, c2, m);
    assert c2.pipe[..m] == c2.pipe;
  }

  lemma {:induction false} FlushReleasesNothing(s: Stream, cs: seq<Chunk>)
    ensures Release(s, cs).None? <==> Release(s, cs + [FLUSH]).None?
    ensures Release(s, cs).Some? ==>
              var a, b := Release(s, cs).value, Release(s, cs + [FLUSH]).value;
              a.rows == b.rows && a.fields == b.fields
    decreases |cs|
  {
    if cs == [] {
      assert cs + [FLUSH] == [FLUSH] && [FLUSH][1..] == [];
    } else {
      assert (cs + [FLUSH])[1..] == cs[1..] + [FLUSH];
      if Transform(s, cs[0]).Some? {
        FlushReleasesNothing(Transform(s, cs[0]).value, cs[1..]);
      }
    }
  }

  /** An answer that does not break again: the rows of everything still to come. */
  lemma {:induction false} UnbrokenRows(limit: nat, c: Client)
    requires c.phase == Reading
    ensures var s', c' := Release(c.stream, ToCome(c)), Run(limit, c, Unbroken(|c.incoming|, |ToCome(c)| + 1));
            if s'.Some? then
              Finished(c') && c'.stream.rows == s'.value.rows && c'.stream.fields == s'.value.fields
            else c'.phase == Crashed
  {
    RunUnbroken(limit, c);
    FlushReleasesNothing(c.stream, ToCome(c));
  }

  lemma {:induction false} ReleaseInStep(truth: seq<Value>, s: Stream, p: Position, cs: seq<Chunk>)
    requires InStep(truth, s, p, cs)
    ensures Release(s, cs).Some?
    ensures var s' := Release(s, cs).value;
            s'.fields == s.fields && At(s', Position(truth, None))
    decreases |cs|
  {
    if cs != [] {
      TransformInStep(truth, s, p, cs);
      ReleaseInStep(truth, Transform(s, cs[0]).value, Next(p, cs[0]), cs[1..]);
    }
  }

  lemma {:induction false} CompleteRows(truth: seq<Value>, s: Stream)
    requires At(s, Position(truth, None)) && |truth| % |s.fields| == 0
    ensures Flatten(s.rows) == truth
  {
    ColumnOfPosition(s.rows, s.values, |s.fields|);
  }

  /** From every reachable state in which a request is being answered, an answer that
      does not break again finishes the stream with all the rows. */
  lemma {:induction false} AnUnbrokenAnswerFinishes(limit: nat, truth: seq<Value>, c: Client, p: Position)
    requires c.phase == Reading && Good(truth, c, p) && |truth| % |c.stream.fields| == 0
    ensures var c' := Run(limit, c, Unbroken(|c.incoming|, |ToCome(c)| + 1));
            Finished(c') && Flatten(c'.stream.rows) == truth
  {
    UnbrokenRows(limit, c);
    ReleaseInStep(truth, c.stream, p, ToCome(c));
    CompleteRows(truth, Release(c.stream, ToCome(c)).value);
  }
}
