/** `PartialResultStream`: rows from a stream of partial result sets whose last
    value may be cut in two, against the protocol's own reading of that stream. */
module ResultStream {
  import opened Wrappers
  import opened Merging
  import Arithmetic

  // ----- the wire -----

  /** How far the server has got: the complete values sent, and the fragment of
      the next one that has been sent so far. */
  datatype Position = Position(done: seq<Value>, open: Option<Value>)

  const START := Position([], None)

  /** A `PartialResultSet`. A resume token is opaque to the client; what it stands
      for is the position right after the chunk that carries it. */
  datatype Chunk = Chunk(values: seq<Value>, chunked: bool, token: Option<Position>, last: bool)

  predicate Chunkable(v: Value) {
    v.Str? || v.List?
  }

  predicate OpenOk(p: Position) {
    p.open.Some? ==> Chunkable(p.open.value)
  }

  /** The values of a chunk once the first one is joined to what is open. */
  function Joined(p: Position, c: Chunk): seq<Value>
    requires c.values != []
    requires p.open.Some? ==> Mergeable(p.open.value, c.values[0])
  {
    if p.open.Some? then [Combine(p.open.value, c.values[0])] + c.values[1..] else c.values
  }

  /** The protocol's reading of one chunk. */
  function Advance(p: Position, c: Chunk): Position
    requires p.open.Some? && c.values != [] ==> Mergeable(p.open.value, c.values[0])
  {
    if c.values == [] then p
    else
      var vs := Joined(p, c);
      if c.chunked then Position(p.done + vs[..|vs| - 1], Some(vs[|vs| - 1]))
      else Position(p.done + vs, None)
  }

  /** A chunk the server may send at `p` for rows of the given column types. */
  predicate LegalChunk(fields: Columns, p: Position, c: Chunk)
  {
    c.values != [] ==>
      (p.open.Some? ==>
         && Mergeable(p.open.value, c.values[0])
         && Joinable(fields[|p.done| % |fields|], p.open.value, c.values[0])
         && NoEmptyFragment(p.open.value, c.values[0])) &&
      (c.chunked ==> Chunkable(c.values[|c.values| - 1]))
  }

  // ----- the client -----

  /** The column types of a row; a row has at least one column. */
  type Columns = ts: seq<Type> | ts != [] witness [Scalar]

  /** The fields of a `PartialResultStream`, with the rows pushed so far. `shared`
      says that `pending` and `forResume` are one and the same array object. */
  datatype Stream = Stream(
    fields: Columns,
    values: seq<Value>,
    pending: Value,
    forResume: Value,
    shared: bool,
    rows: seq<seq<Value>>,
    ended: bool)

  function Fresh(fields: Columns): Stream {
    Stream(fields, [], Undefined, Undefined, false, [], false)
  }

  /** JavaScript truthiness, which decides whether a value counts as pending. */
  predicate Truthy(v: Value) {
    match v
    case Undefined => false
    case Null => false
    case Bool(b) => b
    case Number(n) => n != 0.0
    case Str(s) => s != ""
    case List(_) => true
  }

  /** `_addValue`. */
  function AddValue(s: Stream, v: Value): Stream {
    var vs := s.values + [v];
    if |vs| != |s.fields| then s.(values := vs) else s.(values := [], rows := s.rows + [vs])
  }

  function AddValues(s: Stream, vs: seq<Value>): Stream {
    if vs == [] then s else AddValue(AddValues(s, vs[..|vs| - 1]), vs[|vs| - 1])
  }

  /** First half of `_addChunk`: join the pending value to the first one. Joining
      two lists pops the pending array itself, which `forResume` may share. */
  function TakePending(s: Stream, values: seq<Value>): (r: Option<(seq<Value>, Stream)>)
    requires values != []
    ensures r.Some? ==> r.value.0 != []
  {
    if !Truthy(s.pending) then Some((values, s))
    else
      var t := s.fields[|s.values| % |s.fields|];
      match Merge(t, s.pending, values[0])
      case None => None
      case Some(merged) =>
        var popped := s.shared && !t.Scalar? && s.pending.List? && values[0].List?;
        Some((merged + values[1..],
              s.(pending := Undefined,
              forResume := if popped then List(Init(s.pending.vs)) else s.forResume,
              shared := false)))
  }

  /** Second half of `_addChunk`: hold back the last value of a chunked chunk. */
  function StorePending(s: Stream, values: seq<Value>, c: Chunk): (seq<Value>, Stream)
    requires values != []
  {
    if c.chunked then
      var last := values[|values| - 1];
      (values[..|values| - 1],
       s.(pending := last,
       forResume := if c.token.Some? then last else s.forResume,
       shared := c.token.Some?))
    else if c.token.Some? then (values, s.(forResume := Undefined, shared := false))
    else (values, s)
  }

  /** `_addChunk`; None is a thrown TypeError. */
  function AddChunk(s: Stream, c: Chunk): Option<Stream>
    requires c.values != []
  {
    match TakePending(s, c.values)
    case None => None
    case Some((values, s1)) =>
      var (complete, s2) := StorePending(s1, values, c);
      Some(AddValues(s2, complete))
  }

  /** `_transform`. After a chunk marked `last` the stream never asks for another
      one. */
  function Transform(s: Stream, c: Chunk): Option<Stream> {
    if s.ended then Some(s)
    else if c.values == [] then Some(s.(ended := c.last))
    else
      match AddChunk(s, c)
      case None => None
      case Some(s') => Some(s'.(ended := c.last))
  }

  /** `_resetPendingValues`. */
  function ResetPending(s: Stream): Stream {
    if Truthy(s.forResume) then s.(pending := s.forResume, shared := true)
    else s.(pending := Undefined, shared := false)
  }

  // ----- the position a client has reached -----

  function Flatten(rows: seq<seq<Value>>): seq<Value> {
    if rows == [] then [] else Flatten(rows[..|rows| - 1]) + rows[|rows| - 1]
  }

  function OpenOf(v: Value): Option<Value> {
    if Truthy(v) then Some(v) else None
  }

  /** An open empty string is as good as no open value. */
  function Normal(p: Position): Position {
    if p.open.Some? then p.(open := OpenOf(p.open.value)) else p
  }

  function PositionOf(s: Stream): Position {
    Position(Flatten(s.rows) + s.values, OpenOf(s.pending))
  }

  /** Every row pushed is complete and the row being gathered is not. */
  predicate Shape(s: Stream) {
    |s.values| < |s.fields| && forall i :: 0 <= i < |s.rows| ==> |s.rows[i]| == |s.fields|
  }

  /** The column of the value being gathered is the number of values modulo the
      number of columns. */
  lemma {:induction false} ColumnOfPosition(rows: seq<seq<Value>>, values: seq<Value>, w: nat)
    requires |values| < w
    requires forall i :: 0 <= i < |rows| ==> |rows[i]| == w
    ensures |Flatten(rows) + values| % w == |values|
  {
    if rows == [] {
      Arithmetic.RemainderUnique(|values|, w, 0, |values|);
    } else {
      var front := rows[..|rows| - 1];
      ColumnOfPosition(front, values, w);
      Arithmetic.RemainderAdd(|Flatten(front) + values|, w);
      assert |Flatten(rows) + values| == |Flatten(front) + values| + w;
    }
  }

  lemma FlattenPush(rows: seq<seq<Value>>, row: seq<Value>)
    ensures Flatten(rows + [row]) == Flatten(rows) + row
  {
    assert (rows + [row])[..|rows|] == rows;
  }

  lemma AddValueAppends(s: Stream, v: Value)
    requires Shape(s)
    ensures var s' := AddValue(s, v);
            && Shape(s') && Flatten(s'.rows) + s'.values == Flatten(s.rows) + (s.values + [v])
            && s' == s.(values := s'.values, rows := s'.rows)
  {
    var vs := s.values + [v];
    if |vs| == |s.fields| {
      FlattenPush(s.rows, vs);
      assert Flatten(s.rows + [vs]) + [] == Flatten(s.rows) + vs;
    }
  }

  /** Values are appended in order and cut into full rows. */
  lemma {:induction false} AddValuesAppends(s: Stream, vs: seq<Value>)
    requires Shape(s)
    ensures var s' := AddValues(s, vs);
            && Shape(s') && Flatten(s'.rows) + s'.values == Flatten(s.rows) + s.values + vs
            && s' == s.(values := s'.values, rows := s'.rows)
  {
    if vs != [] {
      var front, v := vs[..|vs| - 1], vs[|vs| - 1];
      AddValuesAppends(s, front);
      AddValueAppends(AddValues(s, front), v);
      assert front + [v] == vs;
      var m := AddValues(s, front);
      calc {
        Flatten(m.rows) + (m.values + [v]);
        (Flatten(m.rows) + m.values) + [v];
        (Flatten(s.rows) + s.values + front) + [v];
        Flatten(s.rows) + s.values + (front + [v]);
      }
    }
  }

  /** Joining the pending fragment to the first value is the protocol's reading
      of the chunk's values, and leaves nothing pending. */
  lemma TakePendingFollowsProtocol(s: Stream, p: Position, c: Chunk)
    requires At(s, p) && c.values != [] && LegalChunk(s.fields, p, c)
    ensures TakePending(s, c.values).Some?
    ensures var (values, s1) := TakePending(s, c.values).value;
            && values == Joined(p, c)
            && s1 == s.(pending := s1.pending, forResume := s1.forResume, shared := s1.shared)
            && !Truthy(s1.pending)
  {
    if Truthy(s.pending) {
      ColumnOfPosition(s.rows, s.values, |s.fields|);
      Arithmetic.RemainderUnique(|s.values|, |s.fields|, 0, |s.values|);
      assert |p.done| % |s.fields| == |s.values|;
      var t := s.fields[|s.values|];
      MergeIsProtocolIffNoEmptyFragment(t, s.pending, c.values[0]);
    } else if p.open.Some? {
      assert p.open.value == Str("");
      assert Combine(p.open.value, c.values[0]).s == c.values[0].s;
    }
  }

  /** Holding back the open fragment is the protocol's cut of the joined values. */
  lemma StorePendingFollowsProtocol(s: Stream, p: Position, c: Chunk)
    requires c.values != [] && !Truthy(s.pending)
    requires p.open.Some? ==> Mergeable(p.open.value, c.values[0])
    requires c.chunked ==> Chunkable(c.values[|c.values| - 1])
    requires OpenOk(p)
    ensures var (complete, s') := StorePending(s, Joined(p, c), c);
            && p.done + complete == Advance(p, c).done
            && OpenOf(s'.pending) == Normal(Advance(p, c)).open
            && s' == s.(pending := s'.pending, forResume := s'.forResume, shared := s'.shared)
            && (c.token.Some? ==> OpenOf(s'.forResume) == OpenOf(s'.pending))
  {
  }

  /** One chunk takes the client where the protocol says: it never throws on a
      legal chunk, loses no value, and holds back the right fragment. After a chunk
      with a token and some values a reset changes nothing. */
  lemma TransformFollowsProtocol(s: Stream, p: Position, c: Chunk)
    requires At(s, p) && !s.ended && LegalChunk(s.fields, p, c)
    ensures Transform(s, c).Some?
    ensures var s' := Transform(s, c).value;
            && At(s', Next(p, c)) && s'.fields == s.fields && s'.ended == c.last
            && (c.token.Some? && c.values != [] ==> OpenOf(s'.forResume) == OpenOf(s'.pending))
  {
    if c.values != [] {
      TakePendingFollowsProtocol(s, p, c);
      var (values, s1) := TakePending(s, c.values).value;
      StorePendingFollowsProtocol(s1, p, c);
      var (complete, s2) := StorePending(s1, values, c);
      AddValuesAppends(s2, complete);
      assert Flatten(s.rows) + s.values == p.done;
    }
  }

  // ----- the saved fragment, as the chunks determine it -----

  predicate CanAdvance(p: Position, c: Chunk) {
    p.open.Some? && c.values != [] ==> Mergeable(p.open.value, c.values[0])
  }

  function Next(p: Position, c: Chunk): Position {
    if CanAdvance(p, c) then Advance(p, c) else p
  }

  /** What is saved for a retry: nothing, the very fragment that is open, or the
      fragment that was open at an earlier token. */
  datatype Kept = Nothing | TheOpenOne | Other(fragment: Value)

  /** What a retry from this position should find saved. */
  function Fitting(p: Position): Kept {
    if Normal(p).open.Some? then TheOpenOne else Nothing
  }

  /** A chunk with values and a token saves the open fragment. One with values and no
      token leaves an earlier fragment behind, which joining has popped if it is a
      list. A chunk without values saves nothing, token or not. */
  function NextKept(p: Position, k: Kept, c: Chunk): Kept {
    if c.values == [] then k
    else if c.token.Some? then Fitting(Next(p, c))
    else if k.TheOpenOne? && p.open.Some? then
      Other(if p.open.value.List? then List(Init(p.open.value.vs)) else p.open.value)
    else k
  }

  /** What is saved is not what is open. */
  predicate Lost(p: Position, k: Kept) {
    match k
    case Nothing => Normal(p).open.Some?
    case TheOpenOne => false
    case Other(fragment) => Normal(p).open != Some(fragment)
  }

  function KeptOf(s: Stream): Kept {
    if !Truthy(s.forResume) then Nothing else if s.shared then TheOpenOne else Other(s.forResume)
  }

  predicate SharedOk(s: Stream) {
    s.shared ==> s.forResume == s.pending
  }

  /** A reset would change nothing. */
  predicate Settled(s: Stream) {
    OpenOf(s.forResume) == OpenOf(s.pending)
  }

  /** The row stream stands at `p`. */
  predicate At(s: Stream, p: Position) {
    Shape(s) && OpenOk(p) && PositionOf(s) == Normal(p)
  }

  lemma SettledIffNotLost(s: Stream, p: Position)
    requires SharedOk(s) && At(s, p)
    ensures Settled(s) <==> !Lost(p, KeptOf(s))
  {
  }

  /** Joining leaves the saved fragment as it was, or popped if it was the list that
      is joined. */
  lemma TakePendingKept(s: Stream, p: Position, c: Chunk)
    requires At(s, p) && c.values != [] && LegalChunk(s.fields, p, c)
    ensures TakePending(s, c.values).Some?
    ensures var s1 := TakePending(s, c.values).value.1;
            if Truthy(s.pending) then
              !s1.shared && s1.forResume == if s.shared && s.pending.List? then List(Init(s.pending.vs)) else s.forResume
            else s1 == s
  {
    TakePendingFollowsProtocol(s, p, c);
    if Truthy(s.pending) {
      ColumnOfPosition(s.rows, s.values, |s.fields|);
      Arithmetic.RemainderUnique(|s.values|, |s.fields|, 0, |s.values|);
      assert Joinable(s.fields[|s.values|], s.pending, c.values[0]);
    }
  }

  /** A chunk with values and no token leaves an earlier fragment behind. */
  lemma KeptBehind(s: Stream, p: Position, c: Chunk)
    requires At(s, p) && SharedOk(s) && LegalChunk(s.fields, p, c)
    requires c.values != [] && c.token.None?
    ensures TakePending(s, c.values).Some?
    ensures var (values, s1) := TakePending(s, c.values).value;
            var (_, s2) := StorePending(s1, values, c);
            (s2.shared ==> !Truthy(s2.forResume)) && KeptOf(s2) == NextKept(p, KeptOf(s), c)
  {
    TakePendingKept(s, p, c);
  }

  /** The saved fragment is what the chunks say it is. */
  lemma KeptFollowsChunks(s: Stream, p: Position, c: Chunk)
    requires At(s, p) && !s.ended && SharedOk(s) && LegalChunk(s.fields, p, c)
    ensures Transform(s, c).Some?
    ensures var s' := Transform(s, c).value;
            SharedOk(s') && KeptOf(s') == NextKept(p, KeptOf(s), c)
  {
    TransformFollowsProtocol(s, p, c);
    if c.values != [] {
      var (values, s1) := TakePending(s, c.values).value;
      var (complete, s2) := StorePending(s1, values, c);
      AddValuesKeepsFragments(s2, complete);
      if c.token.None? {
        KeptBehind(s, p, c);
      }
    }
  }

  lemma {:induction false} AddValuesKeepsFragments(s: Stream, vs: seq<Value>)
    ensures var s' := AddValues(s, vs);
            s'.pending == s.pending && s'.forResume == s.forResume && s'.shared == s.shared
  {
    if vs != [] {
      AddValuesKeepsFragments(s, vs[..|vs| - 1]);
    }
  }

  /** A token saves the open fragment; if it is a list, joining it to the next chunk
      pops its last element off what is saved, since both are one array. */
  lemma {:induction false} SavedListIsPopped(s: Stream, p: Position, c: Chunk, d: Chunk, xs: seq<Value>)
    requires At(s, p) && !s.ended && SharedOk(s)
    requires LegalChunk(s.fields, p, c) && c.values != [] && c.token.Some? && !c.last
    requires Advance(p, c).open == Some(List(xs))
    requires LegalChunk(s.fields, Advance(p, c), d) && d.values != [] && d.token.None?
    ensures Transform(s, c).Some? && Transform(s, c).value.forResume == List(xs)
    ensures Transform(Transform(s, c).value, d).Some?
    ensures xs != [] && Transform(Transform(s, c).value, d).value.forResume == List(xs[..|xs| - 1])
  {
    KeptFollowsChunks(s, p, c);
    TransformFollowsProtocol(s, p, c);
    KeptFollowsChunks(Transform(s, c).value, Advance(p, c), d);
  }

  /** After a chunk with a token, going back to the saved fragment restores the
      position of that token exactly when the chunks so far have not lost the open
      fragment, as they never have if the chunk itself brought values. */
  lemma TokenIsRestorableIff(s: Stream, p: Position, c: Chunk)
    requires At(s, p) && !s.ended && SharedOk(s)
    requires LegalChunk(s.fields, p, c) && c.token.Some?
    ensures Transform(s, c).Some?
    ensures var p', k := Next(p, c), NextKept(p, KeptOf(s), c);
            && (PositionOf(ResetPending(Transform(s, c).value)) == Normal(p') <==> !Lost(p', k))
            && (c.values != [] ==> !Lost(p', k))
  {
    TransformFollowsProtocol(s, p, c);
    KeptFollowsChunks(s, p, c);
    SettledIffNotLost(Transform(s, c).value, Next(p, c));
  }

  // ----- the class -----

  class PartialResultStream {
    const fields: Columns
    /** Whether the consumer accepts the push of the n-th row without asking for a
        pause. */
    const accepts: nat -> bool
    var values: seq<Value>
    var pendingValue: Value
    var pendingValueForResume: Value
    var shared: bool
    var rows: seq<seq<Value>>
    var ended: bool

    ghost function Snapshot(): Stream
      reads this
    {
      Stream(fields, values, pendingValue, pendingValueForResume, shared, rows, ended)
    }

    /** All rows pushed since there were `n` of them have been accepted. */
    ghost predicate AcceptedSince(n: nat)
      reads this
    {
      forall k: nat :: n <= k < |rows| ==> accepts(k)
    }

    constructor (fields: Columns, accepts: nat -> bool)
      ensures Snapshot() == Fresh(fields) && this.accepts == accepts
    {
      this.fields, this.accepts := fields, accepts;
      values, rows := [], [];
      pendingValue, pendingValueForResume, shared := Undefined, Undefined, false;
      ended := false;
    }

    /** `_addValue`: a full set of values is pushed as a row, and the result says
        whether more may come. */
    method AddOne(value: Value) returns (more: bool)
      modifies this`values, this`rows
      ensures Snapshot() == AddValue(old(Snapshot()), value)
      ensures |old(rows)| <= |rows| && (more <==> AcceptedSince(|old(rows)|))
    {
      var vs := values + [value];
      if |vs| != |fields| {
        values := vs;
        return true;
      }
      values := [];
      rows := rows + [vs];
      more := accepts(|rows| - 1);
    }

    /** The `forEach` of `_addChunk`. A row that is refused does not stop the rest, but
        more may come only if none was. */
    method AddAll(vs: seq<Value>) returns (more: bool)
      modifies this`values, this`rows
      ensures Snapshot() == AddValues(old(Snapshot()), vs)
      ensures |old(rows)| <= |rows| && (more <==> AcceptedSince(|old(rows)|))
    {
      more := true;
      for i := 0 to |vs|
        invariant Snapshot() == AddValues(old(Snapshot()), vs[..i])
        invariant |old(rows)| <= |rows| && (more <==> AcceptedSince(|old(rows)|))
      {
        var accepted := AddOne(vs[i]);
        more := accepted && more;
        assert vs[..i + 1][..i] == vs[..i];
      }
      assert vs[..|vs|] == vs;
    }

    /** The first half of `_addChunk`: a pending value is joined to the first one. */
    method JoinPending(vs: seq<Value>) returns (r: Option<seq<Value>>)
      requires vs != []
      modifies this`pendingValue, this`pendingValueForResume, this`shared
      ensures r.None? <==> TakePending(old(Snapshot()), vs).None?
      ensures r.Some? ==> (r.value, Snapshot()) == TakePending(old(Snapshot()), vs).value
    {
      if !Truthy(pendingValue) {
        return Some(vs);
      }
      var t := fields[|values| % |fields|];
      var merged := Merge(t, pendingValue, vs[0]);
      if merged.None? {
        return None;
      }
      if shared && !t.Scalar? && pendingValue.List? && vs[0].List? {
        pendingValueForResume := List(Init(pendingValue.vs));
      }
      pendingValue, shared := Undefined, false;
      return Some(merged.value + vs[1..]);
    }

    /** `_addChunk`. */
    method AddOneChunk(c: Chunk) returns (thrown: bool, more: bool)
      requires c.values != []
      modifies this
      ensures thrown <==> AddChunk(old(Snapshot()), c).None?
      ensures thrown ==> rows == old(rows) && values == old(values)
      ensures !thrown ==> Snapshot() == AddChunk(old(Snapshot()), c).value
      ensures !thrown ==> |old(rows)| <= |rows| && (more <==> AcceptedSince(|old(rows)|))
    {
      var joined := JoinPending(c.values);
      if joined.None? {
        return true, false;
      }
      var vs := joined.value;
      if c.chunked {
        pendingValue := vs[|vs| - 1];
        vs := vs[..|vs| - 1];
        if c.token.Some? {
          pendingValueForResume := pendingValue;
        }
        shared := c.token.Some?;
      } else if c.token.Some? {
        pendingValueForResume, shared := Undefined, false;
      }
      more := AddAll(vs);
      thrown := false;
    }

    /** `_transform`. The next chunk may come at once unless a row was refused, and
        never after the last one. */
    method Write(c: Chunk) returns (thrown: bool, goesOn: bool)
      modifies this
      ensures thrown <==> Transform(old(Snapshot()), c).None?
      ensures thrown ==> rows == old(rows) && values == old(values)
      ensures !thrown ==> Snapshot() == Transform(old(Snapshot()), c).value
      ensures !thrown ==> |old(rows)| <= |rows| && (goesOn <==> !ended && AcceptedSince(|old(rows)|))
    {
      if ended {
        return false, false;
      }
      thrown := false;
      var more := true;
      if c.values != [] {
        thrown, more := AddOneChunk(c);
      }
      if !thrown {
        ended := c.last;
      }
      goesOn := more && !ended;
    }

    /** `_resetPendingValues`. */
    method ResetPendingValues()
      modifies this`pendingValue, this`shared
      ensures Snapshot() == ResetPending(old(Snapshot()))
    {
      if Truthy(pendingValueForResume) {
        pendingValue, shared := pendingValueForResume, true;
      } else {
        pendingValue, shared := Undefined, false;
      }
    }
  }
}
