/** Which resets do harm: exactly those that find a saved fragment other than the
    pending one, whether released chunks are still waiting or the token that is
    resumed from came on a chunk without values. */
module Resets {
  import opened Wrappers
  import opened Merging
  import opened ResultStream
  import opened Resumption
  import Arithmetic

  /** All that is still to come from `p`, filling the last row. */
  predicate Completes(fields: Columns, truth: seq<Value>, p: Position, cs: seq<Chunk>) {
    |truth| % |fields| == 0 && LegalAnswer(fields, truth, p, cs)
  }

  predicate RightAfter(s: Stream, truth: seq<Value>, cs: seq<Chunk>) {
    Release(s, cs).Some? && Flatten(Release(s, cs).value.rows) == truth
  }

  /** A reset of a row stream that stands at `p` leaves the rows right whatever is
      still to come. */
  ghost predicate HarmlessReset(s: Stream, p: Position) {
    forall truth: seq<Value>, cs: seq<Chunk> ::
      Completes(s.fields, truth, p, cs) ==> RightAfter(ResetPending(s), truth, cs)
  }

  lemma {:induction false} SettledIsHarmless(s: Stream, p: Position, truth: seq<Value>, cs: seq<Chunk>)
    requires At(s, p) && !s.ended && Settled(s) && Completes(s.fields, truth, p, cs)
    ensures RightAfter(ResetPending(s), truth, cs)
  {
    ReleaseInStep(truth, ResetPending(s), p, cs);
    CompleteRows(truth, Release(ResetPending(s), cs).value);
  }

  // ----- a sequel that shows the harm -----

  /** An open value is closed by something that can be joined to it. */
  lemma {:induction false} OpenIsClosed(fields: Columns, truth: seq<Value>, p: Position, cs: seq<Chunk>)
    returns (v: Value)
    requires LegalAnswer(fields, truth, p, cs) && p.open.Some?
    ensures Mergeable(p.open.value, v)
    ensures Joinable(fields[|p.done| % |fields|], p.open.value, v) && NoEmptyFragment(p.open.value, v)
    decreases |cs|
  {
    if cs[0].values == [] {
      v := OpenIsClosed(fields, truth, p, cs[1..]);
    } else {
      v := cs[0].values[0];
    }
  }

  /** The least that closes what is open, or a null. */
  function Closing(open: Option<Value>): Value {
    if open.None? then Null else if open.value.Str? then Str("") else List([Null])
  }

  /** The value it completes. */
  function Closed(open: Option<Value>): Value
    requires open.Some? ==> Mergeable(open.value, Closing(open))
  {
    if open.Some? then Combine(open.value, Closing(open)) else Null
  }

  lemma {:induction false} ClosingIsLegal(t: Type, o: Value, v: Value)
    requires Mergeable(o, v) && Joinable(t, o, v) && NoEmptyFragment(o, v)
    ensures var w := Closing(Some(o));
            && Mergeable(o, w) && Joinable(t, o, w) && NoEmptyFragment(o, w)
            && (o.List? ==> Combine(o, w) == List(o.vs + [Null]) && o.vs != [] && !t.Scalar?)
            && (o.Str? ==> Combine(o, w) == o && t.Scalar?)
  {
    if o.Str? {
      assert o.s + "" == o.s;
    } else {
      var last := o.vs[|o.vs| - 1];
      assert !Mergeable(last, Null);
    }
  }

  /** Joined to another fragment than the open one, or to none, it completes another
      value, or throws. */
  lemma {:induction false} ClosesAnother(t: Type, open: Option<Value>, saved: Value, v: Value)
    requires open.Some? ==>
               Mergeable(open.value, v) && Joinable(t, open.value, v) && NoEmptyFragment(open.value, v)
    requires (if open.Some? then OpenOf(open.value) else None) != OpenOf(saved)
    ensures open.Some? ==> Mergeable(open.value, Closing(open))
    ensures if Truthy(saved) then
              Merge(t, saved, Closing(open)).Some? ==> Merge(t, saved, Closing(open)).value[0] != Closed(open)
            else Closing(open) != Closed(open)
  {
    if open.Some? {
      var o := open.value;
      ClosingIsLegal(t, o, v);
      if o.Str? {
        if saved.Str? {
          assert saved.s + "" == saved.s;
        }
      } else if saved.List? {
        ListClosesAnother(t, o, saved, v);
      }
    }
  }

  lemma {:induction false} ListClosesAnother(t: Type, o: Value, saved: Value, v: Value)
    requires Mergeable(o, v) && Joinable(t, o, v) && NoEmptyFragment(o, v)
    requires o.List? && saved.List? && o != saved
    ensures Merge(t, saved, List([Null])).Some? ==>
              Merge(t, saved, List([Null])).value[0] != List(o.vs + [Null])
  {
    var merged := MergeLists(t, saved, List([Null]));
    if merged.Some? {
      var inner := if t.ArrayOf? then t.elem else t.fields[|saved.vs| - 1];
      var last := Popped(saved.vs);
      assert Merge(inner, last, Null) == Some([last, Null]);
      assert merged.value.vs == Init(saved.vs) + [last, Null];
      if saved.vs == [] {
        assert merged.value.vs[0] == Undefined;
        assert (o.vs + [Null])[0] == o.vs[0];
      } else {
        assert Init(saved.vs) + [last, Null] == saved.vs + [Null];
        AppendDiffers(saved.vs, o.vs, Null);
      }
    }
  }

  lemma {:induction false} AppendDiffers<T>(a: seq<T>, b: seq<T>, x: T)
    requires a != b
    ensures a + [x] != b + [x]
  {
    assert (a + [x])[..|a|] == a && (b + [x])[..|b|] == b;
  }

  function Nulls(n: nat): seq<Value> {
    seq(n, _ => Null)
  }

  /** Nulls to fill the row that the closed value is in. */
  function Padding(fields: Columns, p: Position): nat {
    |fields| - 1 - |p.done| % |fields|
  }

  function SequelTruth(fields: Columns, p: Position): seq<Value>
    requires p.open.Some? ==> Mergeable(p.open.value, Closing(p.open))
  {
    p.done + [Closed(p.open)] + Nulls(Padding(fields, p))
  }

  /** The chunk that closes the open value and ends the result, with or without a
      token. */
  function Sequel(fields: Columns, p: Position, token: bool): Chunk
    requires p.open.Some? ==> Mergeable(p.open.value, Closing(p.open))
  {
    Chunk([Closing(p.open)] + Nulls(Padding(fields, p)), false,
          if token then Some(Position(SequelTruth(fields, p), None)) else None, false)
  }

  lemma {:induction false} PaddingFills(fields: Columns, n: nat)
    ensures (n + 1 + (|fields| - 1 - n % |fields|)) % |fields| == 0
  {
    var w := |fields|;
    assert n == (n / w) * w + n % w;
    assert (n / w + 1) * w == (n / w) * w + w;
    Arithmetic.RemainderUnique(n + 1 + (w - 1 - n % w), w, n / w + 1, 0);
  }

  lemma {:induction false} SequelCompletes(fields: Columns, p: Position, token: bool, truth: seq<Value>, cs: seq<Chunk>)
    requires LegalAnswer(fields, truth, p, cs)
    ensures p.open.Some? ==> Mergeable(p.open.value, Closing(p.open))
    ensures Completes(fields, SequelTruth(fields, p), p, [Sequel(fields, p, token)])
  {
    if p.open.Some? {
      var v := OpenIsClosed(fields, truth, p, cs);
      ClosingIsLegal(fields[|p.done| % |fields|], p.open.value, v);
    }
    PaddingFills(fields, |p.done|);
    var c := Sequel(fields, p, token);
    assert Joined(p, c) == [Closed(p.open)] + Nulls(Padding(fields, p));
    assert p.done + Joined(p, c) == SequelTruth(fields, p);
    assert [c][1..] == [];
  }

  /** Where the saved fragment is not the pending one, the sequel shows it. */
  lemma {:induction false} UnsettledGoesWrong(s: Stream, p: Position, token: bool, truth: seq<Value>, cs: seq<Chunk>)
    requires At(s, p) && !s.ended && !Settled(s) && LegalAnswer(s.fields, truth, p, cs)
    ensures p.open.Some? ==> Mergeable(p.open.value, Closing(p.open))
    ensures !RightAfter(ResetPending(s), SequelTruth(s.fields, p), [Sequel(s.fields, p, token)])
  {
    SequelCompletes(s.fields, p, token, truth, cs);
    var r, c := ResetPending(s), Sequel(s.fields, p, token);
    var t := s.fields[|p.done| % |s.fields|];
    ColumnOfPosition(s.rows, s.values, |s.fields|);
    Arithmetic.RemainderUnique(|s.values|, |s.fields|, 0, |s.values|);
    var v := Closing(p.open);
    if p.open.Some? {
      v := OpenIsClosed(s.fields, truth, p, cs);
    }
    ClosesAnother(t, p.open, s.forResume, v);
    if TakePending(r, c.values).Some? {
      var (values, s1) := TakePending(r, c.values).value;
      assert values[0] != Closed(p.open);
      OtherValueShows(StorePending(s1, values, c).1, values, SequelTruth(s.fields, p), |p.done|);
      ReleaseWhole(r, c, values, s1);
    }
  }

  lemma {:induction false} ReleaseWhole(s: Stream, c: Chunk, values: seq<Value>, s1: Stream)
    requires !s.ended && c.values != [] && !c.chunked && values != []
    requires TakePending(s, c.values) == Some((values, s1))
    ensures Release(s, [c]) == Some(AddValues(StorePending(s1, values, c).1, values).(ended := c.last))
  {
    assert [c][1..] == [];
  }

  /** A value that differs from the truth shows in the rows. */
  lemma {:induction false} OtherValueShows(s: Stream, values: seq<Value>, truth: seq<Value>, n: nat)
    requires Shape(s) && values != []
    requires |Flatten(s.rows) + s.values| == n < |truth| && values[0] != truth[n]
    ensures Flatten(AddValues(s, values).rows) != truth
  {
    AddValuesAppends(s, values);
    var s' := AddValues(s, values);
    var all := Flatten(s.rows) + s.values + values;
    assert all[n] == values[0];
    assert n < |Flatten(s'.rows)| ==> Flatten(s'.rows)[n] == (Flatten(s'.rows) + s'.values)[n];
  }

  /** The exact condition: a reset leaves the rows right, whatever is still to come,
      if and only if the saved fragment is the pending one. What is to come may have
      been released already or be the answer to the retry. */
  lemma {:induction false} HarmlessIffSettled(s: Stream, p: Position, truth: seq<Value>, cs: seq<Chunk>)
    requires At(s, p) && !s.ended && LegalAnswer(s.fields, truth, p, cs)
    ensures HarmlessReset(s, p) <==> Settled(s)
  {
    if Settled(s) {
      forall truth: seq<Value>, cs: seq<Chunk> | Completes(s.fields, truth, p, cs)
        ensures RightAfter(ResetPending(s), truth, cs)
      {
        SettledIsHarmless(s, p, truth, cs);
      }
    } else {
      UnsettledGoesWrong(s, p, false, truth, cs);
      SequelCompletes(s.fields, p, false, truth, cs);
    }
  }
}
