/** Joining the fragments of a chunked value: the client's `merge`/`mergeLists`
    against the merging rule of the wire protocol. */
module Merging {
  import opened Wrappers

  /** A decoded `google.protobuf.Value`; `Undefined` is what JavaScript yields
      for a missing array element. */
  datatype Value =
    | Undefined
    | Null
    | Bool(b: bool)
    | Number(n: real)
    | Str(s: string)
    | List(vs: seq<Value>)

  /** Only ARRAY and STRUCT are told apart by the code; every other type code is
      `Scalar`. */
  datatype Type =
    | Scalar
    | ArrayOf(elem: Type)
    | StructOf(fields: seq<Type>)

  /** `head.pop()` and `tail.shift()`: the facing elements of two lists. */
  function Popped(vs: seq<Value>): Value {
    if vs == [] then Undefined else vs[|vs| - 1]
  }

  function Shifted(vs: seq<Value>): Value {
    if vs == [] then Undefined else vs[0]
  }

  function Init(vs: seq<Value>): seq<Value> {
    if vs == [] then [] else vs[..|vs| - 1]
  }

  function Rest(vs: seq<Value>): seq<Value> {
    if vs == [] then [] else vs[1..]
  }

  /** The static method `merge`; None is a thrown TypeError. */
  function Merge(t: Type, head: Value, tail: Value): (merged: Option<seq<Value>>)
    ensures merged.Some? ==> |merged.value| == 1 || merged.value == [head, tail]
    decreases t, 1
  {
    if t.ArrayOf? || t.StructOf? then
      if head.Null? || tail.Null? then Some([head, tail])
      else
        match MergeLists(t, head, tail)
        case None => None
        case Some(merged) => Some([merged])
    else if head.Str? && tail.Str? then Some([Str(head.s + tail.s)])
    else Some([head, tail])
  }

  /** The static method `mergeLists`. Popping or shifting anything but a list
      throws, and so does reading the type of a struct field that is not there. */
  function MergeLists(t: Type, head: Value, tail: Value): Option<Value>
    requires !t.Scalar?
    decreases t, 0
  {
    if !head.List? || !tail.List? then None
    else if t.StructOf? && !(0 <= |head.vs| - 1 < |t.fields|) then None
    else
      var listType := if t.ArrayOf? then t.elem else t.fields[|head.vs| - 1];
      match Merge(listType, Popped(head.vs), Shifted(tail.vs))
      case None => None
      case Some(merged) => Some(List(Init(head.vs) + merged + Rest(tail.vs)))
  }

  // ----- the protocol's rule -----

  /** Strings and lists can be chunked; booleans, numbers and nulls cannot. */
  predicate Mergeable(head: Value, tail: Value) {
    (head.Str? && tail.Str?) || (head.List? && tail.List?)
  }

  /** Two lists meet in elements that are to be merged in turn. */
  predicate MeetMergeable(head: Value, tail: Value) {
    head.List? && tail.List? && head.vs != [] && tail.vs != [] &&
    Mergeable(head.vs[|head.vs| - 1], tail.vs[0])
  }

  /** The protocol's rule: strings are concatenated; lists are concatenated,
      after merging the facing elements where those can be merged. It looks at
      the values alone, not at their type. */
  function Combine(head: Value, tail: Value): (whole: Value)
    requires Mergeable(head, tail)
    ensures whole.Str? <==> head.Str?
    ensures whole.List? <==> head.List?
    decreases head
  {
    if head.Str? then Str(head.s + tail.s)
    else if MeetMergeable(head, tail) then
      List(head.vs[..|head.vs| - 1] + [Combine(head.vs[|head.vs| - 1], tail.vs[0])] + tail.vs[1..])
    else List(head.vs + tail.vs)
  }

  // ----- when the two agree -----

  /** The facing elements of the two fragments have the declared type, at every
      depth: an element of ARRAY or STRUCT type is a list or null, any other is
      neither a list nor missing, and a struct fragment has no more elements than
      the struct has fields. */
  predicate Joinable(t: Type, head: Value, tail: Value)
    decreases t
  {
    match t
    case Scalar =>
      !head.List? && !tail.List? && !head.Undefined? && !tail.Undefined?
    case ArrayOf(elem) =>
      (head.Null? || head.List?) && (tail.Null? || tail.List?) &&
      (head.List? && tail.List? && head.vs != [] && tail.vs != [] ==>
         Joinable(elem, head.vs[|head.vs| - 1], tail.vs[0]))
    case StructOf(fields) =>
      (head.Null? || head.List?) && (tail.Null? || tail.List?) &&
      (head.List? ==> |head.vs| <= |fields|) &&
      (head.List? && tail.List? && head.vs != [] && tail.vs != [] ==>
         Joinable(fields[|head.vs| - 1], head.vs[|head.vs| - 1], tail.vs[0]))
  }

  /** No list that takes part in the join, at any depth, is an empty list. */
  predicate NoEmptyFragment(head: Value, tail: Value)
    decreases head
  {
    head.List? && tail.List? ==>
      head.vs != [] && tail.vs != [] &&
      NoEmptyFragment(head.vs[|head.vs| - 1], tail.vs[0])
  }

  /** On well-typed fragments of a chunked value the client's merge is the
      protocol's rule exactly when no list fragment that takes part is empty. An
      empty one leaves `undefined` in the list, or throws. */
  lemma {:induction false} MergeIsProtocolIffNoEmptyFragment(t: Type, head: Value, tail: Value)
    requires Joinable(t, head, tail)
    requires Mergeable(head, tail)
    ensures Merge(t, head, tail) == Some([Combine(head, tail)]) <==> NoEmptyFragment(head, tail)
    decreases t
  {
    if head.List? && head.vs != [] && tail.vs != [] {
      var h, tl := head.vs[|head.vs| - 1], tail.vs[0];
      var inner := if t.ArrayOf? then t.elem else t.fields[|head.vs| - 1];
      if Mergeable(h, tl) {
        MergeIsProtocolIffNoEmptyFragment(inner, h, tl);
        var whole := Combine(head, tail);
        assert whole.vs[|head.vs| - 1] == Combine(h, tl);
        if Merge(inner, h, tl).Some? {
          var m := Merge(inner, h, tl).value;
          assert m == [m[0]];
          assert (Init(head.vs) + m + Rest(tail.vs))[|head.vs| - 1] == m[0];
        }
      } else {
        assert Merge(inner, h, tl) == Some([h, tl]);
        assert Init(head.vs) + [h, tl] + Rest(tail.vs) == head.vs + tail.vs;
      }
    } else if head.List? {
      EmptyFragmentsGrow(t, head, tail);
    }
  }

  /** With an empty fragment the client's list is longer than the protocol's. */
  lemma EmptyFragmentsGrow(t: Type, head: Value, tail: Value)
    requires !t.Scalar? && head.List? && tail.List?
    requires head.vs == [] || tail.vs == []
    ensures Merge(t, head, tail) != Some([Combine(head, tail)])
  {
    assert Combine(head, tail) == List(head.vs + tail.vs);
    if MergeLists(t, head, tail).Some? {
      var inner := if t.ArrayOf? then t.elem else t.fields[|head.vs| - 1];
      var merged := MergeLists(t, head, tail).value;
      if |merged.vs| == |head.vs| + |tail.vs| {
        SingleMergeNeedsBoth(inner, Popped(head.vs), Shifted(tail.vs));
      }
    }
  }

  /** A missing element is never merged into one value. */
  lemma SingleMergeNeedsBoth(t: Type, head: Value, tail: Value)
    requires head.Undefined? || tail.Undefined?
    ensures Merge(t, head, tail) == None || Merge(t, head, tail) == Some([head, tail])
  {
  }

  /** What empty fragments do to a list of scalars: each leaves one `undefined`. An
      empty head of a struct, two empty lists of lists, and a string where a list
      belongs make the client throw. */
  lemma EmptyFragments(xs: seq<Value>, t: Type)
    requires xs != [] && forall x :: x in xs ==> !x.Undefined? && !x.List?
    ensures Merge(ArrayOf(Scalar), List([]), List(xs)) == Some([List([Undefined] + xs)])
    ensures Merge(ArrayOf(Scalar), List(xs), List([])) == Some([List(xs + [Undefined])])
    ensures Merge(ArrayOf(Scalar), List([]), List([])) == Some([List([Undefined, Undefined])])
    ensures !t.Scalar? ==> Merge(ArrayOf(t), List([]), List([])) == None
    ensures t.StructOf? ==> Merge(t, List([]), List(xs)) == None
    ensures !t.Scalar? ==> Merge(t, Str("s"), List(xs)) == None && Merge(t, List(xs), Str("s")) == None
  {
    assert [Undefined, xs[0]] + xs[1..] == [Undefined] + xs;
    assert xs[..|xs| - 1] + [xs[|xs| - 1], Undefined] == xs + [Undefined];
    assert [] + [Undefined, xs[0]] + Rest(xs) == [Undefined] + xs;
    assert Init(xs) + [xs[|xs| - 1], Undefined] + [] == xs + [Undefined];
    assert Merge(Scalar, Undefined, Undefined) == Some([Undefined, Undefined]);
    assert [] + [Undefined, Undefined] + [] == [Undefined, Undefined];
    assert !t.Scalar? ==> MergeLists(t, Undefined, Undefined) == None;
    assert !t.Scalar? ==> Merge(t, Undefined, Undefined) == None;
    assert !t.Scalar? ==> MergeLists(ArrayOf(t), List([]), List([])) == None;
  }

  // ----- the protocol's own examples -----

  /** Strings, lists of other things, lists of strings, and nested lists. */
  lemma ProtocolExamples()
    ensures Merge(Scalar, Str("foo"), Str("bar")) == Some([Str("foobar")])
    ensures Merge(ArrayOf(Scalar), List([Number(2.0), Number(3.0)]), List([Number(4.0)])) ==
            Some([List([Number(2.0), Number(3.0), Number(4.0)])])
    ensures Merge(ArrayOf(Scalar), List([Str("a"), Str("b")]), List([Str("c"), Str("d")])) ==
            Some([List([Str("a"), Str("bc"), Str("d")])])
    ensures Merge(StructOf([Scalar, ArrayOf(Scalar), Scalar]),
                  List([Str("a"), List([Str("b"), Str("c")])]), List([List([Str("d")]), Str("e")])) ==
            Some([List([Str("a"), List([Str("b"), Str("cd")]), Str("e")])])
  {
    assert "foo" + "bar" == "foobar" && "b" + "c" == "bc" && "c" + "d" == "cd";
    MeetInLists([Number(2.0)], Number(3.0), Number(4.0), []);
    assert [Number(2.0)] + [Number(3.0)] == [Number(2.0), Number(3.0)] && [Number(4.0)] + [] == [Number(4.0)];
    assert [Number(2.0)] + [Number(3.0), Number(4.0)] + [] == [Number(2.0), Number(3.0), Number(4.0)];
    MeetInLists([Str("a")], Str("b"), Str("c"), [Str("d")]);
    assert [Str("a")] + [Str("b")] == [Str("a"), Str("b")] && [Str("c")] + [Str("d")] == [Str("c"), Str("d")];
    assert [Str("a")] + [Str("bc")] + [Str("d")] == [Str("a"), Str("bc"), Str("d")];
    NestedExample();
  }

  lemma NestedExample()
    ensures Merge(StructOf([Scalar, ArrayOf(Scalar), Scalar]),
                  List([Str("a"), List([Str("b"), Str("c")])]), List([List([Str("d")]), Str("e")])) ==
            Some([List([Str("a"), List([Str("b"), Str("cd")]), Str("e")])])
  {
    var t, inner := StructOf([Scalar, ArrayOf(Scalar), Scalar]), List([Str("b"), Str("c")]);
    assert "c" + "d" == "cd";
    MeetInLists([Str("b")], Str("c"), Str("d"), []);
    assert [Str("b")] + [Str("c")] == [Str("b"), Str("c")] && [Str("d")] + [] == [Str("d")];
    assert [Str("b")] + [Str("cd")] + [] == [Str("b"), Str("cd")];
    assert [Str("a"), inner][..1] == [Str("a")] && [List([Str("d")]), Str("e")][1..] == [Str("e")];
    assert [Str("a")] + [List([Str("b"), Str("cd")])] + [Str("e")] == [Str("a"), List([Str("b"), Str("cd")]), Str("e")];
  }

  /** Lists that meet in two values: those are merged, or stand side by side. */
  lemma MeetInLists(front: seq<Value>, x: Value, y: Value, back: seq<Value>)
    ensures Merge(ArrayOf(Scalar), List(front + [x]), List([y] + back)) ==
            Some([List(front + (if x.Str? && y.Str? then [Str(x.s + y.s)] else [x, y]) + back)])
  {
    assert (front + [x])[..|front|] == front && ([y] + back)[1..] == back;
  }
}
