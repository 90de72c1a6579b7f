/** Reading the options of the YCSB benchmark from a workload file and the command
    line. */
module Options {
  import opened Wrappers

  /** JavaScript's `split` on one character. */
  function Split(s: string, sep: char): (pieces: seq<string>)
    ensures pieces != []
  {
    if s == "" then [""]
    else
      var rest := Split(s[1..], sep);
      if s[0] == sep then [""] + rest else [[s[0]] + rest[0]] + rest[1..]
  }

  function Join(pieces: seq<string>, sep: char): string {
    if pieces == [] then ""
    else if |pieces| == 1 then pieces[0]
    else pieces[0] + [sep] + Join(pieces[1..], sep)
  }

  predicate Free(s: string, c: char) {
    c !in s
  }

  /** No piece holds the separator, nor any character that was not in the text. */
  lemma {:induction false} SplitPieces(s: string, sep: char, c: char)
    ensures forall p :: p in Split(s, sep) ==> Free(p, sep) && (Free(s, c) ==> Free(p, c))
  {
    if s != "" {
      SplitPieces(s[1..], sep, c);
      var rest := Split(s[1..], sep);
      assert rest[0] in rest;
      forall p | p in Split(s, sep)
        ensures Free(p, sep) && (Free(s, c) ==> Free(p, c))
      {
        assert p in rest || p == "" || p == [s[0]] + rest[0];
      }
    }
  }

  lemma {:induction false} SplitPiece(p: string, sep: char)
    requires Free(p, sep)
    ensures Split(p, sep) == [p]
  {
    if p != "" {
      SplitPiece(p[1..], sep);
      assert [p[0]] + p[1..] == p;
    }
  }

  lemma {:induction false} SplitAfter(p: string, sep: char, rest: string)
    requires Free(p, sep)
    ensures Split(p + [sep] + rest, sep) == [p] + Split(rest, sep)
  {
    var s := p + [sep] + rest;
    if p == "" {
      assert s[1..] == rest;
    } else {
      assert s[1..] == p[1..] + [sep] + rest;
      SplitAfter(p[1..], sep, rest);
      assert [p[0]] + p[1..] == p;
    }
  }

  lemma {:induction false} SplitJoin(pieces: seq<string>, sep: char)
    requires pieces != [] && forall p :: p in pieces ==> Free(p, sep)
    ensures Split(Join(pieces, sep), sep) == pieces
  {
    if |pieces| == 1 {
      SplitPiece(pieces[0], sep);
    } else {
      SplitJoin(pieces[1..], sep);
      SplitAfter(pieces[0], sep, Join(pieces[1..], sep));
    }
  }

  // ----- key=value lines -----

  function ParseKeyValuePairs(lines: seq<string>): seq<seq<string>> {
    seq(|lines|, i requires 0 <= i < |lines| => Split(lines[i], '='))
  }

  /** `parseWorkloadFile` on the contents of the file. */
  function ParseWorkload(contents: string): seq<seq<string>> {
    ParseKeyValuePairs(Split(contents, '\n'))
  }

  datatype Pair = Pair(key: string, value: string)

  function Line(p: Pair): string {
    p.key + "=" + p.value
  }

  function Lines(pairs: seq<Pair>): seq<string> {
    seq(|pairs|, i requires 0 <= i < |pairs| => Line(pairs[i]))
  }

  /** The text of a workload file. */
  function Render(pairs: seq<Pair>): string {
    Join(Lines(pairs), '\n')
  }

  function Fields(pairs: seq<Pair>): seq<seq<string>> {
    seq(|pairs|, i requires 0 <= i < |pairs| => [pairs[i].key, pairs[i].value])
  }

  predicate Clean(p: Pair) {
    Free(p.key, '=') && Free(p.key, '\n') && Free(p.value, '=') && Free(p.value, '\n')
  }

  /** A workload file is read back as it was written exactly when there is a line at
      all and no key or value holds `=` or a line break. */
  lemma RoundTripIff(pairs: seq<Pair>)
    ensures ParseWorkload(Render(pairs)) == Fields(pairs) <==>
            pairs != [] && forall i :: 0 <= i < |pairs| ==> Clean(pairs[i])
  {
    var back := ParseWorkload(Render(pairs));
    if pairs != [] && forall i :: 0 <= i < |pairs| ==> Clean(pairs[i]) {
      CleanRoundTrip(pairs);
    }
    if back == Fields(pairs) {
      assert |back| == |Split(Render(pairs), '\n')|;
      forall i | 0 <= i < |pairs|
        ensures Clean(pairs[i])
      {
        PiecesAreClean(Render(pairs), i);
        assert back[i] == [pairs[i].key, pairs[i].value];
        assert pairs[i].key in back[i] && pairs[i].value in back[i];
      }
    }
  }

  lemma CleanRoundTrip(pairs: seq<Pair>)
    requires pairs != [] && forall i :: 0 <= i < |pairs| ==> Clean(pairs[i])
    ensures ParseWorkload(Render(pairs)) == Fields(pairs)
  {
    SplitJoin(Lines(pairs), '\n');
    forall i | 0 <= i < |pairs|
      ensures Split(Lines(pairs)[i], '=') == [pairs[i].key, pairs[i].value]
    {
      SplitAfter(pairs[i].key, '=', pairs[i].value);
      SplitPiece(pairs[i].value, '=');
    }
  }

  lemma PiecesAreClean(contents: string, i: nat)
    requires i < |ParseWorkload(contents)|
    ensures forall p :: p in ParseWorkload(contents)[i] ==> Free(p, '=') && Free(p, '\n')
  {
    var line := Split(contents, '\n')[i];
    SplitPieces(contents, '\n', '\n');
    assert line in Split(contents, '\n');
    SplitPieces(line, '=', '\n');
  }

  // ----- merging -----

  /** An option's value: text, the bucket number, or `undefined` for a line without
      an equals sign. */
  datatype OptionValue = Text(text: string) | Number(n: int) | Absent

  datatype Entry = Entry(key: string, value: OptionValue)

  datatype TypeError = TypeError

  /** What yargs passes on for an option that may be repeated. */
  datatype Argument = NotGiven | Once(text: string) | Repeated(texts: seq<string>)

  /** Only the first two fields of a line enter the map. */
  function ToEntry(fields: seq<string>): Entry
    requires fields != []
  {
    Entry(fields[0], if |fields| > 1 then Text(fields[1]) else Absent)
  }

  function ToEntries(lines: seq<string>): seq<Entry> {
    seq(|lines|, i requires 0 <= i < |lines| => ToEntry(Split(lines[i], '=')))
  }

  /** `new Map(options)`. */
  function ToMap(entries: seq<Entry>): map<string, OptionValue> {
    if entries == [] then map[]
    else
      var n := |entries| - 1;
      ToMap(entries[..n])[entries[n].key := entries[n].value]
  }

  /** `formatOptions`. Without a workload file there is nothing to append to, without
      parameters the map is given an `undefined` entry, and a parameter given only
      once is a string, which has no `map`: each throws. */
  function FormatOptions(workload: Option<string>, parameter: Argument, numBucket: int)
    : Result<map<string, OptionValue>, TypeError>
  {
    if workload.None? || !parameter.Repeated? then Err(TypeError)
    else
      Ok(ToMap(ToEntries(Split(workload.value, '\n')) + ToEntries(parameter.texts) +
               [Entry("numBucket", Number(numBucket))]))
  }

  predicate LastFor(entries: seq<Entry>, i: int, key: string) {
    0 <= i < |entries| && entries[i].key == key &&
    forall j :: i < j < |entries| ==> entries[j].key != key
  }

  /** The map holds, for exactly the keys that occur, the value of the last
      occurrence. */
  lemma {:induction false} LastOccurrenceWins(entries: seq<Entry>, key: string)
    ensures key in ToMap(entries) <==> exists i :: LastFor(entries, i, key)
    ensures forall i :: LastFor(entries, i, key) ==> ToMap(entries)[key] == entries[i].value
  {
    if entries != [] {
      var n := |entries| - 1;
      LastOccurrenceWins(entries[..n], key);
      if entries[n].key == key {
        assert LastFor(entries, n, key);
      } else {
        forall i | 0 <= i < n
          ensures LastFor(entries, i, key) <==> LastFor(entries[..n], i, key)
        {
        }
        if exists i :: LastFor(entries[..n], i, key) {
          var i :| LastFor(entries[..n], i, key);
          assert LastFor(entries, i, key);
        }
      }
    }
  }

  lemma {:induction false} MapOfConcat(a: seq<Entry>, b: seq<Entry>)
    ensures ToMap(a + b) == ToMap(a) + ToMap(b)
  {
    if b == [] {
      assert a + b == a;
    } else {
      var n := |b| - 1;
      assert (a + b)[..|a| + n] == a + b[..n];
      MapOfConcat(a, b[..n]);
    }
  }

  /** Precedence: the bucket number is always the flag's, even against a line of that
      name; any other key is the command line's if it is given there, and the file's
      otherwise. */
  lemma MergePrecedence(contents: string, texts: seq<string>, numBucket: int, key: string)
    ensures var r := FormatOptions(Some(contents), Repeated(texts), numBucket);
            var file, params := ToMap(ToEntries(Split(contents, '\n'))), ToMap(ToEntries(texts));
            && r.Ok?
            && "numBucket" in r.value && r.value["numBucket"] == Number(numBucket)
            && (key != "numBucket" ==>
                  && (key in r.value <==> key in params || key in file)
                  && (key in r.value ==> r.value[key] == if key in params then params[key] else file[key]))
  {
    var a, b, c := ToEntries(Split(contents, '\n')), ToEntries(texts), [Entry("numBucket", Number(numBucket))];
    MapOfConcat(a + b, c);
    MapOfConcat(a, b);
    assert c[..0] == [];
    assert ToMap(c) == map["numBucket" := Number(numBucket)];
  }

  // ----- the map by the lines it was read from -----

  predicate AllClean(pairs: seq<Pair>) {
    forall i :: 0 <= i < |pairs| ==> Clean(pairs[i])
  }

  /** Pair `i` is the last with this key. */
  predicate LastPair(pairs: seq<Pair>, i: int, key: string) {
    0 <= i < |pairs| && pairs[i].key == key && forall j :: i < j < |pairs| ==> pairs[j].key != key
  }

  /** What a line says: its key is the text before the first equals sign, its value the
      text from there to the next one, if there is any. */
  lemma {:induction false} LineSays(key: string, value: string, rest: string)
    requires Free(key, '=') && Free(value, '=')
    ensures ToEntries([key]) == [Entry(key, Absent)]
    ensures ToEntries([key + "=" + value]) == [Entry(key, Text(value))]
    ensures ToEntries([key + "=" + value + "=" + rest]) == [Entry(key, Text(value))]
  {
    SplitPiece(key, '=');
    SplitPiece(value, '=');
    SplitAfter(key, '=', value);
    SplitAfter(key, '=', value + "=" + rest);
    SplitAfter(value, '=', rest);
    assert key + "=" + value + "=" + rest == key + ['='] + (value + ['='] + rest);
  }

  function EntriesOf(pairs: seq<Pair>): seq<Entry> {
    seq(|pairs|, i requires 0 <= i < |pairs| => Entry(pairs[i].key, Text(pairs[i].value)))
  }

  lemma {:induction false} LinesAreEntries(pairs: seq<Pair>)
    requires AllClean(pairs)
    ensures ToEntries(Lines(pairs)) == EntriesOf(pairs)
  {
    forall i | 0 <= i < |pairs|
      ensures ToEntries(Lines(pairs))[i] == EntriesOf(pairs)[i]
    {
      LineSays(pairs[i].key, pairs[i].value, "");
      assert ToEntries([Line(pairs[i])])[0] == ToEntry(Split(Line(pairs[i]), '='));
    }
  }

  lemma {:induction false} SameLast(pairs: seq<Pair>, i: int, key: string)
    ensures LastPair(pairs, i, key) <==> LastFor(EntriesOf(pairs), i, key)
  {
    var entries := EntriesOf(pairs);
    assert forall j :: 0 <= j < |pairs| ==> entries[j].key == pairs[j].key;
    if LastFor(entries, i, key) {
      forall j | i < j < |pairs|
        ensures pairs[j].key != key
      {
        assert entries[j].key != key;
      }
    }
  }

  lemma {:induction false} MapOfPairs(pairs: seq<Pair>, key: string)
    ensures key in ToMap(EntriesOf(pairs)) <==> exists i :: LastPair(pairs, i, key)
    ensures forall i :: LastPair(pairs, i, key) ==> ToMap(EntriesOf(pairs))[key] == Text(pairs[i].value)
  {
    var entries := EntriesOf(pairs);
    LastOccurrenceWins(entries, key);
    forall i
      ensures LastPair(pairs, i, key) <==> LastFor(entries, i, key)
    {
      SameLast(pairs, i, key);
    }
    if key in ToMap(entries) {
      var i :| LastFor(entries, i, key);
      assert LastPair(pairs, i, key);
    }
  }

  /** From the file and the command line to the options: every key but the bucket
      number's is there exactly if a line or parameter gives it, with the value of the
      last one that does, and a parameter comes after every line. */
  lemma {:induction false} OptionsOfPairs(file: seq<Pair>, params: seq<Pair>, numBucket: int, key: string)
    requires file != [] && AllClean(file) && AllClean(params)
    ensures var r := FormatOptions(Some(Render(file)), Repeated(Lines(params)), numBucket);
            && r.Ok?
            && "numBucket" in r.value && r.value["numBucket"] == Number(numBucket)
            && (key != "numBucket" ==>
                  && (key in r.value <==> exists i :: LastPair(file + params, i, key))
                  && (forall i :: LastPair(file + params, i, key) ==> r.value[key] == Text((file + params)[i].value)))
  {
    EntriesOfBoth(file, params);
    MergePrecedence(Render(file), Lines(params), numBucket, key);
    MapOfPairs(file + params, key);
  }

  lemma {:induction false} EntriesOfBoth(file: seq<Pair>, params: seq<Pair>)
    requires file != [] && AllClean(file) && AllClean(params)
    ensures ToMap(EntriesOf(file + params)) ==
            ToMap(ToEntries(Split(Render(file), '\n'))) + ToMap(ToEntries(Lines(params)))
  {
    FileEntries(file);
    LinesAreEntries(params);
    MapOfConcat(EntriesOf(file), EntriesOf(params));
    EntriesConcat(file, params);
  }

  lemma {:induction false} FileEntries(file: seq<Pair>)
    requires file != [] && AllClean(file)
    ensures ToEntries(Split(Render(file), '\n')) == EntriesOf(file)
  {
    LinesAreFree(file);
    SplitJoin(Lines(file), '\n');
    LinesAreEntries(file);
  }

  lemma {:induction false} LinesAreFree(pairs: seq<Pair>)
    requires AllClean(pairs)
    ensures forall line :: line in Lines(pairs) ==> Free(line, '\n')
  {
  }

  lemma {:induction false} EntriesConcat(a: seq<Pair>, b: seq<Pair>)
    ensures EntriesOf(a + b) == EntriesOf(a) + EntriesOf(b)
  {
  }
}
