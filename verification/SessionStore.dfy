/** Per-thread JSONL files: append-only writing and reading back (desktop/store.js). */
module SessionStore {
  import opened Text

  predicate SafeChar(c: char) {
    'A' <= c <= 'Z' || 'a' <= c <= 'z' || '0' <= c <= '9' || c in "._-"
  }

  function Sanitized(id: string): (r: string)
    ensures |r| == |id| && forall c <- r :: SafeChar(c)
  {
    if id == "" then "" else [if SafeChar(id[0]) then id[0] else '_'] + Sanitized(id[1..])
  }

  /** The file name a thread id stands for; an absent id counts as the empty one. */
  function Safe(id: string): (r: string)
    ensures r != "" && forall c <- r :: SafeChar(c)
  {
    if Sanitized(id) == "" then "_unknown" else Sanitized(id)
  }

  lemma {:induction false} SanitizedFixed(id: string)
    requires forall c <- id :: SafeChar(c)
    ensures Sanitized(id) == id
  {
    if id != "" {
      SanitizedFixed(id[1..]);
    }
  }

  /** A file name is its own file name, and ids share a file exactly when they sanitise alike. */
  lemma SafeNames(a: string, b: string)
    ensures Safe(Safe(a)) == Safe(a)
    ensures Safe(a) == Safe(b) <==>
      || Sanitized(a) == Sanitized(b)
      || (a == "" && Sanitized(b) == "_unknown")
      || (b == "" && Sanitized(a) == "_unknown")
  {
    SanitizedFixed(Safe(a));
  }

  /** How entries are written on a line; JSON.stringify and JSON.parse. */
  datatype Codec<!E> = Codec(encode: E -> string, decode: string -> Option<E>)

  ghost predicate RoundTrips<E(!new)>(codec: Codec<E>) {
    forall e :: WritesOneLine(codec, e)
  }

  ghost predicate WritesOneLine<E>(codec: Codec<E>, e: E) {
    codec.encode(e) != "" && '\n' !in codec.encode(e) && codec.decode(codec.encode(e)) == Some(e)
  }

  /** The entry on a line, unless the line is blank or torn. */
  function DecodedLine<E>(codec: Codec<E>, line: string): seq<E> {
    if line == "" then [] else match codec.decode(line) case Some(e) => [e] case None => []
  }

  function Decoded<E>(codec: Codec<E>, lines: seq<string>): seq<E> {
    if lines == [] then [] else DecodedLine(codec, lines[0]) + Decoded(codec, lines[1..])
  }

  function ReadBack<E>(codec: Codec<E>, content: string): seq<E> {
    Decoded(codec, Split(content, '\n'))
  }

  function Line<E>(codec: Codec<E>, e: E): string {
    codec.encode(e) + "\n"
  }

  lemma {:induction false} DecodedConcat<E>(codec: Codec<E>, a: seq<string>, b: seq<string>)
    ensures Decoded(codec, a + b) == Decoded(codec, a) + Decoded(codec, b)
  {
    if a == [] {
      assert a + b == b;
    } else {
      DecodedConcat(codec, a[1..], b);
      HeadOfConcat(a, b);
      hide DecodedLine;
      assert Decoded(codec, a + b) == DecodedLine(codec, a[0]) + Decoded(codec, a[1..] + b);
      var x, y, z := DecodedLine(codec, a[0]), Decoded(codec, a[1..]), Decoded(codec, b);
      assert x + (y + z) == (x + y) + z;
    }
  }

  lemma NothingReadsBack<E>(codec: Codec<E>)
    ensures Decoded(codec, [""]) == [] && ReadBack(codec, "") == []
  {
    assert Split("", '\n') == [""];
    assert [""][1..] == [];
  }

  lemma ReadBackBroken<E>(codec: Codec<E>, a: string, b: string)
    ensures ReadBack(codec, a + ['\n'] + b) == ReadBack(codec, a) + ReadBack(codec, b)
  {
    SplitConcat(a, '\n', b);
    DecodedConcat(codec, Split(a, '\n'), Split(b, '\n'));
  }

  /** Whole lines at the front of a file read back on their own. */
  lemma ReadBackLines<E>(codec: Codec<E>, complete: string, rest: string)
    requires complete == "" || complete[|complete| - 1] == '\n'
    ensures ReadBack(codec, complete + rest) == ReadBack(codec, complete) + ReadBack(codec, rest)
  {
    NothingReadsBack(codec);
    hide ReadBack;
    if complete == "" {
      assert complete + rest == rest;
    } else {
      var lines := complete[..|complete| - 1];
      ReadBackBroken(codec, lines, "");
      ReadBackBroken(codec, lines, rest);
      assert complete == lines + ['\n'] + "";
      assert complete + rest == lines + ['\n'] + rest;
    }
  }

  /**
   * What appending one entry does to what a file reads back as, for any file: a torn last line (one
   * without its line break) swallows the new entry into itself, and whole lines are untouched.
   */
  lemma AppendReadsBack<E>(codec: Codec<E>, complete: string, torn: string, e: E)
    requires complete == "" || complete[|complete| - 1] == '\n'
    requires '\n' !in torn && WritesOneLine(codec, e)
    ensures ReadBack(codec, complete + torn + Line(codec, e)) ==
      ReadBack(codec, complete) + match codec.decode(torn + codec.encode(e)) case Some(x) => [x] case None => []
    ensures torn == "" ==> ReadBack(codec, complete + Line(codec, e)) == ReadBack(codec, complete) + [e]
  {
    var line := torn + codec.encode(e);
    OneLine(codec, line);
    NothingReadsBack(codec);
    ReadBackBroken(codec, line, "");
    ReadBackLines(codec, complete, line + ['\n'] + "");
    hide ReadBack;
    assert complete + torn + Line(codec, e) == complete + (line + ['\n'] + "");
    if torn == "" {
      assert complete + torn + Line(codec, e) == complete + Line(codec, e);
      assert line == codec.encode(e);
    }
  }

  /** A file that ends where a line ends. */
  predicate WholeLines(content: string) {
    content == "" || content[|content| - 1] == '\n'
  }

  /**
   * What JSON objects satisfy: the beginning of one, or all of it, directly followed by another one
   * reads as nothing.
   */
  ghost predicate NeverJoins<E(!new)>(codec: Codec<E>) {
    forall x, e, torn :: Joins(codec, x, e, torn) ==> codec.decode(torn + codec.encode(e)) == None
  }

  ghost predicate Joins<E>(codec: Codec<E>, x: E, e: E, torn: string) {
    torn != "" && torn <= codec.encode(x)
  }

  /**
   * A file of whole lines and then as much of the next line as a crash left of it: an append adds its
   * entry to what is read back exactly when the file ends where a line ends. Otherwise the new entry
   * is lost with the torn one.
   */
  lemma AppendAddsItsEntry<E(!new)>(codec: Codec<E>, complete: string, torn: string, x: E, e: E)
    requires RoundTrips(codec) && NeverJoins(codec)
    requires WholeLines(complete) && torn <= codec.encode(x)
    ensures
      var content := complete + torn;
      && (ReadBack(codec, content + Line(codec, e)) == ReadBack(codec, content) + [e] <==> WholeLines(content))
      && (!WholeLines(content) ==> ReadBack(codec, content + Line(codec, e)) == ReadBack(codec, complete))
  {
    var content := complete + torn;
    assert WritesOneLine(codec, x) && WritesOneLine(codec, e);
    assert '\n' !in torn;
    AppendReadsBack(codec, complete, torn, e);
    hide ReadBack, WritesOneLine;
    if torn == "" {
      assert content == complete;
    } else {
      assert content[|content| - 1] == torn[|torn| - 1] && torn[|torn| - 1] in torn;
      assert Joins(codec, x, e, torn);
      ReadBackLines(codec, complete, torn);
    }
  }

  // ----- an entry lost to a torn line -----

  /** Flags written as the objects {1} and {0}. */
  const FLAGS: Codec<bool> :=
    Codec(b => if b then "{1}" else "{0}",
          line => if line == "{1}" then Some(true) else if line == "{0}" then Some(false) else None)

  /** After a crash that left one character of a line, the next entry is lost as well. */
  lemma TornLineTakesTwo()
    ensures RoundTrips(FLAGS) && NeverJoins(FLAGS)
    ensures ReadBack(FLAGS, Line(FLAGS, true) + "{" + Line(FLAGS, false)) == ReadBack(FLAGS, Line(FLAGS, true)) == [true]
  {
    forall e ensures WritesOneLine(FLAGS, e) {}
    forall x, e, torn | Joins(FLAGS, x, e, torn) ensures FLAGS.decode(torn + FLAGS.encode(e)) == None {
      assert |torn + FLAGS.encode(e)| > 3;
    }
    assert "{" <= FLAGS.encode(false);
    AppendAddsItsEntry(FLAGS, Line(FLAGS, true), "{", false, false);
    assert (Line(FLAGS, true) + "{")[4] == '{';
    AppendReadsBack(FLAGS, "", "", true);
    NothingReadsBack(FLAGS);
    assert "" + Line(FLAGS, true) == Line(FLAGS, true);
    assert [] + [true] == [true];
  }

  lemma OneLine<E>(codec: Codec<E>, line: string)
    requires '\n' !in line
    ensures ReadBack(codec, line) == DecodedLine(codec, line)
  {
    SplitWithout(line, '\n');
    assert [line][1..] == [];
    assert Decoded(codec, [line]) == DecodedLine(codec, line) + Decoded(codec, []);
  }

  /** The entries of `history` that went to file `name`, in order. */
  function Project<E>(history: seq<(string, E)>, name: string): seq<E> {
    if history == [] then []
    else
      var last := history[|history| - 1];
      Project(history[..|history| - 1], name) + if last.0 == name then [last.1] else []
  }

  /** File `name` holds whole lines that read back as what the history sent there. */
  ghost predicate FileOk<E>(codec: Codec<E>, files: map<string, string>, history: seq<(string, E)>, name: string) {
    if name in files then
      && files[name] != "" && files[name][|files[name]| - 1] == '\n'
      && ReadBack(codec, files[name]) == Project(history, name)
    else
      Project(history, name) == []
  }

  lemma AppendKeepsFiles<E>(codec: Codec<E>, files: map<string, string>, history: seq<(string, E)>,
                            target: string, e: E, name: string)
    requires WritesOneLine(codec, e)
    requires FileOk(codec, files, history, name)
    ensures
      var before := if target in files then files[target] else "";
      FileOk(codec, files[target := before + Line(codec, e)], history + [(target, e)], name)
  {
    var longer := history + [(target, e)];
    assert longer[..|longer| - 1] == history;
    if name == target {
      var before := if target in files then files[target] else "";
      NothingReadsBack(codec);
      AppendReadsBack(codec, before, "", e);
    }
  }

  class Store<!E(!new)> {
    const codec: Codec<E>
    var files: map<string, string>
    /** Every append of this store, with the file it went to. */
    ghost var history: seq<(string, E)>

    ghost predicate Valid()
      reads this
    {
      RoundTrips(codec) && forall name :: FileOk(codec, files, history, name)
    }

    constructor (codec: Codec<E>)
      requires RoundTrips(codec)
      ensures Valid() && history == [] && this.codec == codec
    {
      this.codec := codec;
      files := map[];
      history := [];
    }

    method Append(threadId: string, entry: E)
      requires Valid()
      modifies this
      ensures Valid()
      ensures history == old(history) + [(Safe(threadId), entry)]
      ensures files.Keys == old(files.Keys) + {Safe(threadId)}
    {
      var name := Safe(threadId);
      assert WritesOneLine(codec, entry);
      var before := if name in files then files[name] else "";
      var after := files[name := before + Line(codec, entry)];
      ghost var longer := history + [(name, entry)];
      forall n ensures FileOk(codec, after, longer, n) {
        AppendKeepsFiles(codec, files, history, name, entry, n);
      }
      files := after;
      history := longer;
    }

    /** None for a thread never written to, otherwise its entries in the order they were appended. */
    method Read(threadId: string) returns (entries: Option<seq<E>>)
      requires Valid()
      ensures entries.None? <==> Safe(threadId) !in files
      ensures entries.None? ==> Project(history, Safe(threadId)) == []
      ensures entries.Some? ==> entries.value == Project(history, Safe(threadId))
    {
      var name := Safe(threadId);
      assert FileOk(codec, files, history, name);
      if name !in files { return None; }
      entries := Some(ReadBack(codec, files[name]));
    }
  }
}
