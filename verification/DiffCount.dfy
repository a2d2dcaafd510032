/** Counting the lines a unified diff adds and deletes (codex/codex-rs/analytics/src/accepted_lines.rs). */
module DiffCount {
  import opened Text

  predicate StartsWith(line: string, prefix: string) {
    |prefix| <= |line| && line[..|prefix|] == prefix
  }

  const FILE := "diff --git "
  const HUNK := "@@ "

  predicate FileHeader(line: string) { StartsWith(line, "+++ ") || StartsWith(line, "--- ") }
  predicate Added(line: string) { StartsWith(line, "+") }
  predicate Deleted(line: string) { StartsWith(line, "-") }

  // ----- one pass over the lines -----

  datatype Counter = Counter(inHunk: bool, added: nat, deleted: nat)

  function Step(c: Counter, line: string): Counter {
    if StartsWith(line, FILE) then c.(inHunk := false)
    else if StartsWith(line, HUNK) then c.(inHunk := true)
    else if !c.inHunk && FileHeader(line) then c
    else if Added(line) then c.(added := c.added + 1)
    else if Deleted(line) then c.(deleted := c.deleted + 1)
    else c
  }

  function Scan(c: Counter, lines: seq<string>): Counter
    decreases |lines|
  {
    if lines == [] then c else Step(Scan(c, lines[..|lines| - 1]), lines[|lines| - 1])
  }

  const START := Counter(false, 0, 0)

  /** str::lines: each piece that a line feed ends, without one carriage return, and what follows the last one. */
  function Lines(text: string): seq<string> {
    var pieces := Split(text, '\n');
    Trimmed(pieces[..|pieces| - 1]) + if pieces[|pieces| - 1] == "" then [] else [pieces[|pieces| - 1]]
  }

  function Trim(line: string): string {
    if line != "" && line[|line| - 1] == '\r' then line[..|line| - 1] else line
  }

  function Trimmed(lines: seq<string>): (r: seq<string>)
    ensures |r| == |lines| && forall i :: 0 <= i < |r| ==> r[i] == Trim(lines[i])
  {
    seq(|lines|, i requires 0 <= i < |lines| => Trim(lines[i]))
  }

  method AcceptedLineCounts(unifiedDiff: string) returns (added: nat, deleted: nat)
    ensures added == Scan(START, Lines(unifiedDiff)).added && deleted == Scan(START, Lines(unifiedDiff)).deleted
  {
    hide StartsWith, Lines, FileHeader, Added, Deleted;
    var inHunk := false;
    added, deleted := 0, 0;
    var lines := Lines(unifiedDiff);
    for i := 0 to |lines|
      invariant Counter(inHunk, added, deleted) == Scan(START, lines[..i])
    {
      var line := lines[i];
      ScanNext(START, lines, i);
      hide Scan;
      if StartsWith(line, FILE) {
        inHunk := false;
        continue;
      }
      if StartsWith(line, HUNK) {
        inHunk := true;
        continue;
      }
      if !inHunk && FileHeader(line) { continue; }
      if Added(line) {
        added := added + 1;
        continue;
      }
      if Deleted(line) {
        deleted := deleted + 1;
      }
    }
    assert lines[..|lines|] == lines;
  }

  lemma ScanNext(c: Counter, lines: seq<string>, i: nat)
    requires i < |lines|
    ensures Scan(c, lines[..i + 1]) == Step(Scan(c, lines[..i]), lines[i])
  {
    hide Step;
    assert lines[..i + 1][..i] == lines[..i];
  }

  // ----- structured diffs -----

  datatype Edit = Add(text: string) | Delete(text: string) | Keep(text: string) | NoNewline(text: string)

  /** A hunk: what follows "@@ " on its first line, and its lines. */
  datatype Hunk = Hunk(range: string, edits: seq<Edit>)

  /** A file: what follows "diff --git ", the extended headers, and the hunks. */
  datatype File = File(names: string, headers: seq<string>, hunks: seq<Hunk>)

  function EditLine(e: Edit): string {
    match e
    case Add(text) => "+" + text
    case Delete(text) => "-" + text
    case Keep(text) => " " + text
    case NoNewline(text) => "\\" + text
  }

  function EditLines(edits: seq<Edit>): seq<string>
    decreases |edits|
  {
    if edits == [] then [] else EditLines(edits[..|edits| - 1]) + [EditLine(edits[|edits| - 1])]
  }

  function HunkLines(hunks: seq<Hunk>): seq<string>
    decreases |hunks|
  {
    if hunks == [] then []
    else
      var h := hunks[|hunks| - 1];
      HunkLines(hunks[..|hunks| - 1]) + ([HUNK + h.range] + EditLines(h.edits))
  }

  function FileLines(f: File): seq<string> {
    [FILE + f.names] + f.headers + HunkLines(f.hunks)
  }

  function DiffLines(files: seq<File>): seq<string>
    decreases |files|
  {
    if files == [] then [] else DiffLines(files[..|files| - 1]) + FileLines(files[|files| - 1])
  }

  /** A header line opens nothing and is a `---` or `+++` line, or neither starts with a plus nor with a minus. */
  predicate HeaderOk(line: string) {
    && !StartsWith(Trim(line), FILE) && !StartsWith(Trim(line), HUNK)
    && (FileHeader(Trim(line)) || (!Added(Trim(line)) && !Deleted(Trim(line))))
  }

  predicate FileOk(f: File) { forall h <- f.headers :: HeaderOk(h) }

  function CountEdits(edits: seq<Edit>): (nat, nat)
    decreases |edits|
  {
    if edits == [] then (0, 0)
    else
      var (a, d) := CountEdits(edits[..|edits| - 1]);
      match edits[|edits| - 1]
      case Add(_) => (a + 1, d)
      case Delete(_) => (a, d + 1)
      case _ => (a, d)
  }

  function CountHunks(hunks: seq<Hunk>): (nat, nat)
    decreases |hunks|
  {
    if hunks == [] then (0, 0)
    else
      var (a, d) := CountHunks(hunks[..|hunks| - 1]);
      var (b, e) := CountEdits(hunks[|hunks| - 1].edits);
      (a + b, d + e)
  }

  function CountFiles(files: seq<File>): (nat, nat)
    decreases |files|
  {
    if files == [] then (0, 0)
    else
      var (a, d) := CountFiles(files[..|files| - 1]);
      var (b, e) := CountHunks(files[|files| - 1].hunks);
      (a + b, d + e)
  }

  // ----- the scan is exact on them -----

  function Plus(c: Counter, inHunk: bool, n: (nat, nat)): Counter {
    Counter(inHunk, c.added + n.0, c.deleted + n.1)
  }

  lemma {:induction false} ScanConcat(c: Counter, a: seq<string>, b: seq<string>)
    ensures Scan(c, a + b) == Scan(Scan(c, a), b)
    decreases |b|
  {
    hide Step;
    if b == [] {
      assert a + b == a;
    } else {
      assert (a + b)[..|a + b| - 1] == a + b[..|b| - 1];
      ScanConcat(c, a, b[..|b| - 1]);
    }
  }

  lemma TrimmedConcat(a: seq<string>, b: seq<string>)
    ensures Trimmed(a + b) == Trimmed(a) + Trimmed(b)
  {
  }

  lemma ScanOne(c: Counter, line: string)
    ensures Scan(c, [line]) == Step(c, line)
  {
    assert [line][..0] == [];
  }

  /** The first characters of a line survive the loss of a carriage return. */
  lemma PrefixTrims(prefix: string, rest: string)
    requires prefix != "" && prefix[|prefix| - 1] != '\r'
    ensures StartsWith(Trim(prefix + rest), prefix)
  {
    var line := prefix + rest;
    if rest != "" {
      assert line[|line| - 1] == rest[|rest| - 1];
      assert Trim(line)[..|prefix|] == prefix;
    }
  }

  lemma EditStep(c: Counter, e: Edit)
    requires c.inHunk
    ensures Step(c, Trim(EditLine(e))) == Plus(c, true, CountEdits([e]))
  {
    var line := EditLine(e);
    PrefixTrims(line[..1], line[1..]);
    assert line == line[..1] + line[1..];
    var t := Trim(line);
    assert t[0] == line[0];
    assert FILE[0] == 'd' && HUNK[0] == '@';
    assert [e][..0] == [];
  }

  lemma CountEditsNext(edits: seq<Edit>)
    requires edits != []
    ensures
      var (front, last) := (CountEdits(edits[..|edits| - 1]), CountEdits([edits[|edits| - 1]]));
      CountEdits(edits) == (front.0 + last.0, front.1 + last.1)
  {
    assert [edits[|edits| - 1]][..0] == [];
  }

  lemma {:induction false} ScanEdits(c: Counter, edits: seq<Edit>)
    requires c.inHunk
    ensures Scan(c, Trimmed(EditLines(edits))) == Plus(c, true, CountEdits(edits))
    decreases |edits|
  {
    hide Step, EditLine, Trim;
    if edits != [] {
      var (front, e) := (edits[..|edits| - 1], edits[|edits| - 1]);
      ScanEdits(c, front);
      TrimmedConcat(EditLines(front), [EditLine(e)]);
      assert Trimmed([EditLine(e)]) == [Trim(EditLine(e))];
      ScanConcat(c, Trimmed(EditLines(front)), [Trim(EditLine(e))]);
      ScanOne(Scan(c, Trimmed(EditLines(front))), Trim(EditLine(e)));
      EditStep(Plus(c, true, CountEdits(front)), e);
      CountEditsNext(edits);
    }
  }

  lemma HunkStep(c: Counter, range: string)
    ensures Step(c, Trim(HUNK + range)) == c.(inHunk := true)
  {
    PrefixTrims(HUNK, range);
    assert Trim(HUNK + range)[..3] == HUNK;
    assert HUNK[0] == '@' && FILE[0] == 'd';
    assert Trim(HUNK + range)[0] == '@';
  }

  lemma HunkLinesNext(front: seq<Hunk>, h: Hunk)
    ensures HunkLines(front + [h]) == HunkLines(front) + ([HUNK + h.range] + EditLines(h.edits))
  {
    hide EditLines;
    assert (front + [h])[..|front + [h]| - 1] == front;
  }

  lemma CountHunksNext(front: seq<Hunk>, h: Hunk)
    ensures CountHunks(front + [h]) == (CountHunks(front).0 + CountEdits(h.edits).0, CountHunks(front).1 + CountEdits(h.edits).1)
  {
    hide CountEdits;
    assert (front + [h])[..|front + [h]| - 1] == front;
  }

  lemma ScanHunk(c: Counter, h: Hunk)
    ensures Scan(c, Trimmed([HUNK + h.range] + EditLines(h.edits))) == Plus(c, true, CountEdits(h.edits))
  {
    hide Step, Trim, EditLines, CountEdits, Scan;
    TrimmedConcat([HUNK + h.range], EditLines(h.edits));
    assert Trimmed([HUNK + h.range]) == [Trim(HUNK + h.range)];
    ScanConcat(c, [Trim(HUNK + h.range)], Trimmed(EditLines(h.edits)));
    ScanOne(c, Trim(HUNK + h.range));
    HunkStep(c, h.range);
    ScanEdits(c.(inHunk := true), h.edits);
  }

  lemma {:induction false} ScanHunks(c: Counter, hunks: seq<Hunk>)
    ensures Scan(c, Trimmed(HunkLines(hunks))) == Plus(c, c.inHunk || hunks != [], CountHunks(hunks))
    decreases |hunks|
  {
    hide Step, Trim, EditLines, CountEdits, Trimmed, Scan, HunkLines, CountHunks;
    if hunks == [] {
      NoHunks(c);
    } else {
      var (front, h) := (hunks[..|hunks| - 1], hunks[|hunks| - 1]);
      assert hunks == front + [h];
      HunkLinesNext(front, h);
      CountHunksNext(front, h);
      ScanHunks(c, front);
      var own := [HUNK + h.range] + EditLines(h.edits);
      TrimmedConcat(HunkLines(front), own);
      ScanConcat(c, Trimmed(HunkLines(front)), Trimmed(own));
      ScanHunk(Plus(c, c.inHunk || front != [], CountHunks(front)), h);
    }
  }

  lemma NoHunks(c: Counter)
    ensures Scan(c, Trimmed(HunkLines([]))) == Plus(c, c.inHunk, CountHunks([]))
  {
  }

  lemma {:induction false} ScanHeaders(c: Counter, headers: seq<string>)
    requires !c.inHunk && forall h <- headers :: HeaderOk(h)
    ensures Scan(c, Trimmed(headers)) == c
    decreases |headers|
  {
    hide Trim, StartsWith;
    if headers != [] {
      var (front, h) := (headers[..|headers| - 1], headers[|headers| - 1]);
      ScanHeaders(c, front);
      assert headers == front + [h] && HeaderOk(h);
      TrimmedConcat(front, [h]);
      assert Trimmed([h]) == [Trim(h)];
      ScanConcat(c, Trimmed(front), [Trim(h)]);
      ScanOne(c, Trim(h));
    }
  }

  lemma FileStep(c: Counter, names: string)
    ensures Step(c, Trim(FILE + names)) == c.(inHunk := false)
  {
    PrefixTrims(FILE, names);
  }

  lemma ScanFile(c: Counter, f: File)
    requires FileOk(f)
    ensures Scan(c, Trimmed(FileLines(f))) == Plus(c, f.hunks != [], CountHunks(f.hunks))
  {
    hide Step, Trim, HunkLines, HeaderOk;
    var first := [FILE + f.names];
    TrimmedConcat(first + f.headers, HunkLines(f.hunks));
    TrimmedConcat(first, f.headers);
    assert Trimmed(first) == [Trim(FILE + f.names)];
    var c1 := c.(inHunk := false);
    ScanConcat(c, Trimmed(first) + Trimmed(f.headers), Trimmed(HunkLines(f.hunks)));
    ScanConcat(c, Trimmed(first), Trimmed(f.headers));
    ScanOne(c, Trim(FILE + f.names));
    FileStep(c, f.names);
    ScanHeaders(c1, f.headers);
    ScanHunks(c1, f.hunks);
  }

  lemma DiffLinesNext(front: seq<File>, f: File)
    ensures DiffLines(front + [f]) == DiffLines(front) + FileLines(f)
  {
    hide FileLines;
    assert (front + [f])[..|front + [f]| - 1] == front;
  }

  lemma CountFilesNext(front: seq<File>, f: File)
    ensures CountFiles(front + [f]) == (CountFiles(front).0 + CountHunks(f.hunks).0, CountFiles(front).1 + CountHunks(f.hunks).1)
  {
    hide CountHunks;
    assert (front + [f])[..|front + [f]| - 1] == front;
  }

  predicate FilesOk(files: seq<File>) { forall f <- files :: FileOk(f) }

  lemma FilesOkFront(files: seq<File>)
    requires FilesOk(files) && files != []
    ensures FilesOk(files[..|files| - 1]) && FileOk(files[|files| - 1])
  {
    hide FileOk;
  }

  lemma NoFiles()
    ensures Scan(START, Trimmed(DiffLines([]))) == START && CountFiles([]) == (0, 0)
  {
  }

  lemma {:induction false} ScanDiff(files: seq<File>)
    requires FilesOk(files)
    ensures
      var c := Scan(START, Trimmed(DiffLines(files)));
      (c.added, c.deleted) == CountFiles(files)
    decreases |files|
  {
    hide Step, Trim, Trimmed, Scan, DiffLines, FileLines, FilesOk, FileOk, CountHunks, CountFiles;
    if files == [] {
      NoFiles();
    } else {
      var (front, f) := (files[..|files| - 1], files[|files| - 1]);
      FilesOkFront(files);
      assert files == front + [f];
      DiffLinesNext(front, f);
      CountFilesNext(front, f);
      ScanDiff(front);
      TrimmedConcat(DiffLines(front), FileLines(f));
      ScanConcat(START, Trimmed(DiffLines(front)), Trimmed(FileLines(f)));
      ScanFile(Scan(START, Trimmed(DiffLines(front))), f);
    }
  }

  // ----- the rendered text -----

  /** Every line ended by a line feed. */
  function Render(lines: seq<string>): string {
    if lines == [] then "" else Render(lines[..|lines| - 1]) + lines[|lines| - 1] + "\n"
  }

  predicate OneLine(lines: seq<string>) {
    forall line <- lines :: '\n' !in line
  }

  lemma {:induction false} RenderLines(lines: seq<string>)
    requires OneLine(lines)
    ensures Split(Render(lines), '\n') == lines + [""]
    decreases |lines|
  {
    hide Split;
    if lines == [] {
      SplitWithout("", '\n');
    } else {
      var (front, line) := (lines[..|lines| - 1], lines[|lines| - 1]);
      RenderLines(front);
      assert lines == front + [line];
      assert line in lines;
      RenderOneMore(front, line);
    }
  }

  lemma RenderOneMore(front: seq<string>, line: string)
    requires Split(Render(front), '\n') == front + [""] && '\n' !in line
    ensures Split(Render(front) + line + "\n", '\n') == front + [line] + [""]
  {
    hide *;
    var text := Render(front);
    SplitExtends(text, line);
    ExtendedLast(front, line);
    SplitConcat(text + line, '\n', "");
    SplitEmpty();
    assert text + line + "\n" == text + line + ['\n'] + "";
  }

  lemma ExtendedLast(front: seq<string>, line: string)
    ensures Extended(front + [""], line) == front + [line]
  {
    assert (front + [""])[|front|] == "" && (front + [""])[..|front|] == front;
    assert "" + line == line;
  }

  lemma SplitEmpty()
    ensures Split("", '\n') == [""]
  {
  }

  /** The pieces with more text after the last one. */
  function Extended(pieces: seq<string>, line: string): (r: seq<string>)
    requires pieces != []
    ensures |r| == |pieces|
  {
    pieces[..|pieces| - 1] + [pieces[|pieces| - 1] + line]
  }

  lemma ExtendedCons(x: string, rest: seq<string>, line: string)
    requires rest != []
    ensures Extended([x] + rest, line) == [x] + Extended(rest, line)
  {
    var all := [x] + rest;
    assert all[..|all| - 1] == [x] + rest[..|rest| - 1] && all[|all| - 1] == rest[|rest| - 1];
  }

  lemma ExtendedHead(c: char, rest: seq<string>, line: string)
    requires rest != []
    ensures
      var e := Extended(rest, line);
      Extended([[c] + rest[0]] + rest[1..], line) == [[c] + e[0]] + e[1..]
  {
    if |rest| == 1 {
      assert [[c] + rest[0]] + rest[1..] == [[c] + rest[0]];
      assert [c] + (rest[0] + line) == ([c] + rest[0]) + line;
    } else {
      ExtendedCons([c] + rest[0], rest[1..], line);
      ExtendedCons(rest[0], rest[1..], line);
      assert rest == [rest[0]] + rest[1..];
      assert ([rest[0]] + Extended(rest[1..], line))[1..] == Extended(rest[1..], line);
    }
  }

  /** Text without a line feed lengthens the last piece. */
  lemma {:induction false} SplitExtends(a: string, line: string)
    requires '\n' !in line
    ensures Split(a + line, '\n') == Extended(Split(a, '\n'), line)
  {
    hide *;
    if a == "" {
      assert a + line == line;
      SplitWithout(line, '\n');
      SplitEmpty();
      ExtendedOne(line);
    } else {
      assert (a + line)[1..] == a[1..] + line && (a + line)[0] == a[0];
      SplitExtends(a[1..], line);
      SplitUnfolds(a);
      SplitUnfolds(a + line);
      var rest := Split(a[1..], '\n');
      ExtendedCons("", rest, line);
      ExtendedHead(a[0], rest, line);
    }
  }

  lemma ExtendedOne(line: string)
    ensures Extended([""], line) == [line]
  {
    assert "" + line == line;
  }

  lemma SplitUnfolds(a: string)
    requires a != ""
    ensures
      var rest := Split(a[1..], '\n');
      Split(a, '\n') == if a[0] == '\n' then [""] + rest else [[a[0]] + rest[0]] + rest[1..]
  {
  }

  lemma LinesOfRender(lines: seq<string>)
    requires OneLine(lines)
    ensures Lines(Render(lines)) == Trimmed(lines)
  {
    RenderLines(lines);
    hide Split, Render;
    assert (lines + [""])[..|lines|] == lines && (lines + [""])[|lines|] == "";
    assert Trimmed(lines) + [] == Trimmed(lines);
  }

  /**
   * On the text of every structured diff the counter returns the true numbers of added and deleted
   * lines, whatever the lines inside its hunks look like.
   */
  lemma ExactOnGitDiffs(files: seq<File>)
    requires FilesOk(files) && OneLine(DiffLines(files))
    ensures
      var c := Scan(START, Lines(Render(DiffLines(files))));
      (c.added, c.deleted) == CountFiles(files)
  {
    hide *;
    LinesOfRender(DiffLines(files));
    ScanDiff(files);
  }

  // ----- additivity -----

  /** A file header stands before anything that opens a file or a hunk. */
  predicate BareHeader(lines: seq<string>)
    decreases |lines|
  {
    lines != [] && !StartsWith(lines[0], FILE) && !StartsWith(lines[0], HUNK) && (FileHeader(lines[0]) || BareHeader(lines[1..]))
  }

  lemma {:induction false} ScanFirst(c: Counter, lines: seq<string>)
    requires lines != []
    ensures Scan(c, lines) == Scan(Step(c, lines[0]), lines[1..])
  {
    ScanConcat(c, [lines[0]], lines[1..]);
    ScanOne(c, lines[0]);
    assert lines == [lines[0]] + lines[1..];
  }

  lemma {:induction false} ScanShifts(c: Counter, lines: seq<string>, a: nat, d: nat)
    ensures Scan(Counter(c.inHunk, c.added + a, c.deleted + d), lines) ==
      Counter(Scan(c, lines).inHunk, Scan(c, lines).added + a, Scan(c, lines).deleted + d)
    decreases |lines|
  {
    hide StartsWith;
    if lines != [] {
      ScanShifts(c, lines[..|lines| - 1], a, d);
    }
  }

  lemma {:induction false} InsideCountsMore(lines: seq<string>)
    ensures
      var (inside, outside) := (Scan(Counter(true, 0, 0), lines), Scan(START, lines));
      && inside.added >= outside.added && inside.deleted >= outside.deleted
      && (inside.added + inside.deleted == outside.added + outside.deleted <==> !BareHeader(lines))
    decreases |lines|
  {
    if lines != [] {
      var (line, rest) := (lines[0], lines[1..]);
      InsideCountsMore(rest);
      ScanFirst(Counter(true, 0, 0), lines);
      ScanFirst(START, lines);
      HeaderIsChange(line);
      var (i, o) := (Step(Counter(true, 0, 0), line), Step(START, line));
      ScanShifts(Counter(i.inHunk, 0, 0), rest, i.added, i.deleted);
      ScanShifts(Counter(o.inHunk, 0, 0), rest, o.added, o.deleted);
      hide Scan, StartsWith;
    }
  }

  lemma HeaderIsChange(line: string)
    ensures FileHeader(line) ==> Added(line) != Deleted(line)
    ensures Added(line) ==> !Deleted(line)
  {
    if StartsWith(line, "+++ ") { assert line[0] == line[..4][0]; }
    if StartsWith(line, "--- ") { assert line[0] == line[..4][0]; }
    assert line != "" ==> line[..1][0] == line[0];
  }

  /**
   * The counts of two diffs one after the other are the sums of their counts exactly when the first
   * does not end inside a hunk or the second opens a file or a hunk before any bare file header.
   */
  lemma CountsAddUp(a: seq<string>, b: seq<string>)
    ensures
      var (both, x, y) := (Scan(START, a + b), Scan(START, a), Scan(START, b));
      (both.added == x.added + y.added && both.deleted == x.deleted + y.deleted) <==> !x.inHunk || !BareHeader(b)
  {
    hide Step, BareHeader;
    ScanConcat(START, a, b);
    var x := Scan(START, a);
    ScanShifts(Counter(x.inHunk, 0, 0), b, x.added, x.deleted);
    InsideCountsMore(b);
    hide Scan;
  }

  /** Two files of which the second is not opened by a `diff --git` line: its headers are counted as changes. */
  lemma BareHeadersAreCounted()
    ensures Scan(START, ["@@ -1 +1 @@", "+a", "--- a/x", "+++ b/x"]) == Counter(true, 2, 1)
  {
    var lines := ["@@ -1 +1 @@", "+a", "--- a/x", "+++ b/x"];
    ScanFirst(START, lines);
    var l1 := lines[1..];
    assert l1 == ["+a", "--- a/x", "+++ b/x"];
    ScanFirst(Counter(true, 0, 0), l1);
    var l2 := l1[1..];
    assert l2 == ["--- a/x", "+++ b/x"];
    ScanFirst(Counter(true, 1, 0), l2);
    var l3 := l2[1..];
    assert l3 == ["+++ b/x"];
    ScanOne(Counter(true, 1, 1), "+++ b/x");
    hide Scan;
    assert "@@ -1 +1 @@"[..3] == HUNK && "@@ -1 +1 @@"[0] == '@' && FILE[0] == 'd' && HUNK[0] == '@';
    assert "+a"[0] == '+' && "--- a/x"[0] == '-' && "+++ b/x"[0] == '+';
  }
}
