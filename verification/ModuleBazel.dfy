/**
 * Reading and rewriting the rusty_v8 digests of a MODULE.bazel
 * (codex/.github/scripts/rusty_v8_module_bazel.py), line by line.
 */
module ModuleBazel {
  import opened Ordering
  import opened Text

  // ----- lines -----

  /** str.isspace, without the line feed that ends a line. */
  predicate IsSpace(c: char) {
    var n := c as int;
    9 <= n <= 13 || 28 <= n <= 32 || n == 0x85 || n == 0xA0 || n == 0x1680 || 0x2000 <= n <= 0x200A
    || n == 0x2028 || n == 0x2029 || n == 0x202F || n == 0x205F || n == 0x3000
  }

  predicate Blank(line: string) {
    forall c <- line :: IsSpace(c)
  }

  function SkipSpace(s: string): (r: string)
    ensures |r| <= |s|
  {
    if s != "" && IsSpace(s[0]) then SkipSpace(s[1..]) else s
  }

  function Indent(line: string): string { line[..|line| - |SkipSpace(line)|] }

  predicate Prefixed(prefix: string, s: string) {
    |prefix| <= |s| && s[..|prefix|] == prefix
  }

  function QuoteAt(s: string): (at: nat)
    ensures at <= |s|
  {
    if s == "" || s[0] == '"' then 0 else 1 + QuoteAt(s[1..])
  }

  /** The value of `field = "value",` when the line is that and nothing else. */
  function ReadField(line: string, field: string): Option<string> {
    var a := SkipSpace(line);
    if !Prefixed(field, a) then None else ReadValue(SkipSpace(a[|field|..]))
  }

  function ReadValue(b: string): Option<string> {
    if b == "" || b[0] != '=' then None
    else
      var c := SkipSpace(b[1..]);
      if c == "" || c[0] != '"' then None
      else
        var q := QuoteAt(c[1..]);
        if q == 0 || 1 + q == |c| || 2 + q == |c| || c[2 + q] != ',' || !Blank(c[3 + q..]) then None else Some(c[1..1 + q])
  }

  predicate IsHex(s: string) {
    s != "" && forall c <- s :: '0' <= c <= '9' || 'a' <= c <= 'f'
  }

  predicate HexShaLine(line: string) {
    ReadField(line, "sha256").Some? && IsHex(ReadField(line, "sha256").value)
  }

  /** A download line with nothing after its comma. */
  predicate PathLine(line: string) {
    ReadField(line, "downloaded_file_path").Some? && line != "" && line[|line| - 1] == ','
  }

  function ShaLine(indent: string, checksum: string): string {
    indent + "sha256 = \"" + checksum + "\","
  }

  // ----- blocks -----

  const OPENING := "http_file("

  predicate Closes(line: string) { line != "" && line[0] == ')' }

  /** A module text as lines outside blocks and http_file blocks: the lines inside, and the closing line. */
  datatype Segment = Plain(line: string) | Http(inner: seq<string>, close: string)

  function FirstClose(lines: seq<string>): (at: nat)
    ensures at <= |lines| && (at < |lines| ==> Closes(lines[at]))
    ensures forall i :: 0 <= i < at ==> !Closes(lines[i])
  {
    if lines == [] || Closes(lines[0]) then 0 else 1 + FirstClose(lines[1..])
  }

  function Parse(lines: seq<string>): seq<Segment>
    decreases |lines|
  {
    if lines == [] then []
    else
      var at := FirstClose(lines[1..]);
      if lines[0] == OPENING && at < |lines| - 1 then
        [Http(lines[1..1 + at], lines[1 + at])] + Parse(lines[2 + at..])
      else [Plain(lines[0])] + Parse(lines[1..])
  }

  function LinesOf(s: Segment): seq<string> {
    match s
    case Plain(line) => [line]
    case Http(inner, close) => [OPENING] + inner + [close]
  }

  function Render(segments: seq<Segment>): seq<string> {
    if segments == [] then [] else LinesOf(segments[0]) + Render(segments[1..])
  }

  function FirstField(inner: seq<string>, field: string): Option<string> {
    if inner == [] then None
    else if ReadField(inner[0], field).Some? then ReadField(inner[0], field)
    else FirstField(inner[1..], field)
  }

  // ----- entries -----

  datatype Problem =
    | MissingPath(name: string) | NoEntries(version: string) | Duplicate(file: string)
    | NoChecksum(name: string) | NoHttpFile(file: string)
    | MissingSha(name: string) | WrongSha(name: string, actual: string, expected: string)
    | NoPlaceForSha

  datatype Result<T> = Ok(value: T) | Err(problems: seq<Problem>)

  type Checksums = map<string, string>

  function Slug(version: string): string {
    if version == "" then "" else [if version[0] == '.' then '_' else version[0]] + Slug(version[1..])
  }

  function NamePrefix(version: string): string { "rusty_v8_" + Slug(version) + "_" }

  predicate Selected(s: Segment, prefix: string) {
    s.Http? && FirstField(s.inner, "name").Some? && Prefixed(prefix, FirstField(s.inner, "name").value)
  }

  /** A selected block: where its lines start and end, and its fields. */
  datatype Entry = Entry(start: nat, end: nat, inner: seq<string>, close: string, name: string, path: string, sha256: Option<string>)

  /** The selected blocks of the text whose first segment starts at line `at`. */
  function Entries(segments: seq<Segment>, prefix: string, at: nat): Result<seq<Entry>> {
    if segments == [] then Ok([])
    else
      var s := segments[0];
      if Selected(s, prefix) && FirstField(s.inner, "downloaded_file_path").None? then
        Err([MissingPath(FirstField(s.inner, "name").value)])
      else
        var rest := Entries(segments[1..], prefix, at + |LinesOf(s)|);
        if !Selected(s, prefix) || rest.Err? then rest else Ok([EntryOf(s, at)] + rest.value)
  }

  function EntryOf(s: Segment, at: nat): Entry
    requires s.Http? && FirstField(s.inner, "name").Some? && FirstField(s.inner, "downloaded_file_path").Some?
  {
    Entry(at, at + |LinesOf(s)|, s.inner, s.close, FirstField(s.inner, "name").value,
          FirstField(s.inner, "downloaded_file_path").value, FirstField(s.inner, "sha256"))
  }

  function HttpFiles(lines: seq<string>, version: string): Result<seq<Entry>> {
    Entries(Parse(lines), NamePrefix(version), 0)
  }

  // ----- errors -----

  function Paths(entries: seq<Entry>): set<string> { set e | e in entries :: e.path }

  function Repeated(entries: seq<Entry>): set<string> {
    if entries == [] then {}
    else
      var (front, e) := (entries[..|entries| - 1], entries[|entries| - 1]);
      Repeated(front) + if e.path in Paths(front) then {e.path} else {}
  }

  /** The entry a path stands for: the last one. */
  function LastNamed(entries: seq<Entry>, path: string): (name: string) {
    if entries == [] then ""
    else if entries[|entries| - 1].path == path then entries[|entries| - 1].name
    else LastNamed(entries[..|entries| - 1], path)
  }

  function Names(files: set<string>): set<seq<string>> { set f | f in files :: [f] }

  function FileOf(x: seq<string>): string { if x == [] then "" else x[0] }

  function Duplicates(files: seq<seq<string>>): (r: seq<Problem>)
    ensures |r| == |files|
  {
    seq(|files|, i requires 0 <= i < |files| => Duplicate(FileOf(files[i])))
  }

  function NoChecksums(entries: seq<Entry>, files: seq<seq<string>>): (r: seq<Problem>)
    ensures |r| == |files|
  {
    seq(|files|, i requires 0 <= i < |files| => NoChecksum(LastNamed(entries, FileOf(files[i]))))
  }

  function NoHttpFiles(files: seq<seq<string>>): (r: seq<Problem>)
    ensures |r| == |files|
  {
    seq(|files|, i requires 0 <= i < |files| => NoHttpFile(FileOf(files[i])))
  }

  function EntrySetErrors(entries: seq<Entry>, sums: Checksums, version: string): seq<Problem> {
    if entries == [] then [NoEntries(version)]
    else
      Duplicates(Sorted(Names(Repeated(entries))))
      + NoChecksums(entries, Sorted(Names(Paths(entries) - sums.Keys)))
      + NoHttpFiles(Sorted(Names(sums.Keys - Paths(entries))))
  }

  function ChecksumErrors(entries: seq<Entry>, sums: Checksums): seq<Problem> {
    if entries == [] then []
    else
      var e := entries[|entries| - 1];
      ChecksumErrors(entries[..|entries| - 1], sums)
      + if e.path !in sums then []
        else if e.sha256.None? then [MissingSha(e.name)]
        else if e.sha256.value != sums[e.path] then [WrongSha(e.name, e.sha256.value, sums[e.path])]
        else []
  }

  /** No problems means the text is accepted. */
  function Check(lines: seq<string>, sums: Checksums, version: string): seq<Problem> {
    var entries := HttpFiles(lines, version);
    if entries.Err? then entries.problems
    else EntrySetErrors(entries.value, sums, version) + ChecksumErrors(entries.value, sums)
  }

  // ----- writing a digest into a block -----

  function First(p: string -> bool, lines: seq<string>): (at: nat)
    ensures at <= |lines| && (at < |lines| ==> p(lines[at]))
    ensures forall i :: 0 <= i < at ==> !p(lines[i])
  {
    if lines == [] || p(lines[0]) then 0 else 1 + First(p, lines[1..])
  }

  function FirstHexSha(inner: seq<string>): nat { First((line: string) => HexShaLine(line), inner) }

  function FirstPath(inner: seq<string>): nat { First((line: string) => PathLine(line), inner) }

  function DropBlank(lines: seq<string>): (r: seq<string>)
    ensures |r| <= |lines|
  {
    if lines != [] && Blank(lines[0]) then DropBlank(lines[1..]) else lines
  }

  /** The run of blank lines that ends the list. */
  function TrailingBlank(lines: seq<string>): seq<string> {
    if lines != [] && Blank(lines[|lines| - 1]) then TrailingBlank(lines[..|lines| - 1]) + [lines[|lines| - 1]] else []
  }

  /** The blank lines in front are dropped, and only they. */
  lemma {:induction false} DropBlankFacts(lines: seq<string>)
    ensures
      var rest := DropBlank(lines);
      && lines[|lines| - |rest|..] == rest && (rest == [] || !Blank(rest[0]))
      && forall line <- lines[..|lines| - |rest|] :: Blank(line)
  {
    hide Blank;
    if lines != [] && Blank(lines[0]) {
      DropBlankFacts(lines[1..]);
      var n := |lines| - |DropBlank(lines)|;
      assert lines[..n] == [lines[0]] + lines[1..][..n - 1];
    }
  }

  lemma {:induction false} TrailingBlankFacts(lines: seq<string>)
    ensures forall line <- TrailingBlank(lines) :: Blank(line) && line in lines
  {
    hide Blank;
    if lines != [] { TrailingBlankFacts(lines[..|lines| - 1]); }
  }

  /**
   * The first line with a lower-case hexadecimal digest is replaced, and the blank lines after it go
   * with it; without one a line is added after the first download line, with the blank lines that
   * precede that line repeated.
   */
  function WithSha(inner: seq<string>, checksum: string): Option<seq<string>> {
    var w := FirstHexSha(inner);
    if w < |inner| then Some(inner[..w] + [ShaLine(Indent(inner[w]), checksum)] + DropBlank(inner[w + 1..]))
    else
      var d := FirstPath(inner);
      if d == |inner| then None
      else Some(inner[..d + 1] + TrailingBlank(inner[..d]) + [ShaLine(Indent(inner[d]), checksum)] + inner[d + 1..])
  }

  /** Every selected block rewritten; nothing when one of them has no place for its digest. */
  function Rewrite(segments: seq<Segment>, prefix: string, sums: Checksums): Option<seq<Segment>> {
    if segments == [] then Some([])
    else
      var s := RewriteOne(segments[0], prefix, sums);
      var rest := Rewrite(segments[1..], prefix, sums);
      if s.None? || rest.None? then None else Some([s.value] + rest.value)
  }

  function RewriteOne(s: Segment, prefix: string, sums: Checksums): Option<Segment> {
    if !Selected(s, prefix) then Some(s)
    else
      var path := FirstField(s.inner, "downloaded_file_path");
      if path.None? || path.value !in sums then None
      else
        var inner := WithSha(s.inner, sums[path.value]);
        if inner.None? then None else Some(Http(inner.value, s.close))
  }

  function Update(lines: seq<string>, sums: Checksums, version: string): Result<seq<string>> {
    var entries := HttpFiles(lines, version);
    if entries.Err? then Err(entries.problems)
    else if EntrySetErrors(entries.value, sums, version) != [] then Err(EntrySetErrors(entries.value, sums, version))
    else
      var segments := Rewrite(Parse(lines), NamePrefix(version), sums);
      if segments.None? then Err([NoPlaceForSha]) else Ok(Render(segments.value))
  }

  // ----- parsing and rendering are inverse -----

  /** What a parse takes first, and where it goes on. */
  function FirstSegment(lines: seq<string>): Segment
    requires lines != []
  {
    var at := FirstClose(lines[1..]);
    if lines[0] == OPENING && at < |lines| - 1 then Http(lines[1..1 + at], lines[1 + at]) else Plain(lines[0])
  }

  lemma ParseUnfolds(lines: seq<string>)
    requires lines != []
    ensures 0 < |LinesOf(FirstSegment(lines))| <= |lines|
    ensures lines[..|LinesOf(FirstSegment(lines))|] == LinesOf(FirstSegment(lines))
    ensures Parse(lines) == [FirstSegment(lines)] + Parse(lines[|LinesOf(FirstSegment(lines))|..])
  {
    var at := FirstClose(lines[1..]);
    if lines[0] == OPENING && at < |lines| - 1 {
      assert lines[..2 + at] == [OPENING] + lines[1..1 + at] + [lines[1 + at]];
    }
  }

  lemma RenderCons(s: Segment, rest: seq<Segment>)
    ensures Render([s] + rest) == LinesOf(s) + Render(rest) && Render([s] + rest) != []
  {
    assert ([s] + rest)[1..] == rest;
  }

  lemma TakeDrop(lines: seq<string>, n: nat)
    requires n <= |lines|
    ensures lines[..n] + lines[n..] == lines
  {
  }

  lemma {:induction false} RenderParse(lines: seq<string>)
    ensures Render(Parse(lines)) == lines
    decreases |lines|
  {
    if lines != [] {
      hide *;
      ParseUnfolds(lines);
      var s := FirstSegment(lines);
      var n := |LinesOf(s)|;
      RenderParse(lines[n..]);
      RenderCons(s, Parse(lines[n..]));
      TakeDrop(lines, n);
    }
  }

  predicate NoClose(segments: seq<Segment>) {
    forall s <- segments :: s.Plain? && !Closes(s.line)
  }

  /** The segments a parse can give. */
  predicate Canonical(segments: seq<Segment>) {
    segments == [] ||
    (&& Canonical(segments[1..])
     && match segments[0]
        case Plain(line) => line == OPENING ==> NoClose(segments[1..])
        case Http(inner, close) => Closes(close) && forall line <- inner :: !Closes(line))
  }

  lemma {:induction false} NoCloseLines(segments: seq<Segment>)
    requires Canonical(segments)
    ensures NoClose(segments) <==> forall line <- Render(segments) :: !Closes(line)
  {
    if segments != [] {
      NoCloseLines(segments[1..]);
      assert segments == [segments[0]] + segments[1..];
      var s := segments[0];
      assert forall line :: line in Render(segments) <==> line in LinesOf(s) || line in Render(segments[1..]);
      if s.Http? && NoClose(segments[1..]) {
        assert OPENING in LinesOf(s) && s.close in LinesOf(s);
      }
    }
  }

  lemma {:induction false} ParseRender(segments: seq<Segment>)
    requires Canonical(segments)
    ensures Parse(Render(segments)) == segments
  {
    if segments != [] {
      var (s, rest) := (segments[0], segments[1..]);
      assert Canonical(rest);
      assert segments == [s] + rest;
      ParseRender(rest);
      NoCloseLines(rest);
      FirstSegmentBack(s, rest);
      hide *;
      RenderCons(s, rest);
      ParseUnfolds(Render(segments));
      DropLines(LinesOf(s), Render(rest));
    }
  }

  lemma DropLines(a: seq<string>, b: seq<string>)
    ensures (a + b)[|a|..] == b
  {
  }

  lemma FirstSegmentBack(s: Segment, rest: seq<Segment>)
    requires s.Http? ==> Closes(s.close) && forall line <- s.inner :: !Closes(line)
    requires s.Plain? && s.line == OPENING ==> forall line <- Render(rest) :: !Closes(line)
    ensures LinesOf(s) + Render(rest) != [] && FirstSegment(LinesOf(s) + Render(rest)) == s
  {
    hide Render, Closes;
    match s
    case Plain(line) => PlainBack(line, Render(rest));
    case Http(inner, close) => HttpBack(inner, close, Render(rest));
  }

  lemma PlainBack(line: string, more: seq<string>)
    requires line == OPENING ==> forall x <- more :: !Closes(x)
    ensures FirstSegment([line] + more) == Plain(line)
  {
    hide Closes;
    assert ([line] + more)[1..] == more && ([line] + more)[0] == line;
    assert FirstClose(more) < |more| ==> more[FirstClose(more)] in more;
    hide FirstClose;
  }

  lemma HttpBack(inner: seq<string>, close: string, more: seq<string>)
    requires Closes(close) && forall line <- inner :: !Closes(line)
    ensures FirstSegment([OPENING] + inner + [close] + more) == Http(inner, close)
  {
    FirstCloseIs(inner, close, more);
    hide Closes, FirstClose;
    var lines := [OPENING] + inner + [close] + more;
    var tail := inner + [close] + more;
    assert lines == [OPENING] + tail;
    assert lines[1..] == tail && lines[0] == OPENING;
    assert lines[1..1 + |inner|] == inner && lines[1 + |inner|] == close;
  }

  lemma {:induction false} FirstCloseIs(inner: seq<string>, close: string, more: seq<string>)
    requires Closes(close) && forall line <- inner :: !Closes(line)
    ensures FirstClose(inner + [close] + more) == |inner|
  {
    var lines := inner + [close] + more;
    var at := FirstClose(lines);
    assert lines[|inner|] == close;
    assert forall i :: 0 <= i < |inner| ==> lines[i] == inner[i];
  }

  lemma {:induction false} ParseCanonical(lines: seq<string>)
    ensures Canonical(Parse(lines))
    decreases |lines|
  {
    if lines != [] {
      ParseUnfolds(lines);
      var s := FirstSegment(lines);
      var rest := lines[|LinesOf(s)|..];
      ParseCanonical(rest);
      FirstSegmentOk(lines);
      RenderParse(rest);
      NoCloseLines(Parse(rest));
      assert Parse(lines)[0] == s && Parse(lines)[1..] == Parse(rest);
    }
  }

  lemma FirstSegmentOk(lines: seq<string>)
    requires lines != []
    ensures
      var s := FirstSegment(lines);
      && (s.Http? ==> Closes(s.close) && forall line <- s.inner :: !Closes(line))
      && (s.Plain? && s.line == OPENING ==> forall line <- lines[|LinesOf(s)|..] :: !Closes(line))
  {
    hide Closes;
  }
}
