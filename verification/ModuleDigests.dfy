/** What a rewrite of the digests keeps, when it satisfies the check, and when repeating it changes nothing. */
module ModuleDigests {
  import opened Text
  import opened ModuleBazel

  // ----- reading back a written line -----

  lemma {:induction false} SkipIndent(indent: string, s: string)
    requires Blank(indent) && s != "" && !IsSpace(s[0])
    ensures SkipSpace(indent + s) == s
  {
    if indent == "" {
      assert indent + s == s;
    } else {
      assert (indent + s)[1..] == indent[1..] + s;
      SkipIndent(indent[1..], s);
    }
  }

  lemma {:induction false} QuoteAfter(value: string, more: string)
    requires '"' !in value && more != "" && more[0] == '"'
    ensures QuoteAt(value + more) == |value|
  {
    if value == "" {
      assert value + more == more;
    } else {
      assert (value + more)[1..] == value[1..] + more;
      QuoteAfter(value[1..], more);
    }
  }

  /** `field = "value",` at an indentation. */
  function FieldLine(indent: string, field: string, value: string): string {
    indent + (field + Assigned(value))
  }

  lemma ValueReads(value: string)
    requires value != "" && '"' !in value
    ensures ReadValue("= \"" + value + "\",") == Some(value)
  {
    var b := "= \"" + value + "\",";
    var c := "\"" + value + "\",";
    assert b[1..] == " " + c;
    SkipIndent(" ", c);
    hide SkipSpace;
    assert SkipSpace(b[1..]) == c;
    QuotedReads(value);
    hide Blank, QuoteAt;
  }

  lemma QuotedReads(value: string)
    requires value != "" && '"' !in value
    ensures
      var c := "\"" + value + "\",";
      QuoteAt(c[1..]) == |value| && c[2 + |value|] == ',' && Blank(c[3 + |value|..]) && c[1..1 + |value|] == value
  {
    var c := "\"" + value + "\",";
    assert c[1..] == value + "\",";
    QuoteAfter(value, "\",");
    assert c[3 + |value|..] == "";
    assert c[1..1 + |value|] == value;
  }

  /** What follows the field's name on its line. */
  function Assigned(value: string): string { " = \"" + value + "\"," }

  lemma AssignedSkips(value: string)
    ensures SkipSpace(Assigned(value)) == "= \"" + value + "\","
  {
    var b := "= \"" + value + "\",";
    assert Assigned(value) == " " + b;
    SkipIndent(" ", b);
  }

  lemma PrefixParts(field: string, tail: string)
    ensures Prefixed(field, field + tail) && (field + tail)[|field|..] == tail
  {
  }

  lemma ReadFieldParts(line: string, field: string, tail: string)
    requires SkipSpace(line) == field + tail
    ensures ReadField(line, field) == ReadValue(SkipSpace(tail))
    ensures forall other :: !Prefixed(other, field + tail) ==> ReadField(line, other) == None
  {
    PrefixParts(field, tail);
    hide SkipSpace, ReadValue, Prefixed;
  }

  lemma FieldLineReads(indent: string, field: string, value: string)
    requires Blank(indent) && field != "" && !IsSpace(field[0]) && value != "" && '"' !in value
    ensures ReadField(FieldLine(indent, field, value), field) == Some(value)
    ensures forall other :: !Prefixed(other, field + Assigned(value)) ==> ReadField(FieldLine(indent, field, value), other) == None
    ensures SkipSpace(FieldLine(indent, field, value)) == field + Assigned(value)
  {
    var a := field + Assigned(value);
    assert a != "" && a[0] == field[0];
    assert FieldLine(indent, field, value) == indent + a;
    hide SkipSpace, ReadValue, ReadField, Blank, Prefixed, Assigned, FieldLine;
    SkipIndent(indent, a);
    ReadFieldParts(FieldLine(indent, field, value), field, Assigned(value));
    AssignedSkips(value);
    ValueReads(value);
  }

  lemma IndentBlank(line: string)
    ensures Blank(Indent(line))
  {
    IndentBlankFrom(line);
  }

  lemma {:induction false} IndentBlankFrom(line: string)
    ensures forall c <- line[..|line| - |SkipSpace(line)|] :: IsSpace(c)
  {
    if line != "" && IsSpace(line[0]) {
      IndentBlankFrom(line[1..]);
      var n := |line| - |SkipSpace(line)|;
      assert line[..n] == [line[0]] + line[1..][..n - 1];
    }
  }

  lemma ShaLineIs(indent: string, checksum: string)
    ensures ShaLine(indent, checksum) == FieldLine(indent, "sha256", checksum)
  {
    assert "sha256 = \"" + checksum + "\"," == "sha256" + Assigned(checksum);
  }

  lemma IndentOfLine(indent: string, a: string)
    requires SkipSpace(indent + a) == a
    ensures Indent(indent + a) == indent
  {
    hide SkipSpace;
    assert (indent + a)[..|indent|] == indent;
  }

  lemma PrefixHead(p: string, a: string)
    ensures p != "" && (a == "" || a[0] != p[0]) ==> !Prefixed(p, a)
  {
  }

  lemma NotClosing(indent: string, a: string)
    requires Blank(indent) && a != "" && a[0] != ')'
    ensures !Closes(indent + a)
  {
    if indent != "" { assert (indent + a)[0] == indent[0] && indent[0] in indent; }
  }

  lemma ShaLineFields(indent: string, checksum: string)
    requires Blank(indent) && IsHex(checksum)
    ensures ReadField(ShaLine(indent, checksum), "sha256") == Some(checksum)
    ensures ReadField(ShaLine(indent, checksum), "name") == None
    ensures ReadField(ShaLine(indent, checksum), "downloaded_file_path") == None
    ensures Indent(ShaLine(indent, checksum)) == indent
    ensures !Closes(ShaLine(indent, checksum)) && HexShaLine(ShaLine(indent, checksum))
  {
    var a := "sha256" + Assigned(checksum);
    assert a[0] == 's';
    PrefixHead("name", a);
    PrefixHead("downloaded_file_path", a);
    assert '"' !in checksum;
    hide SkipSpace, ReadField, Blank, Prefixed, Assigned, Closes, Indent, IsHex, ShaLine;
    ShaLineIs(indent, checksum);
    FieldLineReads(indent, "sha256", checksum);
    IndentOfLine(indent, a);
    NotClosing(indent, a);
  }

  lemma BlankHasNoField(line: string, field: string)
    requires Blank(line) && field != ""
    ensures ReadField(line, field) == None
  {
    BlankSkips(line);
  }

  lemma {:induction false} BlankSkips(line: string)
    ensures Blank(line) <==> SkipSpace(line) == ""
  {
    if line != "" {
      BlankSkips(line[1..]);
      assert line == [line[0]] + line[1..];
    }
  }

  /** A line is of one field only. */
  lemma OneField(line: string, field: string, other: string)
    requires ReadField(line, field).Some? && field != "" && other != "" && field[0] != other[0]
    ensures ReadField(line, other) == None
  {
    PrefixHead(field, SkipSpace(line));
    PrefixHead(other, SkipSpace(line));
  }

  // ----- fields of a block -----

  lemma {:induction false} FirstFieldConcat(a: seq<string>, b: seq<string>, field: string)
    ensures FirstField(a + b, field) == if FirstField(a, field).Some? then FirstField(a, field) else FirstField(b, field)
  {
    hide ReadField;
    if a == [] {
      assert a + b == b;
    } else {
      assert (a + b)[0] == a[0] && (a + b)[1..] == a[1..] + b;
      FirstFieldConcat(a[1..], b, field);
    }
  }

  lemma FirstFieldOne(line: string, field: string)
    ensures FirstField([line], field) == ReadField(line, field)
  {
    hide ReadField;
    assert [line][1..] == [];
  }

  lemma {:induction false} BlanksHaveNoField(lines: seq<string>, field: string)
    requires (forall line <- lines :: Blank(line)) && field != ""
    ensures FirstField(lines, field) == None
  {
    hide ReadField, Blank;
    if lines != [] {
      BlankHasNoField(lines[0], field);
      BlanksHaveNoField(lines[1..], field);
    }
  }

  lemma DroppedBlanks(lines: seq<string>, field: string)
    requires field != ""
    ensures FirstField(DropBlank(lines), field) == FirstField(lines, field)
  {
    hide ReadField, FirstField, Blank, DropBlank;
    DropBlankFacts(lines);
    var n := |lines| - |DropBlank(lines)|;
    BlanksHaveNoField(lines[..n], field);
    FirstFieldConcat(lines[..n], lines[n..], field);
    TakeDrop(lines, n);
  }

  /** A block in three parts: what precedes the middle, the middle, and what follows it. */
  lemma ThreeParts(a: seq<string>, middle: string, b: seq<string>, field: string)
    ensures FirstField(a + [middle] + b, field) ==
      if FirstField(a, field).Some? then FirstField(a, field)
      else if ReadField(middle, field).Some? then ReadField(middle, field) else FirstField(b, field)
  {
    hide ReadField;
    FirstFieldConcat(a + [middle], b, field);
    FirstFieldConcat(a, [middle], field);
    FirstFieldOne(middle, field);
    hide FirstField;
  }

  /** Where a digest goes: an existing line is replaced, or a line is added after `at - 1`. */
  predicate Replaces(inner: seq<string>) { FirstHexSha(inner) < |inner| }

  /** The lines of the block before the one with the digest, once it is written. */
  function Before(inner: seq<string>): seq<string> {
    if Replaces(inner) then inner[..FirstHexSha(inner)]
    else if FirstPath(inner) < |inner| then inner[..FirstPath(inner) + 1] + TrailingBlank(inner[..FirstPath(inner)])
    else inner
  }

  function After(inner: seq<string>): seq<string> {
    if Replaces(inner) then DropBlank(inner[FirstHexSha(inner) + 1..])
    else if FirstPath(inner) < |inner| then inner[FirstPath(inner) + 1..]
    else []
  }

  function IndentOf(inner: seq<string>): string {
    if Replaces(inner) then Indent(inner[FirstHexSha(inner)])
    else if FirstPath(inner) < |inner| then Indent(inner[FirstPath(inner)])
    else ""
  }

  lemma WithShaParts(inner: seq<string>, checksum: string)
    requires WithSha(inner, checksum).Some?
    ensures WithSha(inner, checksum).value == Before(inner) + [ShaLine(IndentOf(inner), checksum)] + After(inner)
    ensures Blank(IndentOf(inner))
    ensures forall line <- Before(inner) :: !HexShaLine(line)
  {
    hide HexShaLine, PathLine, ShaLine;
    var w := FirstHexSha(inner);
    if w < |inner| {
      IndentBlank(inner[w]);
    } else {
      var d := FirstPath(inner);
      IndentBlank(inner[d]);
      TrailingBlankFacts(inner[..d]);
      forall line | line in TrailingBlank(inner[..d]) ensures !HexShaLine(line) {
        BlankNotHex(line);
      }
    }
  }

  lemma BlankNotHex(line: string)
    requires Blank(line)
    ensures !HexShaLine(line)
  {
    BlankHasNoField(line, "sha256");
  }

  lemma SplitAt(lines: seq<string>, i: nat)
    requires i < |lines|
    ensures lines[..i] + [lines[i]] + lines[i + 1..] == lines
  {
  }

  lemma ReplacedKeepsField(inner: seq<string>, line: string, field: string)
    requires Replaces(inner) && field != "" && field[0] != 's' && ReadField(line, field).None?
    ensures FirstField(Before(inner) + [line] + After(inner), field) == FirstField(inner, field)
  {
    hide ReadField, FirstField, DropBlank;
    var w := FirstHexSha(inner);
    ThreeParts(inner[..w], line, After(inner), field);
    DroppedBlanks(inner[w + 1..], field);
    OneField(inner[w], "sha256", field);
    ThreeParts(inner[..w], inner[w], inner[w + 1..], field);
    SplitAt(inner, w);
  }

  lemma AddedKeepsField(inner: seq<string>, line: string, field: string)
    requires !Replaces(inner) && FirstPath(inner) < |inner| && field != "" && ReadField(line, field).None?
    ensures FirstField(Before(inner) + [line] + After(inner), field) == FirstField(inner, field)
  {
    hide ReadField, FirstField, TrailingBlank, FirstPath, Blank;
    var d := FirstPath(inner);
    TrailingBlankFacts(inner[..d]);
    ThreeParts(Before(inner), line, After(inner), field);
    var blanks := TrailingBlank(inner[..d]);
    BlanksHaveNoField(blanks, field);
    FirstFieldConcat(inner[..d + 1], blanks, field);
    FirstFieldConcat(inner[..d + 1], inner[d + 1..], field);
    TakeDrop(inner, d + 1);
  }

  /** The name and the file of a block stay what they were. */
  lemma WithShaKeepsFields(inner: seq<string>, checksum: string, field: string)
    requires WithSha(inner, checksum).Some? && IsHex(checksum) && (field == "name" || field == "downloaded_file_path")
    ensures FirstField(WithSha(inner, checksum).value, field) == FirstField(inner, field)
  {
    WithShaParts(inner, checksum);
    WithShaNeedsPath(inner, checksum);
    ShaLineFields(IndentOf(inner), checksum);
    hide WithSha, ShaLine, ReadField, IsHex, Indent, Blank, FirstField, FirstPath, Before, After, IndentOf, Replaces;
    if Replaces(inner) {
      ReplacedKeepsField(inner, ShaLine(IndentOf(inner), checksum), field);
    } else {
      AddedKeepsField(inner, ShaLine(IndentOf(inner), checksum), field);
    }
  }

  lemma WithShaNeedsPath(inner: seq<string>, checksum: string)
    ensures WithSha(inner, checksum).Some? <==> Replaces(inner) || FirstPath(inner) < |inner|
  {
    hide First, DropBlank, TrailingBlank, ShaLine, Indent;
  }

  /** No sha256 line, of whatever kind, stands before the written one. */
  predicate ShaReadable(inner: seq<string>) {
    FirstField(Before(inner), "sha256").None?
  }

  lemma {:induction false} FoundInLines(lines: seq<string>, field: string)
    ensures FirstField(lines, field).Some? ==> exists line <- lines :: ReadField(line, field) == FirstField(lines, field)
  {
    hide ReadField;
    if lines != [] {
      FoundInLines(lines[1..], field);
      if ReadField(lines[0], field).None? && FirstField(lines, field).Some? {
        var line :| line in lines[1..] && ReadField(line, field) == FirstField(lines, field);
        assert line in lines;
      }
    }
  }

  /** The block then reads as the written digest, exactly when no other sha256 line precedes it. */
  lemma WithShaReads(inner: seq<string>, checksum: string)
    requires WithSha(inner, checksum).Some? && IsHex(checksum)
    ensures FirstField(WithSha(inner, checksum).value, "sha256") == Some(checksum) <==> ShaReadable(inner)
    ensures FirstField(WithSha(inner, checksum).value, "sha256").Some?
  {
    WithShaParts(inner, checksum);
    var line := ShaLine(IndentOf(inner), checksum);
    ShaLineFields(IndentOf(inner), checksum);
    var before := Before(inner);
    hide WithSha, ShaLine, ReadField, Before, After, IndentOf, Blank, Indent;
    ThreeParts(before, line, After(inner), "sha256");
    FoundInLines(before, "sha256");
    hide FirstField;
    if FirstField(before, "sha256").Some? {
      var x :| x in before && ReadField(x, "sha256") == FirstField(before, "sha256");
      assert !HexShaLine(x);
    }
  }

  // ----- writing twice, and what else changes -----

  /** Writing the same digest again would change nothing. */
  predicate Settled(inner: seq<string>) {
    Replaces(inner) || After(inner) == [] || !Blank(After(inner)[0])
  }

  lemma {:induction false} FirstIs(p: string -> bool, a: seq<string>, x: string, b: seq<string>)
    requires p(x) && forall line <- a :: !p(line)
    ensures First(p, a + [x] + b) == |a|
  {
    var lines := a + [x] + b;
    assert lines[|a|] == x;
    assert forall i :: 0 <= i < |a| ==> lines[i] == a[i];
  }

  lemma DropBlankFixed(lines: seq<string>)
    ensures DropBlank(lines) == lines <==> lines == [] || !Blank(lines[0])
  {
    hide Blank;
    if lines != [] && Blank(lines[0]) { assert |DropBlank(lines[1..])| < |lines|; }
  }

  lemma WithShaAgain(inner: seq<string>, checksum: string)
    requires WithSha(inner, checksum).Some? && IsHex(checksum)
    ensures WithSha(WithSha(inner, checksum).value, checksum).Some?
    ensures WithSha(WithSha(inner, checksum).value, checksum) == WithSha(inner, checksum) <==> Settled(inner)
  {
    WithShaParts(inner, checksum);
    var line := ShaLine(IndentOf(inner), checksum);
    ShaLineFields(IndentOf(inner), checksum);
    var (a, b) := (Before(inner), After(inner));
    var once := WithSha(inner, checksum).value;
    FirstIs((x: string) => HexShaLine(x), a, line, b);
    if Replaces(inner) { DropBlankFacts(inner[FirstHexSha(inner) + 1..]); }
    hide HexShaLine, ShaLine, Indent, Before, IsHex, Blank;
    WithShaOnce(once, a, line, b, checksum);
    DropBlankFixed(b);
    SameTail(a + [line], b, DropBlank(b));
  }

  lemma SameTail(a: seq<string>, b: seq<string>, c: seq<string>)
    ensures a + b == a + c <==> b == c
  {
    if a + b == a + c { assert (a + b)[|a|..] == b && (a + c)[|a|..] == c; }
  }

  lemma WithShaOnce(once: seq<string>, a: seq<string>, line: string, b: seq<string>, checksum: string)
    requires once == a + [line] + b && FirstHexSha(once) == |a| && ShaLine(Indent(line), checksum) == line
    ensures WithSha(once, checksum) == Some(a + [line] + DropBlank(b))
  {
    hide HexShaLine, ShaLine, Indent, DropBlank, FirstHexSha;
    assert once[..|a|] == a && once[|a|] == line && once[|a| + 1..] == b;
  }

  /** Blank lines neither follow a replaced line nor precede the download line a new one is added to. */
  predicate Tidy(inner: seq<string>) {
    if Replaces(inner) then FirstHexSha(inner) + 1 == |inner| || !Blank(inner[FirstHexSha(inner) + 1])
    else FirstPath(inner) == |inner| || FirstPath(inner) == 0 || !Blank(inner[FirstPath(inner) - 1])
  }

  /** The list without its line at `at`. */
  function Without(lines: seq<string>, at: nat): seq<string>
    requires at < |lines|
  {
    lines[..at] + lines[at + 1..]
  }

  lemma WithoutMiddle(a: seq<string>, x: string, b: seq<string>)
    ensures |a| < |a + [x] + b| && Without(a + [x] + b, |a|) == a + b
  {
    var all := a + [x] + b;
    assert all[..|a|] == a && all[|a| + 1..] == b;
  }

  lemma TidyAdded(inner: seq<string>)
    requires !Replaces(inner) && FirstPath(inner) < |inner|
    ensures Tidy(inner) <==> TrailingBlank(inner[..FirstPath(inner)]) == []
  {
    hide FirstHexSha, FirstPath, Blank;
    TrailingBlankEmpty(inner[..FirstPath(inner)]);
    hide TrailingBlank;
  }

  /** The lines around the one a replacement takes out. */
  lemma PartsReplaced(inner: seq<string>) returns (taken: string, rest: seq<string>)
    requires Replaces(inner)
    ensures |Before(inner)| == FirstHexSha(inner) && rest == inner[FirstHexSha(inner) + 1..]
    ensures inner == Before(inner) + [taken] + rest && After(inner) == DropBlank(rest)
    ensures Tidy(inner) <==> rest == [] || !Blank(rest[0])
  {
    hide FirstHexSha, FirstPath, DropBlank, TrailingBlank, Blank;
    var w := FirstHexSha(inner);
    taken, rest := inner[w], inner[w + 1..];
    SplitAt(inner, w);
  }

  lemma PartsAdded(inner: seq<string>) returns (front: seq<string>, blanks: seq<string>)
    requires !Replaces(inner) && FirstPath(inner) < |inner|
    ensures |front| == FirstPath(inner) + 1 && inner == front + After(inner) && Before(inner) == front + blanks
    ensures Tidy(inner) <==> blanks == []
  {
    TidyAdded(inner);
    hide FirstHexSha, FirstPath, TrailingBlank, Tidy;
    front, blanks := inner[..FirstPath(inner) + 1], TrailingBlank(inner[..FirstPath(inner)]);
    TakeDrop(inner, FirstPath(inner) + 1);
  }

  lemma ReplacedTouches(inner: seq<string>, line: string)
    requires Replaces(inner)
    ensures
      var (w, written) := (FirstHexSha(inner), Before(inner) + [line] + After(inner));
      w < |inner| && w < |written| && (Without(written, w) == Without(inner, w) <==> Tidy(inner))
  {
    hide *;
    var taken, rest := PartsReplaced(inner);
    WithoutMiddle(Before(inner), taken, rest);
    WithoutMiddle(Before(inner), line, After(inner));
    DropBlankFixed(rest);
    SameTail(Before(inner), After(inner), rest);
  }

  lemma AddedTouches(inner: seq<string>, line: string)
    requires !Replaces(inner) && FirstPath(inner) < |inner|
    ensures
      var (at, written) := (FirstPath(inner) + 1, Before(inner) + [line] + After(inner));
      at < |written| && (Without(written, at) == inner <==> Tidy(inner))
  {
    hide *;
    var front, blanks := PartsAdded(inner);
    if blanks == [] {
      assert front + blanks == front;
      WithoutMiddle(front, line, After(inner));
    } else {
      WithoutShorter(Before(inner) + [line] + After(inner), |front|);
    }
  }

  lemma WithoutShorter(lines: seq<string>, at: nat)
    requires at < |lines|
    ensures |Without(lines, at)| == |lines| - 1
  {
  }

  /** Apart from the written line the block is what it was, exactly when its blank lines are tidy. */
  lemma WithShaTouchesOneLine(inner: seq<string>, checksum: string)
    requires WithSha(inner, checksum).Some?
    ensures
      var at := if Replaces(inner) then FirstHexSha(inner) else FirstPath(inner) + 1;
      var rest := if Replaces(inner) && at < |inner| then Without(inner, at) else inner;
      var written := WithSha(inner, checksum).value;
      at < |written| && (Without(written, at) == rest <==> Tidy(inner))
  {
    hide *;
    WithShaParts(inner, checksum);
    WithShaNeedsPath(inner, checksum);
    if Replaces(inner) {
      ReplacedTouches(inner, ShaLine(IndentOf(inner), checksum));
    } else {
      AddedTouches(inner, ShaLine(IndentOf(inner), checksum));
    }
  }

  lemma TrailingBlankEmpty(lines: seq<string>)
    ensures TrailingBlank(lines) == [] <==> lines == [] || !Blank(lines[|lines| - 1])
  {
  }
}
