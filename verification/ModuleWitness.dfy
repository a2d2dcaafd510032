/** Module texts that an update cannot bring to pass the check, or that a second update changes again. */
module ModuleWitness {
  import opened Text
  import opened ModuleBazel
  import opened ModuleDigests
  import opened ModuleUpdate

  /** A text of one http_file block. */
  function OneBlock(inner: seq<string>): seq<string> { [OPENING] + inner + [")"] }

  lemma OneBlockParses(inner: seq<string>)
    requires forall line <- inner :: !Closes(line)
    ensures Parse(OneBlock(inner)) == [Http(inner, ")")]
  {
    var segments := [Http(inner, ")")];
    assert segments[1..] == [];
    assert Render(segments) == OneBlock(inner);
    ParseRender(segments);
  }

  lemma OneSegmentEntries(s: Segment, prefix: string, path: string)
    requires Selected(s, prefix) && FirstField(s.inner, "downloaded_file_path") == Some(path)
    ensures Complete(s) && Entries([s], prefix, 0) == Ok([EntryOf(s, 0)])
    ensures EntryOf(s, 0).inner == s.inner && EntryOf(s, 0).path == path
  {
    hide FirstField, Prefixed, LinesOf;
    assert [s][1..] == [];
    assert Entries([], prefix, |LinesOf(s)|) == Ok([]);
    assert [EntryOf(s, 0)] + [] == [EntryOf(s, 0)];
  }

  lemma OneBlockEntries(inner: seq<string>, version: string, path: string)
    requires forall line <- inner :: !Closes(line)
    requires Selected(Http(inner, ")"), NamePrefix(version)) && FirstField(inner, "downloaded_file_path") == Some(path)
    ensures HttpFiles(OneBlock(inner), version).Ok? && |BlocksOf(OneBlock(inner), version)| == 1
    ensures BlocksOf(OneBlock(inner), version)[0].inner == inner && BlocksOf(OneBlock(inner), version)[0].path == path
  {
    hide *;
    OneBlockParses(inner);
    OneSegmentEntries(Http(inner, ")"), NamePrefix(version), path);
    BlocksAre(OneBlock(inner), version);
  }

  lemma OneSegmentRewrites(s: Segment, prefix: string, path: string, sum: string)
    requires Selected(s, prefix) && FirstField(s.inner, "downloaded_file_path") == Some(path) && WithSha(s.inner, sum).Some?
    ensures Rewrite([s], prefix, map[path := sum]).Some?
  {
    hide FirstField, Prefixed, WithSha;
    assert [s][1..] == [];
    assert Rewrite([], prefix, map[path := sum]) == Some([]);
    assert map[path := sum][path] == sum;
  }

  lemma OneEntryOk(e: Entry, sum: string, version: string)
    requires IsHex(sum)
    ensures ManifestOk(map[e.path := sum]) && EntrySetErrors([e], map[e.path := sum], version) == []
  {
    EntrySetOk([e], map[e.path := sum], version);
    hide EntrySetErrors, IsHex;
    assert Paths([e]) == {e.path} by { assert e in [e]; }
  }

  lemma OneBlockUpdates(inner: seq<string>, version: string, path: string, sum: string)
    requires forall line <- inner :: !Closes(line)
    requires Selected(Http(inner, ")"), NamePrefix(version)) && FirstField(inner, "downloaded_file_path") == Some(path)
    requires WithSha(inner, sum).Some? && IsHex(sum)
    ensures ManifestOk(map[path := sum]) && Update(OneBlock(inner), map[path := sum], version).Ok?
  {
    hide *;
    OneBlockEntries(inner, version, path);
    OneBlockParses(inner);
    var entries := BlocksOf(OneBlock(inner), version);
    assert entries == [entries[0]];
    OneEntryOk(entries[0], sum, version);
    OneSegmentRewrites(Http(inner, ")"), NamePrefix(version), path, sum);
    UpdateFolds(OneBlock(inner), map[path := sum], version);
  }

  const NAME := "rusty_v8_1_2_3_lib"
  const FILE := "lib.a"

  function NameLine(): string { FieldLine(" ", "name", NAME) }
  function UpperLine(): string { FieldLine(" ", "sha256", "AB") }
  function DownloadLine(): string { FieldLine(" ", "downloaded_file_path", FILE) }

  lemma LineFacts(field: string, value: string)
    requires field != "" && !IsSpace(field[0]) && field[0] != ')' && value != "" && '"' !in value
    ensures
      var line := FieldLine(" ", field, value);
      && ReadField(line, field) == Some(value)
      && !Closes(line) && !Blank(line) && line != "" && line[|line| - 1] == ','
      && forall other :: other != "" && other[0] != field[0] ==> ReadField(line, other) == None
  {
    LineEnds(field, value);
    hide ReadField, FieldLine, Assigned;
    FieldLineReads(" ", field, value);
    var line := FieldLine(" ", field, value);
    var a := field + Assigned(value);
    assert a[0] == field[0];
    forall other | other != "" && other[0] != field[0] ensures ReadField(line, other) == None {
      PrefixHead(other, a);
    }
    assert line[1] in line;
  }

  lemma LineEnds(field: string, value: string)
    requires field != ""
    ensures
      var line := FieldLine(" ", field, value);
      |line| > 1 && line[0] == ' ' && line[1] == field[0] && line[|line| - 1] == ','
  {
    assert Assigned(value)[|Assigned(value)| - 1] == ',';
    hide Assigned;
  }

  lemma Slugs()
    ensures NamePrefix("1.2.3") == "rusty_v8_1_2_3_"
  {
    assert Slug("3") == "3";
    assert "2.3"[1..] == ".3" && ".3"[1..] == "3";
    assert Slug(".3") == "_3" && Slug("2.3") == "2_3";
    assert ".2.3"[1..] == "2.3" && "1.2.3"[1..] == ".2.3";
    assert Slug(".2.3") == "_2_3" && Slug("1.2.3") == "1_2_3";
  }

  lemma PlainValues()
    ensures '"' !in NAME && '"' !in "AB" && '"' !in FILE
    ensures "name"[0] == 'n' && "sha256"[0] == 's' && "downloaded_file_path"[0] == 'd'
  {
    assert forall c <- NAME :: c != '"';
  }

  lemma NameFacts()
    ensures ReadField(NameLine(), "name") == Some(NAME) && ReadField(NameLine(), "sha256") == None && ReadField(NameLine(), "downloaded_file_path") == None
    ensures !Closes(NameLine())
  {
    hide ReadField, FieldLine, Closes, Blank;
    PlainValues();
    LineFacts("name", NAME);
  }

  lemma UpperLineFacts()
    ensures ReadField(UpperLine(), "sha256") == Some("AB") && ReadField(UpperLine(), "name") == None && ReadField(UpperLine(), "downloaded_file_path") == None
    ensures !Closes(UpperLine())
  {
    hide ReadField, FieldLine, Closes, Blank;
    PlainValues();
    LineFacts("sha256", "AB");
  }

  lemma DownloadFacts()
    ensures ReadField(DownloadLine(), "downloaded_file_path") == Some(FILE) && ReadField(DownloadLine(), "name") == None && ReadField(DownloadLine(), "sha256") == None
    ensures !Closes(DownloadLine()) && PathLine(DownloadLine())
  {
    hide ReadField, FieldLine, Closes, Blank;
    PlainValues();
    LineFacts("downloaded_file_path", FILE);
    assert DownloadLine() != "" && DownloadLine()[|DownloadLine()| - 1] == ',';
  }

  lemma EmptyLineFacts()
    ensures ReadField("", "sha256") == None && !Closes("")
  {
    BlankHasNoField("", "sha256");
  }

  lemma UpperNotHex()
    ensures !IsHex("AB")
  {
    var upper := "AB";
    assert upper[0] == 'A' && upper[0] in upper;
  }

  lemma Facts()
    ensures ReadField(NameLine(), "name") == Some(NAME) && ReadField(NameLine(), "sha256") == None && ReadField(NameLine(), "downloaded_file_path") == None
    ensures ReadField(UpperLine(), "sha256") == Some("AB") && ReadField(UpperLine(), "name") == None && ReadField(UpperLine(), "downloaded_file_path") == None
    ensures ReadField(DownloadLine(), "downloaded_file_path") == Some(FILE) && ReadField(DownloadLine(), "name") == None && ReadField(DownloadLine(), "sha256") == None
    ensures !Closes(NameLine()) && !Closes(UpperLine()) && !Closes(DownloadLine()) && !Closes("")
    ensures !HexShaLine(NameLine()) && !HexShaLine(UpperLine()) && !HexShaLine(DownloadLine()) && !HexShaLine("")
    ensures !PathLine(NameLine()) && !PathLine(UpperLine()) && PathLine(DownloadLine())
  {
    hide ReadField, NameLine, UpperLine, DownloadLine, Closes, IsHex;
    NameFacts();
    UpperLineFacts();
    DownloadFacts();
    EmptyLineFacts();
    UpperNotHex();
  }

  lemma NamePrefixed()
    ensures Prefixed(NamePrefix("1.2.3"), NAME)
  {
    Slugs();
  }

  /** A block whose digest is in upper case. */
  function UpperBlock(): seq<string> { [NameLine(), UpperLine(), DownloadLine()] }

  /** A block without a digest, and a blank line after its download line. */
  function GappedBlock(): seq<string> { [NameLine(), DownloadLine(), ""] }

  lemma UpperFacts()
    ensures Selected(Http(UpperBlock(), ")"), NamePrefix("1.2.3")) && FirstField(UpperBlock(), "downloaded_file_path") == Some(FILE)
    ensures FirstHexSha(UpperBlock()) == 3 && FirstPath(UpperBlock()) == 2 && !ShaReadable(UpperBlock())
    ensures |UpperBlock()| == 3 && forall line <- UpperBlock() :: !Closes(line)
  {
    hide NameLine, UpperLine, DownloadLine, ReadField, HexShaLine, PathLine, Prefixed, NamePrefix, TrailingBlank;
    Facts();
    NamePrefixed();
    var inner := UpperBlock();
    assert inner[1..] == [UpperLine(), DownloadLine()] && inner[1..][1..] == [DownloadLine()];
    FirstFieldOne(DownloadLine(), "downloaded_file_path");
    assert FirstHexSha(inner) == 3;
    assert FirstPath(inner) == 2;
    FirstFieldConcat(inner[..3], TrailingBlank(inner[..2]), "sha256");
    assert inner[..3] == inner;
    assert FirstField(inner[1..], "sha256") == Some("AB");
  }

  lemma GappedFacts()
    ensures Selected(Http(GappedBlock(), ")"), NamePrefix("1.2.3")) && FirstField(GappedBlock(), "downloaded_file_path") == Some(FILE)
    ensures FirstHexSha(GappedBlock()) == 3 && FirstPath(GappedBlock()) == 1 && !Settled(GappedBlock())
    ensures |GappedBlock()| == 3 && forall line <- GappedBlock() :: !Closes(line)
  {
    hide NameLine, DownloadLine, ReadField, HexShaLine, PathLine, Prefixed, NamePrefix, TrailingBlank;
    Facts();
    NamePrefixed();
    var inner := GappedBlock();
    assert inner[1..] == [DownloadLine(), ""];
    assert FirstField(inner[1..], "downloaded_file_path") == Some(FILE);
    assert FirstHexSha(inner) == 3;
    assert FirstPath(inner) == 1;
    assert After(inner) == [""];
  }

  /** What a line of a checksum manifest gives as a digest. */
  predicate IsDigest(sum: string) {
    IsHex(sum) && |sum| == 64
  }

  /** Whatever the digest, the update succeeds and its own result fails the check. */
  lemma UpdateFailsItsOwnCheck(sum: string)
    requires IsDigest(sum)
    ensures
      var (lines, sums) := (OneBlock(UpperBlock()), map[FILE := sum]);
      && Update(lines, sums, "1.2.3").Ok? && Check(Update(lines, sums, "1.2.3").value, sums, "1.2.3") != []
  {
    assert IsHex(sum);
    hide *;
    UpperFacts();
    var inner := UpperBlock();
    WithShaNeedsPath(inner, sum);
    OneBlockUpdates(inner, "1.2.3", FILE, sum);
    OneBlockEntries(inner, "1.2.3", FILE);
    UpdateSatisfiesCheck(OneBlock(inner), map[FILE := sum], "1.2.3");
    var blocks := BlocksOf(OneBlock(inner), "1.2.3");
    assert blocks[0] in blocks;
  }

  /** Whatever the digest, two updates with the same manifest give different texts. */
  lemma SecondUpdateChangesAgain(sum: string)
    requires IsDigest(sum)
    ensures
      var (lines, sums) := (OneBlock(GappedBlock()), map[FILE := sum]);
      && Update(lines, sums, "1.2.3").Ok? && Update(Update(lines, sums, "1.2.3").value, sums, "1.2.3") != Update(lines, sums, "1.2.3")
  {
    assert IsHex(sum);
    hide *;
    GappedFacts();
    var inner := GappedBlock();
    WithShaNeedsPath(inner, sum);
    OneBlockUpdates(inner, "1.2.3", FILE, sum);
    OneBlockEntries(inner, "1.2.3", FILE);
    UpdateTwice(OneBlock(inner), map[FILE := sum], "1.2.3");
    NotAllSettled(BlocksOf(OneBlock(inner), "1.2.3"));
  }

  lemma NotAllSettled(entries: seq<Entry>)
    requires |entries| == 1 && !Settled(entries[0].inner)
    ensures !AllSettled(entries)
  {
    hide Settled;
    assert entries[0] in entries;
  }
}
