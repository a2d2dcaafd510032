/** An update of a module text: the blocks it finds again, the check it satisfies, and a second update. */
module ModuleUpdate {
  import opened Ordering
  import opened Text
  import opened ModuleBazel
  import opened ModuleDigests

  /** What reading a manifest leaves: digests of lower-case hexadecimal digits. */
  predicate ManifestOk(sums: Checksums) {
    forall file <- sums :: IsHex(sums[file])
  }

  // ----- the entry errors -----

  lemma NamesEmpty(files: set<string>)
    ensures Sorted(Names(files)) == [] <==> files == {}
  {
    EmptyListing(Names(files));
    if files != {} {
      var f :| f in files;
      assert [f] in Names(files);
    }
  }

  predicate DistinctPaths(entries: seq<Entry>) {
    forall i, j :: 0 <= i < j < |entries| ==> entries[i].path != entries[j].path
  }

  lemma DistinctSnoc(front: seq<Entry>, e: Entry)
    ensures DistinctPaths(front + [e]) <==> DistinctPaths(front) && e.path !in Paths(front)
  {
    var entries := front + [e];
    assert forall i :: 0 <= i < |front| ==> entries[i] == front[i];
    assert entries[|front|] == e;
    if e.path in Paths(front) {
      var x :| x in front && x.path == e.path;
      var k :| 0 <= k < |front| && front[k] == x;
      assert entries[k].path == entries[|front|].path;
    } else {
      forall i | 0 <= i < |front| ensures front[i].path != e.path { assert front[i] in front; }
    }
  }

  lemma {:induction false} NothingRepeated(entries: seq<Entry>)
    ensures Repeated(entries) == {} <==> DistinctPaths(entries)
  {
    if entries != [] {
      var (front, e) := (entries[..|entries| - 1], entries[|entries| - 1]);
      NothingRepeated(front);
      DistinctSnoc(front, e);
      hide DistinctPaths;
      assert entries == front + [e];
    }
  }

  /** No entry errors: some entries, each for its own file, and exactly the files of the manifest. */
  lemma EntrySetOk(entries: seq<Entry>, sums: Checksums, version: string)
    ensures EntrySetErrors(entries, sums, version) == [] <==> entries != [] && DistinctPaths(entries) && Paths(entries) == sums.Keys
  {
    NothingRepeated(entries);
    hide Repeated, Sorted, Names, DistinctPaths, LastNamed, FileOf, Duplicates, NoChecksums, NoHttpFiles;
    NamesEmpty(Repeated(entries));
    NamesEmpty(Paths(entries) - sums.Keys);
    NamesEmpty(sums.Keys - Paths(entries));
    hide Paths;
    if Paths(entries) - sums.Keys == {} && sums.Keys - Paths(entries) == {} {
      assert forall f :: f in Paths(entries) <==> f in sums.Keys by {
        forall f ensures f in Paths(entries) <==> f in sums.Keys {
          assert f !in Paths(entries) - sums.Keys && f !in sums.Keys - Paths(entries);
        }
      }
    }
  }

  lemma {:induction false} ChecksumsOk(entries: seq<Entry>, sums: Checksums)
    ensures ChecksumErrors(entries, sums) == [] <==> forall e <- entries :: e.path in sums ==> e.sha256 == Some(sums[e.path])
  {
    if entries != [] {
      ChecksumsOk(entries[..|entries| - 1], sums);
      assert entries == entries[..|entries| - 1] + [entries[|entries| - 1]];
    }
  }

  /** The same blocks by name and file. */
  predicate SameFiles(a: seq<Entry>, b: seq<Entry>) {
    |a| == |b| && forall i :: 0 <= i < |a| ==> a[i].name == b[i].name && a[i].path == b[i].path
  }

  lemma SamePaths(a: seq<Entry>, b: seq<Entry>)
    requires SameFiles(a, b)
    ensures Paths(a) == Paths(b)
  {
    forall f ensures f in Paths(a) <==> f in Paths(b) {
      if f in Paths(a) {
        var i :| 0 <= i < |a| && a[i].path == f;
        assert b[i] in b;
      }
      if f in Paths(b) {
        var i :| 0 <= i < |b| && b[i].path == f;
        assert a[i] in a;
      }
    }
  }

  lemma SameFilesErrors(a: seq<Entry>, b: seq<Entry>, sums: Checksums, version: string)
    requires SameFiles(a, b) && EntrySetErrors(a, sums, version) == []
    ensures EntrySetErrors(b, sums, version) == []
  {
    EntrySetOk(a, sums, version);
    EntrySetOk(b, sums, version);
    SamePaths(a, b);
    hide EntrySetErrors, Paths;
  }

  // ----- one segment -----

  predicate SegmentOk(s: Segment) {
    s.Http? ==> Closes(s.close) && forall line <- s.inner :: !Closes(line)
  }

  lemma DropBlankFrom(lines: seq<string>)
    ensures forall line <- DropBlank(lines) :: line in lines
  {
    hide Blank, DropBlank;
    DropBlankFacts(lines);
    var kept := DropBlank(lines);
    forall line | line in kept ensures line in lines {
      assert line in lines[|lines| - |kept|..];
    }
  }

  lemma PartsFrom(inner: seq<string>)
    ensures forall line <- Before(inner) :: line in inner
    ensures forall line <- After(inner) :: line in inner
  {
    hide DropBlank, TrailingBlank, First;
    if Replaces(inner) {
      DropBlankFrom(inner[FirstHexSha(inner) + 1..]);
    } else if FirstPath(inner) < |inner| {
      TrailingBlankFacts(inner[..FirstPath(inner)]);
    }
  }

  lemma WithShaNoClose(inner: seq<string>, checksum: string)
    requires WithSha(inner, checksum).Some? && IsHex(checksum) && forall line <- inner :: !Closes(line)
    ensures forall line <- WithSha(inner, checksum).value :: !Closes(line)
  {
    hide *;
    WithShaParts(inner, checksum);
    PartsFrom(inner);
    ShaLineFields(IndentOf(inner), checksum);
  }

  /** The digest the manifest has for a selected block. */
  function SumFor(s: Segment, sums: Checksums): string {
    var path := if s.Http? then FirstField(s.inner, "downloaded_file_path") else None;
    if path.Some? && path.value in sums then sums[path.value] else ""
  }

  lemma RewriteOneIs(s: Segment, prefix: string, sums: Checksums)
    requires RewriteOne(s, prefix, sums).Some? && ManifestOk(sums)
    ensures !Selected(s, prefix) ==> RewriteOne(s, prefix, sums).value == s
    ensures Selected(s, prefix) ==>
      && s.Http? && IsHex(SumFor(s, sums)) && WithSha(s.inner, SumFor(s, sums)).Some?
      && RewriteOne(s, prefix, sums).value == Http(WithSha(s.inner, SumFor(s, sums)).value, s.close)
      && FirstField(s.inner, "downloaded_file_path").Some? && FirstField(s.inner, "downloaded_file_path").value in sums
      && SumFor(s, sums) == sums[FirstField(s.inner, "downloaded_file_path").value]
  {
    hide WithSha, FirstField, IsHex, Prefixed;
  }

  /** Two blocks with the same name and the same file. */
  predicate SameBlock(s: Segment, s': Segment)
    requires s.Http?
  {
    && s'.Http? && FirstField(s'.inner, "name") == FirstField(s.inner, "name")
    && FirstField(s'.inner, "downloaded_file_path") == FirstField(s.inner, "downloaded_file_path")
  }

  lemma RewriteOneKeeps(s: Segment, prefix: string, sums: Checksums)
    requires RewriteOne(s, prefix, sums).Some? && ManifestOk(sums)
    ensures
      var s' := RewriteOne(s, prefix, sums).value;
      && Selected(s', prefix) == Selected(s, prefix)
      && (Selected(s, prefix) ==> s.Http? && SameBlock(s, s'))
      && (SegmentOk(s) ==> SegmentOk(s'))
      && (s.Plain? || s'.Plain? ==> s' == s)
  {
    RewriteOneIs(s, prefix, sums);
    hide RewriteOne, WithSha, FirstField, IsHex, Prefixed, SumFor, Closes;
    if Selected(s, prefix) {
      WithShaKeepsFields(s.inner, SumFor(s, sums), "name");
      WithShaKeepsFields(s.inner, SumFor(s, sums), "downloaded_file_path");
      if SegmentOk(s) { WithShaNoClose(s.inner, SumFor(s, sums)); }
    }
  }

  // ----- all segments -----

  lemma RewriteUnfolds(segments: seq<Segment>, prefix: string, sums: Checksums)
    requires segments != [] && Rewrite(segments, prefix, sums).Some?
    ensures RewriteOne(segments[0], prefix, sums).Some? && Rewrite(segments[1..], prefix, sums).Some?
    ensures Rewrite(segments, prefix, sums).value == [RewriteOne(segments[0], prefix, sums).value] + Rewrite(segments[1..], prefix, sums).value
  {
    hide RewriteOne;
  }

  lemma EmptyRewrite(prefix: string, sums: Checksums, at: nat)
    ensures Rewrite([], prefix, sums) == Some([]) && Entries([], prefix, at) == Ok([])
  {
  }

  /** The first of the rewritten segments, and the others. */
  lemma RewriteSplits(segments: seq<Segment>, prefix: string, sums: Checksums) returns (s': Segment, rest': seq<Segment>)
    requires segments != [] && Rewrite(segments, prefix, sums).Some?
    ensures RewriteOne(segments[0], prefix, sums) == Some(s') && Rewrite(segments[1..], prefix, sums) == Some(rest')
    ensures
      var segments' := Rewrite(segments, prefix, sums).value;
      segments' != [] && segments'[0] == s' && segments'[1..] == rest'
  {
    RewriteUnfolds(segments, prefix, sums);
    hide Rewrite, RewriteOne;
    s', rest' := RewriteOne(segments[0], prefix, sums).value, Rewrite(segments[1..], prefix, sums).value;
  }

  lemma CanonicalCons(s: Segment, rest: seq<Segment>)
    ensures Canonical([s] + rest) <==> Canonical(rest) && SegmentOk(s) && (s == Plain(OPENING) ==> NoClose(rest))
  {
    assert ([s] + rest)[1..] == rest;
    hide NoClose, Closes;
  }

  lemma NoCloseCons(s: Segment, rest: seq<Segment>)
    ensures NoClose([s] + rest) <==> s.Plain? && !Closes(s.line) && NoClose(rest)
  {
    hide Closes;
    assert s in [s] + rest;
  }

  lemma {:induction false} RewriteCanonical(segments: seq<Segment>, prefix: string, sums: Checksums)
    requires Rewrite(segments, prefix, sums).Some? && ManifestOk(sums)
    ensures |Rewrite(segments, prefix, sums).value| == |segments|
    ensures Canonical(segments) ==> Canonical(Rewrite(segments, prefix, sums).value)
    ensures NoClose(segments) ==> Rewrite(segments, prefix, sums).value == segments
  {
    if segments != [] {
      hide *;
      RewriteUnfolds(segments, prefix, sums);
      var (s, rest) := (segments[0], segments[1..]);
      assert segments == [s] + rest;
      RewriteOneKeeps(s, prefix, sums);
      RewriteCanonical(rest, prefix, sums);
      CanonicalCons(s, rest);
      NoCloseCons(s, rest);
      CanonicalCons(RewriteOne(s, prefix, sums).value, Rewrite(rest, prefix, sums).value);
    }
  }

  predicate Complete(s: Segment) {
    s.Http? && FirstField(s.inner, "name").Some? && FirstField(s.inner, "downloaded_file_path").Some?
  }

  function OwnEntry(s: Segment, prefix: string, at: nat): seq<Entry> {
    if Selected(s, prefix) && Complete(s) then [EntryOf(s, at)] else []
  }

  lemma EntriesUnfold(segments: seq<Segment>, prefix: string, at: nat)
    requires segments != [] && Entries(segments, prefix, at).Ok?
    ensures Entries(segments[1..], prefix, at + |LinesOf(segments[0])|).Ok?
    ensures Entries(segments, prefix, at).value ==
      OwnEntry(segments[0], prefix, at) + Entries(segments[1..], prefix, at + |LinesOf(segments[0])|).value
    ensures Selected(segments[0], prefix) ==> Complete(segments[0])
  {
    hide FirstField, LinesOf, Prefixed, EntryOf;
  }

  lemma EntriesFold(segments: seq<Segment>, prefix: string, at: nat)
    requires segments != [] && Entries(segments[1..], prefix, at + |LinesOf(segments[0])|).Ok?
    requires Selected(segments[0], prefix) ==> Complete(segments[0])
    ensures Entries(segments, prefix, at).Ok?
  {
    hide FirstField, LinesOf, Prefixed, EntryOf;
  }

  /** The entries of the rewritten text: the same blocks, each with its block rewritten. */
  ghost predicate Rewritten(before: seq<Entry>, after: seq<Entry>, sums: Checksums) {
    && SameFiles(before, after)
    && forall i :: 0 <= i < |before| ==> EntryRewritten(before[i], after[i], sums)
  }

  ghost predicate EntryRewritten(e: Entry, e': Entry, sums: Checksums) {
    && e.path in sums && WithSha(e.inner, sums[e.path]).Some?
    && e'.inner == WithSha(e.inner, sums[e.path]).value && e'.sha256 == FirstField(e'.inner, "sha256")
  }

  lemma OwnEntryRewritten(s: Segment, s': Segment, prefix: string, sums: Checksums, at: nat, at': nat)
    requires RewriteOne(s, prefix, sums) == Some(s') && ManifestOk(sums) && (Selected(s, prefix) ==> Complete(s))
    ensures Selected(s', prefix) ==> Complete(s')
    ensures Rewritten(OwnEntry(s, prefix, at), OwnEntry(s', prefix, at'), sums)
  {
    hide *;
    RewriteOneIs(s, prefix, sums);
    RewriteOneKeeps(s, prefix, sums);
    if Selected(s, prefix) {
      OwnEntrySelected(s, s', prefix, sums, at, at');
    } else {
      OwnEntryNone(s, prefix, at);
      OwnEntryNone(s', prefix, at');
      NothingRewritten(sums);
    }
  }

  lemma OwnEntryNone(s: Segment, prefix: string, at: nat)
    requires !Selected(s, prefix)
    ensures OwnEntry(s, prefix, at) == []
  {
  }

  lemma NothingRewritten(sums: Checksums)
    ensures Rewritten([], [], sums)
  {
  }

  lemma OwnEntrySelected(s: Segment, s': Segment, prefix: string, sums: Checksums, at: nat, at': nat)
    requires Selected(s, prefix) && Complete(s) && Selected(s', prefix) && s.Http? && SameBlock(s, s')
    requires WithSha(s.inner, SumFor(s, sums)).Some? && s' == Http(WithSha(s.inner, SumFor(s, sums)).value, s.close)
    requires FirstField(s.inner, "downloaded_file_path").Some? && FirstField(s.inner, "downloaded_file_path").value in sums
    requires SumFor(s, sums) == sums[FirstField(s.inner, "downloaded_file_path").value]
    ensures Complete(s') && Rewritten(OwnEntry(s, prefix, at), OwnEntry(s', prefix, at'), sums)
  {
    hide FirstField, WithSha, LinesOf, SumFor, Selected;
    assert Complete(s');
    assert EntryRewritten(EntryOf(s, at), EntryOf(s', at'), sums);
    hide EntryRewritten;
  }

  lemma {:induction false} EntriesRewritten(segments: seq<Segment>, prefix: string, sums: Checksums, at: nat, at': nat)
    requires Rewrite(segments, prefix, sums).Some? && ManifestOk(sums) && Entries(segments, prefix, at).Ok?
    ensures Entries(Rewrite(segments, prefix, sums).value, prefix, at').Ok?
    ensures Rewritten(Entries(segments, prefix, at).value, Entries(Rewrite(segments, prefix, sums).value, prefix, at').value, sums)
    decreases |segments|
  {
    hide *;
    EmptyRewrite(prefix, sums, at);
    EmptyRewrite(prefix, sums, at');
    NothingRewritten(sums);
    if segments != [] {
      var s', rest' := RewriteSplits(segments, prefix, sums);
      var (s, segments') := (segments[0], Rewrite(segments, prefix, sums).value);
      EntriesUnfold(segments, prefix, at);
      OwnEntryRewritten(s, s', prefix, sums, at, at');
      var (n, n') := (at + |LinesOf(s)|, at' + |LinesOf(s')|);
      EntriesRewritten(segments[1..], prefix, sums, n, n');
      EntriesFold(segments', prefix, at');
      EntriesUnfold(segments', prefix, at');
      RewrittenConcat(OwnEntry(s, prefix, at), OwnEntry(s', prefix, at'),
                      Entries(segments[1..], prefix, n).value, Entries(rest', prefix, n').value, sums);
    }
  }

  lemma RewrittenConcat(a: seq<Entry>, a': seq<Entry>, b: seq<Entry>, b': seq<Entry>, sums: Checksums)
    requires Rewritten(a, a', sums) && Rewritten(b, b', sums)
    ensures Rewritten(a + b, a' + b', sums)
  {
    hide EntryRewritten;
  }

  // ----- the update -----

  /** The selected blocks of the text. */
  function BlocksOf(lines: seq<string>, version: string): seq<Entry> {
    if HttpFiles(lines, version).Ok? then HttpFiles(lines, version).value else []
  }

  lemma UpdateUnfolds(lines: seq<string>, sums: Checksums, version: string)
    requires Update(lines, sums, version).Ok?
    ensures HttpFiles(lines, version).Ok? && Entries(Parse(lines), NamePrefix(version), 0).Ok?
    ensures BlocksOf(lines, version) == Entries(Parse(lines), NamePrefix(version), 0).value
    ensures EntrySetErrors(BlocksOf(lines, version), sums, version) == []
    ensures Rewrite(Parse(lines), NamePrefix(version), sums).Some?
    ensures Update(lines, sums, version).value == Render(Rewrite(Parse(lines), NamePrefix(version), sums).value)
  {
    hide Parse, Rewrite, Render, Entries, EntrySetErrors, NamePrefix;
  }

  /** The updated text parses into the rewritten segments; every line outside the selected blocks is as before. */
  lemma UpdateOutside(lines: seq<string>, sums: Checksums, version: string)
    requires Update(lines, sums, version).Ok? && ManifestOk(sums)
    ensures
      var (before, after) := (Parse(lines), Parse(Update(lines, sums, version).value));
      && |after| == |before|
      && (forall i :: 0 <= i < |before| && !Selected(before[i], NamePrefix(version)) ==> after[i] == before[i])
      && (forall i :: 0 <= i < |before| && Selected(before[i], NamePrefix(version)) ==>
            (after[i].Http? && after[i].close == before[i].close
             && Some(after[i].inner) == WithSha(before[i].inner, SumFor(before[i], sums))))
  {
    hide *;
    UpdateUnfolds(lines, sums, version);
    ParseCanonical(lines);
    RewriteCanonical(Parse(lines), NamePrefix(version), sums);
    ParseRender(Rewrite(Parse(lines), NamePrefix(version), sums).value);
    RewriteEach(Parse(lines), NamePrefix(version), sums);
    var (before, prefix) := (Parse(lines), NamePrefix(version));
    forall i | 0 <= i < |before|
      ensures !Selected(before[i], prefix) ==> Rewrite(before, prefix, sums).value[i] == before[i]
      ensures Selected(before[i], prefix) ==>
        (before[i].Http? && Rewrite(before, prefix, sums).value[i].Http? && Rewrite(before, prefix, sums).value[i].close == before[i].close
         && Some(Rewrite(before, prefix, sums).value[i].inner) == WithSha(before[i].inner, SumFor(before[i], sums)))
    {
      RewriteOneIs(before[i], prefix, sums);
    }
  }

  lemma {:induction false} RewriteEach(segments: seq<Segment>, prefix: string, sums: Checksums)
    requires Rewrite(segments, prefix, sums).Some?
    ensures |Rewrite(segments, prefix, sums).value| == |segments|
    ensures forall i :: 0 <= i < |segments| ==> RewriteOne(segments[i], prefix, sums) == Some(Rewrite(segments, prefix, sums).value[i])
  {
    if segments != [] {
      hide *;
      RewriteUnfolds(segments, prefix, sums);
      RewriteEach(segments[1..], prefix, sums);
      assert forall i :: 0 < i < |segments| ==> segments[i] == segments[1..][i - 1];
    }
  }

  /** The updated text has the same blocks by name and file, in the same order, each rewritten. */
  lemma UpdateFindsBlocksAgain(lines: seq<string>, sums: Checksums, version: string)
    requires Update(lines, sums, version).Ok? && ManifestOk(sums)
    ensures HttpFiles(Update(lines, sums, version).value, version).Ok?
    ensures Rewritten(BlocksOf(lines, version), BlocksOf(Update(lines, sums, version).value, version), sums)
  {
    hide *;
    UpdateUnfolds(lines, sums, version);
    var prefix := NamePrefix(version);
    ParseCanonical(lines);
    RewriteCanonical(Parse(lines), prefix, sums);
    ParseRender(Rewrite(Parse(lines), prefix, sums).value);
    EntriesRewritten(Parse(lines), prefix, sums, 0, 0);
    BlocksAre(Update(lines, sums, version).value, version);
  }

  lemma BlocksAre(lines: seq<string>, version: string)
    ensures HttpFiles(lines, version) == Entries(Parse(lines), NamePrefix(version), 0)
    ensures HttpFiles(lines, version).Ok? ==> BlocksOf(lines, version) == HttpFiles(lines, version).value
  {
    hide Entries, Parse;
  }

  lemma CheckMeans(lines: seq<string>, sums: Checksums, version: string)
    requires HttpFiles(lines, version).Ok?
    ensures Check(lines, sums, version) == [] <==>
      EntrySetErrors(BlocksOf(lines, version), sums, version) == [] && ChecksumErrors(BlocksOf(lines, version), sums) == []
  {
    hide HttpFiles, EntrySetErrors, ChecksumErrors;
  }

  /**
   * A text that could be updated satisfies the check afterwards exactly when no selected block has
   * another sha256 line before the one that was written.
   */
  lemma UpdateSatisfiesCheck(lines: seq<string>, sums: Checksums, version: string)
    requires Update(lines, sums, version).Ok? && ManifestOk(sums)
    ensures Check(Update(lines, sums, version).value, sums, version) == [] <==>
      forall e <- BlocksOf(lines, version) :: ShaReadable(e.inner)
  {
    hide *;
    UpdateFindsBlocksAgain(lines, sums, version);
    UpdateUnfolds(lines, sums, version);
    var lines' := Update(lines, sums, version).value;
    var (before, after) := (BlocksOf(lines, version), BlocksOf(lines', version));
    CheckMeans(lines', sums, version);
    RewrittenMeans(before, after, sums);
    SameFilesErrors(before, after, sums, version);
    ChecksumsOk(after, sums);
    forall i | 0 <= i < |before|
      ensures after[i].path in sums && (after[i].sha256 == Some(sums[after[i].path]) <==> ShaReadable(before[i].inner))
    {
      RewrittenSha(before[i], after[i], sums);
    }
    if forall e <- after :: e.path in sums ==> e.sha256 == Some(sums[e.path]) {
      forall e | e in before ensures ShaReadable(e.inner) {
        var i :| 0 <= i < |before| && before[i] == e;
        assert after[i] in after;
      }
    }
    if forall e <- before :: ShaReadable(e.inner) {
      forall e | e in after && e.path in sums ensures e.sha256 == Some(sums[e.path]) {
        var i :| 0 <= i < |after| && after[i] == e;
        assert before[i] in before;
      }
    }
  }

  lemma RewrittenMeans(before: seq<Entry>, after: seq<Entry>, sums: Checksums)
    requires Rewritten(before, after, sums)
    ensures SameFiles(before, after) && |before| == |after|
    ensures forall i :: 0 <= i < |before| ==> EntryRewritten(before[i], after[i], sums) && before[i].path == after[i].path
  {
    hide EntryRewritten;
  }

  lemma RewrittenSha(e: Entry, e': Entry, sums: Checksums)
    requires EntryRewritten(e, e', sums) && e.path == e'.path && ManifestOk(sums)
    ensures e'.path in sums && (e'.sha256 == Some(sums[e'.path]) <==> ShaReadable(e.inner))
  {
    hide WithSha, FirstField, IsHex, ShaReadable;
    WithShaReads(e.inner, sums[e.path]);
  }

  // ----- a second update -----

  lemma {:induction false} RewriteAgain(segments: seq<Segment>, prefix: string, sums: Checksums, at: nat)
    requires Rewrite(segments, prefix, sums).Some? && ManifestOk(sums) && Entries(segments, prefix, at).Ok?
    ensures Rewrite(Rewrite(segments, prefix, sums).value, prefix, sums).Some?
    ensures Rewrite(Rewrite(segments, prefix, sums).value, prefix, sums) == Rewrite(segments, prefix, sums) <==>
      AllSettled(Entries(segments, prefix, at).value)
    decreases |segments|
  {
    hide *;
    EmptyRewrite(prefix, sums, at);
    NothingSettled();
    if segments != [] {
      var s', rest' := RewriteSplits(segments, prefix, sums);
      var (s, segments') := (segments[0], Rewrite(segments, prefix, sums).value);
      EntriesUnfold(segments, prefix, at);
      var rest := Entries(segments[1..], prefix, at + |LinesOf(s)|).value;
      RewriteAgain(segments[1..], prefix, sums, at + |LinesOf(s)|);
      RewriteOneAgain(s, s', prefix, sums);
      RewriteFold(segments', prefix, sums);
      var s'', rest'' := RewriteSplits(segments', prefix, sums);
      SameParts(segments', Rewrite(segments', prefix, sums).value);
      OwnEntrySettled(s, prefix, at, rest);
    }
  }

  predicate AllSettled(entries: seq<Entry>) {
    forall e <- entries :: Settled(e.inner)
  }

  lemma NothingSettled()
    ensures AllSettled([])
  {
  }

  lemma OwnEntrySettled(s: Segment, prefix: string, at: nat, rest: seq<Entry>)
    requires Selected(s, prefix) ==> Complete(s)
    ensures AllSettled(OwnEntry(s, prefix, at) + rest) <==> (!Selected(s, prefix) || (s.Http? && Settled(s.inner))) && AllSettled(rest)
  {
    hide Settled, FirstField, LinesOf, Prefixed;
    if Selected(s, prefix) {
      assert EntryOf(s, at) in [EntryOf(s, at)] + rest;
    } else {
      assert [] + rest == rest;
    }
  }

  lemma SameParts(xs: seq<Segment>, ys: seq<Segment>)
    requires xs != [] && ys != []
    ensures xs == ys <==> xs[0] == ys[0] && xs[1..] == ys[1..]
  {
    if xs[0] == ys[0] && xs[1..] == ys[1..] {
      assert xs == [xs[0]] + xs[1..] && ys == [ys[0]] + ys[1..];
    }
  }

  lemma RewriteFold(segments: seq<Segment>, prefix: string, sums: Checksums)
    requires segments != [] && RewriteOne(segments[0], prefix, sums).Some? && Rewrite(segments[1..], prefix, sums).Some?
    ensures Rewrite(segments, prefix, sums).Some?
  {
    hide RewriteOne;
  }

  lemma RewriteOneAgain(s: Segment, s': Segment, prefix: string, sums: Checksums)
    requires RewriteOne(s, prefix, sums) == Some(s') && ManifestOk(sums)
    ensures RewriteOne(s', prefix, sums).Some?
    ensures RewriteOne(s', prefix, sums).value == s' <==> !Selected(s, prefix) || (s.Http? && Settled(s.inner))
  {
    RewriteOneIs(s, prefix, sums);
    RewriteOneKeeps(s, prefix, sums);
    hide WithSha, FirstField, IsHex, Prefixed, Settled;
    if Selected(s, prefix) {
      WithShaAgain(s.inner, SumFor(s, sums));
    }
  }

  lemma UpdateFolds(lines: seq<string>, sums: Checksums, version: string)
    requires HttpFiles(lines, version).Ok? && EntrySetErrors(BlocksOf(lines, version), sums, version) == []
    requires Rewrite(Parse(lines), NamePrefix(version), sums).Some?
    ensures Update(lines, sums, version) == Ok(Render(Rewrite(Parse(lines), NamePrefix(version), sums).value))
  {
    hide Parse, Rewrite, Render, EntrySetErrors, HttpFiles, NamePrefix;
  }

  /**
   * Updating the updated text succeeds, and gives it back unchanged exactly when no block to which a
   * digest line was added has a blank line after the line it was added to.
   */
  lemma UpdateTwice(lines: seq<string>, sums: Checksums, version: string)
    requires Update(lines, sums, version).Ok? && ManifestOk(sums)
    ensures Update(Update(lines, sums, version).value, sums, version).Ok?
    ensures Update(Update(lines, sums, version).value, sums, version) == Update(lines, sums, version) <==>
      AllSettled(BlocksOf(lines, version))
  {
    hide *;
    UpdateUnfolds(lines, sums, version);
    UpdateFindsBlocksAgain(lines, sums, version);
    var (prefix, lines') := (NamePrefix(version), Update(lines, sums, version).value);
    var segments' := Rewrite(Parse(lines), prefix, sums).value;
    ParseCanonical(lines);
    RewriteCanonical(Parse(lines), prefix, sums);
    ParseRender(segments');
    RewriteAgain(Parse(lines), prefix, sums, 0);
    RewrittenMeans(BlocksOf(lines, version), BlocksOf(lines', version), sums);
    SameFilesErrors(BlocksOf(lines, version), BlocksOf(lines', version), sums, version);
    UpdateFolds(lines', sums, version);
    RewriteCanonical(segments', prefix, sums);
    ParseRender(Rewrite(segments', prefix, sums).value);
    BlocksAre(lines, version);
  }
}
