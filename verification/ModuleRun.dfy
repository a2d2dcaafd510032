/** The checksum commands as the loops they are. */
module ModuleRun {
  import opened Ordering
  import opened Text
  import opened ModuleBazel
  import opened ModuleUpdate

  // ----- finding the entries -----

  function Prepend(found: seq<Entry>, rest: Result<seq<Entry>>): Result<seq<Entry>> {
    if rest.Err? then rest else Ok(found + rest.value)
  }

  lemma EntriesNext(segments: seq<Segment>, prefix: string, at: nat, i: nat, found: seq<Entry>)
    requires i < |segments|
    ensures
      var s := segments[i];
      Prepend(found, Entries(segments[i..], prefix, at)) ==
        if Selected(s, prefix) && FirstField(s.inner, "downloaded_file_path").None? then
          Err([MissingPath(FirstField(s.inner, "name").value)])
        else Prepend(found + OwnEntry(s, prefix, at), Entries(segments[i + 1..], prefix, at + |LinesOf(s)|))
  {
    hide FirstField, LinesOf, Prefixed, EntryOf;
    assert segments[i..][0] == segments[i] && segments[i..][1..] == segments[i + 1..];
    var rest := Entries(segments[i + 1..], prefix, at + |LinesOf(segments[i])|);
    if rest.Ok? {
      assert found + (OwnEntry(segments[i], prefix, at) + rest.value) == (found + OwnEntry(segments[i], prefix, at)) + rest.value;
      assert found + [] == found;
    }
  }

  method RustyV8HttpFiles(lines: seq<string>, version: string) returns (r: Result<seq<Entry>>)
    ensures r == HttpFiles(lines, version)
  {
    hide Parse, Entries, FirstField, LinesOf, Prefixed, EntryOf;
    var segments, prefix := Parse(lines), NamePrefix(version);
    var entries: seq<Entry> := [];
    var at: nat := 0;
    NoEntriesYet(segments, prefix);
    for i := 0 to |segments|
      invariant HttpFiles(lines, version) == Prepend(entries, Entries(segments[i..], prefix, at))
    {
      EntriesNext(segments, prefix, at, i, entries);
      var s := segments[i];
      if Selected(s, prefix) {
        if FirstField(s.inner, "downloaded_file_path").None? {
          return Err([MissingPath(FirstField(s.inner, "name").value)]);
        }
        entries := entries + [EntryOf(s, at)];
      } else {
        assert entries + [] == entries;
      }
      at := at + |LinesOf(s)|;
    }
    LastEntries(prefix, at);
    assert segments[|segments|..] == [] && entries + [] == entries;
    r := Ok(entries);
  }

  lemma NoEntriesYet(segments: seq<Segment>, prefix: string)
    ensures Entries(segments, prefix, 0) == Prepend([], Entries(segments[0..], prefix, 0))
  {
    assert segments[0..] == segments;
    hide Entries;
    var all := Entries(segments, prefix, 0);
    if all.Ok? { assert [] + all.value == all.value; }
  }

  lemma LastEntries(prefix: string, at: nat)
    ensures Entries([], prefix, at) == Ok([])
  {
  }

  // ----- the errors -----

  method ModuleEntrySetErrors(entries: seq<Entry>, sums: Checksums, version: string) returns (errors: seq<Problem>)
    ensures errors == EntrySetErrors(entries, sums, version)
  {
    hide Sorted, Names;
    if entries == [] { return [NoEntries(version)]; }
    var moduleFiles: map<string, string> := map[];
    var duplicates: set<string> := {};
    for i := 0 to |entries|
      invariant moduleFiles.Keys == Paths(entries[..i]) && duplicates == Repeated(entries[..i])
      invariant forall f <- moduleFiles :: moduleFiles[f] == LastNamed(entries[..i], f)
    {
      OneMoreEntry(entries, i);
      if entries[i].path in moduleFiles {
        duplicates := duplicates + {entries[i].path};
      }
      moduleFiles := moduleFiles[entries[i].path := entries[i].name];
    }
    assert entries[..|entries|] == entries;
    errors := Duplicates(Sorted(Names(duplicates)));
    var unknown := Sorted(Names(moduleFiles.Keys - sums.Keys));
    SortedFiles(moduleFiles.Keys - sums.Keys);
    hide LastNamed, Paths, Repeated;
    var noChecksums := seq(|unknown|, i requires 0 <= i < |unknown| && FileOf(unknown[i]) in moduleFiles => NoChecksum(moduleFiles[FileOf(unknown[i])]));
    assert noChecksums == NoChecksums(entries, unknown);
    errors := errors + noChecksums + NoHttpFiles(Sorted(Names(sums.Keys - moduleFiles.Keys)));
  }

  lemma SortedFiles(files: set<string>)
    ensures forall x <- Sorted(Names(files)) :: FileOf(x) in files
  {
    hide Sorted;
  }

  lemma OneMoreEntry(entries: seq<Entry>, i: nat)
    requires i < |entries|
    ensures Paths(entries[..i + 1]) == Paths(entries[..i]) + {entries[i].path}
    ensures Repeated(entries[..i + 1]) == Repeated(entries[..i]) + if entries[i].path in Paths(entries[..i]) then {entries[i].path} else {}
    ensures forall f :: LastNamed(entries[..i + 1], f) == if entries[i].path == f then entries[i].name else LastNamed(entries[..i], f)
  {
    var next := entries[..i + 1];
    assert next == entries[..i] + [entries[i]];
    assert next[..i] == entries[..i] && next[i] == entries[i];
    assert forall f :: LastNamed(next, f) == if next[i].path == f then next[i].name else LastNamed(next[..i], f);
  }

  method ModuleChecksumErrors(entries: seq<Entry>, sums: Checksums) returns (errors: seq<Problem>)
    ensures errors == ChecksumErrors(entries, sums)
  {
    errors := [];
    for i := 0 to |entries|
      invariant errors == ChecksumErrors(entries[..i], sums)
    {
      assert entries[..i + 1][..i] == entries[..i];
      var e := entries[i];
      if e.path !in sums { continue; }
      if e.sha256.None? {
        errors := errors + [MissingSha(e.name)];
      } else if e.sha256.value != sums[e.path] {
        errors := errors + [WrongSha(e.name, e.sha256.value, sums[e.path])];
      }
    }
    assert entries[..|entries|] == entries;
  }

  method CheckModuleBazelText(lines: seq<string>, sums: Checksums, version: string) returns (problems: seq<Problem>)
    ensures problems == Check(lines, sums, version)
  {
    hide HttpFiles, EntrySetErrors, ChecksumErrors;
    var entries := RustyV8HttpFiles(lines, version);
    if entries.Err? { return entries.problems; }
    var set_ := ModuleEntrySetErrors(entries.value, sums, version);
    var sums_ := ModuleChecksumErrors(entries.value, sums);
    problems := set_ + sums_;
  }

  // ----- splicing the rewritten blocks between the text around them -----

  /** The rewritten block of an entry. */
  function NewBlock(e: Entry, sums: Checksums): Option<seq<string>> {
    if e.path !in sums then None
    else
      var inner := WithSha(e.inner, sums[e.path]);
      if inner.None? then None else Some([OPENING] + inner.value + [e.close])
  }

  /** Text and blocks by turns, from the line after the previous block. */
  function Splice(lines: seq<string>, entries: seq<Entry>, sums: Checksums, previousEnd: nat): Option<seq<string>>
    requires previousEnd <= |lines|
    decreases |entries|
  {
    if entries == [] then Some(lines[previousEnd..])
    else
      var e := entries[0];
      if !(previousEnd <= e.start <= e.end <= |lines|) then None
      else
        var block := NewBlock(e, sums);
        var rest := Splice(lines, entries[1..], sums, e.end);
        if block.None? || rest.None? then None else Some(lines[previousEnd..e.start] + block.value + rest.value)
  }

  lemma SpliceFirst(lines: seq<string>, e: Entry, rest: seq<Entry>, sums: Checksums, previousEnd: nat)
    requires previousEnd <= e.start <= e.end <= |lines|
    ensures Splice(lines, [e] + rest, sums, previousEnd) ==
      if NewBlock(e, sums).None? || Splice(lines, rest, sums, e.end).None? then None
      else Some(lines[previousEnd..e.start] + NewBlock(e, sums).value + Splice(lines, rest, sums, e.end).value)
  {
    assert ([e] + rest)[1..] == rest;
    hide NewBlock;
  }

  /** The entry of a selected segment: where it is, and what replaces it. */
  lemma SelectedEntry(s: Segment, prefix: string, sums: Checksums, at: nat) returns (e: Entry)
    requires Selected(s, prefix) && Complete(s)
    ensures OwnEntry(s, prefix, at) == [e] && e.start == at && e.end == at + |LinesOf(s)|
    ensures NewBlock(e, sums).None? <==> RewriteOne(s, prefix, sums).None?
    ensures RewriteOne(s, prefix, sums).Some? ==> NewBlock(e, sums) == Some(LinesOf(RewriteOne(s, prefix, sums).value))
  {
    hide FirstField, WithSha, Prefixed;
    e := EntryOf(s, at);
  }

  lemma OthersStay(s: Segment, prefix: string, sums: Checksums, at: nat)
    requires !Selected(s, prefix)
    ensures RewriteOne(s, prefix, sums) == Some(s) && OwnEntry(s, prefix, at) == []
  {
  }

  lemma RewriteStep(segments: seq<Segment>, prefix: string, sums: Checksums)
    requires segments != []
    ensures Rewrite(segments, prefix, sums) ==
      if RewriteOne(segments[0], prefix, sums).None? || Rewrite(segments[1..], prefix, sums).None? then None
      else Some([RewriteOne(segments[0], prefix, sums).value] + Rewrite(segments[1..], prefix, sums).value)
  {
    hide RewriteOne;
  }

  /** Lines taken so far, the lines of a segment, and the rest. */
  lemma Regroup(before: seq<string>, own: seq<string>, rest: seq<string>, from: nat)
    requires from <= |before|
    ensures (before + own) + rest == before + (own + rest)
    ensures (before + own)[from..] == before[from..] + own
    ensures (before + (own + rest))[from..|before|] == before[from..]
    ensures (before + own)[|before + own|..] == []
  {
  }

  /** Splicing the entries of the segments after `before` is rendering the rewritten segments. */
  lemma {:induction false} SpliceRenders(before: seq<string>, segments: seq<Segment>, prefix: string, sums: Checksums, from: nat)
    requires from <= |before| && Entries(segments, prefix, |before|).Ok?
    ensures
      var r := Splice(before + Render(segments), Entries(segments, prefix, |before|).value, sums, from);
      var w := Rewrite(segments, prefix, sums);
      r == if w.None? then None else Some(before[from..] + Render(w.value))
    decreases |segments|
  {
    hide *;
    if segments == [] {
      SpliceEnds(before, prefix, sums, from);
    } else {
      var (s, rest) := (segments[0], segments[1..]);
      assert segments == [s] + rest;
      var own := LinesOf(s);
      EntriesUnfold(segments, prefix, |before|);
      RenderCons(s, rest);
      RewriteStep(segments, prefix, sums);
      Regroup(before, own, Render(rest), from);
      assert |before + own| == |before| + |own|;
      var later := Entries(rest, prefix, |before + own|).value;
      if Selected(s, prefix) {
        SpliceRenders(before + own, rest, prefix, sums, |before + own|);
        var e := SelectedEntry(s, prefix, sums, |before|);
        SpliceFirst(before + Render(segments), e, later, sums, from);
        if RewriteOne(s, prefix, sums).Some? && Rewrite(rest, prefix, sums).Some? {
          RenderCons(RewriteOne(s, prefix, sums).value, Rewrite(rest, prefix, sums).value);
          Reassociate(before[from..], LinesOf(RewriteOne(s, prefix, sums).value), Render(Rewrite(rest, prefix, sums).value));
        }
      } else {
        SpliceRenders(before + own, rest, prefix, sums, from);
        OthersStay(s, prefix, sums, |before|);
        assert [] + later == later;
        if Rewrite(rest, prefix, sums).Some? {
          RenderCons(s, Rewrite(rest, prefix, sums).value);
          Reassociate(before[from..], own, Render(Rewrite(rest, prefix, sums).value));
        }
      }
    }
  }

  lemma Reassociate(a: seq<string>, b: seq<string>, c: seq<string>)
    ensures (a + b) + c == a + (b + c) && a + b + ([] + c) == a + (b + c)
  {
    assert [] + c == c;
  }

  lemma SpliceEnds(before: seq<string>, prefix: string, sums: Checksums, from: nat)
    requires from <= |before|
    ensures Entries([], prefix, |before|) == Ok([]) && Rewrite([], prefix, sums) == Some([]) && Render([]) == []
    ensures before + [] == before && before[from..] + [] == before[from..]
    ensures Splice(before, [], sums, from) == Some(before[from..])
  {
  }

  /** The entries lie one after the other between two lines. */
  predicate InOrder(entries: seq<Entry>, from: nat, to: nat) {
    if entries == [] then from <= to
    else from <= entries[0].start <= entries[0].end <= to && InOrder(entries[1..], entries[0].end, to)
  }

  lemma InOrderEarlier(entries: seq<Entry>, from: nat, from': nat, to: nat)
    requires InOrder(entries, from', to) && from <= from'
    ensures InOrder(entries, from, to)
  {
  }

  lemma InOrderCons(e: Entry, rest: seq<Entry>, from: nat, to: nat)
    requires from <= e.start <= e.end <= to && InOrder(rest, e.end, to)
    ensures InOrder([e] + rest, from, to)
  {
    assert ([e] + rest)[1..] == rest;
  }

  lemma RenderLength(s: Segment, rest: seq<Segment>)
    ensures |Render([s] + rest)| == |LinesOf(s)| + |Render(rest)|
  {
    hide LinesOf;
    RenderCons(s, rest);
  }

  lemma {:induction false} EntriesInOrder(segments: seq<Segment>, prefix: string, at: nat)
    requires Entries(segments, prefix, at).Ok?
    ensures InOrder(Entries(segments, prefix, at).value, at, at + |Render(segments)|)
    decreases |segments|
  {
    hide *;
    if segments == [] {
      NoneInOrder(prefix, at);
    } else {
      var (s, rest) := (segments[0], segments[1..]);
      assert segments == [s] + rest;
      EntriesUnfold(segments, prefix, at);
      RenderLength(s, rest);
      var next := at + |LinesOf(s)|;
      EntriesInOrder(rest, prefix, next);
      var later := Entries(rest, prefix, next).value;
      if Selected(s, prefix) {
        var e := SelectedEntry(s, prefix, map[], at);
        InOrderCons(e, later, at, at + |Render(segments)|);
      } else {
        OthersStay(s, prefix, map[], at);
        assert [] + later == later;
        InOrderEarlier(later, at, next, at + |Render(segments)|);
      }
    }
  }

  lemma NoneInOrder(prefix: string, at: nat)
    ensures Entries([], prefix, at) == Ok([]) && Render([]) == [] && InOrder([], at, at)
  {
  }

  function PrependLines(updated: seq<string>, rest: Option<seq<string>>): Option<seq<string>> {
    if rest.None? then None else Some(updated + rest.value)
  }

  lemma SpliceNext(lines: seq<string>, entries: seq<Entry>, sums: Checksums, i: nat, previousEnd: nat, updated: seq<string>)
    requires i < |entries| && previousEnd <= |lines| && InOrder(entries[i..], previousEnd, |lines|)
    ensures
      var e := entries[i];
      && previousEnd <= e.start <= e.end <= |lines| && InOrder(entries[i + 1..], e.end, |lines|)
      && PrependLines(updated, Splice(lines, entries[i..], sums, previousEnd)) ==
           if NewBlock(e, sums).None? then None
           else PrependLines(updated + lines[previousEnd..e.start] + NewBlock(e, sums).value, Splice(lines, entries[i + 1..], sums, e.end))
  {
    hide NewBlock;
    var e := entries[i];
    assert entries[i..] == [e] + entries[i + 1..];
    assert entries[i..][1..] == entries[i + 1..] && entries[i..][0] == e;
    SpliceFirst(lines, e, entries[i + 1..], sums, previousEnd);
    hide Splice, InOrder;
    var rest := Splice(lines, entries[i + 1..], sums, e.end);
    if NewBlock(e, sums).Some? && rest.Some? {
      FourParts(updated, lines[previousEnd..e.start], NewBlock(e, sums).value, rest.value);
    }
  }

  lemma FourParts(a: seq<string>, b: seq<string>, c: seq<string>, d: seq<string>)
    ensures a + (b + c + d) == (a + b + c) + d
  {
  }

  method UpdateModuleBazelText(lines: seq<string>, sums: Checksums, version: string) returns (r: Result<seq<string>>)
    ensures r == Update(lines, sums, version)
  {
    hide *;
    var entries := RustyV8HttpFiles(lines, version);
    UpdateIs(lines, sums, version);
    if entries.Err? { return Err(entries.problems); }
    var errors := ModuleEntrySetErrors(entries.value, sums, version);
    if errors != [] { return Err(errors); }
    BlocksAre(lines, version);
    RenderParse(lines);
    EntriesInOrder(Parse(lines), NamePrefix(version), 0);
    var none: seq<string> := [];
    assert none[0..] == none && none + lines == lines;
    SpliceRenders(none, Parse(lines), NamePrefix(version), sums, 0);
    var updated: seq<string> := [];
    var previousEnd: nat := 0;
    StartSplice(lines, entries.value, sums);
    for i := 0 to |entries.value|
      invariant previousEnd <= |lines| && InOrder(entries.value[i..], previousEnd, |lines|)
      invariant Splice(lines, entries.value, sums, 0) == PrependLines(updated, Splice(lines, entries.value[i..], sums, previousEnd))
    {
      var e := entries.value[i];
      SpliceNext(lines, entries.value, sums, i, previousEnd, updated);
      var block := NewBlock(e, sums);
      if block.None? { return Err([NoPlaceForSha]); }
      updated := updated + lines[previousEnd..e.start] + block.value;
      previousEnd := e.end;
    }
    EndSplice(lines, entries.value, sums, previousEnd, updated);
    updated := updated + lines[previousEnd..];
    r := Ok(updated);
  }

  lemma UpdateIs(lines: seq<string>, sums: Checksums, version: string)
    ensures
      var entries := HttpFiles(lines, version);
      Update(lines, sums, version) ==
        if entries.Err? then Err(entries.problems)
        else if EntrySetErrors(entries.value, sums, version) != [] then Err(EntrySetErrors(entries.value, sums, version))
        else
          var segments := Rewrite(Parse(lines), NamePrefix(version), sums);
          if segments.None? then Err([NoPlaceForSha]) else Ok([] + Render(segments.value))
  {
    hide HttpFiles, EntrySetErrors, Rewrite, Parse, Render, NamePrefix;
    var segments := Rewrite(Parse(lines), NamePrefix(version), sums);
    if segments.Some? { assert [] + Render(segments.value) == Render(segments.value); }
  }

  lemma StartSplice(lines: seq<string>, entries: seq<Entry>, sums: Checksums)
    ensures entries[0..] == entries
    ensures Splice(lines, entries, sums, 0) == PrependLines([], Splice(lines, entries[0..], sums, 0))
  {
    assert entries[0..] == entries;
    hide Splice;
    var r := Splice(lines, entries, sums, 0);
    if r.Some? { assert [] + r.value == r.value; }
  }

  lemma EndSplice(lines: seq<string>, entries: seq<Entry>, sums: Checksums, previousEnd: nat, updated: seq<string>)
    requires previousEnd <= |lines|
    ensures PrependLines(updated, Splice(lines, entries[|entries|..], sums, previousEnd)) == Some(updated + lines[previousEnd..])
  {
    assert entries[|entries|..] == [];
  }
}
