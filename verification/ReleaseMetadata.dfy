/** What a publication run takes from the release it mirrors: its assets, checked and sorted. */
module ReleaseMetadata {
  import opened Ordering
  import opened Text
  import opened Release

  /** An asset as the release lists it: a field that is missing or malformed is None. */
  datatype Raw = Raw(name: Option<string>, size: Option<int>, uploaded: bool, sha256: Option<string>)

  /** The assets stage passes over what is still being uploaded. */
  predicate Considered(x: Raw, finalize: bool) {
    finalize || x.uploaded
  }

  predicate WellFormed(x: Raw) {
    && x.name.Some? && x.name.value != "" && x.name.value != METADATA_NAME
    && x.size.Some? && x.size.value >= 0 && x.uploaded && x.sha256.Some?
  }

  /** The listed asset, with the file that a download of that name yields. */
  function AssetOf(x: Raw, file: string -> Content): Asset
    requires WellFormed(x)
  {
    Asset(x.name.value, x.size.value, x.sha256.value, file(x.name.value))
  }

  /** Every considered entry is well formed, no two share a name, and there is one. */
  ghost predicate MetadataOk(raw: seq<Raw>, finalize: bool) {
    && (forall x <- raw :: Considered(x, finalize) ==> WellFormed(x))
    && (forall i, j :: 0 <= i < j < |raw| && Considered(raw[i], finalize) && Considered(raw[j], finalize) ==> raw[i].name != raw[j].name)
    && (exists x <- raw :: Considered(x, finalize))
  }

  /** The dictionary after some entries: the considered ones, under their names. */
  ghost predicate Gathered(raw: seq<Raw>, finalize: bool, file: string -> Content, expected: map<string, Asset>) {
    && (forall x <- raw :: Considered(x, finalize) ==> WellFormed(x) && x.name.value in expected && expected[x.name.value] == AssetOf(x, file))
    && (forall i, j :: 0 <= i < j < |raw| && Considered(raw[i], finalize) && Considered(raw[j], finalize) ==> raw[i].name != raw[j].name)
    && (forall name <- expected :: expected[name].name == name && FromRaw(raw, finalize, file, expected[name]))
  }

  ghost predicate FromRaw(raw: seq<Raw>, finalize: bool, file: string -> Content, a: Asset) {
    exists x <- raw :: Considered(x, finalize) && WellFormed(x) && a == AssetOf(x, file)
  }

  lemma GatherOne(raw: seq<Raw>, i: nat, finalize: bool, file: string -> Content, expected: map<string, Asset>)
    requires i < |raw| && Gathered(raw[..i], finalize, file, expected)
    requires Considered(raw[i], finalize) && WellFormed(raw[i]) && raw[i].name.value !in expected
    ensures Gathered(raw[..i + 1], finalize, file, expected[raw[i].name.value := AssetOf(raw[i], file)])
  {
    var (x, more) := (raw[i], raw[..i + 1]);
    assert more == raw[..i] + [x];
    assert x in more;
    assert FromRaw(more, finalize, file, AssetOf(x, file));
    hide WellFormed, AssetOf;
    forall k | 0 <= k < i && Considered(raw[k], finalize) ensures raw[k].name != x.name {
      assert raw[..i][k] == raw[k];
    }
    forall name | name in expected ensures FromRaw(more, finalize, file, expected[name]) {
      FromMore(raw, i, finalize, file, expected[name]);
    }
    hide FromRaw, Considered;
  }

  lemma FromMore(raw: seq<Raw>, i: nat, finalize: bool, file: string -> Content, a: Asset)
    requires i < |raw| && FromRaw(raw[..i], finalize, file, a)
    ensures FromRaw(raw[..i + 1], finalize, file, a)
  {
    assert raw[..i + 1] == raw[..i] + [raw[i]];
    hide WellFormed, Considered;
  }

  lemma GatherNone(raw: seq<Raw>, i: nat, finalize: bool, file: string -> Content, expected: map<string, Asset>)
    requires i < |raw| && Gathered(raw[..i], finalize, file, expected) && !Considered(raw[i], finalize)
    ensures Gathered(raw[..i + 1], finalize, file, expected)
  {
    var more := raw[..i + 1];
    assert more == raw[..i] + [raw[i]];
    hide WellFormed;
    forall name | name in expected ensures FromRaw(more, finalize, file, expected[name]) {
      assert FromRaw(raw[..i], finalize, file, expected[name]);
    }
  }

  /** A name met a second time. */
  lemma Repeated(raw: seq<Raw>, i: nat, finalize: bool, file: string -> Content, expected: map<string, Asset>)
    requires i < |raw| && Gathered(raw[..i], finalize, file, expected)
    requires Considered(raw[i], finalize) && WellFormed(raw[i]) && raw[i].name.value in expected
    ensures !MetadataOk(raw, finalize)
  {
    assert FromRaw(raw[..i], finalize, file, expected[raw[i].name.value]);
    var x :| x in raw[..i] && Considered(x, finalize) && WellFormed(x) && expected[raw[i].name.value] == AssetOf(x, file);
    var k :| 0 <= k < i && raw[..i][k] == x;
    assert raw[k].name == raw[i].name;
  }

  method GetReleaseMetadata(raw: seq<Raw>, finalize: bool, file: string -> Content) returns (r: Option<seq<Asset>>)
    ensures r.Some? <==> MetadataOk(raw, finalize)
    ensures r.Some? ==> forall x <- raw :: Considered(x, finalize) ==> WellFormed(x) && AssetOf(x, file) in r.value
    ensures r.Some? ==> forall a <- r.value :: FromRaw(raw, finalize, file, a)
    ensures r.Some? ==> r.value != [] && StrictlySorted(Names(r.value)) && forall a <- r.value :: a.name != METADATA_NAME
  {
    hide Sorted, Names, FromRaw, StrictlySorted;
    var expected: map<string, Asset> := map[];
    for i := 0 to |raw|
      invariant Gathered(raw[..i], finalize, file, expected)
    {
      var x := raw[i];
      assert x in raw;
      if !Considered(x, finalize) {
        GatherNone(raw, i, finalize, file, expected);
        continue;
      }
      if !WellFormed(x) { return None; }
      if x.name.value in expected {
        Repeated(raw, i, finalize, file, expected);
        return None;
      }
      GatherOne(raw, i, finalize, file, expected);
      expected := expected[x.name.value := AssetOf(x, file)];
    }
    assert raw[..|raw|] == raw;
    if expected == map[] {
      return None;
    }
    SomeConsidered(raw, finalize, file, expected);
    var sorted := Sorted(set name | name in expected :: [name]);
    SortedNames(expected, sorted);
    var assets := seq(|sorted|, i requires 0 <= i < |sorted| && |sorted[i]| == 1 && sorted[i][0] in expected => expected[sorted[i][0]]);
    SortedAssets(raw, finalize, file, expected, sorted, assets);
    r := Some(assets);
  }

  lemma SomeConsidered(raw: seq<Raw>, finalize: bool, file: string -> Content, expected: map<string, Asset>)
    requires Gathered(raw, finalize, file, expected) && expected != map[]
    ensures MetadataOk(raw, finalize)
  {
    var name :| name in expected;
    assert FromRaw(raw, finalize, file, expected[name]);
  }

  lemma SortedNames(expected: map<string, Asset>, sorted: seq<seq<string>>)
    requires sorted == Sorted(set name | name in expected :: [name])
    ensures forall x <- sorted :: |x| == 1 && x[0] in expected
    ensures forall name <- expected :: [name] in sorted
    ensures StrictlySorted(sorted) && (expected != map[] ==> sorted != [])
  {
    hide Sorted, StrictlySorted;
    if expected != map[] {
      var name :| name in expected;
      assert [name] in sorted;
    }
  }

  lemma SortedAssets(raw: seq<Raw>, finalize: bool, file: string -> Content, expected: map<string, Asset>, sorted: seq<seq<string>>, assets: seq<Asset>)
    requires Gathered(raw, finalize, file, expected)
    requires |assets| == |sorted| && forall i :: 0 <= i < |sorted| ==> |sorted[i]| == 1 && sorted[i][0] in expected && assets[i] == expected[sorted[i][0]]
    requires forall name <- expected :: [name] in sorted
    ensures Names(assets) == sorted
    ensures forall x <- raw :: Considered(x, finalize) ==> WellFormed(x) && AssetOf(x, file) in assets
    ensures forall a <- assets :: FromRaw(raw, finalize, file, a) && a.name != METADATA_NAME
  {
    forall i | 0 <= i < |sorted| ensures Names(assets)[i] == sorted[i] {
      assert sorted[i] == [sorted[i][0]];
    }
    forall x | x in raw && Considered(x, finalize) ensures AssetOf(x, file) in assets {
      var i :| 0 <= i < |sorted| && sorted[i] == [x.name.value];
      assert assets[i] == expected[x.name.value];
    }
    forall a | a in assets ensures FromRaw(raw, finalize, file, a) && a.name != METADATA_NAME {
      var i :| 0 <= i < |assets| && assets[i] == a;
      assert FromRaw(raw, finalize, file, expected[sorted[i][0]]);
    }
  }
}
