/** The publication commands as the loops they are, against ReleaseResume's account of one run. */
module ReleaseRun {
  import opened Release
  import opened ReleaseResume

  /** A line of the final report. */
  datatype Entry = Entry(key: string, name: string, sha256: string, size: nat)

  function EntryOf(p: Plan, a: Asset): Entry {
    Entry(AssetKey(p, a), a.name, a.sha256, a.size)
  }

  /** The report lists every asset once, in the order of the plan. */
  function Entries(p: Plan, assets: seq<Asset>): (r: seq<Entry>)
    ensures |r| == |assets| && forall i :: 0 <= i < |r| ==> r[i] == EntryOf(p, assets[i])
  {
    seq(|assets|, i requires 0 <= i < |assets| => EntryOf(p, assets[i]))
  }

  /** The assets whose names are not reported as published. */
  function Remaining(assets: seq<Asset>, published: set<string>): (r: seq<Asset>)
    ensures forall a :: a in r <==> a in assets && a.name !in published
  {
    if assets == [] then []
    else (if assets[0].name in published then [] else [assets[0]]) + Remaining(assets[1..], published)
  }

  predicate Placed(w: World, b: Bucket, p: Plan, a: Asset, verify: bool) {
    FileMatches(w, a) && (verify ==> Verify(w, b, AssetKey(p, a), a.size, a.sha256).Match?)
  }

  function InstallerWrites(p: Plan): seq<Write>
    requires !InstallersMissing(p) && !p.prerelease
  {
    [InstallerWrite(p, "install.sh"), InstallerWrite(p, "install.ps1")]
  }

  // ----- how the pieces of a run compose -----

  lemma {:induction false} WriteAllConcat(w: World, b: Bucket, xs: seq<Write>, ys: seq<Write>)
    ensures
      var (b', ok) := WriteAll(w, b, xs);
      WriteAll(w, b, xs + ys) == if ok then WriteAll(w, b', ys) else (b', false)
    decreases |xs|
  {
    if xs == [] {
      assert xs + ys == ys;
    } else {
      assert (xs + ys)[0] == xs[0] && (xs + ys)[1..] == xs[1..] + ys;
      WriteAllConcat(w, PutWrite(b, xs[0]), xs[1..], ys);
    }
  }

  lemma WriteAllOne(w: World, b: Bucket, x: Write)
    ensures WriteAll(w, b, [x]) ==
      if !Valued(w, x) then (b, false) else (PutWrite(b, x), CheckWrite(w, PutWrite(b, x), x).Match?)
  {
    assert [x][1..] == [];
  }

  lemma WriteAllNext(w: World, b: Bucket, xs: seq<Write>, i: nat)
    requires i < |xs|
    ensures
      var (b', ok) := WriteAll(w, b, xs[..i]);
      WriteAll(w, b, xs[..i + 1]) ==
        if !ok || !Valued(w, xs[i]) then (b', false)
        else (PutWrite(b', xs[i]), CheckWrite(w, PutWrite(b', xs[i]), xs[i]).Match?)
  {
    assert xs[..i + 1] == xs[..i] + [xs[i]];
    WriteAllConcat(w, b, xs[..i], [xs[i]]);
    WriteAllOne(w, WriteAll(w, b, xs[..i]).0, xs[i]);
  }

  /** A stop after the first `i` writes is the verdict on all of them. */
  lemma WriteAllStops(w: World, b: Bucket, xs: seq<Write>, i: nat)
    requires i <= |xs| && !WriteAll(w, b, xs[..i]).1
    ensures WriteAll(w, b, xs) == WriteAll(w, b, xs[..i])
  {
    assert xs == xs[..i] + xs[i..];
    WriteAllConcat(w, b, xs[..i], xs[i..]);
  }

  lemma UploadedMore(b: Bucket, b': Bucket, p: Plan, done: iset<Asset>, more: iset<Asset>)
    requires Uploaded(b, b', p, done) && forall a <- more :: AssetKey(p, a) in b
    ensures Uploaded(b, b', p, done + more)
  {
    hide AssetKey;
    forall key | key in b' && key !in b ensures exists a <- done + more :: AssetKey(p, a) == key {
      var a :| a in done && AssetKey(p, a) == key;
      assert a in done + more;
    }
  }

  lemma NothingUploaded(b: Bucket, p: Plan)
    ensures Uploaded(b, b, p, iset{})
  {
  }

  lemma PutAllOfSome(w: World, b: Bucket, p: Plan, assets: seq<Asset>)
    requires ValidPlan(p) && forall a <- assets :: a in p.assets
    ensures Uploaded(b, PutAll(b, p, Valid(w, assets)), p, Elements(Valid(w, assets)))
  {
    PlanNames(p);
    NothingUploaded(b, p);
    hide AssetKey, ValidPlan, Uploaded;
    PutAllUploads(b, b, p, iset{}, Valid(w, assets));
    assert iset{} + Elements(Valid(w, assets)) == Elements(Valid(w, assets));
  }

  /** Uploading only what is missing leaves the bucket that uploading everything would leave. */
  lemma MissingSuffice(w: World, b: Bucket, p: Plan, remaining: seq<Asset>)
    requires ValidPlan(p)
    requires forall a :: a in remaining <==> a in p.assets && AssetKey(p, a) !in b
    ensures PutAll(b, p, Valid(w, remaining)) == Uploads(w, b, p)
  {
    hide AssetKey, ValidPlan, Uploads, Uploaded;
    var valid := Valid(w, remaining);
    var b' := PutAll(b, p, valid);
    UploadsAt(w, b, p);
    PutAllOfSome(w, b, p, remaining);
    var there := iset a | a in p.assets && FileMatches(w, a) && AssetKey(p, a) in b;
    assert Elements(valid) + there == Intact(w, p);
    UploadedMore(b, b', p, Elements(valid), there);
    UploadedUnique(b, b', Uploads(w, b, p), p, Intact(w, p));
  }

  /** Every missing asset that is intact verifies after the uploads. */
  lemma MissingPlaced(w: World, b: Bucket, p: Plan, remaining: seq<Asset>)
    requires ValidPlan(p)
    requires forall a :: a in remaining <==> a in p.assets && AssetKey(p, a) !in b
    ensures (forall a <- remaining :: Placed(w, Uploads(w, b, p), p, a, true)) <==> !Incomplete(w, b, p)
  {
    UploadsAt(w, b, p);
    hide AssetKey, ValidPlan, Uploads;
    forall a | a in remaining && FileMatches(w, a) ensures Placed(w, Uploads(w, b, p), p, a, true) {
      assert a in Intact(w, p);
    }
  }

  lemma AssetNotMetadata(p: Plan, a: Asset)
    requires ValidPlan(p) && a in p.assets
    ensures AssetKey(p, a) != MetadataKey(p.version)
  {
    if AssetKey(p, a) == MetadataKey(p.version) { ReleaseKeyInjective(p.version, METADATA_NAME, p.version, a.name); }
  }

  // ----- uploads completing in any order -----

  /** The intact assets whose uploads have completed. */
  ghost function Completed(w: World, assets: seq<Asset>, pending: set<Asset>): iset<Asset> {
    iset a | a in assets && a !in pending && FileMatches(w, a)
  }

  ghost predicate AllPlaced(w: World, b: Bucket, p: Plan, assets: seq<Asset>, pending: set<Asset>, verify: bool) {
    forall a <- assets :: a !in pending ==> Placed(w, b, p, a, verify)
  }

  ghost predicate Reported(p: Plan, assets: seq<Asset>, pending: set<Asset>, published: map<string, Entry>) {
    forall a <- assets :: a !in pending ==> a.name in published && published[a.name] == EntryOf(p, a)
  }

  lemma PlacedStays(w: World, b: Bucket, b': Bucket, p: Plan, done: iset<Asset>, b0: Bucket, a: Asset, verify: bool)
    requires Uploaded(b0, b, p, done) && (FileMatches(w, a) ==> a in done)
    requires forall key :: key in b ==> key in b' && b'[key] == b[key]
    ensures Placed(w, b', p, a, verify) == Placed(w, b, p, a, verify)
  {
    hide AssetKey;
  }

  lemma CompleteOne(w: World, p: Plan, assets: seq<Asset>, b0: Bucket, b: Bucket, pending: set<Asset>, a: Asset)
    requires ValidPlan(p) && (forall x <- assets :: x in p.assets) && a in assets && a in pending
    requires Uploaded(b0, b, p, Completed(w, assets, pending))
    ensures
      var b' := if FileMatches(w, a) then PutNew(b, AssetKey(p, a), a.file, a.sha256) else b;
      Uploaded(b0, b', p, Completed(w, assets, pending - {a}))
  {
    PlanNames(p);
    hide AssetKey, ValidPlan, Uploaded;
    var done := Completed(w, assets, pending);
    if FileMatches(w, a) {
      UploadOneMore(b0, b, p, done, a);
      assert done + iset{a} == Completed(w, assets, pending - {a});
    } else {
      assert done == Completed(w, assets, pending - {a});
    }
  }

  lemma AllPlacedOneMore(w: World, p: Plan, assets: seq<Asset>, b0: Bucket, b: Bucket, pending: set<Asset>, a: Asset, verify: bool)
    requires a in assets && a in pending
    requires Uploaded(b0, b, p, Completed(w, assets, pending))
    ensures
      var b' := if FileMatches(w, a) then PutNew(b, AssetKey(p, a), a.file, a.sha256) else b;
      AllPlaced(w, b', p, assets, pending - {a}, verify) <==>
        AllPlaced(w, b, p, assets, pending, verify) && Placed(w, b', p, a, verify)
  {
    hide AssetKey, Placed, Uploaded;
    var b' := if FileMatches(w, a) then PutNew(b, AssetKey(p, a), a.file, a.sha256) else b;
    forall x | x in assets && x !in pending ensures Placed(w, b', p, x, verify) == Placed(w, b, p, x, verify) {
      PlacedStays(w, b, b', p, Completed(w, assets, pending), b0, x, verify);
    }
  }

  lemma ReportOneMore(p: Plan, assets: seq<Asset>, pending: set<Asset>, published: map<string, Entry>, a: Asset)
    requires ValidPlan(p) && (forall x <- assets :: x in p.assets) && a in assets && a in pending
    requires Reported(p, assets, pending, published)
    ensures Reported(p, assets, pending - {a}, published[a.name := EntryOf(p, a)])
  {
    PlanNames(p);
    hide ValidPlan, EntryOf;
  }

  lemma UploadedIsPutAll(w: World, b: Bucket, b': Bucket, p: Plan, assets: seq<Asset>)
    requires ValidPlan(p) && (forall a <- assets :: a in p.assets) && Uploaded(b, b', p, Completed(w, assets, {}))
    ensures b' == PutAll(b, p, Valid(w, assets))
  {
    hide AssetKey, ValidPlan, Uploaded;
    PutAllOfSome(w, b, p, assets);
    assert Elements(Valid(w, assets)) == Completed(w, assets, {});
    UploadedUnique(b, b', PutAll(b, p, Valid(w, assets)), p, Elements(Valid(w, assets)));
  }

  /** The puts after the first `n` all name assets of the list. */
  ghost predicate OnlyAssetPuts(puts: seq<string>, n: nat, p: Plan, assets: seq<Asset>) {
    n <= |puts| && forall key <- puts[n..] :: exists a <- assets :: AssetKey(p, a) == key
  }

  lemma OnePutMore(puts: seq<string>, n: nat, p: Plan, assets: seq<Asset>, a: Asset)
    requires OnlyAssetPuts(puts, n, p, assets) && a in assets
    ensures OnlyAssetPuts(puts + [AssetKey(p, a)], n, p, assets)
  {
    assert (puts + [AssetKey(p, a)])[n..] == puts[n..] + [AssetKey(p, a)];
    hide AssetKey;
  }

  /** The object store, with the keys put so far in order. */
  class Store {
    var bucket: Bucket
    var puts: seq<string>

    constructor ()
      ensures bucket == map[] && puts == []
    {
      bucket, puts := map[], [];
    }

    method PutObject(key: string, content: Content, sha256: string, overwrite: bool)
      modifies this
      ensures bucket == if overwrite then Put(old(bucket), key, content, sha256) else PutNew(old(bucket), key, content, sha256)
      ensures puts == old(puts) + [key]
    {
      if overwrite || key !in bucket {
        bucket := bucket[key := Object(content, sha256, true)];
      }
      puts := puts + [key];
    }

    /** A file, checked before and after its put. */
    method PutAndVerify(w: World, x: Write) returns (ok: bool)
      modifies this
      ensures (bucket, ok) ==
        if !Valued(w, x) then (old(bucket), false)
        else (PutWrite(old(bucket), x), CheckWrite(w, PutWrite(old(bucket), x), x).Match?)
      ensures puts == if Valued(w, x) then old(puts) + [x.key] else old(puts)
    {
      if w.sha(x.content) != x.sha256 || w.size(x.content) != x.size { return false; }
      PutObject(x.key, x.content, x.sha256, x.overwrite);
      ok := Verify(w, bucket, x.key, x.size, x.sha256).Match?;
    }

    /** Every upload is tried, whatever becomes of the others; they complete in any order. */
    method PublishAssets(w: World, p: Plan, assets: seq<Asset>, verify: bool) returns (ok: bool, report: seq<Entry>)
      requires ValidPlan(p) && forall a <- assets :: a in p.assets
      modifies this
      ensures bucket == PutAll(old(bucket), p, Valid(w, assets))
      ensures ok <==> forall a <- assets :: Placed(w, bucket, p, a, verify)
      ensures ok ==> report == Entries(p, assets)
      ensures OnlyAssetPuts(puts, |old(puts)|, p, assets) && old(puts) <= puts
    {
      hide AssetKey, ValidPlan, Uploaded, PutAll, AllPlaced, Reported, OnlyAssetPuts, Verify, FileMatches, Completed;
      ok := true;
      var published: map<string, Entry> := map[];
      var pending := set a | a in assets;
      PublishStart(w, p, assets, bucket, puts, verify);
      while pending != {}
        invariant forall a :: a in pending ==> a in assets
        invariant Uploaded(old(bucket), bucket, p, Completed(w, assets, pending))
        invariant ok <==> AllPlaced(w, bucket, p, assets, pending, verify)
        invariant ok ==> Reported(p, assets, pending, published)
        invariant OnlyAssetPuts(puts, |old(puts)|, p, assets) && old(puts) <= puts
        decreases |pending|
      {
        var a :| a in pending;
        CompleteOne(w, p, assets, old(bucket), bucket, pending, a);
        AllPlacedOneMore(w, p, assets, old(bucket), bucket, pending, a, verify);
        if FileMatches(w, a) {
          OnePutMore(puts, |old(puts)|, p, assets, a);
          PutObject(AssetKey(p, a), a.file, a.sha256, false);
        }
        if FileMatches(w, a) && (!verify || Verify(w, bucket, AssetKey(p, a), a.size, a.sha256).Match?) {
          if ok { ReportOneMore(p, assets, pending, published, a); }
          published := published[a.name := EntryOf(p, a)];
        } else {
          ok := false;
        }
        pending := pending - {a};
      }
      UploadedIsPutAll(w, old(bucket), bucket, p, assets);
      PublishEnd(w, bucket, p, assets, verify, published);
      report := [];
      if ok {
        report := seq(|assets|, i requires 0 <= i < |assets| && assets[i].name in published => published[assets[i].name]);
        assert report == Entries(p, assets);
      }
    }

    /** Look up every asset; an object with other contents stops the run. */
    method FindPublishedAssets(w: World, p: Plan) returns (ok: bool, published: map<string, Entry>)
      requires ValidPlan(p)
      ensures ok <==> !Refuses(w, bucket, p)
      ensures ok ==> FoundAll(w, bucket, p, {}, published)
    {
      hide AssetKey, ValidPlan, Verify, FoundAll;
      ok := true;
      published := map[];
      var pending := set a | a in p.assets;
      FindStart(w, bucket, p);
      while pending != {}
        invariant forall a :: a in pending ==> a in p.assets
        invariant forall a <- p.assets :: a !in pending ==> !Verify(w, bucket, AssetKey(p, a), a.size, a.sha256).Mismatch?
        invariant FoundAll(w, bucket, p, pending, published)
        decreases |pending|
      {
        var a :| a in pending;
        FindOneMore(w, bucket, p, pending, published, a);
        pending := pending - {a};
        match Verify(w, bucket, AssetKey(p, a), a.size, a.sha256) {
          case Missing =>
          case Mismatch => return false, map[];
          case Match => published := published[a.name := EntryOf(p, a)];
        }
      }
    }

    /** The bootstrap aliases of a stable release, one after the other. */
    method PublishInstallers(w: World, p: Plan) returns (ok: bool)
      requires ValidPlan(p) && !p.prerelease
      modifies this
      ensures (bucket, ok) == if InstallersMissing(p) then (old(bucket), false) else WriteAll(w, old(bucket), InstallerWrites(p))
      ensures old(puts) <= puts && forall key <- puts[|old(puts)|..] :: Unversioned(key)
    {
      if InstallersMissing(p) { return false; }
      InstallersUnversioned(p);
      ok := PutEach(w, InstallerWrites(p));
    }

    /** Puts in order, each verified before the next. */
    method PutEach(w: World, xs: seq<Write>) returns (ok: bool)
      requires AllUnversioned(xs)
      modifies this
      ensures (bucket, ok) == WriteAll(w, old(bucket), xs)
      ensures old(puts) <= puts && forall key <- puts[|old(puts)|..] :: Unversioned(key)
    {
      hide PutWrite, CheckWrite, Unversioned, Valued, WriteAll;
      ok := true;
      NoWrites(w, bucket);
      var i := 0;
      while i < |xs|
        invariant i <= |xs| && ok && (bucket, ok) == WriteAll(w, old(bucket), xs[..i])
        invariant old(puts) <= puts && forall key <- puts[|old(puts)|..] :: Unversioned(key)
      {
        WriteAllNext(w, old(bucket), xs, i);
        ok := PutAndVerify(w, xs[i]);
        if !ok {
          WriteAllStops(w, old(bucket), xs, i + 1);
          return;
        }
        i := i + 1;
      }
      assert xs[..i] == xs;
    }

    /** One finalize run: the missing assets, then the metadata, the aliases and the channels. */
    method FinalizeRelease(w: World, p: Plan) returns (ok: bool, report: seq<Entry>)
      requires ValidPlan(p)
      modifies this
      ensures (bucket, ok) == Finalize(w, old(bucket), p)
      ensures ok ==> report == Entries(p, p.assets)
      ensures old(puts) <= puts
      ensures forall a <- p.assets :: AssetKey(p, a) in old(bucket) ==> AssetKey(p, a) !in puts[|old(puts)|..]
    {
      hide *;
      report := [];
      var published;
      ok, published := FindPublishedAssets(w, p);
      if !ok { FinalizeRefused(w, bucket, p); return; }
      var remaining := Remaining(p.assets, published.Keys);
      FoundRemaining(w, bucket, p, published);
      var more;
      ok, more := PublishAssets(w, p, remaining, true);
      MissingSuffice(w, old(bucket), p, remaining);
      MissingPlaced(w, old(bucket), p, remaining);
      SkipsPresent(old(bucket), p, remaining, puts, |old(puts)|);
      NoneAgainMeans(p, old(bucket), puts, |old(puts)|);
      if !ok { FinalizeIncomplete(w, old(bucket), p); return; }
      FinalizeWrites(w, old(bucket), p);
      ghost var n := |puts|;
      ok := PutAndVerify(w, MetadataWrite(w, p));
      MetadataPut(p, old(bucket), w, puts, |old(puts)|, n);
      NoneAgainMeans(p, old(bucket), puts, |old(puts)|);
      if !ok { return; }
      if !p.prerelease {
        ghost var m := |puts|;
        ok := PublishInstallers(w, p);
        UnversionedPuts(p, old(bucket), puts, |old(puts)|, m);
        NoneAgainMeans(p, old(bucket), puts, |old(puts)|);
        if !ok { return; }
      }
      ChannelsUnversioned(w, p);
      ghost var m := |puts|;
      ok := PutEach(w, ChannelWrites(w, p, Channels(p)));
      UnversionedPuts(p, old(bucket), puts, |old(puts)|, m);
      NoneAgainMeans(p, old(bucket), puts, |old(puts)|);
      ReportLines(w, old(bucket), p, published, remaining, more);
      var additional := ByName(more);
      report := seq(|p.assets|, i requires 0 <= i < |p.assets| && (p.assets[i].name in published || p.assets[i].name in additional) =>
        if p.assets[i].name in published then published[p.assets[i].name] else additional[p.assets[i].name]);
    }
  }

  // ----- the pieces of a finalize run -----

  lemma FinalizeRefused(w: World, b: Bucket, p: Plan)
    ensures Refuses(w, b, p) ==> Finalize(w, b, p) == (b, false)
  {
  }

  lemma FinalizeIncomplete(w: World, b: Bucket, p: Plan)
    ensures !Refuses(w, b, p) && Incomplete(w, b, p) ==> Finalize(w, b, p) == (Uploads(w, b, p), false)
  {
  }

  /** The writes after the uploads, stage by stage. */
  lemma FinalizeWrites(w: World, b: Bucket, p: Plan)
    requires !Refuses(w, b, p) && !Incomplete(w, b, p)
    ensures MetadataWrite(w, p).key == MetadataKey(p.version) && (p.prerelease ==> !InstallersMissing(p))
    ensures
      var b1 := Uploads(w, b, p);
      var b2 := PutWrite(b1, MetadataWrite(w, p));
      Valued(w, MetadataWrite(w, p)) && Finalize(w, b, p) ==
        if !CheckWrite(w, b2, MetadataWrite(w, p)).Match? then (b2, false)
        else if InstallersMissing(p) then (b2, false)
        else
          var (b3, ok) := if p.prerelease then (b2, true) else WriteAll(w, b2, InstallerWrites(p));
          if ok then WriteAll(w, b3, ChannelWrites(w, p, Channels(p))) else (b3, false)
  {
    hide Refuses, Incomplete, Uploads, PutWrite, CheckWrite, HasAsset, Channels, ChannelWrites, ReleaseKey, InstallerWrite;
    var b1 := Uploads(w, b, p);
    var first := [MetadataWrite(w, p)];
    WriteAllOne(w, b1, MetadataWrite(w, p));
    if !InstallersMissing(p) {
      var aliases := if p.prerelease then [] else InstallerWrites(p);
      var channels := ChannelWrites(w, p, Channels(p));
      assert Writes(w, p) == first + (aliases + channels);
      WriteAllConcat(w, b1, first, aliases + channels);
      WriteAllConcat(w, WriteAll(w, b1, first).0, aliases, channels);
    }
  }

  lemma FoundRemaining(w: World, b: Bucket, p: Plan, published: map<string, Entry>)
    requires FoundAll(w, b, p, {}, published)
    ensures forall a :: a in Remaining(p.assets, published.Keys) <==> a in p.assets && AssetKey(p, a) !in b
  {
    hide AssetKey;
  }

  /** No asset already in the bucket is among the keys put since the first `n`. */
  ghost predicate NoneAgain(p: Plan, b: Bucket, puts: seq<string>, n: nat) {
    n <= |puts| && forall a <- p.assets :: AssetKey(p, a) in b ==> AssetKey(p, a) !in puts[n..]
  }

  lemma NoneAgainMeans(p: Plan, b: Bucket, puts: seq<string>, n: nat)
    requires NoneAgain(p, b, puts, n)
    ensures n <= |puts| && forall a <- p.assets :: AssetKey(p, a) in b ==> AssetKey(p, a) !in puts[n..]
  {
  }

  lemma SkipsPresent(b: Bucket, p: Plan, remaining: seq<Asset>, puts: seq<string>, n: nat)
    requires forall a :: a in remaining <==> a in p.assets && AssetKey(p, a) !in b
    requires OnlyAssetPuts(puts, n, p, remaining)
    ensures NoneAgain(p, b, puts, n)
  {
    hide AssetKey;
  }

  lemma MetadataPut(p: Plan, b: Bucket, w: World, puts: seq<string>, n: nat, m: nat)
    requires ValidPlan(p) && n <= m <= |puts| && NoneAgain(p, b, puts[..m], n)
    requires puts == puts[..m] + [MetadataKey(p.version)]
    ensures NoneAgain(p, b, puts, n)
  {
    forall a | a in p.assets && AssetKey(p, a) in b ensures AssetKey(p, a) !in puts[n..] {
      AssetNotMetadata(p, a);
      assert puts[n..] == puts[..m][n..] + [MetadataKey(p.version)];
    }
  }

  lemma UnversionedPuts(p: Plan, b: Bucket, puts: seq<string>, n: nat, m: nat)
    requires n <= m <= |puts| && NoneAgain(p, b, puts[..m], n)
    requires forall key <- puts[m..] :: Unversioned(key)
    ensures NoneAgain(p, b, puts, n)
  {
    forall a | a in p.assets && AssetKey(p, a) in b ensures AssetKey(p, a) !in puts[n..] {
      KeyRegions(p.version, a.name, "", "");
      assert puts[n..] == puts[..m][n..] + puts[m..];
    }
  }

  lemma ChannelsUnversioned(w: World, p: Plan)
    ensures AllUnversioned(ChannelWrites(w, p, Channels(p)))
  {
    var xs := ChannelWrites(w, p, Channels(p));
    hide ChannelWrites, Unversioned, ChannelKey, Channels;
    forall x | x in xs ensures Unversioned(x.key) {
      var i :| 0 <= i < |xs| && xs[i] == x;
      KeyRegions("", "", Channels(p)[i], "");
    }
  }

  lemma InstallersUnversioned(p: Plan)
    requires !InstallersMissing(p) && !p.prerelease
    ensures AllUnversioned(InstallerWrites(p))
  {
    KeyRegions("", "", "", "install.sh");
    KeyRegions("", "", "", "install.ps1");
    hide Unversioned;
  }

  function ByName(entries: seq<Entry>): map<string, Entry> {
    if entries == [] then map[] else map[entries[0].name := entries[0]] + ByName(entries[1..])
  }

  lemma {:induction false} ByNameFinds(p: Plan, assets: seq<Asset>, a: Asset)
    requires OneAssetPerName(assets) && a in assets
    ensures a.name in ByName(Entries(p, assets)) && ByName(Entries(p, assets))[a.name] == EntryOf(p, a)
    decreases |assets|
  {
    hide AssetKey;
    assert Entries(p, assets)[1..] == Entries(p, assets[1..]);
    if a in assets[1..] {
      ByNameFinds(p, assets[1..], a);
    } else {
      ByNameOnly(p, assets[1..], a.name);
    }
  }

  lemma {:induction false} ByNameOnly(p: Plan, assets: seq<Asset>, name: string)
    requires forall a <- assets :: a.name != name
    ensures name !in ByName(Entries(p, assets))
    decreases |assets|
  {
    if assets != [] {
      assert Entries(p, assets)[1..] == Entries(p, assets[1..]);
      ByNameOnly(p, assets[1..], name);
    }
  }

  lemma ReportLines(w: World, b: Bucket, p: Plan, published: map<string, Entry>, remaining: seq<Asset>, more: seq<Entry>)
    requires ValidPlan(p) && FoundAll(w, b, p, {}, published) && more == Entries(p, remaining)
    requires remaining == Remaining(p.assets, published.Keys)
    ensures forall a <- p.assets ::
      if a.name in published then published[a.name] == EntryOf(p, a)
      else a.name in ByName(more) && ByName(more)[a.name] == EntryOf(p, a)
  {
    PlanNames(p);
    hide ValidPlan, EntryOf;
    forall a | a in p.assets && a.name !in published
      ensures a.name in ByName(more) && ByName(more)[a.name] == EntryOf(p, a)
    {
      ByNameFinds(p, remaining, a);
    }
  }

  /** The assets outside `pending` that are in the bucket, with their report lines. */
  ghost predicate FoundAll(w: World, b: Bucket, p: Plan, pending: set<Asset>, published: map<string, Entry>) {
    forall a <- p.assets ::
      && (a in pending ==> a.name !in published)
      && (a !in pending ==> (a.name in published <==> AssetKey(p, a) in b))
      && (a.name in published ==> published[a.name] == EntryOf(p, a))
  }

  lemma FindStart(w: World, b: Bucket, p: Plan)
    ensures FoundAll(w, b, p, set a | a in p.assets, map[])
  {
  }

  lemma NoWrites(w: World, b: Bucket)
    ensures WriteAll(w, b, []) == (b, true)
  {
  }

  lemma FindOneMore(w: World, b: Bucket, p: Plan, pending: set<Asset>, published: map<string, Entry>, a: Asset)
    requires ValidPlan(p) && a in p.assets && a in pending && FoundAll(w, b, p, pending, published)
    ensures Verify(w, b, AssetKey(p, a), a.size, a.sha256).Match? ==>
      FoundAll(w, b, p, pending - {a}, published[a.name := EntryOf(p, a)])
    ensures Verify(w, b, AssetKey(p, a), a.size, a.sha256).Missing? ==>
      FoundAll(w, b, p, pending - {a}, published)
  {
    PlanNames(p);
    hide AssetKey, ValidPlan, EntryOf;
  }


  lemma PublishStart(w: World, p: Plan, assets: seq<Asset>, b: Bucket, puts: seq<string>, verify: bool)
    ensures
      var pending := set a | a in assets;
      && Uploaded(b, b, p, Completed(w, assets, pending)) && AllPlaced(w, b, p, assets, pending, verify)
      && Reported(p, assets, pending, map[]) && OnlyAssetPuts(puts, |puts|, p, assets)
  {
    NothingUploaded(b, p);
    hide Uploaded, AssetKey;
    assert Completed(w, assets, set a | a in assets) == iset{};
  }

  lemma PublishEnd(w: World, b: Bucket, p: Plan, assets: seq<Asset>, verify: bool, published: map<string, Entry>)
    ensures AllPlaced(w, b, p, assets, {}, verify) <==> forall a <- assets :: Placed(w, b, p, a, verify)
    ensures Reported(p, assets, {}, published) ==> forall a <- assets :: a.name in published && published[a.name] == EntryOf(p, a)
  {
  }
}
