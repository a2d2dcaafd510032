/** Re-running a stopped publication ends where an uninterrupted one ends. */
module ReleaseResume {
  import opened Release
  import opened ReleaseSafety

  // ----- one uninterrupted run, as a function of the bucket it starts from -----

  function Valid(w: World, assets: seq<Asset>): (r: seq<Asset>)
    ensures forall a :: a in r <==> a in assets && FileMatches(w, a)
    decreases |assets|
  {
    if assets == [] then []
    else (if FileMatches(w, assets[0]) then [assets[0]] else []) + Valid(w, assets[1..])
  }

  /** Every asset put once, in order, without overwriting. */
  function PutAll(b: Bucket, p: Plan, assets: seq<Asset>): Bucket
    decreases |assets|
  {
    if assets == [] then b
    else PutAll(PutNew(b, AssetKey(p, assets[0]), assets[0].file, assets[0].sha256), p, assets[1..])
  }

  predicate Valued(w: World, x: Write) {
    w.sha(x.content) == x.sha256 && w.size(x.content) == x.size
  }

  /** Puts and verifications in order, up to the first that fails. */
  function WriteAll(w: World, b: Bucket, xs: seq<Write>): (Bucket, bool)
    decreases |xs|
  {
    if xs == [] then (b, true)
    else if !Valued(w, xs[0]) then (b, false)
    else
      var b' := PutWrite(b, xs[0]);
      if CheckWrite(w, b', xs[0]).Match? then WriteAll(w, b', xs[1..]) else (b', false)
  }

  /** Some asset's key holds something else. */
  predicate Refuses(w: World, b: Bucket, p: Plan) {
    exists a <- p.assets :: Verify(w, b, AssetKey(p, a), a.size, a.sha256).Mismatch?
  }

  /** Some asset is neither in the bucket nor intact on disk. */
  predicate Incomplete(w: World, b: Bucket, p: Plan) {
    exists a <- p.assets :: AssetKey(p, a) !in b && !FileMatches(w, a)
  }

  function Uploads(w: World, b: Bucket, p: Plan): Bucket {
    PutAll(b, p, Valid(w, p.assets))
  }

  /** The bucket a finalize run leaves when no call fails, and whether it succeeds. */
  function Finalize(w: World, b: Bucket, p: Plan): (Bucket, bool) {
    if Refuses(w, b, p) then (b, false)
    else if Incomplete(w, b, p) then (Uploads(w, b, p), false)
    else
      var (b', ok) := WriteAll(w, Uploads(w, b, p), Writes(w, p));
      (b', ok && !InstallersMissing(p))
  }

  // ----- uploads, key by key -----

  ghost predicate OneAssetPerName(assets: seq<Asset>) {
    forall x, y :: x in assets && y in assets && x.name == y.name ==> x == y
  }

  lemma PlanNames(p: Plan)
    requires ValidPlan(p)
    ensures OneAssetPerName(p.assets)
  {
    forall x, y | x in p.assets && y in p.assets && x.name == y.name ensures x == y {
      var i :| 0 <= i < |p.assets| && p.assets[i] == x;
      var j :| 0 <= j < |p.assets| && p.assets[j] == y;
      AssetsDistinct(p, i, j);
    }
  }

  lemma AssetKeyInjective(p: Plan, x: Asset, y: Asset)
    requires AssetKey(p, x) == AssetKey(p, y)
    ensures x.name == y.name
  {
    var n := |"codex/releases/" + p.version + "/"|;
    assert AssetKey(p, x)[n..] == x.name && AssetKey(p, y)[n..] == y.name;
  }

  /** `b'` is `b` with an upload tried for exactly the assets in `done`. */
  ghost predicate Uploaded(b: Bucket, b': Bucket, p: Plan, done: iset<Asset>) {
    && (forall key :: key in b ==> key in b' && b'[key] == b[key])
    && (forall a <- done :: AssetKey(p, a) in b' && (AssetKey(p, a) !in b ==> b'[AssetKey(p, a)] == Object(a.file, a.sha256, true)))
    && (forall key :: key in b' && key !in b ==> exists a <- done :: AssetKey(p, a) == key)
  }

  lemma UploadedUnique(b: Bucket, x: Bucket, y: Bucket, p: Plan, done: iset<Asset>)
    requires Uploaded(b, x, p, done) && Uploaded(b, y, p, done)
    ensures x == y
  {
    hide AssetKey;
    forall key ensures key in x <==> key in y {
    }
    forall key | key in x ensures x[key] == y[key] {
      if key !in b {
        var a :| a in done && AssetKey(p, a) == key;
      }
    }
    assert x.Keys == y.Keys;
  }

  lemma UploadOneMore(b: Bucket, b': Bucket, p: Plan, done: iset<Asset>, a: Asset)
    requires Uploaded(b, b', p, done)
    requires forall x <- done :: x.name == a.name ==> x == a
    ensures Uploaded(b, PutNew(b', AssetKey(p, a), a.file, a.sha256), p, done + iset{a})
  {
    var b'' := PutNew(b', AssetKey(p, a), a.file, a.sha256);
    forall x | x in done && AssetKey(p, x) == AssetKey(p, a) ensures x == a {
      AssetKeyInjective(p, x, a);
    }
    hide AssetKey;
    forall key | key in b'' && key !in b ensures exists x <- done + iset{a} :: AssetKey(p, x) == key {
      if key in b' {
        var x :| x in done && AssetKey(p, x) == key;
        assert x in done + iset{a};
      } else {
        assert a in done + iset{a};
      }
    }
    if AssetKey(p, a) in b' && AssetKey(p, a) !in b {
      var x :| x in done && AssetKey(p, x) == AssetKey(p, a);
      assert x == a;
    }
  }

  ghost function Elements(assets: seq<Asset>): iset<Asset> {
    iset a | a in assets
  }

  lemma {:induction false} PutAllUploads(b: Bucket, b': Bucket, p: Plan, done: iset<Asset>, assets: seq<Asset>)
    requires Uploaded(b, b', p, done)
    requires forall x, y :: x in done + Elements(assets) && y in done + Elements(assets) && x.name == y.name ==> x == y
    ensures Uploaded(b, PutAll(b', p, assets), p, done + Elements(assets))
    decreases |assets|
  {
    hide Uploaded, AssetKey;
    if assets == [] {
      assert done + Elements(assets) == done;
    } else {
      var a := assets[0];
      assert a in Elements(assets);
      UploadOneMore(b, b', p, done, a);
      assert done + iset{a} + Elements(assets[1..]) == done + Elements(assets);
      PutAllUploads(b, PutNew(b', AssetKey(p, a), a.file, a.sha256), p, done + iset{a}, assets[1..]);
    }
  }

  ghost function Intact(w: World, p: Plan): iset<Asset> {
    iset a | a in p.assets && FileMatches(w, a)
  }

  lemma UploadsAt(w: World, b: Bucket, p: Plan)
    requires ValidPlan(p)
    ensures Uploaded(b, Uploads(w, b, p), p, Intact(w, p))
  {
    PlanNames(p);
    var valid := Valid(w, p.assets);
    assert iset{} + Elements(valid) == Intact(w, p);
    assert Uploaded(b, b, p, iset{});
    PutAllUploads(b, b, p, iset{}, valid);
  }

  // ----- a bucket between the start and the end of the uploads -----

  ghost predicate Between(b: Bucket, b': Bucket, all: Bucket) {
    && (forall key :: key in b ==> key in b' && b'[key] == b[key])
    && (forall key :: key in b' ==> key in all && all[key] == b'[key])
  }

  lemma NoNewMismatch(w: World, b: Bucket, b': Bucket, p: Plan)
    requires ValidPlan(p) && !Refuses(w, b, p) && Between(b, b', Uploads(w, b, p))
    ensures !Refuses(w, b', p)
    ensures Incomplete(w, b', p) == Incomplete(w, b, p)
  {
    UploadsAt(w, b, p);
    PlanNames(p);
    hide AssetKey, ValidPlan, Uploads;
    forall a | a in p.assets
      ensures !Verify(w, b', AssetKey(p, a), a.size, a.sha256).Mismatch?
      ensures AssetKey(p, a) in b' && AssetKey(p, a) !in b ==> FileMatches(w, a)
    {
      assert !Verify(w, b, AssetKey(p, a), a.size, a.sha256).Mismatch?;
      if AssetKey(p, a) in b' && AssetKey(p, a) !in b {
        var x :| x in Intact(w, p) && AssetKey(p, x) == AssetKey(p, a);
        AssetKeyInjective(p, x, a);
      }
    }
    if Incomplete(w, b, p) {
      var a :| a in p.assets && AssetKey(p, a) !in b && !FileMatches(w, a);
      assert AssetKey(p, a) !in b';
    }
    if Incomplete(w, b', p) {
      var a :| a in p.assets && AssetKey(p, a) !in b' && !FileMatches(w, a);
      assert AssetKey(p, a) !in b;
    }
  }

  lemma UploadedFrom(b: Bucket, b': Bucket, all: Bucket, p: Plan, done: iset<Asset>)
    requires Uploaded(b, all, p, done) && Between(b, b', all)
    ensures Uploaded(b', all, p, done)
  {
    hide AssetKey;
    forall key | key in all && key !in b' ensures exists a <- done :: AssetKey(p, a) == key {
      assert key !in b;
    }
  }

  lemma UploadsAgain(w: World, b: Bucket, b': Bucket, p: Plan)
    requires ValidPlan(p) && Between(b, b', Uploads(w, b, p))
    ensures Uploads(w, b', p) == Uploads(w, b, p)
  {
    hide *;
    UploadsAt(w, b, p);
    UploadsAt(w, b', p);
    UploadedFrom(b, b', Uploads(w, b, p), p, Intact(w, p));
    UploadedUnique(b', Uploads(w, b, p), Uploads(w, b', p), p, Intact(w, p));
  }

  lemma ResumeUploads(w: World, b: Bucket, b': Bucket, p: Plan)
    requires ValidPlan(p) && !Refuses(w, b, p) && Between(b, b', Uploads(w, b, p))
    ensures Finalize(w, b', p) == Finalize(w, b, p)
  {
    hide Refuses, Incomplete, Uploads, Between, ValidPlan;
    NoNewMismatch(w, b, b', p);
    UploadsAgain(w, b, b', p);
  }

  // ----- a bucket between two of the writes that follow -----

  function Overlay(b: Bucket, xs: seq<Write>): Bucket {
    if xs == [] then b else PutWrite(Overlay(b, xs[..|xs| - 1]), xs[|xs| - 1])
  }

  ghost predicate AgreeOff(b: Bucket, b': Bucket, xs: seq<Write>) {
    forall key :: (forall x <- xs :: x.key != key) ==> (key in b <==> key in b') && (key in b ==> b'[key] == b[key])
  }

  lemma {:induction false} OverlayAgrees(b: Bucket, xs: seq<Write>)
    ensures AgreeOff(b, Overlay(b, xs), xs)
  {
    if xs != [] {
      var front := xs[..|xs| - 1];
      OverlayAgrees(b, front);
      assert xs == front + [xs[|xs| - 1]];
    }
  }

  predicate AllOverwrite(xs: seq<Write>) {
    forall x <- xs :: x.overwrite
  }

  /** How many writes pass before one whose file fails validation. */
  function Passing(w: World, xs: seq<Write>): (m: nat)
    ensures m <= |xs|
    ensures forall i :: 0 <= i < m ==> Valued(w, xs[i])
    ensures m < |xs| ==> !Valued(w, xs[m])
    decreases |xs|
  {
    if xs == [] || !Valued(w, xs[0]) then 0 else 1 + Passing(w, xs[1..])
  }

  lemma {:induction false} OverlayFromFront(b: Bucket, xs: seq<Write>)
    requires xs != []
    ensures Overlay(b, xs) == Overlay(PutWrite(b, xs[0]), xs[1..])
    decreases |xs|
  {
    if |xs| == 1 {
      assert xs[..0] == [] && xs[1..] == [];
    } else {
      var front := xs[..|xs| - 1];
      OverlayFromFront(b, front);
      assert front[1..] == xs[1..][..|xs| - 2] && front[0] == xs[0];
    }
  }

  lemma {:induction false} WriteAllOverwrites(w: World, b: Bucket, xs: seq<Write>)
    requires AllOverwrite(xs)
    ensures WriteAll(w, b, xs) == (Overlay(b, xs[..Passing(w, xs)]), Passing(w, xs) == |xs|)
    decreases |xs|
  {
    var m := Passing(w, xs);
    if xs != [] && Valued(w, xs[0]) {
      WriteAllOverwrites(w, PutWrite(b, xs[0]), xs[1..]);
      assert xs[..m][0] == xs[0] && xs[..m][1..] == xs[1..][..m - 1];
      OverlayFromFront(b, xs[..m]);
    }
  }

  /** Overwriting forgets what the overwritten keys held. */
  lemma {:induction false} OverlayForgets(b: Bucket, b': Bucket, xs: seq<Write>)
    requires AllOverwrite(xs) && AgreeOff(b, b', xs)
    ensures Overlay(b, xs) == Overlay(b', xs)
    decreases |xs|
  {
    if xs == [] {
      assert b == b' by {
        forall key ensures (key in b <==> key in b') && (key in b ==> b'[key] == b[key]) {}
        assert b.Keys == b'.Keys;
      }
    } else {
      OverlayFromFront(b, xs);
      OverlayFromFront(b', xs);
      var x := xs[0];
      assert AgreeOff(PutWrite(b, x), PutWrite(b', x), xs[1..]) by {
        forall key | forall y <- xs[1..] :: y.key != key
          ensures (key in PutWrite(b, x) <==> key in PutWrite(b', x))
          ensures key in PutWrite(b, x) ==> PutWrite(b', x)[key] == PutWrite(b, x)[key]
        {
          if key != x.key {
            assert forall y <- xs :: y.key != key by {
              assert xs == [x] + xs[1..];
            }
          }
        }
      }
      OverlayForgets(PutWrite(b, x), PutWrite(b', x), xs[1..]);
    }
  }

  lemma AgreeOffMore(b: Bucket, b': Bucket, xs: seq<Write>, n: nat, m: nat)
    requires n <= m <= |xs| && AgreeOff(b, b', xs[..n])
    ensures AgreeOff(b, b', xs[..m])
  {
    forall key | forall x <- xs[..m] :: x.key != key ensures (key in b <==> key in b') && (key in b ==> b'[key] == b[key]) {
      forall x | x in xs[..n] ensures x.key != key {
        assert x in xs[..m] by {
          var i :| 0 <= i < n && xs[..n][i] == x;
          assert xs[..m][i] == x;
        }
      }
    }
  }

  lemma ResumeOverwrites(w: World, b: Bucket, xs: seq<Write>, n: nat)
    requires AllOverwrite(xs) && n <= Passing(w, xs)
    ensures WriteAll(w, Overlay(b, xs[..n]), xs) == WriteAll(w, b, xs)
  {
    var m := Passing(w, xs);
    var b' := Overlay(b, xs[..n]);
    WriteAllOverwrites(w, b, xs);
    WriteAllOverwrites(w, b', xs);
    OverlayAgrees(b, xs[..n]);
    AgreeOffMore(b, b', xs, n, m);
    OverlayForgets(b, b', xs[..m]);
  }

  /** The key belongs to no version. */
  predicate Unversioned(key: string) {
    |key| > 6 && key[6] != 'r'
  }

  lemma KeyRegions(version: string, name: string, channel: string, installer: string)
    ensures !Unversioned(ReleaseKey(version, name)) && Unversioned(ChannelKey(channel))
    ensures installer in INSTALLER_NAMES ==> Unversioned(InstallerKey(installer))
  {
    assert ReleaseKey(version, name)[6] == 'r' && ChannelKey(channel)[6] == 'c';
    if installer in INSTALLER_NAMES { assert InstallerKey(installer)[6] == 'i'; }
  }

  lemma LaterWrite(w: World, p: Plan, k: nat)
    requires 0 < k < |Writes(w, p)|
    ensures Writes(w, p)[k].overwrite && Unversioned(Writes(w, p)[k].key)
  {
    WritesAfterFirst(w, p, k);
    var x := Writes(w, p)[k];
    hide Writes, ReleaseKey, ChannelKey, InstallerKey, Unversioned, HasAsset, MetadataOf;
    if channel :| x == ChannelWrite(w, p, channel) {
      KeyRegions("", "", channel, "");
    } else {
      var name :| name in INSTALLER_NAMES && HasAsset(p.assets, name) && x == InstallerWrite(p, name);
      KeyRegions("", "", "", name);
    }
  }

  ghost predicate AllUnversioned(xs: seq<Write>) {
    forall x <- xs :: Unversioned(x.key)
  }

  lemma WritesShape(w: World, p: Plan)
    ensures |Writes(w, p)| > 0 && Writes(w, p)[0] == MetadataWrite(w, p) && Valued(w, Writes(w, p)[0])
    ensures AllOverwrite(Writes(w, p)[1..]) && AllUnversioned(Writes(w, p)[1..])
  {
    assert Writes(w, p)[0] == MetadataWrite(w, p);
    hide Writes, ReleaseKey, Unversioned;
    var xs := Writes(w, p)[1..];
    forall x | x in xs ensures x.overwrite && Unversioned(x.key) {
      var k :| 0 <= k < |xs| && xs[k] == x;
      LaterWrite(w, p, k + 1);
    }
  }

  ghost predicate MetadataMatches(w: World, b: Bucket, p: Plan) {
    CheckWrite(w, PutWrite(b, MetadataWrite(w, p)), MetadataWrite(w, p)).Match?
  }

  /** The bucket after all uploads and the first `n` of the writes. */
  ghost predicate Written(w: World, b: Bucket, b': Bucket, p: Plan, n: nat) {
    && n <= Passing(w, Writes(w, p))
    && b' == Overlay(Uploads(w, b, p), Writes(w, p)[..n])
    && (n > 1 ==> MetadataMatches(w, Uploads(w, b, p), p))
  }

  lemma ResumeWriteAll(w: World, b: Bucket, p: Plan, n: nat)
    requires n <= Passing(w, Writes(w, p))
    requires n > 1 ==> MetadataMatches(w, b, p)
    ensures WriteAll(w, Overlay(b, Writes(w, p)[..n]), Writes(w, p)) == WriteAll(w, b, Writes(w, p))
  {
    var xs := Writes(w, p);
    WritesShape(w, p);
    hide Writes;
    var b' := Overlay(b, xs[..n]);
    if n == 0 {
    } else {
      OverlayFromFront(b, xs[..n]);
      assert xs[..n][0] == xs[0] && xs[..n][1..] == xs[1..][..n - 1];
      var first := PutWrite(b, xs[0]);
      assert b' == Overlay(first, xs[1..][..n - 1]);
      if n == 1 {
        assert xs[1..][..0] == [];
      } else {
        MetadataStays(w, p, first, n - 1);
        ResumeOverwrites(w, first, xs[1..], n - 1);
      }
    }
  }

  /** Later writes leave a versioned object alone. */
  lemma VersionedStays(b: Bucket, xs: seq<Write>, n: nat, version: string, name: string)
    requires AllUnversioned(xs) && n <= |xs|
    ensures
      var (key, b') := (ReleaseKey(version, name), Overlay(b, xs[..n]));
      (key in b' <==> key in b) && (key in b ==> b'[key] == b[key])
  {
    var key := ReleaseKey(version, name);
    OverlayAgrees(b, xs[..n]);
    KeyRegions(version, name, "", "");
    hide ReleaseKey, Unversioned, Overlay;
    forall x | x in xs[..n] ensures x.key != key {
      assert x in xs;
    }
  }

  lemma MetadataStays(w: World, p: Plan, b: Bucket, n: nat)
    requires n < |Writes(w, p)| && MetadataKey(p.version) in b
    ensures
      var b' := Overlay(b, Writes(w, p)[1..][..n]);
      MetadataKey(p.version) in b' && b'[MetadataKey(p.version)] == b[MetadataKey(p.version)]
  {
    WritesShape(w, p);
    hide Writes, ReleaseKey;
    VersionedStays(b, Writes(w, p)[1..], n, p.version, METADATA_NAME);
  }

  lemma AssetsUntouched(w: World, p: Plan, b: Bucket, n: nat, a: Asset)
    requires ValidPlan(p) && n <= |Writes(w, p)| && a in p.assets
    ensures
      var b' := Overlay(b, Writes(w, p)[..n]);
      (AssetKey(p, a) in b' <==> AssetKey(p, a) in b) && (AssetKey(p, a) in b ==> b'[AssetKey(p, a)] == b[AssetKey(p, a)])
  {
    var xs := Writes(w, p);
    WritesShape(w, p);
    if n > 0 {
      var first := PutWrite(b, xs[0]);
      if MetadataKey(p.version) == AssetKey(p, a) { ReleaseKeyInjective(p.version, METADATA_NAME, p.version, a.name); }
      hide Writes, ReleaseKey, Overlay, AllUnversioned, AllOverwrite;
      OverlayFromFront(b, xs[..n]);
      assert xs[..n][0] == xs[0] && xs[..n][1..] == xs[1..][..n - 1];
      VersionedStays(first, xs[1..], n - 1, p.version, a.name);
    }
  }

  lemma BetweenAll(w: World, b: Bucket, p: Plan)
    requires ValidPlan(p)
    ensures Between(b, Uploads(w, b, p), Uploads(w, b, p))
  {
    UploadsAt(w, b, p);
    hide AssetKey, ValidPlan, Uploads;
  }

  lemma AfterWrites(w: World, b: Bucket, b': Bucket, p: Plan, n: nat)
    requires ValidPlan(p) && !Refuses(w, b, p) && !Incomplete(w, b, p) && Written(w, b, b', p, n)
    ensures !Refuses(w, b', p) && forall a <- p.assets :: AssetKey(p, a) in b'
  {
    hide Uploads, Uploaded, Between, AssetKey, ValidPlan;
    var all := Uploads(w, b, p);
    BetweenAll(w, b, p);
    NoNewMismatch(w, b, all, p);
    AllThere(w, b, p);
    hide AssetKey, ValidPlan, Uploads, Uploaded, Between, Writes, Overlay, Incomplete, Valued, MetadataMatches;
    forall a | a in p.assets
      ensures AssetKey(p, a) in b' && !Verify(w, b', AssetKey(p, a), a.size, a.sha256).Mismatch?
    {
      assert !Verify(w, all, AssetKey(p, a), a.size, a.sha256).Mismatch?;
      AssetsUntouched(w, p, all, n, a);
    }
  }

  lemma ResumeWrites(w: World, b: Bucket, b': Bucket, p: Plan, n: nat)
    requires ValidPlan(p) && !Refuses(w, b, p) && !Incomplete(w, b, p) && Written(w, b, b', p, n)
    ensures Finalize(w, b', p) == Finalize(w, b, p)
  {
    AfterWrites(w, b, b', p, n);
    NothingToUpload(w, b', p);
    assert !Incomplete(w, b', p);
    ResumeWriteAll(w, Uploads(w, b, p), p, n);
    hide Refuses, Incomplete, ValidPlan, Uploads, Overlay, Writes, WriteAll;
  }

  lemma AllThere(w: World, b: Bucket, p: Plan)
    requires ValidPlan(p) && !Incomplete(w, b, p)
    ensures forall a <- p.assets :: AssetKey(p, a) in Uploads(w, b, p)
  {
    UploadsAt(w, b, p);
    hide AssetKey, ValidPlan, Uploads;
  }

  lemma NothingToUpload(w: World, b: Bucket, p: Plan)
    requires ValidPlan(p) && forall a <- p.assets :: AssetKey(p, a) in b
    ensures Uploads(w, b, p) == b
  {
    UploadsAt(w, b, p);
    hide AssetKey, ValidPlan, Uploads;
    assert Uploaded(b, b, p, Intact(w, p));
    hide Uploaded;
    UploadedUnique(b, b, Uploads(w, b, p), p, Intact(w, p));
  }

  // ----- one run, step by step -----

  ghost predicate LookedOk(w: World, b: Bucket, p: Plan, looked: set<string>) {
    forall a <- p.assets :: a.name in looked ==> !Verify(w, b, AssetKey(p, a), a.size, a.sha256).Mismatch?
  }

  ghost predicate FoundOk(b: Bucket, p: Plan, found: set<string>) {
    forall a <- p.assets :: a.name in found ==> AssetKey(p, a) in b
  }

  ghost predicate UploadedOk(w: World, b: Bucket, p: Plan, uploaded: set<string>) {
    forall a <- p.assets :: a.name in uploaded ==> AssetKey(p, a) in b && FileMatches(w, a)
  }

  /** What the phase says of the bucket `b'`, for a single run started on `b`. */
  ghost predicate PhaseOk(w: World, b: Bucket, b': Bucket, p: Plan, phase: Phase) {
    match phase
    case Finding => b' == b
    case Publishing => !Refuses(w, b, p) && Between(b, b', Uploads(w, b, p))
    case Writing(k, put) =>
      && !Refuses(w, b, p) && !Incomplete(w, b, p)
      && k <= |Writes(w, p)| && (put ==> k < |Writes(w, p)|)
      && (k > 0 ==> MetadataMatches(w, Uploads(w, b, p), p))
      && Written(w, b, b', p, if put then k + 1 else k)
    case Stopped =>
      b' == b || (!Refuses(w, b, p) && !Incomplete(w, b, p) && exists n :: Written(w, b, b', p, n))
  }

  /** How far a single run started on bucket `b` has brought it. */
  ghost predicate Progress(w: World, b: Bucket, b': Bucket, p: Plan, r: Run) {
    && r.plan == p
    && LookedOk(w, b, p, r.looked) && FoundOk(b, p, r.found) && UploadedOk(w, b', p, r.uploaded)
    && r.checked <= r.uploaded
    && PhaseOk(w, b, b', p, r.phase)
  }

  lemma ProgressStart(w: World, b: Bucket, p: Plan)
    requires p.finalize
    ensures Progress(w, b, b, p, Fresh(p))
  {
  }

  lemma LookProgress(w: World, b: Bucket, b': Bucket, p: Plan, r: Run, e: Event)
    requires ValidPlan(p) && p.finalize && Progress(w, b, b', p, r) && e.Look?
    ensures var (r', b'') := StepRun(w, b', r, e); Progress(w, b, b'', p, r')
  {
    var (r', b'') := StepRun(w, b', r, e);
    PlanNames(p);
    hide AssetKey, ValidPlan, Refuses, Incomplete, Written, Between, UploadedOk;
    assert LookedOk(w, b, p, r'.looked) && FoundOk(b, p, r'.found);
  }

  /** An upload of an intact asset stays below all uploads. */
  lemma UploadBetween(w: World, b: Bucket, b': Bucket, p: Plan, a: Asset)
    requires ValidPlan(p) && Between(b, b', Uploads(w, b, p)) && a in p.assets && FileMatches(w, a)
    ensures Between(b, PutNew(b', AssetKey(p, a), a.file, a.sha256), Uploads(w, b, p))
  {
    hide AssetKey, ValidPlan, Uploads, Uploaded;
    UploadsAt(w, b, p);
    UploadedAt(b, Uploads(w, b, p), p, Intact(w, p), a);
    hide Intact, FileMatches;
  }

  lemma UploadedAt(b: Bucket, b': Bucket, p: Plan, done: iset<Asset>, a: Asset)
    requires Uploaded(b, b', p, done) && a in done
    ensures AssetKey(p, a) in b'
    ensures b'[AssetKey(p, a)] == if AssetKey(p, a) in b then b[AssetKey(p, a)] else Object(a.file, a.sha256, true)
  {
    hide AssetKey;
  }

  lemma PutNewUploadedOk(w: World, b: Bucket, p: Plan, uploaded: set<string>, a: Asset)
    requires ValidPlan(p) && UploadedOk(w, b, p, uploaded) && a in p.assets && FileMatches(w, a)
    ensures UploadedOk(w, PutNew(b, AssetKey(p, a), a.file, a.sha256), p, uploaded + {a.name})
  {
    PlanNames(p);
    hide AssetKey, ValidPlan, FileMatches;
  }

  lemma UploadProgress(w: World, b: Bucket, b': Bucket, p: Plan, r: Run, e: Event)
    requires ValidPlan(p) && p.finalize && Progress(w, b, b', p, r) && e.Upload?
    ensures var (r', b'') := StepRun(w, b', r, e); Progress(w, b, b'', p, r')
  {
    hide AssetKey, ValidPlan, Refuses, Incomplete, Written, Uploads, Between, PutNew, LookedOk, FoundOk, UploadedOk, FileMatches;
    if r.phase.Publishing? && e.a in p.assets && FileMatches(w, e.a) {
      UploadBetween(w, b, b', p, e.a);
      PutNewUploadedOk(w, b', p, r.uploaded, e.a);
    }
  }

  lemma CheckUploadProgress(w: World, b: Bucket, b': Bucket, p: Plan, r: Run, e: Event)
    requires ValidPlan(p) && p.finalize && Progress(w, b, b', p, r) && e.CheckUpload?
    ensures var (r', b'') := StepRun(w, b', r, e); Progress(w, b, b'', p, r')
  {
    hide AssetKey, ValidPlan, Refuses, Incomplete, Written, Between, Uploads, LookedOk, FoundOk, UploadedOk;
  }

  lemma AllUploaded(w: World, b: Bucket, b': Bucket, p: Plan)
    requires ValidPlan(p) && Between(b, b', Uploads(w, b, p)) && forall a <- p.assets :: AssetKey(p, a) in b'
    ensures b' == Uploads(w, b, p)
  {
    UploadsAt(w, b, p);
    var all := Uploads(w, b, p);
    hide AssetKey, ValidPlan, Uploads;
    forall key | key in all ensures key in b' {
      if key !in b {
        var a :| a in Intact(w, p) && AssetKey(p, a) == key;
      }
    }
    hide Uploaded;
    assert b'.Keys == all.Keys;
  }

  lemma AllInPlaceMeans(w: World, b: Bucket, b': Bucket, p: Plan, r: Run)
    requires Progress(w, b, b', p, r) && AllInPlace(r) && Between(b, b', Uploads(w, b, p))
    ensures forall a <- p.assets :: AssetKey(p, a) in b'
    ensures !Incomplete(w, b, p)
  {
    hide AssetKey, Refuses, Written, Uploads, FileMatches;
    forall a | a in p.assets ensures AssetKey(p, a) in b' && (AssetKey(p, a) in b || FileMatches(w, a)) {
      assert a.name in r.found || a.name in r.checked;
    }
  }

  lemma AdvanceProgress(w: World, b: Bucket, b': Bucket, p: Plan, r: Run, e: Event)
    requires ValidPlan(p) && p.finalize && Progress(w, b, b', p, r) && e.Advance?
    ensures var (r', b'') := StepRun(w, b', r, e); Progress(w, b, b'', p, r')
  {
    var (r', b'') := StepRun(w, b', r, e);
    if r.phase.Finding? && r'.phase.Publishing? {
      assert !Refuses(w, b, p);
      UploadsAt(w, b, p);
      assert Between(b, b, Uploads(w, b, p));
    } else if r.phase.Publishing? && r'.phase.Writing? {
      AllInPlaceMeans(w, b, b', p, r);
      AllUploaded(w, b, b', p);
      hide Uploads, Writes;
      assert Writes(w, p)[..0] == [];
    }
    hide AssetKey, ValidPlan, Uploads, Refuses, Incomplete, Uploaded, Between, LookedOk, FoundOk, UploadedOk, Writes, AllInPlace;
  }

  lemma PutWriteKeeps(w: World, b: Bucket, p: Plan, uploaded: set<string>, x: Write)
    requires UploadedOk(w, b, p, uploaded)
    ensures UploadedOk(w, PutWrite(b, x), p, uploaded)
  {
    hide AssetKey, FileMatches;
  }

  lemma WrittenNext(w: World, b: Bucket, b': Bucket, p: Plan, k: nat)
    requires Written(w, b, b', p, k) && k < |Writes(w, p)| && Valued(w, Writes(w, p)[k])
    requires k > 0 ==> MetadataMatches(w, Uploads(w, b, p), p)
    ensures Written(w, b, PutWrite(b', Writes(w, p)[k]), p, k + 1)
  {
    var xs := Writes(w, p);
    hide Writes, Uploads, MetadataMatches, PutWrite;
    assert xs[..k + 1][..k] == xs[..k] && xs[..k + 1][k] == xs[k];
    PassingFurther(w, xs, k);
  }

  lemma {:induction false} PassingFurther(w: World, xs: seq<Write>, k: nat)
    requires k <= Passing(w, xs) && k < |xs| && Valued(w, xs[k])
    ensures k + 1 <= Passing(w, xs)
  {
  }

  lemma PutNextProgress(w: World, b: Bucket, b': Bucket, p: Plan, r: Run, e: Event)
    requires ValidPlan(p) && p.finalize && Progress(w, b, b', p, r) && e.PutNext?
    ensures var (r', b'') := StepRun(w, b', r, e); Progress(w, b, b'', p, r')
  {
    hide ValidPlan, Uploads, Refuses, Incomplete, Writes, MetadataMatches, PutWrite, Written, LookedOk, FoundOk, UploadedOk;
    var xs := Writes(w, p);
    if r.phase.Writing? && !r.phase.put && r.phase.k < |xs| {
      var k := r.phase.k;
      assert Written(w, b, b', p, k);
      if Valued(w, xs[k]) {
        WrittenNext(w, b, b', p, k);
        PutWriteKeeps(w, b', p, r.uploaded, xs[k]);
      }
    }
  }

  lemma FirstWriteChecked(w: World, b: Bucket, b': Bucket, p: Plan)
    requires Written(w, b, b', p, 1) && CheckWrite(w, b', Writes(w, p)[0]).Match?
    ensures MetadataMatches(w, Uploads(w, b, p), p)
  {
    var xs := Writes(w, p);
    WritesShape(w, p);
    hide Writes, Uploads, PutWrite, CheckWrite;
    assert xs[..1][..0] == [] && xs[..1][0] == xs[0];
    assert Overlay(Uploads(w, b, p), xs[..1]) == PutWrite(Overlay(Uploads(w, b, p), xs[..1][..0]), xs[0]);
  }

  lemma CheckNextProgress(w: World, b: Bucket, b': Bucket, p: Plan, r: Run, e: Event)
    requires ValidPlan(p) && p.finalize && Progress(w, b, b', p, r) && e.CheckNext?
    ensures var (r', b'') := StepRun(w, b', r, e); Progress(w, b, b'', p, r')
  {
    hide ValidPlan, Uploads, Refuses, Incomplete, Writes, MetadataMatches, Written, CheckWrite, LookedOk, FoundOk, UploadedOk;
    if r.phase.Writing? && r.phase.put {
      var k := r.phase.k;
      assert Written(w, b, b', p, k + 1);
      if k == 0 && CheckWrite(w, b', Writes(w, p)[0]).Match? {
        FirstWriteChecked(w, b, b', p);
      }
    }
  }

  lemma StepProgress(w: World, b: Bucket, b': Bucket, p: Plan, r: Run, e: Event)
    requires ValidPlan(p) && p.finalize && Progress(w, b, b', p, r) && !e.Launch?
    ensures var (r', b'') := StepRun(w, b', r, e); Progress(w, b, b'', p, r')
  {
    hide Progress, StepRun, ValidPlan;
    match e
    case Look(_, _) => LookProgress(w, b, b', p, r, e);
    case Upload(_, _) => UploadProgress(w, b, b', p, r, e);
    case CheckUpload(_, _) => CheckUploadProgress(w, b, b', p, r, e);
    case Advance(_) => AdvanceProgress(w, b, b', p, r, e);
    case PutNext(_) => PutNextProgress(w, b, b', p, r, e);
    case CheckNext(_) => CheckNextProgress(w, b, b', p, r, e);
  }

  ghost predicate NoLaunches(es: seq<Event>) {
    forall e <- es :: !e.Launch?
  }

  lemma {:induction false} StepsProgress(w: World, b: Bucket, p: Plan, es: seq<Event>)
    requires ValidPlan(p) && p.finalize && NoLaunches(es)
    ensures
      var s := Steps(w, Sys(b, [Fresh(p)]), es);
      |s.runs| == 1 && Progress(w, b, s.bucket, p, s.runs[0])
    decreases |es|
  {
    hide Progress, StepRun, ValidPlan;
    if es == [] {
      ProgressStart(w, b, p);
    } else {
      var front := es[..|es| - 1];
      StepsProgress(w, b, p, front);
      var s := Steps(w, Sys(b, [Fresh(p)]), front);
      StepProgress(w, b, s.bucket, p, s.runs[0], es[|es| - 1]);
    }
  }

  lemma ResumeAnywhere(w: World, b: Bucket, b': Bucket, p: Plan, r: Run)
    requires ValidPlan(p) && Progress(w, b, b', p, r)
    ensures Finalize(w, b', p) == Finalize(w, b, p)
  {
    hide Finalize, ValidPlan, Refuses, Incomplete, Uploads, Between, Written, MetadataMatches, Writes;
    if b' == b {
    } else if r.phase.Publishing? {
      ResumeUploads(w, b, b', p);
    } else {
      var n :| Written(w, b, b', p, n);
      ResumeWrites(w, b, b', p, n);
    }
  }

  /**
   * A finalize run may be stopped after any of its steps, from any bucket: running it again, with the
   * same release metadata and downloads and no failing call, gives the bucket and the verdict that the
   * uninterrupted run would have given.
   */
  lemma Convergence(w: World, b: Bucket, p: Plan, es: seq<Event>)
    requires ValidPlan(p) && p.finalize && NoLaunches(es)
    ensures Finalize(w, Steps(w, Sys(b, [Fresh(p)]), es).bucket, p) == Finalize(w, b, p)
  {
    hide Progress, Finalize, ValidPlan, Step;
    StepsProgress(w, b, p, es);
    var s := Steps(w, Sys(b, [Fresh(p)]), es);
    ResumeAnywhere(w, b, s.bucket, p, s.runs[0]);
  }

  /** And the steps of a run that got through all its writes are the uninterrupted run. */
  lemma FinishedRun(w: World, b: Bucket, p: Plan, es: seq<Event>)
    requires ValidPlan(p) && p.finalize && NoLaunches(es)
    requires
      var s := Steps(w, Sys(b, [Fresh(p)]), es);
      |s.runs| == 1 && s.runs[0].phase == Writing(|Writes(w, p)|, false)
    ensures Finalize(w, b, p) == (Steps(w, Sys(b, [Fresh(p)]), es).bucket, !InstallersMissing(p))
  {
    hide ValidPlan, Steps, Refuses, Incomplete, Uploads, InstallersMissing, Writes, WriteAll;
    StepsProgress(w, b, p, es);
    WritesShape(w, p);
    AllWritten(w, b, Steps(w, Sys(b, [Fresh(p)]), es).bucket, p);
  }

  lemma AllWritten(w: World, b: Bucket, b': Bucket, p: Plan)
    requires Written(w, b, b', p, |Writes(w, p)|) && MetadataMatches(w, Uploads(w, b, p), p)
    ensures WriteAll(w, Uploads(w, b, p), Writes(w, p)) == (b', true)
  {
    var xs := Writes(w, p);
    var all := Uploads(w, b, p);
    WritesShape(w, p);
    hide Writes, Uploads;
    assert xs[..|xs|] == xs;
    OverlayFromFront(all, xs);
    var m := Passing(w, xs[1..]);
    assert Passing(w, xs) == 1 + m;
    assert xs[1..][..m] == xs[1..];
    WriteAllOverwrites(w, PutWrite(all, xs[0]), xs[1..]);
  }
}
