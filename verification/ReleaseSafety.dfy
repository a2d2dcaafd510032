/** Safety of publication over every interleaving of runs, each stopped wherever it likes. */
module ReleaseSafety {
  import opened Release

  /** Every object has a checksum, and its recorded digest is the digest of what it holds. */
  ghost predicate DigestsTrue(w: World, b: Bucket) {
    forall key <- b :: b[key].sha256 == w.sha(b[key].content) && b[key].checksummed
  }

  /** Versioned objects of `b` are still there, unchanged, in `b'`. */
  ghost predicate WriteOnce(b: Bucket, b': Bucket) {
    forall version, name :: ReleaseKey(version, name) in b ==>
      ReleaseKey(version, name) in b' && b'[ReleaseKey(version, name)] == b[ReleaseKey(version, name)]
  }

  ghost predicate InPlace(b: Bucket, p: Plan, a: Asset) {
    AssetKey(p, a) in b && b[AssetKey(p, a)].sha256 == a.sha256
  }

  ghost predicate MetadataInPlace(b: Bucket, p: Plan) {
    MetadataKey(p.version) in b && b[MetadataKey(p.version)].content == MetadataOf(p)
  }

  /** What a run has established about the bucket by the phase it is in. */
  ghost predicate RunOk(w: World, b: Bucket, r: Run) {
    && ValidPlan(r.plan)
    && (r.phase.Writing? ==> r.plan.finalize)
    && (r.plan.finalize ==> forall a <- r.plan.assets :: a.name in r.found || a.name in r.checked ==> InPlace(b, r.plan, a))
    && (r.phase.Writing? ==> forall a <- r.plan.assets :: InPlace(b, r.plan, a))
    && (r.phase.Writing? && r.phase.k > 0 ==> MetadataInPlace(b, r.plan))
  }

  ghost predicate ListedInPlace(b: Bucket, version: string, l: Listed) {
    ReleaseKey(version, l.name) in b && b[ReleaseKey(version, l.name)].sha256 == l.sha256
  }

  /** The document is the release.json of its version, and everything it lists is there with its digest. */
  ghost predicate Published(b: Bucket, content: Content) {
    && content.Metadata? && ValidVersion(content.version)
    && MetadataKey(content.version) in b && b[MetadataKey(content.version)].content == content
    && forall l <- content.assets :: ListedInPlace(b, content.version, l)
  }

  ghost predicate ChannelOk(b: Bucket, channel: string) {
    ChannelKey(channel) in b ==> Published(b, b[ChannelKey(channel)].content)
  }

  /** The bootstrap alias is the installer of a version whose release.json is published. */
  ghost predicate InstallerOk(b: Bucket, name: string) {
    InstallerKey(name) in b ==>
      exists version ::
        && ReleaseKey(version, name) in b && b[InstallerKey(name)] == b[ReleaseKey(version, name)]
        && MetadataKey(version) in b && Published(b, b[MetadataKey(version)].content)
        && b[MetadataKey(version)].content.Metadata? && b[MetadataKey(version)].content.version == version
  }

  ghost predicate BucketSafe(w: World, b: Bucket) {
    && DigestsTrue(w, b)
    && (forall channel :: ChannelOk(b, channel))
    && (forall name <- INSTALLER_NAMES :: InstallerOk(b, name))
  }

  ghost predicate Safe(w: World, s: Sys) {
    && BucketSafe(w, s.bucket)
    && forall r <- s.runs :: RunOk(w, s.bucket, r)
  }

  // ----- how a step may change the bucket -----

  lemma PutNewIsWriteOnce(b: Bucket, key: string, content: Content, sha256: string)
    ensures WriteOnce(b, PutNew(b, key, content, sha256))
  {
  }

  lemma PutElsewhereIsWriteOnce(b: Bucket, key: string, content: Content, sha256: string)
    requires forall version, name :: key != ReleaseKey(version, name)
    ensures WriteOnce(b, Put(b, key, content, sha256))
  {
  }

  lemma PublishedStays(b: Bucket, b': Bucket, content: Content)
    requires WriteOnce(b, b') && Published(b, content)
    ensures Published(b', content)
  {
    hide ReleaseKey;
    forall l | l in content.assets ensures ListedInPlace(b', content.version, l) {
      assert ListedInPlace(b, content.version, l);
    }
  }

  lemma RunOkStays(w: World, b: Bucket, b': Bucket, r: Run)
    requires WriteOnce(b, b') && RunOk(w, b, r)
    ensures RunOk(w, b', r)
  {
    hide ReleaseKey, MetadataOf, ValidPlan;
    forall a ensures InPlace(b, r.plan, a) ==> InPlace(b', r.plan, a) {}
  }

  lemma InstallerStays(b: Bucket, b': Bucket, name: string)
    requires WriteOnce(b, b') && InstallerOk(b, name)
    requires InstallerKey(name) in b' ==> InstallerKey(name) in b && b'[InstallerKey(name)] == b[InstallerKey(name)]
    ensures InstallerOk(b', name)
  {
    hide ReleaseKey, InstallerKey, Published;
    if InstallerKey(name) in b' {
      var version :|
        && ReleaseKey(version, name) in b && b[InstallerKey(name)] == b[ReleaseKey(version, name)]
        && MetadataKey(version) in b && Published(b, b[MetadataKey(version)].content)
        && b[MetadataKey(version)].content.Metadata? && b[MetadataKey(version)].content.version == version;
      PublishedStays(b, b', b[MetadataKey(version)].content);
    }
  }

  /** A put of a versioned key that was absent, with a true digest, keeps the bucket safe. */
  lemma VersionedPut(w: World, b: Bucket, version: string, name: string, content: Content)
    requires BucketSafe(w, b)
    ensures BucketSafe(w, PutNew(b, ReleaseKey(version, name), content, w.sha(content)))
    ensures WriteOnce(b, PutNew(b, ReleaseKey(version, name), content, w.sha(content)))
  {
    var key := ReleaseKey(version, name);
    var b' := PutNew(b, key, content, w.sha(content));
    PutNewIsWriteOnce(b, key, content, w.sha(content));
    forall channel ensures ChannelOk(b', channel) {
      KeyFamiliesApart(version, name, channel, "install.sh");
      assert ChannelOk(b, channel);
      if ChannelKey(channel) in b' { PublishedStays(b, b', b[ChannelKey(channel)].content); }
    }
    forall n | n in INSTALLER_NAMES ensures InstallerOk(b', n) {
      KeyFamiliesApart(version, name, "", n);
      InstallerStays(b, b', n);
    }
  }

  lemma MetadataPublished(w: World, b: Bucket, p: Plan)
    requires ValidPlan(p) && MetadataInPlace(b, p)
    requires forall a <- p.assets :: InPlace(b, p, a)
    ensures Published(b, MetadataOf(p))
  {
    hide ReleaseKey;
    var listed := ListedOf(p.assets);
    forall l | l in listed ensures ListedInPlace(b, p.version, l) {
      var i :| 0 <= i < |listed| && listed[i] == l;
      assert InPlace(b, p, p.assets[i]);
    }
  }

  lemma ChannelPut(w: World, b: Bucket, p: Plan, channel: string)
    requires BucketSafe(w, b) && ValidPlan(p) && MetadataInPlace(b, p)
    requires forall a <- p.assets :: InPlace(b, p, a)
    ensures BucketSafe(w, PutWrite(b, ChannelWrite(w, p, channel)))
    ensures WriteOnce(b, PutWrite(b, ChannelWrite(w, p, channel)))
  {
    var b' := PutWrite(b, ChannelWrite(w, p, channel));
    forall version, name ensures ChannelKey(channel) != ReleaseKey(version, name) {
      KeyFamiliesApart(version, name, channel, "install.sh");
    }
    PutElsewhereIsWriteOnce(b, ChannelKey(channel), MetadataOf(p), w.sha(MetadataOf(p)));
    MetadataPublished(w, b, p);
    hide Published, MetadataOf, ReleaseKey, ValidPlan, InPlace;
    forall c ensures ChannelOk(b', c) {
      assert ChannelOk(b, c);
      PublishedStays(b, b', MetadataOf(p));
      if ChannelKey(c) in b { PublishedStays(b, b', b[ChannelKey(c)].content); }
    }
    forall n | n in INSTALLER_NAMES ensures InstallerOk(b', n) {
      KeyFamiliesApart("", "", channel, n);
      InstallerStays(b, b', n);
    }
  }

  lemma InstallerPutWriteOnce(w: World, b: Bucket, p: Plan, name: string)
    requires name in INSTALLER_NAMES && HasAsset(p.assets, name)
    ensures WriteOnce(b, PutWrite(b, InstallerWrite(p, name)))
  {
    var a := AssetNamed(p.assets, name);
    forall version, n ensures InstallerKey(name) != ReleaseKey(version, n) { KeyFamiliesApart(version, n, "", name); }
    hide ReleaseKey, HasAsset;
    PutElsewhereIsWriteOnce(b, InstallerKey(name), a.file, a.sha256);
  }

  /** What lies under an asset's key is its file: their digests agree. */
  lemma AssetObject(w: World, b: Bucket, p: Plan, a: Asset)
    requires w.Ok() && DigestsTrue(w, b) && InPlace(b, p, a) && FileMatches(w, a)
    ensures b[AssetKey(p, a)] == Object(a.file, a.sha256, true)
  {
    hide ReleaseKey;
  }

  /** A put of one alias keeps the channels and the other alias. */
  lemma AliasPut(w: World, b: Bucket, name: string, content: Content)
    requires BucketSafe(w, b) && name in INSTALLER_NAMES
    requires var b' := Put(b, InstallerKey(name), content, w.sha(content)); WriteOnce(b, b') && InstallerOk(b', name)
    ensures BucketSafe(w, Put(b, InstallerKey(name), content, w.sha(content)))
  {
    hide Published, ReleaseKey, InstallerOk;
    var b' := Put(b, InstallerKey(name), content, w.sha(content));
    forall c ensures ChannelOk(b', c) {
      KeyFamiliesApart("", "", c, name);
      assert ChannelOk(b, c);
      if ChannelKey(c) in b { PublishedStays(b, b', b[ChannelKey(c)].content); }
    }
    hide WriteOnce, ChannelOk;
    forall n | n in INSTALLER_NAMES ensures InstallerOk(b', n) {
      if n != name {
        assert InstallerKey(n)[6..] == n && InstallerKey(name)[6..] == name;
        InstallerStays(b, b', n);
      }
    }
  }

  lemma InstallerPut(w: World, b: Bucket, p: Plan, name: string)
    requires w.Ok() && BucketSafe(w, b) && ValidPlan(p) && MetadataInPlace(b, p)
    requires forall a <- p.assets :: InPlace(b, p, a)
    requires name in INSTALLER_NAMES && HasAsset(p.assets, name)
    requires FileMatches(w, AssetNamed(p.assets, name))
    ensures BucketSafe(w, PutWrite(b, InstallerWrite(p, name)))
    ensures WriteOnce(b, PutWrite(b, InstallerWrite(p, name)))
  {
    var a := AssetNamed(p.assets, name);
    var b' := PutWrite(b, InstallerWrite(p, name));
    MetadataPublished(w, b, p);
    AssetObject(w, b, p, a);
    InstallerPutWriteOnce(w, b, p, name);
    hide Published, ReleaseKey, ValidPlan, InPlace, HasAsset, FileMatches, BucketSafe, InstallerKey;
    PublishedStays(b, b', MetadataOf(p));
    var key := ReleaseKey(p.version, name);
    assert key in b && b[key] == Object(a.file, a.sha256, true);
    assert key in b' && b'[key] == b[key];
    hide WriteOnce;
    assert InstallerOk(b', name);
    AliasPut(w, b, name, a.file);
  }

  // ----- steps -----

  lemma WritesAfterFirst(w: World, p: Plan, k: nat)
    requires 0 < k < |Writes(w, p)|
    ensures
      var x := Writes(w, p)[k];
      || (exists channel :: x == ChannelWrite(w, p, channel))
      || (exists name <- INSTALLER_NAMES :: HasAsset(p.assets, name) && x == InstallerWrite(p, name))
  {
    var installers := if p.prerelease then [] else [InstallerWrite(p, "install.sh"), InstallerWrite(p, "install.ps1")];
    var channels := ChannelWrites(w, p, Channels(p));
    assert Writes(w, p) == [MetadataWrite(w, p)] + installers + channels;
    if k <= |installers| {
      var name := INSTALLER_NAMES[k - 1];
      assert Writes(w, p)[k] == InstallerWrite(p, name);
    } else {
      assert Writes(w, p)[k] == channels[k - 1 - |installers|];
    }
  }

  /** One step of a run keeps the bucket safe and write-once, and the run true to its phase. */
  lemma StepRunSafe(w: World, b: Bucket, r: Run, e: Event)
    requires w.Ok() && BucketSafe(w, b) && RunOk(w, b, r) && !e.Launch?
    ensures
      var (r', b') := StepRun(w, b, r, e);
      BucketSafe(w, b') && WriteOnce(b, b') && RunOk(w, b', r')
  {
    hide BucketSafe, ReleaseKey, RunOk, StepRun, WriteOnce;
    match e
    case Upload(_, a) => UploadSafe(w, b, r, e);
    case PutNext(_) => PutNextSafe(w, b, r, e);
    case Look(_, a) => WriteOnceReflexive(b); LookSafe(w, b, r, e);
    case CheckUpload(_, a) => WriteOnceReflexive(b); CheckUploadSafe(w, b, r, e);
    case CheckNext(_) => WriteOnceReflexive(b); SafeDigests(w, b); CheckNextSafe(w, b, r, e);
    case Advance(_) => WriteOnceReflexive(b); AdvanceSafe(w, b, r, e);
  }

  lemma SafeDigests(w: World, b: Bucket)
    requires BucketSafe(w, b)
    ensures DigestsTrue(w, b)
  {
  }

  lemma LookSafe(w: World, b: Bucket, r: Run, e: Event)
    requires RunOk(w, b, r) && e.Look?
    ensures var (r', b') := StepRun(w, b, r, e); b' == b && RunOk(w, b, r')
  {
    NamedAsset(r.plan, e.a);
    hide ReleaseKey, ValidPlan, MetadataInPlace;
  }

  lemma CheckUploadSafe(w: World, b: Bucket, r: Run, e: Event)
    requires RunOk(w, b, r) && e.CheckUpload?
    ensures var (r', b') := StepRun(w, b, r, e); b' == b && RunOk(w, b, r')
  {
    NamedAsset(r.plan, e.a);
    hide ReleaseKey, ValidPlan, MetadataInPlace;
  }

  lemma AdvanceSafe(w: World, b: Bucket, r: Run, e: Event)
    requires RunOk(w, b, r) && e.Advance?
    ensures var (r', b') := StepRun(w, b, r, e); b' == b && RunOk(w, b, r')
  {
    hide ReleaseKey, ValidPlan, InPlace, MetadataInPlace;
  }

  lemma NamedAsset(p: Plan, a: Asset)
    requires ValidPlan(p)
    ensures forall x <- p.assets :: a in p.assets && x.name == a.name ==> x == a
  {
    forall x | x in p.assets && a in p.assets && x.name == a.name ensures x == a {
      var i :| 0 <= i < |p.assets| && p.assets[i] == x;
      var j :| 0 <= j < |p.assets| && p.assets[j] == a;
      AssetsDistinct(p, i, j);
    }
  }

  lemma UploadSafe(w: World, b: Bucket, r: Run, e: Event)
    requires BucketSafe(w, b) && RunOk(w, b, r) && e.Upload?
    ensures
      var (r', b') := StepRun(w, b, r, e);
      BucketSafe(w, b') && WriteOnce(b, b') && RunOk(w, b', r')
  {
    var (r', b') := StepRun(w, b, r, e);
    if b' != b {
      VersionedPut(w, b, r.plan.version, e.a.name, e.a.file);
    }
    hide BucketSafe, ReleaseKey, ValidPlan;
    RunOkStays(w, b, b', r);
  }

  lemma CheckNextSafe(w: World, b: Bucket, r: Run, e: Event)
    requires w.Ok() && DigestsTrue(w, b) && RunOk(w, b, r) && e.CheckNext?
    ensures
      var (r', b') := StepRun(w, b, r, e);
      b' == b && RunOk(w, b, r')
  {
    if r.phase.Writing? && r.phase.k == 0 {
      MetadataChecked(w, b, r.plan);
    }
    hide ValidPlan, ReleaseKey, MetadataInPlace, CheckWrite, Writes, InPlace;
  }

  /** release.json verified is release.json in place: digests tell documents apart. */
  lemma MetadataChecked(w: World, b: Bucket, p: Plan)
    requires w.Ok() && DigestsTrue(w, b)
    ensures CheckWrite(w, b, Writes(w, p)[0]).Match? ==> MetadataInPlace(b, p)
  {
    assert Writes(w, p)[0] == MetadataWrite(w, p);
    hide Writes, ReleaseKey;
  }

  /** The put of write number k, once everything before it is in place. */
  lemma WriteSafe(w: World, b: Bucket, p: Plan, k: nat)
    requires w.Ok() && BucketSafe(w, b) && ValidPlan(p) && k < |Writes(w, p)|
    requires forall a <- p.assets :: InPlace(b, p, a)
    requires k > 0 ==> MetadataInPlace(b, p)
    requires w.sha(Writes(w, p)[k].content) == Writes(w, p)[k].sha256
    requires w.size(Writes(w, p)[k].content) == Writes(w, p)[k].size
    ensures BucketSafe(w, PutWrite(b, Writes(w, p)[k])) && WriteOnce(b, PutWrite(b, Writes(w, p)[k]))
  {
    var x := Writes(w, p)[k];
    if k == 0 {
      assert x == MetadataWrite(w, p);
      hide BucketSafe, WriteOnce, ReleaseKey;
      VersionedPut(w, b, p.version, METADATA_NAME, MetadataOf(p));
    } else {
      WritesAfterFirst(w, p, k);
      hide BucketSafe, WriteOnce, ReleaseKey, Writes, InPlace, MetadataInPlace, ValidPlan, PutWrite, ChannelWrite;
      if channel :| x == ChannelWrite(w, p, channel) {
        ChannelPut(w, b, p, channel);
      } else {
        var name :| name in INSTALLER_NAMES && HasAsset(p.assets, name) && x == InstallerWrite(p, name);
        InstallerPut(w, b, p, name);
      }
    }
  }

  lemma PutNextSafe(w: World, b: Bucket, r: Run, e: Event)
    requires w.Ok() && BucketSafe(w, b) && RunOk(w, b, r) && e.PutNext?
    ensures
      var (r', b') := StepRun(w, b, r, e);
      BucketSafe(w, b') && WriteOnce(b, b') && RunOk(w, b', r')
  {
    hide BucketSafe, WriteOnce, InPlace, MetadataInPlace, ValidPlan, Writes, PutWrite, ReleaseKey;
    var (r', b') := StepRun(w, b, r, e);
    if b' != b {
      WriteSafe(w, b, r.plan, r.phase.k);
    } else {
      WriteOnceReflexive(b);
    }
    RunOkStays(w, b, b', r);
  }

  lemma StepSafe(w: World, s: Sys, e: Event)
    requires w.Ok() && Safe(w, s)
    requires e.Launch? ==> ValidPlan(e.plan)
    ensures Safe(w, Step(w, s, e)) && WriteOnce(s.bucket, Step(w, s, e).bucket)
  {
    hide BucketSafe, ValidPlan, ReleaseKey, StepRun;
    if e.Launch? {
      assert RunOk(w, s.bucket, Fresh(e.plan));
    } else if e.i < |s.runs| {
      var (r, b) := StepRun(w, s.bucket, s.runs[e.i], e);
      StepRunSafe(w, s.bucket, s.runs[e.i], e);
      hide RunOk, WriteOnce;
      var runs := s.runs[e.i := r];
      forall x | x in runs ensures RunOk(w, b, x) {
        var j :| 0 <= j < |runs| && runs[j] == x;
        if j != e.i {
          assert s.runs[j] == x;
          RunOkStays(w, s.bucket, b, x);
        }
      }
    }
  }

  lemma WriteOnceTransitive(a: Bucket, b: Bucket, c: Bucket)
    requires WriteOnce(a, b) && WriteOnce(b, c)
    ensures WriteOnce(a, c)
  {
    hide ReleaseKey;
  }

  ghost predicate PlansValid(es: seq<Event>) {
    forall e <- es :: e.Launch? ==> ValidPlan(e.plan)
  }

  lemma {:induction false} StepsSafe(w: World, s: Sys, es: seq<Event>)
    requires w.Ok() && Safe(w, s) && PlansValid(es)
    ensures Safe(w, Steps(w, s, es)) && WriteOnce(s.bucket, Steps(w, s, es).bucket)
    decreases |es|
  {
    hide Safe, Step, WriteOnce;
    if es != [] {
      var front := es[..|es| - 1];
      assert es == front + [es[|es| - 1]];
      StepsSafe(w, s, front);
      StepSafe(w, Steps(w, s, front), es[|es| - 1]);
      WriteOnceTransitive(s.bucket, Steps(w, s, front).bucket, Steps(w, s, es).bucket);
    } else {
      WriteOnceReflexive(s.bucket);
    }
  }

  lemma WriteOnceReflexive(b: Bucket)
    ensures WriteOnce(b, b)
  {
  }

  /**
   * Starting from an empty store, under any interleaving of any valid runs, each stopped anywhere: a
   * channel that exists holds the release.json of its version, every asset that document lists exists
   * under the version with exactly the listed digest, and the versioned objects never change again.
   */
  lemma PublicationSafety(w: World, es: seq<Event>, more: seq<Event>, channel: string)
    requires w.Ok() && PlansValid(es) && PlansValid(more)
    ensures
      var b := Steps(w, Sys(map[], []), es).bucket;
      var b' := Steps(w, Steps(w, Sys(map[], []), es), more).bucket;
      && WriteOnce(b, b')
      && (ChannelKey(channel) in b ==>
            var m := b[ChannelKey(channel)].content;
            && m.Metadata? && MetadataKey(m.version) in b && b[MetadataKey(m.version)].content == m
            && forall l <- m.assets ::
                 && ReleaseKey(m.version, l.name) in b
                 && b[ReleaseKey(m.version, l.name)].sha256 == l.sha256
                 && w.sha(b[ReleaseKey(m.version, l.name)].content) == l.sha256)
  {
    var s := Sys(map[], []);
    assert Safe(w, s);
    hide Step, WriteOnce, ReleaseKey, ValidPlan;
    StepsSafe(w, s, es);
    StepsSafe(w, Steps(w, s, es), more);
    var b := Steps(w, s, es).bucket;
    assert ChannelOk(b, channel);
    if ChannelKey(channel) in b {
      var m := b[ChannelKey(channel)].content;
      forall l | l in m.assets ensures
        && ReleaseKey(m.version, l.name) in b
        && b[ReleaseKey(m.version, l.name)].sha256 == l.sha256
        && w.sha(b[ReleaseKey(m.version, l.name)].content) == l.sha256
      {
        assert ListedInPlace(b, m.version, l);
      }
    }
  }

  /** The same for the bootstrap aliases: each is the installer of some version with a published release.json. */
  lemma InstallersComeFromReleases(w: World, es: seq<Event>, name: string)
    requires w.Ok() && PlansValid(es) && name in INSTALLER_NAMES
    ensures InstallerOk(Steps(w, Sys(map[], []), es).bucket, name)
  {
    var s := Sys(map[], []);
    assert Safe(w, s);
    hide Step, InstallerOk, ValidPlan, WriteOnce;
    StepsSafe(w, s, es);
  }
}
