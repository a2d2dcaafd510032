/**
 * Publishing a release to an object store (codex/.github/scripts/publish_r2_release.py): the keys,
 * the store, and the steps of several publication runs that interleave and may stop anywhere.
 */
module Release {
  import opened Ordering
  import opened Text

  // ----- objects and keys -----

  datatype Listed = Listed(name: string, sha256: string)

  /** What an object holds: a release file, or the metadata document of a version. */
  datatype Content = File(bytes: string) | Metadata(version: string, assets: seq<Listed>)

  /** The digest and the size of contents; digests tell contents apart. */
  datatype World = World(sha: Content -> string, size: Content -> nat) {
    ghost predicate Ok() {
      forall x, y :: sha(x) == sha(y) ==> x == y
    }
  }

  /**
   * An object, the sha256 its uploader recorded in its metadata, and whether the store has a CRC64NVME
   * checksum of it; every put of the program asks for one.
   */
  datatype Object = Object(content: Content, sha256: string, checksummed: bool)
  type Bucket = map<string, Object>

  const METADATA_NAME := "release.json"
  const INSTALLER_NAMES := ["install.sh", "install.ps1"]

  function ReleaseKey(version: string, name: string): string { "codex/releases/" + version + "/" + name }
  function MetadataKey(version: string): string { ReleaseKey(version, METADATA_NAME) }
  function ChannelKey(channel: string): string { "codex/channels/" + channel }
  function InstallerKey(name: string): string { "codex/" + name }

  /** Every version the release tags allow is made of these characters. */
  predicate VersionChar(c: char) {
    '0' <= c <= '9' || 'a' <= c <= 'z' || c == '.' || c == '-'
  }

  predicate ValidVersion(version: string) {
    version != "" && forall c <- version :: VersionChar(c)
  }

  lemma ReleaseKeyInjective(v: string, a: string, u: string, b: string)
    requires ValidVersion(v) && ValidVersion(u)
    requires ReleaseKey(v, a) == ReleaseKey(u, b)
    ensures v == u && a == b
  {
    var p := |"codex/releases/"|;
    assert ReleaseKey(v, a)[p..] == v + ['/'] + a && ReleaseKey(u, b)[p..] == u + ['/'] + b;
    assert !VersionChar('/');
    FirstSeparator(v, a, u, b, '/');
  }

  lemma KeyFamiliesApart(version: string, name: string, channel: string, installer: string)
    requires installer in INSTALLER_NAMES
    ensures ReleaseKey(version, name) != ChannelKey(channel)
    ensures ReleaseKey(version, name) != InstallerKey(installer)
    ensures ChannelKey(channel) != InstallerKey(installer)
  {
    assert ReleaseKey(version, name)[6] == 'r' && ChannelKey(channel)[6] == 'c' && InstallerKey(installer)[6] == 'i';
  }

  // ----- plans -----

  /** An asset as the release lists it, and the file a download of it yields. */
  datatype Asset = Asset(name: string, size: nat, sha256: string, file: Content)

  /** One invocation: its tag's version, the assets in order, and the three flags. */
  datatype Plan = Plan(version: string, assets: seq<Asset>, finalize: bool, prerelease: bool, makeLatest: bool)

  function Names(assets: seq<Asset>): (r: seq<seq<string>>)
    ensures |r| == |assets|
    ensures forall i :: 0 <= i < |r| ==> r[i] == [assets[i].name]
  {
    seq(|assets|, i requires 0 <= i < |assets| => [assets[i].name])
  }

  /** What get_release_metadata leaves: some assets, in strictly ascending order of name, none of them release.json. */
  ghost predicate ValidPlan(p: Plan) {
    && ValidVersion(p.version) && p.assets != []
    && StrictlySorted(Names(p.assets))
    && forall a <- p.assets :: a.name != METADATA_NAME
  }

  lemma AssetsDistinct(p: Plan, i: int, j: int)
    requires ValidPlan(p) && 0 <= i < |p.assets| && 0 <= j < |p.assets|
    requires p.assets[i].name == p.assets[j].name
    ensures i == j
  {
    SortedDistinct(Names(p.assets));
    assert Names(p.assets)[i] == Names(p.assets)[j];
  }

  function ListedOf(assets: seq<Asset>): (r: seq<Listed>)
    ensures |r| == |assets|
    ensures forall i :: 0 <= i < |r| ==> r[i] == Listed(assets[i].name, assets[i].sha256)
  {
    seq(|assets|, i requires 0 <= i < |assets| => Listed(assets[i].name, assets[i].sha256))
  }

  /** The release.json document, which also becomes the channel objects. */
  function MetadataOf(p: Plan): Content {
    Metadata(p.version, ListedOf(p.assets))
  }

  function AssetKey(p: Plan, a: Asset): string {
    ReleaseKey(p.version, a.name)
  }

  /** validate_asset: the file has the listed digest and size. */
  predicate FileMatches(w: World, a: Asset) {
    w.sha(a.file) == a.sha256 && w.size(a.file) == a.size
  }

  // ----- the store -----

  function Put(b: Bucket, key: string, content: Content, sha256: string): Bucket {
    b[key := Object(content, sha256, true)]
  }

  /** --no-overwrite: an existing object stays. */
  function PutNew(b: Bucket, key: string, content: Content, sha256: string): Bucket {
    if key in b then b else Put(b, key, content, sha256)
  }

  datatype Check = Missing | Mismatch | Match

  /** verify_remote: head-object against the expected size and digest, and for a checksum. */
  function Verify(w: World, b: Bucket, key: string, size: nat, sha256: string): Check {
    if key !in b then Missing
    else if w.size(b[key].content) == size && b[key].sha256 == sha256 && b[key].checksummed then Match
    else Mismatch
  }

  // ----- the writes after the assets -----

  /** One put followed by its verification. */
  datatype Write = Write(key: string, content: Content, sha256: string, size: nat, overwrite: bool)

  function MetadataWrite(w: World, p: Plan): Write {
    Write(MetadataKey(p.version), MetadataOf(p), w.sha(MetadataOf(p)), w.size(MetadataOf(p)), false)
  }

  function ChannelWrite(w: World, p: Plan, channel: string): Write {
    Write(ChannelKey(channel), MetadataOf(p), w.sha(MetadataOf(p)), w.size(MetadataOf(p)), true)
  }

  predicate HasAsset(assets: seq<Asset>, name: string) {
    exists a <- assets :: a.name == name
  }

  function AssetNamed(assets: seq<Asset>, name: string): (a: Asset)
    requires HasAsset(assets, name)
    ensures a in assets && a.name == name
  {
    if assets[0].name == name then assets[0] else AssetNamed(assets[1..], name)
  }

  function InstallerWrite(p: Plan, name: string): Write
    requires HasAsset(p.assets, name)
  {
    var a := AssetNamed(p.assets, name);
    Write(InstallerKey(name), a.file, a.sha256, a.size, true)
  }

  /** publish_installers refuses before its first put when an installer is not among the assets. */
  predicate InstallersMissing(p: Plan) {
    !p.prerelease && !(HasAsset(p.assets, "install.sh") && HasAsset(p.assets, "install.ps1"))
  }

  function Channels(p: Plan): seq<string> {
    (if p.makeLatest then ["latest"] else []) + (if p.prerelease then ["prerelease"] else [])
  }

  function ChannelWrites(w: World, p: Plan, channels: seq<string>): (r: seq<Write>)
    ensures |r| == |channels|
    ensures forall i :: 0 <= i < |r| ==> r[i] == ChannelWrite(w, p, channels[i])
  {
    seq(|channels|, i requires 0 <= i < |channels| => ChannelWrite(w, p, channels[i]))
  }

  /** Metadata first, then the installers of a stable release, and the channels last. */
  function Writes(w: World, p: Plan): seq<Write> {
    if InstallersMissing(p) then [MetadataWrite(w, p)]
    else
      [MetadataWrite(w, p)]
      + (if p.prerelease then [] else [InstallerWrite(p, "install.sh"), InstallerWrite(p, "install.ps1")])
      + ChannelWrites(w, p, Channels(p))
  }

  function PutWrite(b: Bucket, x: Write): Bucket {
    if x.overwrite then Put(b, x.key, x.content, x.sha256) else PutNew(b, x.key, x.content, x.sha256)
  }

  function CheckWrite(w: World, b: Bucket, x: Write): Check {
    Verify(w, b, x.key, x.size, x.sha256)
  }

  // ----- interleaved runs -----

  datatype Phase = Finding | Publishing | Writing(k: nat, put: bool) | Stopped

  /**
   * A run: its phase; the assets looked up and those found in place; the uploads made and checked;
   * and whether a worker has failed, after which the other workers may go on but the run does not.
   */
  datatype Run = Run(plan: Plan, phase: Phase, looked: set<string>, found: set<string>,
                     uploaded: set<string>, checked: set<string>, failed: bool)

  datatype Sys = Sys(bucket: Bucket, runs: seq<Run>)

  datatype Event =
    | Launch(plan: Plan)
    | Look(i: nat, a: Asset)
    | Upload(i: nat, a: Asset)
    | CheckUpload(i: nat, a: Asset)
    | Advance(i: nat)
    | PutNext(i: nat)
    | CheckNext(i: nat)

  /** A run of the assets stage uploads everything unseen; a finalize run first looks. */
  function Fresh(p: Plan): Run {
    Run(p, if p.finalize then Finding else Publishing, {}, {}, {}, {}, false)
  }

  predicate LookedAtAll(r: Run) {
    forall a <- r.plan.assets :: a.name in r.looked
  }

  predicate AllInPlace(r: Run) {
    forall a <- r.plan.assets :: a.name in r.found || a.name in r.checked
  }

  /** One step of one run: the run's next state, and the bucket's. */
  function StepRun(w: World, b: Bucket, r: Run, e: Event): (Run, Bucket)
    requires !e.Launch?
  {
    match e
    case Look(_, a) =>
      if r.phase.Finding? && a in r.plan.assets && a.name !in r.looked then
        match Verify(w, b, AssetKey(r.plan, a), a.size, a.sha256)
        case Missing => (r.(looked := r.looked + {a.name}), b)
        case Match => (r.(looked := r.looked + {a.name}, found := r.found + {a.name}), b)
        case Mismatch => (r.(phase := Stopped), b)
      else (r, b)
    case Upload(_, a) =>
      if r.phase.Publishing? && a in r.plan.assets && a.name !in r.found && a.name !in r.uploaded then
        if FileMatches(w, a) then
          (r.(uploaded := r.uploaded + {a.name}), PutNew(b, AssetKey(r.plan, a), a.file, a.sha256))
        else (r.(failed := true), b)
      else (r, b)
    case CheckUpload(_, a) =>
      if r.phase.Publishing? && r.plan.finalize && a in r.plan.assets && a.name in r.uploaded && a.name !in r.checked then
        if Verify(w, b, AssetKey(r.plan, a), a.size, a.sha256).Match? then (r.(checked := r.checked + {a.name}), b)
        else (r.(failed := true), b)
      else (r, b)
    case Advance(_) =>
      if r.phase.Finding? && LookedAtAll(r) then (r.(phase := Publishing), b)
      else if r.phase.Publishing? && r.plan.finalize && !r.failed && AllInPlace(r) then (r.(phase := Writing(0, false)), b)
      else (r, b)
    case PutNext(_) =>
      if r.phase.Writing? && !r.phase.put && r.phase.k < |Writes(w, r.plan)| then
        var x := Writes(w, r.plan)[r.phase.k];
        if !(w.sha(x.content) == x.sha256 && w.size(x.content) == x.size) then (r.(phase := Stopped), b)
        else (r.(phase := Writing(r.phase.k, true)), PutWrite(b, x))
      else (r, b)
    case CheckNext(_) =>
      if r.phase.Writing? && r.phase.put && r.phase.k < |Writes(w, r.plan)| then
        if CheckWrite(w, b, Writes(w, r.plan)[r.phase.k]).Match? then (r.(phase := Writing(r.phase.k + 1, false)), b)
        else (r.(phase := Stopped), b)
      else (r, b)
  }

  /** A stop at any point is a run that takes no further step. */
  function Step(w: World, s: Sys, e: Event): Sys {
    if e.Launch? then s.(runs := s.runs + [Fresh(e.plan)])
    else if e.i < |s.runs| then
      var (r, b) := StepRun(w, s.bucket, s.runs[e.i], e);
      Sys(b, s.runs[e.i := r])
    else s
  }

  function Steps(w: World, s: Sys, es: seq<Event>): Sys
    decreases |es|
  {
    if es == [] then s else Step(w, Steps(w, s, es[..|es| - 1]), es[|es| - 1])
  }
}
