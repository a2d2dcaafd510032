/**
 * Conformance reports, compact baselines, and the gate between them
 * (codex/scripts/mcp_conformance/run_codex_compliance.py).
 */
module ComplianceGate {
  import opened Json
  import opened Ordering
  import opened Text

  const MODES := ["2025-06-18", "2025-11-25", "2026-07-28"]
  const SHIPPING := "2025-06-18"
  const STDIO := "stdio"
  const HTTP := "official-http"
  const SOURCES := ["official", "harness", "supplemental"]
  const SCHEMA_VERSION := 4
  const BASELINE_KIND := "mcp-conformance-regression-baseline-v1"
  const REPOSITORY := "modelcontextprotocol/conformance"
  const GIT_REF := "49103de6ed70804e940637bf3e9e29e4a3f54e64"

  /** The pinned scenarios of each mode, authentication included, and the decimal digits of Unicode. */
  datatype Catalog = Catalog(scenarios: string -> seq<string>, decimal: char -> bool)

  /** A check: [mode, transport, source, scenario, check id]. */
  type Identity = seq<string>

  datatype Status = Pass | Fail | Skip

  function StatusOf(j: Json): Option<Status> {
    if j == Str("PASS") then Some(Pass)
    else if j == Str("FAIL") then Some(Fail)
    else if j == Str("SKIP") then Some(Skip)
    else None
  }

  datatype Problem = Problem(kind: string, about: seq<seq<string>>)
  datatype Scan = Scan(errors: seq<Problem>, identities: map<Identity, set<Status>>)

  function Err(s: Scan, kind: string, about: seq<seq<string>>): Scan {
    s.(errors := s.errors + [Problem(kind, about)])
  }

  function Statuses(ids: map<Identity, set<Status>>, id: Identity): set<Status> {
    if id in ids then ids[id] else {}
  }

  /** identities.setdefault(identity, set()).add(status) */
  function Add(ids: map<Identity, set<Status>>, id: Identity, status: Status): map<Identity, set<Status>> {
    ids[id := Statuses(ids, id) + {status}]
  }

  // ----- identities -----

  /** The index of the last '#', if there is one. */
  function LastHash(name: string): Option<nat> {
    if name == "" then None
    else if name[|name| - 1] == '#' then Some(|name| - 1)
    else LastHash(name[..|name| - 1])
  }

  /** A name without the arrival number the upstream runner appends. */
  function StableName(cat: Catalog, name: string): string {
    var at := LastHash(name);
    if at.Some? && 0 < at.value < |name| && at.value + 1 < |name| && forall c <- name[at.value + 1..] :: cat.decimal(c) then
      name[..at.value]
    else name
  }

  predicate MissingOrText(j: Json) {
    j.Null? || (j.Str? && j.text != "")
  }

  function CheckIdentity(cat: Catalog, mode: string, transport: string, check: Dict): Option<Identity> {
    var (source, scenario) := (Get(check, "source"), Get(check, "scenario"));
    var (name, id) := (Get(check, "name"), Get(check, "check_id"));
    if !(source.Str? && source.text in SOURCES) || !(name.Str? && name.text != "") || !MissingOrText(scenario) || !MissingOrText(id) then None
    else Some([mode, transport, source.text, if scenario.Str? then scenario.text else "",
               if id.Str? then id.text else StableName(cat, name.text)])
  }

  predicate WellFormed(id: Identity) {
    && |id| == 5 && id[0] in MODES && (id[1] == STDIO || id[1] == HTTP) && id[2] in SOURCES && id[4] != ""
  }

  /** The check runs a scenario of the official catalogue over HTTP. */
  predicate RunsScenario(id: Identity, mode: string) {
    |id| == 5 && id[0] == mode && id[1] == HTTP && (id[2] == "official" || id[2] == "harness")
  }

  // ----- what both forms must record -----

  function Official(report: Dict): Dict {
    if Get(report, "officialConformance").Obj? then Get(report, "officialConformance").fields else map[]
  }

  function Selected(report: Dict): Dict {
    if Get(Official(report), "scenarios").Obj? then Get(Official(report), "scenarios").fields else map[]
  }

  function ErrorIf(condition: bool, kind: string): seq<Problem> {
    if condition then [Problem(kind, [])] else []
  }

  function HeaderErrors(report: Dict): seq<Problem> {
    var version := Get(report, "versionCheck");
    var official := Get(report, "officialConformance");
    ErrorIf(!EqualsInt(Get(report, "schemaVersion"), SCHEMA_VERSION), "other report schema")
    + ErrorIf(!(version.Obj? && Get(version.fields, "success") == Bool(true)), "no successful version check")
    + ErrorIf(Get(report, "modernFeatureEnablement") != Bool(true), "modern feature not enabled")
    + if !official.Obj? then ErrorIf(true, "no official conformance metadata")
      else
        ErrorIf(Get(official.fields, "repository") != Str(REPOSITORY), "other upstream repository")
        + ErrorIf(Get(official.fields, "gitRef") != Str(GIT_REF), "other upstream revision")
        + ErrorIf(Get(official.fields, "authenticationIncluded") != Bool(true), "OAuth scenarios not included")
        + ErrorIf(!Get(official.fields, "scenarios").Obj?, "no versioned scenario catalog")
  }

  predicate CatalogComplete(cat: Catalog, selected: Dict, mode: string) {
    EqualsStrings(Get(selected, mode), cat.scenarios(mode))
  }

  function Singletons(names: set<string>): set<seq<string>> {
    set name | name in names :: [name]
  }

  function ObservationErrors(mode: string, expected: seq<string>, observed: set<string>): seq<Problem> {
    var wanted := set x | x in expected;
    (if wanted <= observed then [] else [Problem("scenarios not observed", [[mode]] + Sorted(Singletons(wanted - observed)))])
    + if observed <= wanted then [] else [Problem("unexpected scenarios", [[mode]] + Sorted(Singletons(observed - wanted)))]
  }

  // ----- a compact baseline -----

  function RecordIdentity(record: Json): Option<Identity> {
    if !record.Obj? then None
    else
      var (mode, transport) := (Get(record.fields, "mode"), Get(record.fields, "transport"));
      var (source, scenario, id) := (Get(record.fields, "source"), Get(record.fields, "scenario"), Get(record.fields, "check_id"));
      if mode.Str? && transport.Str? && source.Str? && scenario.Str? && id.Str?
         && WellFormed([mode.text, transport.text, source.text, scenario.text, id.text])
      then Some([mode.text, transport.text, source.text, scenario.text, id.text])
      else None
  }

  /** One record: malformed, a duplicate within its list, or one more status of its identity. */
  function RecordStep(status: Status, acc: (Scan, set<Identity>), record: Json): (Scan, set<Identity>) {
    var id := RecordIdentity(record);
    if id.None? then (Err(acc.0, "malformed baseline identity", []), acc.1)
    else if id.value in acc.1 then (Err(acc.0, "duplicate baseline identity", [id.value]), acc.1)
    else (acc.0.(identities := Add(acc.0.identities, id.value, status)), acc.1 + {id.value})
  }

  function Records(status: Status, s: Scan, records: seq<Json>): (Scan, set<Identity>) {
    if records == [] then (s, {})
    else RecordStep(status, Records(status, s, records[..|records| - 1]), records[|records| - 1])
  }

  function Bucket(status: Status, s: Scan, checks: Dict): Scan {
    var records := Get(checks, if status.Pass? then "passing" else "failing");
    if !records.Arr? then Err(s, "no baseline identities of this outcome", []) else Records(status, s, records.items).0
  }

  predicate BothTransports(j: Json) {
    j.Arr? && |j.items| == 2 && (set x | x in j.items) == {Str(STDIO), Str(HTTP)}
  }

  predicate HasCase(ids: map<Identity, set<Status>>, mode: string, transport: string) {
    exists id <- ids :: |id| == 5 && id[0] == mode && id[1] == transport
  }

  function Observed(ids: map<Identity, set<Status>>, mode: string): set<string> {
    set id | id in ids && RunsScenario(id, mode) :: id[3]
  }

  function CompactModeErrors(cat: Catalog, selected: Dict, ids: map<Identity, set<Status>>, mode: string): seq<Problem> {
    ErrorIf(!CatalogComplete(cat, selected, mode), "scenario catalog not complete")
    + ErrorIf(!HasCase(ids, mode, STDIO), "missing stdio case")
    + ErrorIf(!HasCase(ids, mode, HTTP), "missing official HTTP case")
    + ObservationErrors(mode, cat.scenarios(mode), Observed(ids, mode))
  }

  function AllModeErrors(cat: Catalog, selected: Dict, ids: map<Identity, set<Status>>): seq<Problem> {
    CompactModeErrors(cat, selected, ids, MODES[0]) + CompactModeErrors(cat, selected, ids, MODES[1])
    + CompactModeErrors(cat, selected, ids, MODES[2])
  }

  function CompactHeader(report: Dict): seq<Problem> {
    HeaderErrors(report)
    + ErrorIf(!EqualsStrings(Get(report, "requiredModes"), MODES), "other required modes")
    + ErrorIf(!BothTransports(Get(report, "transports")), "other transports")
  }

  function BothBuckets(s: Scan, checks: Dict): Scan {
    Bucket(Fail, Bucket(Pass, s, checks), checks)
  }

  function CompactScan(cat: Catalog, report: Dict): Scan {
    if Get(report, "baselineKind") != Str(BASELINE_KIND) then
      Scan(HeaderErrors(report) + ErrorIf(true, "unsupported baseline format"), map[])
    else
      var checks := Get(report, "checks");
      if !checks.Obj? then Scan(CompactHeader(report) + ErrorIf(true, "no baseline identities"), map[])
      else
        var s := BothBuckets(Scan(CompactHeader(report), map[]), checks.fields);
        s.(errors := s.errors + AllModeErrors(cat, Selected(report), s.identities))
  }

  // ----- a full report -----

  type Cases = map<seq<string>, Dict>

  /** Cases of other modes are passed over; a required one must be the only one of its transport. */
  function CaseStep(acc: (seq<Problem>, Cases), case_: Json): (seq<Problem>, Cases) {
    if !case_.Obj? then (acc.0 + ErrorIf(true, "malformed transport case"), acc.1)
    else
      var (mode, transport) := (Get(case_.fields, "mode"), Get(case_.fields, "transport"));
      if !(mode.Str? && mode.text in MODES) then acc
      else if !transport.Str? then (acc.0 + ErrorIf(true, "malformed required transport case"), acc.1)
      else if [mode.text, transport.text] in acc.1 then (acc.0 + ErrorIf(true, "duplicate transport case"), acc.1)
      else (acc.0, acc.1[[mode.text, transport.text] := case_.fields])
  }

  function CasesOf(errors: seq<Problem>, cases: seq<Json>): (seq<Problem>, Cases) {
    if cases == [] then (errors, map[])
    else CaseStep(CasesOf(errors, cases[..|cases| - 1]), cases[|cases| - 1])
  }

  /** The identity and status of a well-formed check. */
  function ReadCheck(cat: Catalog, mode: string, transport: string, check: Json): Option<(Identity, Status)> {
    if !check.Obj? then None
    else
      var id := CheckIdentity(cat, mode, transport, check.fields);
      var status := StatusOf(Get(check.fields, "status"));
      if id.Some? && status.Some? && Get(check.fields, "success") == Bool(!status.value.Fail?) then Some((id.value, status.value))
      else None
  }

  function CheckStep(cat: Catalog, mode: string, transport: string, acc: (Scan, set<string>), check: Json): (Scan, set<string>) {
    var read := ReadCheck(cat, mode, transport, check);
    if read.None? then (Err(acc.0, "malformed check", [[mode, transport]]), acc.1)
    else
      (acc.0.(identities := Add(acc.0.identities, read.value.0, read.value.1)),
       if RunsScenario(read.value.0, mode) then acc.1 + {read.value.0[3]} else acc.1)
  }

  function Checks(cat: Catalog, mode: string, transport: string, s: Scan, checks: seq<Json>): (Scan, set<string>) {
    if checks == [] then (s, {})
    else CheckStep(cat, mode, transport, Checks(cat, mode, transport, s, checks[..|checks| - 1]), checks[|checks| - 1])
  }

  function TransportScan(cat: Catalog, cases: Cases, s: Scan, mode: string, transport: string): Scan {
    if [mode, transport] !in cases then Err(s, "missing required case", [[mode, transport]])
    else
      var checks := Items(Get(cases[[mode, transport]], "checks"));
      if checks == [] then Err(s, "no checks", [[mode, transport]])
      else
        var (s', observed) := Checks(cat, mode, transport, s, checks);
        if transport == HTTP then s'.(errors := s'.errors + ObservationErrors(mode, cat.scenarios(mode), observed)) else s'
  }

  function ModeScan(cat: Catalog, selected: Dict, cases: Cases, s: Scan, mode: string): Scan {
    var s' := s.(errors := s.errors + ErrorIf(!CatalogComplete(cat, selected, mode), "scenario catalog not complete"));
    TransportScan(cat, cases, TransportScan(cat, cases, s', mode, STDIO), mode, HTTP)
  }

  function FullScan(cat: Catalog, report: Dict): Scan {
    var list := Get(report, "cases");
    var (errors, cases) := CasesOf(HeaderErrors(report) + ErrorIf(!list.Arr?, "no transport cases"), Items(list));
    var selected := Selected(report);
    ModeScan(cat, selected, cases,
      ModeScan(cat, selected, cases, ModeScan(cat, selected, cases, Scan(errors, map[]), MODES[0]), MODES[1]), MODES[2])
  }

  // ----- validation, compaction and the gate -----

  predicate IsCompact(report: Dict) { Get(report, "baselineKind") != Null }

  function Validate(cat: Catalog, report: Dict): Scan {
    if IsCompact(report) then CompactScan(cat, report) else FullScan(cat, report)
  }

  predicate Accepts(cat: Catalog, report: Dict) { Validate(cat, report).errors == [] }

  function Identities(cat: Catalog, report: Dict): map<Identity, set<Status>> { Validate(cat, report).identities }

  function With(ids: map<Identity, set<Status>>, status: Status): set<Identity> {
    set id | id in ids && status in ids[id]
  }

  function Shipping(ids: set<Identity>): set<Identity> {
    set id | id in ids && id != [] && id[0] == SHIPPING
  }

  predicate Compactable(cat: Catalog, report: Dict) {
    && Accepts(cat, report) && Get(report, "automaticAuthRequired").Bool?
    && Shipping(With(Identities(cat, report), Fail)) == {}
  }

  function Record(id: Identity): Json
    requires |id| == 5
  {
    Obj(map["mode" := Str(id[0]), "transport" := Str(id[1]), "source" := Str(id[2]), "scenario" := Str(id[3]), "check_id" := Str(id[4])])
  }

  function RecordsOf(ids: seq<Identity>): (r: seq<Json>)
    requires forall id <- ids :: |id| == 5
    ensures |r| == |ids| && forall i :: 0 <= i < |r| ==> r[i] == Record(ids[i])
  {
    seq(|ids|, i requires 0 <= i < |ids| => Record(ids[i]))
  }

  function ScenariosOf(selected: Dict): Json {
    Obj(map["2025-06-18" := Get(selected, MODES[0]), "2025-11-25" := Get(selected, MODES[1]), "2026-07-28" := Get(selected, MODES[2])])
  }

  function Document(auth: Json, scenarios: Json, passing: Json, failing: Json): Dict {
    map["baselineKind" := Str(BASELINE_KIND), "schemaVersion" := Num(SCHEMA_VERSION as real), "requiredModes" := Strings(MODES),
        "transports" := Strings([STDIO, HTTP]), "versionCheck" := Obj(map["success" := Bool(true)]),
        "modernFeatureEnablement" := Bool(true), "automaticAuthRequired" := auth,
        "officialConformance" := Obj(map["repository" := Str(REPOSITORY), "gitRef" := Str(GIT_REF),
                                         "authenticationIncluded" := Bool(true), "scenarios" := scenarios]),
        "checks" := Obj(map["passing" := passing, "failing" := failing])]
  }

  function CompactOf(ids: map<Identity, set<Status>>, auth: Json, selected: Dict): Dict
    requires forall id <- ids :: |id| == 5
  {
    Document(auth, ScenariosOf(selected), Arr(RecordsOf(Sorted(With(ids, Pass)))), Arr(RecordsOf(Sorted(With(ids, Fail)))))
  }

  function Compact(cat: Catalog, report: Dict): Option<Dict> {
    if !Compactable(cat, report) then None
    else
      ValidationWellFormed(cat, report);
      Some(CompactOf(Identities(cat, report), Get(report, "automaticAuthRequired"), Selected(report)))
  }

  /** The error list of the gate is these five parts one after the other. */
  datatype Verdict = Verdict(success: bool, baselineErrors: seq<Problem>, candidateErrors: seq<Problem>, policy: seq<Problem>,
                             shippingFailed: seq<Identity>, baselineShipping: seq<Identity>,
                             new_: seq<Identity>, missing: seq<Identity>, known: seq<Identity>, fixed: seq<Identity>)

  function PolicyErrors(baseline: Json, candidate: Json): seq<Problem> {
    if !baseline.Bool? || !candidate.Bool? then ErrorIf(true, "OAuth policy not recorded")
    else ErrorIf(baseline != candidate, "different OAuth policies")
  }

  function Missing(b: map<Identity, set<Status>>, c: map<Identity, set<Status>>): set<Identity> {
    (With(b, Pass) - With(c, Pass)) + (With(b, Fail) - With(c, Fail) - With(c, Pass))
  }

  function GateOf(b: Scan, c: Scan, policy: seq<Problem>): Verdict {
    var shippingFailed := Shipping(With(c.identities, Fail));
    var baselineShipping := Shipping(With(b.identities, Fail));
    var new_ := With(c.identities, Fail) - With(b.identities, Fail);
    var missing := Missing(b.identities, c.identities);
    var known := With(c.identities, Fail) * With(b.identities, Fail);
    var fixed := With(b.identities, Fail) - With(c.identities, Fail) - missing;
    Verdict(b.errors == [] && c.errors == [] && policy == [] && shippingFailed == {} && baselineShipping == {} && new_ == {} && missing == {},
            b.errors, c.errors, policy, Sorted(shippingFailed), Sorted(baselineShipping),
            Sorted(new_), Sorted(missing), Sorted(known), Sorted(fixed))
  }

  function Gate(cat: Catalog, candidate: Dict, baseline: Dict): Verdict {
    GateOf(Validate(cat, baseline), Validate(cat, candidate),
           PolicyErrors(Get(baseline, "automaticAuthRequired"), Get(candidate, "automaticAuthRequired")))
  }

  // ----- every identity a validation gathers is well formed and has a status -----

  predicate IdsOk(ids: map<Identity, set<Status>>) {
    forall id <- ids :: WellFormed(id) && ids[id] != {}
  }

  lemma AddOk(ids: map<Identity, set<Status>>, id: Identity, status: Status)
    requires IdsOk(ids) && WellFormed(id)
    ensures IdsOk(Add(ids, id, status))
  {
    hide WellFormed;
  }

  lemma CheckIdentityOk(cat: Catalog, mode: string, transport: string, check: Dict)
    requires mode in MODES && (transport == STDIO || transport == HTTP)
    ensures CheckIdentity(cat, mode, transport, check).Some? ==> WellFormed(CheckIdentity(cat, mode, transport, check).value)
    ensures CheckIdentity(cat, mode, transport, check).Some? ==> CheckIdentity(cat, mode, transport, check).value[..2] == [mode, transport]
  {
    hide Get;
  }

  lemma {:induction false} RecordsOk(status: Status, s: Scan, records: seq<Json>)
    requires IdsOk(s.identities)
    ensures IdsOk(Records(status, s, records).0.identities)
  {
    if records != [] {
      hide IdsOk, WellFormed, Add;
      RecordsOk(status, s, records[..|records| - 1]);
      var id := RecordIdentity(records[|records| - 1]);
      if id.Some? { AddOk(Records(status, s, records[..|records| - 1]).0.identities, id.value, status); }
    }
  }

  lemma BothBucketsOk(s: Scan, checks: Dict)
    requires IdsOk(s.identities)
    ensures IdsOk(BothBuckets(s, checks).identities)
  {
    hide IdsOk, Records, Get;
    RecordsOk(Pass, s, Items(Get(checks, "passing")));
    RecordsOk(Fail, Bucket(Pass, s, checks), Items(Get(checks, "failing")));
  }

  lemma CompactScanOk(cat: Catalog, report: Dict)
    ensures IdsOk(CompactScan(cat, report).identities)
  {
    assert IdsOk(map[]);
    hide IdsOk, HeaderErrors, CompactHeader, AllModeErrors, BothBuckets, Selected;
    var checks := Get(report, "checks");
    if checks.Obj? {
      BothBucketsOk(Scan(CompactHeader(report), map[]), checks.fields);
    }
  }

  /** The checks of one case: what they add, and the scenarios they show. */
  lemma {:induction false} ChecksOk(cat: Catalog, mode: string, transport: string, s: Scan, checks: seq<Json>)
    requires IdsOk(s.identities) && mode in MODES && (transport == STDIO || transport == HTTP)
    ensures
      var (s', observed) := Checks(cat, mode, transport, s, checks);
      && IdsOk(s'.identities)
      && s.identities.Keys <= s'.identities.Keys
      && (forall id <- s'.identities :: id in s.identities || (id[0] == mode && id[1] == transport && (RunsScenario(id, mode) ==> id[3] in observed)))
      && |s'.errors| >= |s.errors| && (|s'.errors| == |s.errors| ==> s'.errors == s.errors)
  {
    if checks != [] {
      ChecksOk(cat, mode, transport, s, checks[..|checks| - 1]);
      var before := Checks(cat, mode, transport, s, checks[..|checks| - 1]).0;
      var check := checks[|checks| - 1];
      if check.Obj? {
        CheckIdentityOk(cat, mode, transport, check.fields);
      }
      var read := ReadCheck(cat, mode, transport, check);
      if read.Some? {
        AddOk(before.identities, read.value.0, read.value.1);
        assert read.value.0[..2][0] == mode && read.value.0[..2][1] == transport;
      }
      hide CheckIdentity, WellFormed, StatusOf, Checks;
    }
  }

  /** What a transport's scan adds when nothing is wrong: only scenarios of the catalogue. */
  lemma TransportScanOk(cat: Catalog, cases: Cases, s: Scan, mode: string, transport: string)
    requires IdsOk(s.identities) && mode in MODES && (transport == STDIO || transport == HTTP)
    ensures
      var s' := TransportScan(cat, cases, s, mode, transport);
      && IdsOk(s'.identities)
      && |s'.errors| >= |s.errors|
      && (s'.errors == [] ==> forall id <- s'.identities :: id in s.identities || (id[0] == mode && id[1] == transport && (RunsScenario(id, mode) ==> id[3] in cat.scenarios(mode))))
  {
    if [mode, transport] in cases {
      var checks := Items(Get(cases[[mode, transport]], "checks"));
      ChecksOk(cat, mode, transport, s, checks);
      hide Checks, IdsOk, Sorted;
    }
  }

  ghost predicate ScenariosExpected(cat: Catalog, ids: map<Identity, set<Status>>) {
    forall id <- ids :: |id| == 5 && (RunsScenario(id, id[0]) ==> id[3] in cat.scenarios(id[0]))
  }

  lemma ModeScanOk(cat: Catalog, selected: Dict, cases: Cases, s: Scan, mode: string)
    requires IdsOk(s.identities) && mode in MODES
    ensures
      var s' := ModeScan(cat, selected, cases, s, mode);
      && IdsOk(s'.identities)
      && |s'.errors| >= |s.errors|
      && (s'.errors == [] && ScenariosExpected(cat, s.identities) ==> CatalogComplete(cat, selected, mode) && ScenariosExpected(cat, s'.identities))
  {
    var s1 := s.(errors := s.errors + ErrorIf(!CatalogComplete(cat, selected, mode), "scenario catalog not complete"));
    var s2 := TransportScan(cat, cases, s1, mode, STDIO);
    TransportScanOk(cat, cases, s1, mode, STDIO);
    TransportScanOk(cat, cases, s2, mode, HTTP);
    var s3 := TransportScan(cat, cases, s2, mode, HTTP);
    FiveEach(s3.identities);
    hide TransportScan, IdsOk, CatalogComplete;
  }

  lemma FiveEach(ids: map<Identity, set<Status>>)
    requires IdsOk(ids)
    ensures forall id <- ids :: |id| == 5
  {
    forall id | id in ids ensures |id| == 5 { assert WellFormed(id); }
  }

  lemma FullScanOk(cat: Catalog, report: Dict)
    ensures IdsOk(FullScan(cat, report).identities)
    ensures FullScan(cat, report).errors == [] ==>
      ScenariosExpected(cat, FullScan(cat, report).identities) && forall mode <- MODES :: CatalogComplete(cat, Selected(report), mode)
  {
    hide ModeScan, CatalogComplete, CasesOf, HeaderErrors, WellFormed;
    var list := Get(report, "cases");
    var (errors, cases) := CasesOf(HeaderErrors(report) + ErrorIf(!list.Arr?, "no transport cases"), Items(list));
    var selected := Selected(report);
    var s0 := Scan(errors, map[]);
    var s1 := ModeScan(cat, selected, cases, s0, MODES[0]);
    var s2 := ModeScan(cat, selected, cases, s1, MODES[1]);
    ModeScanOk(cat, selected, cases, s0, MODES[0]);
    ModeScanOk(cat, selected, cases, s1, MODES[1]);
    ModeScanOk(cat, selected, cases, s2, MODES[2]);
  }

  lemma ValidationWellFormed(cat: Catalog, report: Dict)
    ensures IdsOk(Identities(cat, report))
    ensures forall id <- Identities(cat, report) :: |id| == 5
  {
    hide CompactScan, FullScan, IdsOk;
    CompactScanOk(cat, report);
    FullScanOk(cat, report);
    FiveEach(Identities(cat, report));
  }
}
