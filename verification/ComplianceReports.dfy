/** What a validation gathers from a full report, and a report whose compact baseline is refused. */
module ComplianceReports {
  import opened Json
  import opened Ordering
  import opened Text
  import opened ComplianceGate
  import opened ComplianceBaseline

  /** Some check of the required case reads as this identity with this status. */
  ghost predicate Reports(cat: Catalog, cases: Cases, mode: string, transport: string, id: Identity, status: Status) {
    [mode, transport] in cases
    && exists check <- Items(Get(cases[[mode, transport]], "checks")) :: ReadCheck(cat, mode, transport, check) == Some((id, status))
  }

  ghost predicate Among(cat: Catalog, mode: string, transport: string, checks: seq<Json>, id: Identity, status: Status) {
    exists check <- checks :: ReadCheck(cat, mode, transport, check) == Some((id, status))
  }

  lemma AmongNext(cat: Catalog, mode: string, transport: string, checks: seq<Json>, id: Identity, status: Status)
    requires checks != []
    ensures Among(cat, mode, transport, checks, id, status) <==>
      || Among(cat, mode, transport, checks[..|checks| - 1], id, status)
      || ReadCheck(cat, mode, transport, checks[|checks| - 1]) == Some((id, status))
  {
    hide ReadCheck;
    assert checks == checks[..|checks| - 1] + [checks[|checks| - 1]];
    assert checks[|checks| - 1] in checks;
  }

  lemma {:induction false} ChecksStatuses(cat: Catalog, mode: string, transport: string, s: Scan, checks: seq<Json>, id: Identity, status: Status)
    ensures status in Statuses(Checks(cat, mode, transport, s, checks).0.identities, id) <==>
      status in Statuses(s.identities, id) || Among(cat, mode, transport, checks, id, status)
  {
    if checks != [] {
      ChecksStatuses(cat, mode, transport, s, checks[..|checks| - 1], id, status);
      AmongNext(cat, mode, transport, checks, id, status);
      hide ReadCheck, Among;
    }
  }

  lemma TransportStatuses(cat: Catalog, cases: Cases, s: Scan, mode: string, transport: string, id: Identity, status: Status)
    ensures status in Statuses(TransportScan(cat, cases, s, mode, transport).identities, id) <==>
      status in Statuses(s.identities, id) || Reports(cat, cases, mode, transport, id, status)
  {
    hide ReadCheck, Checks, ObservationErrors;
    if [mode, transport] in cases {
      var checks := Items(Get(cases[[mode, transport]], "checks"));
      ChecksStatuses(cat, mode, transport, s, checks, id, status);
      assert Among(cat, mode, transport, checks, id, status) <==> Reports(cat, cases, mode, transport, id, status);
    }
  }

  lemma ModeStatuses(cat: Catalog, selected: Dict, cases: Cases, s: Scan, mode: string, id: Identity, status: Status)
    ensures status in Statuses(ModeScan(cat, selected, cases, s, mode).identities, id) <==>
      || status in Statuses(s.identities, id)
      || Reports(cat, cases, mode, STDIO, id, status) || Reports(cat, cases, mode, HTTP, id, status)
  {
    hide TransportScan, Reports, CatalogComplete;
    var s1 := s.(errors := s.errors + ErrorIf(!CatalogComplete(cat, selected, mode), "scenario catalog not complete"));
    TransportStatuses(cat, cases, s1, mode, STDIO, id, status);
    TransportStatuses(cat, cases, TransportScan(cat, cases, s1, mode, STDIO), mode, HTTP, id, status);
  }

  lemma ReportsOwnCase(cat: Catalog, cases: Cases, mode: string, transport: string, id: Identity, status: Status)
    requires Reports(cat, cases, mode, transport, id, status) && mode in MODES && (transport == STDIO || transport == HTTP)
    ensures |id| == 5 && id[0] == mode && id[1] == transport && WellFormed(id)
  {
    var check :| check in Items(Get(cases[[mode, transport]], "checks")) && ReadCheck(cat, mode, transport, check) == Some((id, status));
    CheckIdentityOk(cat, mode, transport, check.fields);
    FiveFields(id);
    hide CheckIdentity, Get;
    assert id[..2][0] == mode && id[..2][1] == transport;
  }

  lemma FiveFields(id: Identity)
    ensures WellFormed(id) ==> |id| == 5
  {
  }

  /** The cases a validation reads from a full report. */
  function ReportCases(report: Dict): Cases {
    CasesOf(HeaderErrors(report) + ErrorIf(!Get(report, "cases").Arr?, "no transport cases"), Items(Get(report, "cases"))).1
  }

  /** Valid or not, a full report yields exactly the statuses its required cases report, identity by identity. */
  lemma FullReportStatuses(cat: Catalog, report: Dict, id: Identity, status: Status)
    requires !IsCompact(report)
    ensures status in Statuses(Identities(cat, report), id) <==>
      WellFormed(id) && |id| == 5 && Reports(cat, ReportCases(report), id[0], id[1], id, status)
  {
    var cases := ReportCases(report);
    var errors := CasesOf(HeaderErrors(report) + ErrorIf(!Get(report, "cases").Arr?, "no transport cases"), Items(Get(report, "cases"))).0;
    var selected := Selected(report);
    hide ModeScan, Reports, CasesOf, HeaderErrors, Selected, WellFormed;
    var s0 := Scan(errors, map[]);
    var s1 := ModeScan(cat, selected, cases, s0, MODES[0]);
    var s2 := ModeScan(cat, selected, cases, s1, MODES[1]);
    assert Identities(cat, report) == ModeScan(cat, selected, cases, s2, MODES[2]).identities;
    ModeStatuses(cat, selected, cases, s0, MODES[0], id, status);
    ModeStatuses(cat, selected, cases, s1, MODES[1], id, status);
    ModeStatuses(cat, selected, cases, s2, MODES[2], id, status);
    hide Validate, Identities;
    OwnCases(cat, cases, id, status);
  }

  lemma OwnCases(cat: Catalog, cases: Cases, id: Identity, status: Status)
    ensures (exists mode <- MODES :: Reports(cat, cases, mode, STDIO, id, status) || Reports(cat, cases, mode, HTTP, id, status)) <==>
      WellFormed(id) && |id| == 5 && Reports(cat, cases, id[0], id[1], id, status)
    ensures (exists mode <- MODES :: Reports(cat, cases, mode, STDIO, id, status) || Reports(cat, cases, mode, HTTP, id, status)) <==>
      || Reports(cat, cases, MODES[0], STDIO, id, status) || Reports(cat, cases, MODES[0], HTTP, id, status)
      || Reports(cat, cases, MODES[1], STDIO, id, status) || Reports(cat, cases, MODES[1], HTTP, id, status)
      || Reports(cat, cases, MODES[2], STDIO, id, status) || Reports(cat, cases, MODES[2], HTTP, id, status)
  {
    hide Reports;
    assert MODES[0] in MODES && MODES[1] in MODES && MODES[2] in MODES;
    assert forall mode <- MODES :: mode == MODES[0] || mode == MODES[1] || mode == MODES[2];
    forall mode, transport | mode in MODES && (transport == STDIO || transport == HTTP) && Reports(cat, cases, mode, transport, id, status)
      ensures WellFormed(id) && |id| == 5 && id[0] == mode && id[1] == transport
    {
      ReportsOwnCase(cat, cases, mode, transport, id, status);
    }
  }

  // ----- a valid report that only skips -----

  /** A skipped check of one scenario; a nameless scenario is written as no scenario. */
  function SkippedCheck(scenario: string): Json {
    Obj(map["source" := Str("official"), "scenario" := if scenario == "" then Null else Str(scenario),
            "name" := Str("skipped"), "check_id" := Str("skipped"), "status" := Str("SKIP"), "success" := Bool(true)])
  }

  /** A skipped check of no scenario, so that no case is without a check. */
  function SkippedExtra(): Json {
    Obj(map["source" := Str("supplemental"), "scenario" := Null,
            "name" := Str("skipped"), "check_id" := Str("skipped"), "status" := Str("SKIP"), "success" := Bool(true)])
  }

  /** One skipped check for each scenario, and the extra one. */
  function SkippedChecks(scenarios: seq<string>): (checks: seq<Json>)
    ensures checks != []
  {
    if scenarios == [] then [SkippedExtra()]
    else SkippedChecks(scenarios[..|scenarios| - 1]) + [SkippedCheck(scenarios[|scenarios| - 1])]
  }

  function SkippedCase(cat: Catalog, mode: string, transport: string): Json {
    Obj(map["mode" := Str(mode), "transport" := Str(transport), "checks" := Arr(SkippedChecks(cat.scenarios(mode)))])
  }

  /** The six required cases in order: [mode, transport]. */
  function RequiredKey(i: nat): (key: seq<string>)
    requires i < 6
    ensures |key| == 2 && key[0] in MODES && (key[1] == STDIO || key[1] == HTTP)
  {
    [MODES[i / 2], if i % 2 == 0 then STDIO else HTTP]
  }

  lemma RequiredKeysApart(i: nat, j: nat)
    requires i < 6 && j < 6 && RequiredKey(i) == RequiredKey(j)
    ensures i == j
  {
    assert RequiredKey(i)[0] == MODES[i / 2] && RequiredKey(j)[0] == MODES[j / 2];
    assert RequiredKey(i)[1] == RequiredKey(j)[1] && |STDIO| != |HTTP|;
    assert i % 2 == j % 2;
    ModesApart(i / 2, j / 2);
  }

  lemma ModesApart(i: nat, j: nat)
    requires i < 3 && j < 3 && MODES[i] == MODES[j]
    ensures i == j
  {
    assert MODES[0][3] == '5' && MODES[1][3] == '5' && MODES[2][3] == '6' && MODES[0][5] == '0' && MODES[1][5] == '1';
  }

  lemma RequiredKeyOf(mode: string) returns (i: nat)
    requires mode in MODES
    ensures i < 3 && RequiredKey(2 * i) == [mode, STDIO] && RequiredKey(2 * i + 1) == [mode, HTTP]
  {
    i :| i < 3 && MODES[i] == mode;
  }

  function SkippedCases(cat: Catalog): (r: seq<Json>)
    ensures |r| == 6 && forall i :: 0 <= i < 6 ==> r[i] == SkippedCase(cat, RequiredKey(i)[0], RequiredKey(i)[1])
  {
    seq(6, i requires 0 <= i < 6 => SkippedCase(cat, RequiredKey(i)[0], RequiredKey(i)[1]))
  }

  /** The complete catalogue, as the report records it. */
  function AllScenarios(cat: Catalog): Dict {
    map["2025-06-18" := Strings(cat.scenarios(MODES[0])), "2025-11-25" := Strings(cat.scenarios(MODES[1])),
        "2026-07-28" := Strings(cat.scenarios(MODES[2]))]
  }

  /** Every required case is there, and every check in it was skipped. */
  function SkippedReport(cat: Catalog): Dict {
    Document(Bool(false), Obj(AllScenarios(cat)), Null, Null)["baselineKind" := Null]["cases" := Arr(SkippedCases(cat))]
  }

  lemma SkippedCheckReads(cat: Catalog, mode: string, transport: string, scenario: string)
    ensures ReadCheck(cat, mode, transport, SkippedCheck(scenario)) == Some(([mode, transport, "official", scenario, "skipped"], Skip))
  {
    var fields := SkippedCheck(scenario).fields;
    assert Get(fields, "source") == Str("official") && Get(fields, "scenario") == if scenario == "" then Null else Str(scenario);
    assert Get(fields, "name") == Str("skipped") && Get(fields, "check_id") == Str("skipped");
    assert Get(fields, "status") == Str("SKIP") && Get(fields, "success") == Bool(true);
    hide Get, SkippedCheck;
  }

  lemma SkippedExtraReads(cat: Catalog, mode: string, transport: string)
    ensures ReadCheck(cat, mode, transport, SkippedExtra()) == Some(([mode, transport, "supplemental", "", "skipped"], Skip))
  {
    var fields := SkippedExtra().fields;
    assert Get(fields, "source") == Str("supplemental") && Get(fields, "scenario") == Null;
    assert Get(fields, "name") == Str("skipped") && Get(fields, "check_id") == Str("skipped");
    assert Get(fields, "status") == Str("SKIP") && Get(fields, "success") == Bool(true);
    hide Get, SkippedExtra;
  }

  lemma ChecksAppend(cat: Catalog, mode: string, transport: string, s: Scan, checks: seq<Json>, check: Json)
    ensures Checks(cat, mode, transport, s, checks + [check]) ==
      CheckStep(cat, mode, transport, Checks(cat, mode, transport, s, checks), check)
  {
    hide CheckStep;
    assert (checks + [check])[..|checks + [check]| - 1] == checks;
  }

  lemma SkippedStepScan(cat: Catalog, mode: string, transport: string, acc: (Scan, set<string>), scenario: string)
    ensures
      var (s', observed) := CheckStep(cat, mode, transport, acc, SkippedCheck(scenario));
      s'.errors == acc.0.errors && (transport == HTTP ==> observed == acc.1 + {scenario})
  {
    SkippedCheckReads(cat, mode, transport, scenario);
    hide ReadCheck, SkippedCheck, Add;
  }

  lemma SkippedExtraScan(cat: Catalog, mode: string, transport: string, s: Scan)
    ensures
      var (s', observed) := Checks(cat, mode, transport, s, [SkippedExtra()]);
      s'.errors == s.errors && observed == {}
  {
    ChecksAppend(cat, mode, transport, s, [], SkippedExtra());
    assert [] + [SkippedExtra()] == [SkippedExtra()];
    SkippedExtraReads(cat, mode, transport);
    hide ReadCheck, SkippedExtra, Add;
    assert "supplemental" != "official" && "supplemental" != "harness";
  }

  /** The scan of the skipped checks finds nothing wrong, and over HTTP it sees exactly the scenarios. */
  lemma {:induction false} SkippedChecksScan(cat: Catalog, mode: string, transport: string, s: Scan, scenarios: seq<string>)
    ensures
      var (s', observed) := Checks(cat, mode, transport, s, SkippedChecks(scenarios));
      s'.errors == s.errors && (transport == HTTP ==> observed == set x | x in scenarios)
  {
    hide Checks, CheckStep, SkippedCheck, SkippedExtra;
    if scenarios == [] {
      SkippedExtraScan(cat, mode, transport, s);
    } else {
      var front, last := scenarios[..|scenarios| - 1], scenarios[|scenarios| - 1];
      SkippedChecksScan(cat, mode, transport, s, front);
      ChecksAppend(cat, mode, transport, s, SkippedChecks(front), SkippedCheck(last));
      SkippedStepScan(cat, mode, transport, Checks(cat, mode, transport, s, SkippedChecks(front)), last);
      assert scenarios == front + [last];
    }
  }

  /** Every one of them reads as skipped. */
  lemma {:induction false} SkippedChecksRead(cat: Catalog, mode: string, transport: string, scenarios: seq<string>)
    ensures forall check <- SkippedChecks(scenarios) ::
      ReadCheck(cat, mode, transport, check).Some? && ReadCheck(cat, mode, transport, check).value.1 == Skip
  {
    if scenarios == [] {
      SkippedExtraReads(cat, mode, transport);
    } else {
      SkippedChecksRead(cat, mode, transport, scenarios[..|scenarios| - 1]);
      SkippedCheckReads(cat, mode, transport, scenarios[|scenarios| - 1]);
      hide ReadCheck, SkippedCheck;
    }
  }

  lemma SkippedTransport(cat: Catalog, cases: Cases, s: Scan, mode: string, transport: string)
    requires HoldsSkip(cat, cases, mode, transport)
    ensures TransportScan(cat, cases, s, mode, transport).errors == s.errors
  {
    SkippedChecksScan(cat, mode, transport, s, cat.scenarios(mode));
    hide Checks, SkippedChecks;
  }

  lemma SkippedMode(cat: Catalog, selected: Dict, cases: Cases, s: Scan, mode: string)
    requires Get(selected, mode) == Strings(cat.scenarios(mode))
    requires HoldsSkip(cat, cases, mode, STDIO) && HoldsSkip(cat, cases, mode, HTTP)
    ensures ModeScan(cat, selected, cases, s, mode).errors == s.errors
  {
    hide TransportScan, SkippedChecks, HoldsSkip;
    var s1 := s.(errors := s.errors + ErrorIf(!CatalogComplete(cat, selected, mode), "scenario catalog not complete"));
    assert s1.errors == s.errors;
    SkippedTransport(cat, cases, s1, mode, STDIO);
    SkippedTransport(cat, cases, TransportScan(cat, cases, s1, mode, STDIO), mode, HTTP);
  }

  lemma SkippedCaseFields(cat: Catalog, mode: string, transport: string)
    ensures SkippedCase(cat, mode, transport).Obj?
    ensures
      var fields := SkippedCase(cat, mode, transport).fields;
      Get(fields, "mode") == Str(mode) && Get(fields, "transport") == Str(transport) && Get(fields, "checks") == Arr(SkippedChecks(cat.scenarios(mode)))
  {
    hide SkippedChecks;
  }

  lemma SkippedStep(cat: Catalog, errors: seq<Problem>, cases: Cases, mode: string, transport: string)
    requires mode in MODES && [mode, transport] !in cases
    ensures CaseStep((errors, cases), SkippedCase(cat, mode, transport)) == (errors, cases[[mode, transport] := SkippedCase(cat, mode, transport).fields])
  {
    SkippedCaseFields(cat, mode, transport);
    hide SkippedCase, Get;
  }

  /** The first `n` required cases, each with its skipped check. */
  ghost predicate SkippedThrough(cat: Catalog, cases: Cases, n: nat)
    requires n <= 6
  {
    && (forall i :: 0 <= i < n ==> RequiredKey(i) in cases)
    && (forall key <- cases :: |key| == 2 && cases[key] == SkippedCase(cat, key[0], key[1]).fields && exists i :: 0 <= i < n && RequiredKey(i) == key)
  }

  lemma SkippedOneMore(cat: Catalog, cases: Cases, n: nat)
    requires n < 6 && SkippedThrough(cat, cases, n)
    ensures RequiredKey(n) !in cases
    ensures SkippedThrough(cat, cases[RequiredKey(n) := SkippedCase(cat, RequiredKey(n)[0], RequiredKey(n)[1]).fields], n + 1)
  {
    hide RequiredKey, SkippedCase;
    if RequiredKey(n) in cases {
      var i :| 0 <= i < n && RequiredKey(i) == RequiredKey(n);
      RequiredKeysApart(i, n);
    }
  }

  lemma {:induction false} SkippedCasesRead(cat: Catalog, errors: seq<Problem>, n: nat)
    requires n <= 6
    ensures CasesOf(errors, SkippedCases(cat)[..n]).0 == errors && SkippedThrough(cat, CasesOf(errors, SkippedCases(cat)[..n]).1, n)
  {
    hide RequiredKey, SkippedCase, SkippedThrough, CaseStep;
    if n == 0 {
      NoneSkipped(cat);
    } else {
      SkippedCasesRead(cat, errors, n - 1);
      var cs := SkippedCases(cat)[..n];
      assert cs[..n - 1] == SkippedCases(cat)[..n - 1];
      var before := CasesOf(errors, cs[..n - 1]).1;
      var key := RequiredKey(n - 1);
      assert key == [key[0], key[1]];
      SkippedOneMore(cat, before, n - 1);
      SkippedStep(cat, errors, before, key[0], key[1]);
    }
  }

  lemma NoneSkipped(cat: Catalog)
    ensures SkippedThrough(cat, map[], 0)
  {
  }

  lemma UpdatedField(d: Dict, key: string, value: Json, other: string)
    ensures Get(d[key := value], key) == value
    ensures other != key ==> Get(d[key := value], other) == Get(d, other)
  {
  }

  lemma SkippedReportFields(cat: Catalog, key: string)
    ensures Get(SkippedReport(cat), "cases") == Arr(SkippedCases(cat)) && Get(SkippedReport(cat), "baselineKind") == Null
    ensures key != "baselineKind" && key != "cases" ==>
      Get(SkippedReport(cat), key) == Get(Document(Bool(false), Obj(AllScenarios(cat)), Null, Null), key)
  {
    hide Document, AllScenarios, SkippedCases, Get;
    var d := Document(Bool(false), Obj(AllScenarios(cat)), Null, Null);
    UpdatedField(d, "baselineKind", Null, key);
    UpdatedField(d["baselineKind" := Null], "cases", Arr(SkippedCases(cat)), key);
    UpdatedField(d["baselineKind" := Null], "cases", Arr(SkippedCases(cat)), "baselineKind");
  }

  lemma SkippedReportHeader(cat: Catalog)
    ensures HeaderErrors(SkippedReport(cat)) == [] && Selected(SkippedReport(cat)) == AllScenarios(cat)
    ensures Get(SkippedReport(cat), "automaticAuthRequired") == Bool(false)
  {
    hide *;
    SkippedReportFields(cat, "schemaVersion");
    SkippedReportFields(cat, "modernFeatureEnablement");
    SkippedReportFields(cat, "versionCheck");
    SkippedReportFields(cat, "officialConformance");
    SkippedReportFields(cat, "automaticAuthRequired");
    DocumentFields(Bool(false), Obj(AllScenarios(cat)), Null, Null);
    DocumentParts(Bool(false), Obj(AllScenarios(cat)), Null, Null);
    DocumentOfficial(Bool(false), Obj(AllScenarios(cat)), Null, Null);
    DocumentHeader(SkippedReport(cat));
    SelectedIs(SkippedReport(cat), Obj(AllScenarios(cat)));
  }

  /** The case is there and holds the one skipped check. */
  ghost predicate HoldsSkip(cat: Catalog, cases: Cases, mode: string, transport: string) {
    [mode, transport] in cases && Get(cases[[mode, transport]], "checks") == Arr(SkippedChecks(cat.scenarios(mode)))
  }

  lemma SkippedCasesAll(cat: Catalog)
    ensures
      var (errors, cases) := CasesOf([], SkippedCases(cat));
      && errors == []
      && (forall mode <- MODES :: HoldsSkip(cat, cases, mode, STDIO) && HoldsSkip(cat, cases, mode, HTTP))
      && (forall mode, transport :: [mode, transport] in cases ==> HoldsSkip(cat, cases, mode, transport))
  {
    SkippedCasesRead(cat, [], 6);
    assert SkippedCases(cat)[..6] == SkippedCases(cat);
    var cases := CasesOf([], SkippedCases(cat)).1;
    hide CasesOf, SkippedCases, SkippedCase, SkippedChecks, Get, RequiredKey;
    forall mode, transport | [mode, transport] in cases ensures HoldsSkip(cat, cases, mode, transport) {
      assert [mode, transport][0] == mode && [mode, transport][1] == transport;
      SkippedCaseFields(cat, mode, transport);
    }
    hide HoldsSkip;
    forall mode | mode in MODES ensures [mode, STDIO] in cases && [mode, HTTP] in cases {
      var i := RequiredKeyOf(mode);
    }
  }

  lemma SkippedScenarios(cat: Catalog, mode: string)
    requires mode in MODES
    ensures Get(AllScenarios(cat), mode) == Strings(cat.scenarios(mode))
  {
    hide Strings;
    assert mode == MODES[0] || mode == MODES[1] || mode == MODES[2];
  }

  lemma SkippedReportAccepted(cat: Catalog)
    ensures Accepts(cat, SkippedReport(cat)) && !IsCompact(SkippedReport(cat))
    ensures ReportCases(SkippedReport(cat)) == CasesOf([], SkippedCases(cat)).1
  {
    SkippedReportHeader(cat);
    SkippedReportFields(cat, "cases");
    SkippedCasesAll(cat);
    hide HeaderErrors, Selected, SkippedReport, SkippedCases, CasesOf, ModeScan, AllScenarios, Get;
    var cases := CasesOf([], SkippedCases(cat)).1;
    var selected := AllScenarios(cat);
    var s0 := Scan([], map[]);
    var s1 := ModeScan(cat, selected, cases, s0, MODES[0]);
    var s2 := ModeScan(cat, selected, cases, s1, MODES[1]);
    assert MODES[0] in MODES && MODES[1] in MODES && MODES[2] in MODES;
    SkippedScenarios(cat, MODES[0]);
    SkippedScenarios(cat, MODES[1]);
    SkippedScenarios(cat, MODES[2]);
    SkippedMode(cat, selected, cases, s0, MODES[0]);
    SkippedMode(cat, selected, cases, s1, MODES[1]);
    SkippedMode(cat, selected, cases, s2, MODES[2]);
    assert HeaderErrors(SkippedReport(cat)) + ErrorIf(!Get(SkippedReport(cat), "cases").Arr?, "no transport cases") == [];
  }

  /** A report can be valid, compactable and equal to itself at the gate, and its compact baseline still be refused. */
  lemma SkippedReportLosesItsBaseline(cat: Catalog)
    ensures Compactable(cat, SkippedReport(cat))
    ensures Gate(cat, SkippedReport(cat), SkippedReport(cat)).success
    ensures
      var compact := Compact(cat, SkippedReport(cat));
      && compact.Some? && !Accepts(cat, compact.value)
      && !Gate(cat, SkippedReport(cat), compact.value).success
  {
    hide *;
    var report := SkippedReport(cat);
    SkippedReportAccepted(cat);
    SkippedReportHeader(cat);
    SkippedNowhereElse(cat);
    OnlySkips(cat, report);
    GateReflexive(cat, report);
    CompactKeepsChecks(cat, report);
    NothingCovered(cat, report);
    RefusedBaseline(cat, report, Compact(cat, report).value);
  }

  /** No check of the report passed or failed. */
  lemma SkippedNowhereElse(cat: Catalog)
    ensures forall id :: Pass !in Statuses(Identities(cat, SkippedReport(cat)), id) && Fail !in Statuses(Identities(cat, SkippedReport(cat)), id)
  {
    SkippedReportAccepted(cat);
    SkippedCasesAll(cat);
    hide SkippedReport, Identities, Accepts, CasesOf, SkippedCases, ReportCases, Statuses, SkippedChecks, ReadCheck, WellFormed, IsCompact, Get, HoldsSkip;
    var report := SkippedReport(cat);
    forall id, status | status in Statuses(Identities(cat, report), id) ensures status == Skip {
      FullReportStatuses(cat, report, id, status);
      SkippedReports(cat, ReportCases(report), id, status);
    }
    forall id ensures Pass !in Statuses(Identities(cat, report), id) && Fail !in Statuses(Identities(cat, report), id) {}
  }

  lemma SkippedReports(cat: Catalog, cases: Cases, id: Identity, status: Status)
    requires |id| == 5 && Reports(cat, cases, id[0], id[1], id, status)
    requires HoldsSkip(cat, cases, id[0], id[1])
    ensures status == Skip
  {
    hide ReadCheck, SkippedChecks, Get;
    SkippedChecksRead(cat, id[0], id[1], cat.scenarios(id[0]));
    var check :| check in Items(Get(cases[[id[0], id[1]]], "checks")) && ReadCheck(cat, id[0], id[1], check) == Some((id, status));
    assert check in SkippedChecks(cat.scenarios(id[0]));
  }

  lemma OnlySkips(cat: Catalog, report: Dict)
    requires Accepts(cat, report) && Get(report, "automaticAuthRequired").Bool?
    requires forall id :: Pass !in Statuses(Identities(cat, report), id) && Fail !in Statuses(Identities(cat, report), id)
    ensures Compactable(cat, report)
  {
    hide Accepts, Identities, Get;
    var ids := Identities(cat, report);
    forall id | id in ids ensures Fail !in ids[id] { assert Fail !in Statuses(ids, id); }
  }

  lemma NothingCovered(cat: Catalog, report: Dict)
    requires forall id :: Pass !in Statuses(Identities(cat, report), id) && Fail !in Statuses(Identities(cat, report), id)
    ensures !Covered(cat, Identities(cat, report))
  {
    hide Identities;
    var ids := Identities(cat, report);
    forall id | id in ids ensures Pass !in ids[id] && Fail !in ids[id] {
      assert Pass !in Statuses(ids, id) && Fail !in Statuses(ids, id);
    }
    assert MODES[0] in MODES;
    assert !HasCase(Kept(ids), MODES[0], STDIO);
    assert !ModeCovered(cat, ids, MODES[0]);
  }

  lemma RefusedBaseline(cat: Catalog, candidate: Dict, baseline: Dict)
    requires !Accepts(cat, baseline)
    ensures !Gate(cat, candidate, baseline).success
  {
    hide Validate, With, Shipping, Missing, Sorted;
  }
}
