/**
 * Reviewer reports, compact baselines, and the gate between them
 * (codex/scripts/mcp_conformance/review_regressions.py).
 */
module ReviewGate {
  import opened Json
  import opened Ordering
  import opened Text

  const MODES := ["2025-06-18", "2025-11-25", "2026-07-28"]
  const MODERN := "2026-07-28"
  const SCHEMA_VERSION := 1
  const BASELINE_KIND := "mcp-review-regression-baseline-v1"
  const REVIEWER := "codex-mcp-regression-suite"
  const HTTP_PROFILES := [
    "review-regressions", "repeated-cursor", "discovery-mismatched-id",
    "discovery-null-id", "sse-cr-comments", "sse-comment-flood"]

  /** A check: [mode, transport, check id]; its first two entries name its case. */
  type Identity = seq<string>
  type Case = seq<string>

  function RequiredCases(): set<Case> {
    (set mode | mode in MODES :: [mode, "review-stdio:review-regressions"])
    + (set profile | profile in HTTP_PROFILES :: [MODERN, "review-http:" + profile])
    + (set mode, transport, profile | mode in MODES && transport in ["stdio", "http"] && profile in ["catalog-max", "catalog-over-limit"]
         :: [mode, "review-" + transport + ":" + profile])
  }

  predicate WellFormed(id: Identity) {
    |id| == 3 && StartsWith(id[2], "review/") && id[..2] in RequiredCases()
  }

  datatype Problem = Problem(kind: string, about: seq<string>)

  /** What a validation has gathered: errors, cases seen, and the verdict of every check. */
  datatype Scan = Scan(errors: seq<Problem>, observed: set<Case>, identities: map<Identity, bool>)

  function Err(s: Scan, kind: string, about: seq<string>): Scan {
    s.(errors := s.errors + [Problem(kind, about)])
  }

  // ----- a full report -----

  function CheckStep(c: Case, acc: (Scan, bool), check: Json): (Scan, bool) {
    if !check.Obj? then (Err(acc.0, "malformed reviewer check", c), acc.1)
    else
      var (id, success) := (Get(check.fields, "name"), Get(check.fields, "success"));
      if !(id.Str? && StartsWith(id.text, "review/") && success.Bool?) then (Err(acc.0, "malformed reviewer check", c), acc.1)
      else if c + [id.text] in acc.0.identities then (Err(acc.0, "duplicate reviewer check", c + [id.text]), acc.1)
      else (acc.0.(identities := acc.0.identities[c + [id.text] := success.value]), acc.1 && success.value)
  }

  function Checks(c: Case, s: Scan, checks: seq<Json>): (Scan, bool) {
    if checks == [] then (s, true)
    else CheckStep(c, Checks(c, s, checks[..|checks| - 1]), checks[|checks| - 1])
  }

  function CaseStep(s: Scan, case_: Json): Scan {
    if !case_.Obj? then Err(s, "malformed reviewer case", [])
    else
      var (mode, transport) := (Get(case_.fields, "mode"), Get(case_.fields, "transport"));
      if !(mode.Str? && transport.Str? && [mode.text, transport.text] in RequiredCases()) then Err(s, "unexpected reviewer case", [])
      else
        var c := [mode.text, transport.text];
        if c in s.observed then Err(s, "duplicate reviewer case", c)
        else
          var s1 := s.(observed := s.observed + {c});
          var checks := Items(Get(case_.fields, "checks"));
          if checks == [] then Err(s1, "no reviewer checks", c)
          else
            var (s2, success) := Checks(c, s1, checks);
            if Get(case_.fields, "success") != Bool(success) then Err(s2, "inconsistent reviewer case success", c) else s2
  }

  function FullCases(s: Scan, cases: seq<Json>): Scan {
    if cases == [] then s else CaseStep(FullCases(s, cases[..|cases| - 1]), cases[|cases| - 1])
  }

  // ----- a compact baseline -----

  function RequiredCaseStep(s: Scan, case_: Json): Scan {
    if !case_.Obj? then Err(s, "malformed reviewer case", [])
    else
      var (mode, transport) := (Get(case_.fields, "mode"), Get(case_.fields, "transport"));
      if !(mode.Str? && transport.Str?) then Err(s, "malformed reviewer case", [])
      else if [mode.text, transport.text] in s.observed then Err(s, "duplicate reviewer case", [mode.text, transport.text])
      else s.(observed := s.observed + {[mode.text, transport.text]})
  }

  function CompactCases(s: Scan, cases: seq<Json>): Scan {
    if cases == [] then s else RequiredCaseStep(CompactCases(s, cases[..|cases| - 1]), cases[|cases| - 1])
  }

  function RecordStep(success: bool, s: Scan, record: Json): Scan {
    if !record.Obj? then Err(s, "malformed reviewer check", [])
    else
      var (mode, transport, id) := (Get(record.fields, "mode"), Get(record.fields, "transport"), Get(record.fields, "check_id"));
      if !(mode.Str? && transport.Str? && id.Str? && WellFormed([mode.text, transport.text, id.text])) then
        Err(s, "malformed reviewer check", [])
      else if [mode.text, transport.text, id.text] in s.identities then
        Err(s, "duplicate reviewer check", [mode.text, transport.text, id.text])
      else s.(identities := s.identities[[mode.text, transport.text, id.text] := success])
  }

  function Records(success: bool, s: Scan, records: seq<Json>): Scan {
    if records == [] then s else RecordStep(success, Records(success, s, records[..|records| - 1]), records[|records| - 1])
  }

  function Bucket(success: bool, s: Scan, checks: Dict): Scan {
    var records := Get(checks, if success then "passing" else "failing");
    if !records.Arr? then Err(s, "no reviewer checks of this outcome", []) else Records(success, s, records.items)
  }

  // ----- the whole validation -----

  predicate IsCompact(report: Dict) { Get(report, "baselineKind") != Null }

  function Header(report: Dict): Scan {
    var s0 := Scan([], {}, map[]);
    var s1 := if EqualsInt(Get(report, "schemaVersion"), SCHEMA_VERSION) then s0 else Err(s0, "other report schema", []);
    var s2 := if Get(report, "reviewer") == Str(REVIEWER) then s1 else Err(s1, "other reviewer", []);
    if EqualsStrings(Get(report, if IsCompact(report) then "requiredModes" else "modes"), MODES) then s2 else Err(s2, "other modes", [])
  }

  function CompactBody(s: Scan, report: Dict): Scan {
    var s1 := if Get(report, "baselineKind") == Str(BASELINE_KIND) then s else Err(s, "unsupported baseline format", []);
    var cases := Get(report, "requiredCases");
    var s2 := CompactCases(if cases.Arr? then s1 else Err(s1, "no required reviewer cases", []), Items(cases));
    var checks := Get(report, "checks");
    var s3 := if checks.Obj? then s2 else Err(s2, "no reviewer check identities", []);
    var fields := if checks.Obj? then checks.fields else map[];
    Bucket(false, Bucket(true, s3, fields), fields)
  }

  function FullBody(s: Scan, report: Dict): Scan {
    var cases := Get(report, "cases");
    FullCases(if cases.Arr? then s else Err(s, "no production reviewer cases", []), Items(cases))
  }

  function CaseErrors(s: Scan, kind: string, cases: seq<Case>): Scan {
    if cases == [] then s
    else Err(CaseErrors(s, kind, cases[..|cases| - 1]), kind, cases[|cases| - 1])
  }

  function CaseDifferences(s: Scan): Scan {
    CaseErrors(CaseErrors(s, "missing required reviewer case", Sorted(RequiredCases() - s.observed)),
               "unexpected reviewer case", Sorted(s.observed - RequiredCases()))
  }

  function Passing(identities: map<Identity, bool>): set<Identity> {
    set id | id in identities && identities[id]
  }

  function Failing(identities: map<Identity, bool>): set<Identity> {
    set id | id in identities && !identities[id]
  }

  predicate CasePassed(identities: map<Identity, bool>, c: Case) {
    && (forall id <- identities :: c <= id ==> identities[id])
    && (exists id <- identities :: c <= id)
  }

  function CasesPassed(s: Scan): set<Case> {
    set c | c in s.observed && CasePassed(s.identities, c)
  }

  predicate TotalsAgree(s: Scan, summary: Json) {
    && summary.Obj?
    && EqualsInt(Get(summary.fields, "passed"), |Passing(s.identities)|)
    && EqualsInt(Get(summary.fields, "failed"), |s.identities| - |Passing(s.identities)|)
    && EqualsInt(Get(summary.fields, "total"), |s.identities|)
    && EqualsInt(Get(summary.fields, "casesPassed"), |CasesPassed(s)|)
    && EqualsInt(Get(summary.fields, "casesTotal"), |s.observed|)
  }

  function Finish(report: Dict, s: Scan): Scan {
    var s1 := CaseDifferences(s);
    var s2 := if TotalsAgree(s, Get(report, "summary")) then s1 else Err(s1, "inconsistent reviewer check totals", []);
    if !IsCompact(report) && Get(report, "success") != Bool(s.observed != {} && |s.identities| == |Passing(s.identities)|) then
      Err(s2, "inconsistent overall reviewer success", [])
    else s2
  }

  function Validate(report: Dict): Scan {
    var s := Header(report);
    Finish(report, if IsCompact(report) then CompactBody(s, report) else FullBody(s, report))
  }

  predicate Accepts(report: Dict) { Validate(report).errors == [] }

  function Identities(report: Dict): map<Identity, bool> { Validate(report).identities }

  // ----- compaction -----

  function CaseRecord(c: Case): Json
    requires |c| >= 2
  {
    Obj(map["mode" := Str(c[0]), "transport" := Str(c[1])])
  }

  function CaseRecords(cases: seq<Case>): (r: seq<Json>)
    requires forall c <- cases :: |c| >= 2
    ensures |r| == |cases| && forall i :: 0 <= i < |r| ==> r[i] == CaseRecord(cases[i])
  {
    seq(|cases|, i requires 0 <= i < |cases| => CaseRecord(cases[i]))
  }

  function Record(id: Identity): Json
    requires |id| == 3
  {
    Obj(map["mode" := Str(id[0]), "transport" := Str(id[1]), "check_id" := Str(id[2])])
  }

  function RecordsOf(ids: seq<Identity>): (r: seq<Json>)
    requires forall id <- ids :: |id| == 3
    ensures |r| == |ids| && forall i :: 0 <= i < |r| ==> r[i] == Record(ids[i])
  {
    seq(|ids|, i requires 0 <= i < |ids| => Record(ids[i]))
  }

  function SummaryOf(summary: Dict): Json {
    Obj(map["passed" := Get(summary, "passed"), "failed" := Get(summary, "failed"), "total" := Get(summary, "total"),
            "casesPassed" := Get(summary, "casesPassed"), "casesTotal" := Get(summary, "casesTotal")])
  }

  /** A compact baseline with these entries. */
  function Document(cases: Json, summary: Json, passing: Json, failing: Json): Dict {
    map["baselineKind" := Str(BASELINE_KIND), "schemaVersion" := Num(SCHEMA_VERSION as real), "reviewer" := Str(REVIEWER),
        "requiredModes" := Strings(MODES), "requiredCases" := cases, "summary" := summary,
        "checks" := Obj(map["passing" := passing, "failing" := failing])]
  }

  function CompactOf(identities: map<Identity, bool>, summary: Dict): Dict
    requires forall id <- identities :: |id| == 3
  {
    RequiredCasesArePairs();
    Document(Arr(CaseRecords(Sorted(RequiredCases()))), SummaryOf(summary),
             Arr(RecordsOf(Sorted(Passing(identities)))), Arr(RecordsOf(Sorted(Failing(identities)))))
  }

  /** Nothing when the report is refused: the program raises the joined errors. */
  function Compact(report: Dict): Option<Dict> {
    if !Accepts(report) then None
    else
      ValidationWellFormed(report);
      var summary := Get(report, "summary");
      Some(CompactOf(Identities(report), if summary.Obj? then summary.fields else map[]))
  }

  // ----- the gate -----

  datatype Verdict = Verdict(success: bool, baselineErrors: seq<Problem>, candidateErrors: seq<Problem>,
                             known: seq<Identity>, new_: seq<Identity>, missing: seq<Identity>, fixed: seq<Identity>)

  function Gate(candidate: Dict, baseline: Dict): Verdict {
    var (b, c) := (Validate(baseline), Validate(candidate));
    GateOf(b, c)
  }

  /** Failures known and new, checks gone and checks repaired, each listed in order of identity. */
  function GateOf(b: Scan, c: Scan): Verdict {
    var known := Failing(c.identities) * Failing(b.identities);
    var new_ := Failing(c.identities) - Failing(b.identities);
    var missing := b.identities.Keys - c.identities.Keys;
    var fixed := Failing(b.identities) * Passing(c.identities);
    Verdict(b.errors == [] && c.errors == [] && new_ == {} && missing == {}, b.errors, c.errors,
            Sorted(known), Sorted(new_), Sorted(missing), Sorted(fixed))
  }

  // ----- what a validation gathers -----

  lemma RequiredCasesArePairs()
    ensures forall c <- RequiredCases() :: |c| == 2
  {
  }

  ghost predicate ScanOk(s: Scan) {
    && (forall id <- s.identities :: WellFormed(id))
  }

  lemma {:induction false} ChecksOk(c: Case, s: Scan, checks: seq<Json>)
    requires ScanOk(s) && c in RequiredCases()
    ensures ScanOk(Checks(c, s, checks).0)
  {
    hide RequiredCases;
    RequiredCasesArePairs();
    if checks != [] {
      ChecksOk(c, s, checks[..|checks| - 1]);
      forall x: string ensures (c + [x])[..2] == c && (c + [x])[2] == x {}
    }
  }

  lemma {:induction false} FullCasesOk(s: Scan, cases: seq<Json>)
    requires ScanOk(s)
    ensures ScanOk(FullCases(s, cases))
  {
    hide WellFormed, RequiredCases;
    if cases != [] {
      var front := FullCases(s, cases[..|cases| - 1]);
      FullCasesOk(s, cases[..|cases| - 1]);
      var case_ := cases[|cases| - 1];
      if case_.Obj? && Get(case_.fields, "mode").Str? && Get(case_.fields, "transport").Str? {
        var c := [Get(case_.fields, "mode").text, Get(case_.fields, "transport").text];
        if c in RequiredCases() {
          ChecksOk(c, front.(observed := front.observed + {c}), Items(Get(case_.fields, "checks")));
        }
      }
    }
  }

  lemma {:induction false} CompactCasesKeep(s: Scan, cases: seq<Json>)
    ensures CompactCases(s, cases).identities == s.identities
  {
    if cases != [] { CompactCasesKeep(s, cases[..|cases| - 1]); }
  }

  lemma {:induction false} RecordsOk(success: bool, s: Scan, records: seq<Json>)
    requires ScanOk(s)
    ensures ScanOk(Records(success, s, records))
  {
    hide WellFormed;
    if records != [] { RecordsOk(success, s, records[..|records| - 1]); }
  }

  lemma {:induction false} CaseErrorsKeep(s: Scan, kind: string, cases: seq<Case>)
    ensures CaseErrors(s, kind, cases).identities == s.identities && CaseErrors(s, kind, cases).observed == s.observed
    ensures |CaseErrors(s, kind, cases).errors| == |s.errors| + |cases|
  {
    if cases != [] { CaseErrorsKeep(s, kind, cases[..|cases| - 1]); }
  }

  lemma FinishKeeps(report: Dict, s: Scan)
    ensures Finish(report, s).identities == s.identities && Finish(report, s).observed == s.observed
    ensures Finish(report, s).errors == [] ==> s.errors == [] && s.observed == RequiredCases() && TotalsAgree(s, Get(report, "summary"))
    ensures IsCompact(report) && s.errors == [] && s.observed == RequiredCases() && TotalsAgree(s, Get(report, "summary"))
      ==> Finish(report, s).errors == []
  {
    hide TotalsAgree, RequiredCases;
    var missing := Sorted(RequiredCases() - s.observed);
    var s1 := CaseErrors(s, "missing required reviewer case", missing);
    var unexpected := Sorted(s.observed - RequiredCases());
    CaseErrorsKeep(s, "missing required reviewer case", missing);
    CaseErrorsKeep(s1, "unexpected reviewer case", unexpected);
    if missing == [] && unexpected == [] {
      forall c ensures c in RequiredCases() <==> c in s.observed {
        assert c in RequiredCases() - s.observed <==> c in missing;
        assert c in s.observed - RequiredCases() <==> c in unexpected;
      }
    }
    if s.observed == RequiredCases() {
      assert RequiredCases() - s.observed == {} && s.observed - RequiredCases() == {};
    }
  }

  lemma ValidationWellFormed(report: Dict)
    ensures forall id <- Identities(report) :: WellFormed(id)
    ensures forall id <- Identities(report) :: |id| == 3
  {
    var s := Header(report);
    if IsCompact(report) {
      CompactBodyOk(s, report);
    } else {
      FullCasesOk(if Get(report, "cases").Arr? then s else Err(s, "no production reviewer cases", []), Items(Get(report, "cases")));
    }
    hide WellFormed;
    FinishKeeps(report, if IsCompact(report) then CompactBody(s, report) else FullBody(s, report));
    forall id | id in Identities(report) ensures |id| == 3 { WellFormedTriple(id); }
  }

  lemma WellFormedTriple(id: Identity)
    requires WellFormed(id)
    ensures |id| == 3
  {
  }

  lemma CompactBodyOk(s: Scan, report: Dict)
    requires s.identities == map[]
    ensures ScanOk(CompactBody(s, report))
  {
    var s1 := if Get(report, "baselineKind") == Str(BASELINE_KIND) then s else Err(s, "unsupported baseline format", []);
    var cases := Get(report, "requiredCases");
    var s1' := if cases.Arr? then s1 else Err(s1, "no required reviewer cases", []);
    var s2 := CompactCases(s1', Items(cases));
    CompactCasesKeep(s1', Items(cases));
    var checks := Get(report, "checks");
    var s3 := if checks.Obj? then s2 else Err(s2, "no reviewer check identities", []);
    var fields := if checks.Obj? then checks.fields else map[];
    hide WellFormed, CompactCases;
    RecordsOk(true, s3, Items(Get(fields, "passing")));
    RecordsOk(false, Bucket(true, s3, fields), Items(Get(fields, "failing")));
  }

  // ----- what acceptance of a full report means -----

  /** The check is well formed and `ids` holds its verdict. */
  ghost predicate Recorded(ids: map<Identity, bool>, c: Case, check: Json) {
    && check.Obj? && Get(check.fields, "name").Str? && Get(check.fields, "success").Bool?
    && StartsWith(Get(check.fields, "name").text, "review/")
    && c + [Get(check.fields, "name").text] in ids
    && ids[c + [Get(check.fields, "name").text]] == Get(check.fields, "success").value
  }

  ghost predicate Extends(small: map<Identity, bool>, large: map<Identity, bool>) {
    forall id <- small :: id in large && large[id] == small[id]
  }

  /** The identity is one of the checks of this case. */
  ghost predicate FromChecks(id: Identity, c: Case, checks: seq<Json>) {
    exists check <- checks :: check.Obj? && Get(check.fields, "name").Str? && id == c + [Get(check.fields, "name").text]
  }

  ghost predicate AllRecorded(ids: map<Identity, bool>, c: Case, checks: seq<Json>) {
    forall check <- checks :: Recorded(ids, c, check)
  }

  ghost predicate Succeeds(check: Json) {
    check.Obj? && Get(check.fields, "success") == Bool(true)
  }

  ghost predicate AllSucceed(checks: seq<Json>) {
    forall check <- checks :: Succeeds(check)
  }

  /** Every identity is an old one or comes from these checks. */
  ghost predicate NoneElse(ids: map<Identity, bool>, old_: map<Identity, bool>, c: Case, checks: seq<Json>) {
    forall id <- ids :: id in old_ || FromChecks(id, c, checks)
  }

  lemma CheckStepRecords(c: Case, acc: (Scan, bool), check: Json)
    requires CheckStep(c, acc, check).0.errors == []
    ensures
      var (s', success) := CheckStep(c, acc, check);
      && acc.0.errors == [] && s'.observed == acc.0.observed
      && Extends(acc.0.identities, s'.identities) && Recorded(s'.identities, c, check)
      && (success <==> acc.1 && Succeeds(check))
      && (forall id <- s'.identities :: id in acc.0.identities || FromChecks(id, c, [check]))
  {
    hide StartsWith;
    if check.Obj? && Get(check.fields, "name").Str? {
      assert FromChecks(c + [Get(check.fields, "name").text], c, [check]) by { assert check in [check]; }
    }
    hide FromChecks;
  }

  lemma AppendRecorded(before: map<Identity, bool>, after: map<Identity, bool>, old_: map<Identity, bool>, c: Case, front: seq<Json>, check: Json)
    requires Extends(old_, before) && Extends(before, after)
    requires AllRecorded(before, c, front) && Recorded(after, c, check)
    requires NoneElse(before, old_, c, front) && forall id <- after :: id in before || FromChecks(id, c, [check])
    ensures Extends(old_, after) && AllRecorded(after, c, front + [check]) && NoneElse(after, old_, c, front + [check])
    ensures AllSucceed(front + [check]) <==> AllSucceed(front) && Succeeds(check)
  {
    hide StartsWith, Succeeds;
    var checks := front + [check];
    assert forall x :: x in checks <==> x in front || x == check;
    forall x | x in front ensures Recorded(after, c, x) {
      assert Recorded(before, c, x);
    }
    hide Recorded;
    forall id | id in after ensures id in old_ || FromChecks(id, c, checks) {
      if id in before && id !in old_ {
        assert FromChecks(id, c, front);
      }
    }
  }

  lemma NoChecksRecorded(c: Case, ids: map<Identity, bool>)
    ensures Extends(ids, ids) && AllRecorded(ids, c, []) && AllSucceed([]) && NoneElse(ids, ids, c, [])
  {
  }

  lemma {:induction false} ChecksRecorded(c: Case, s: Scan, checks: seq<Json>)
    requires Checks(c, s, checks).0.errors == []
    ensures s.errors == [] && Checks(c, s, checks).0.observed == s.observed
    ensures
      var (s', success) := Checks(c, s, checks);
      && Extends(s.identities, s'.identities) && AllRecorded(s'.identities, c, checks)
      && (success <==> AllSucceed(checks)) && NoneElse(s'.identities, s.identities, c, checks)
  {
    hide Recorded, CheckStep, FromChecks, Extends, AllRecorded, AllSucceed, Succeeds, NoneElse;
    if checks == [] {
      NoChecksRecorded(c, s.identities);
    } else {
      var (front, check) := (checks[..|checks| - 1], checks[|checks| - 1]);
      var acc := Checks(c, s, front);
      assert Checks(c, s, checks) == CheckStep(c, acc, check);
      CheckStepRecords(c, acc, check);
      ChecksRecorded(c, s, front);
      AppendRecorded(acc.0.identities, Checks(c, s, checks).0.identities, s.identities, c, front, check);
      assert checks == front + [check];
    }
  }

  function CaseOf(case_: Json): Case {
    if case_.Obj? && Get(case_.fields, "mode").Str? && Get(case_.fields, "transport").Str? then
      [Get(case_.fields, "mode").text, Get(case_.fields, "transport").text]
    else []
  }

  /** A required case whose checks are all recorded and whose own verdict is that all of them succeeded. */
  ghost predicate CaseRecorded(ids: map<Identity, bool>, case_: Json) {
    && case_.Obj? && CaseOf(case_) in RequiredCases()
    && var checks := Items(Get(case_.fields, "checks"));
       checks != [] && AllRecorded(ids, CaseOf(case_), checks) && Get(case_.fields, "success") == Bool(AllSucceed(checks))
  }

  ghost predicate AllCasesRecorded(ids: map<Identity, bool>, cases: seq<Json>) {
    forall case_ <- cases :: CaseRecorded(ids, case_)
  }

  ghost predicate FromCase(id: Identity, case_: Json) {
    case_.Obj? && FromChecks(id, CaseOf(case_), Items(Get(case_.fields, "checks")))
  }

  ghost predicate FromCases(ids: map<Identity, bool>, cases: seq<Json>) {
    forall id <- ids :: exists case_ <- cases :: FromCase(id, case_)
  }

  function CasesOf(cases: seq<Json>): (r: seq<Case>)
    ensures |r| == |cases| && forall i :: 0 <= i < |r| ==> r[i] == CaseOf(cases[i])
  {
    seq(|cases|, i requires 0 <= i < |cases| => CaseOf(cases[i]))
  }

  lemma CaseStepRecords(s: Scan, case_: Json)
    requires CaseStep(s, case_).errors == []
    ensures s.errors == []
    ensures
      var s' := CaseStep(s, case_);
      && Extends(s.identities, s'.identities) && CaseRecorded(s'.identities, case_)
      && CaseOf(case_) !in s.observed && s'.observed == s.observed + {CaseOf(case_)}
      && (forall id <- s'.identities :: id in s.identities || FromCase(id, case_))
  {
    hide Checks, Recorded, Extends, FromChecks, RequiredCases, AllRecorded, AllSucceed;
    RequiredCasesArePairs();
    var c := CaseOf(case_);
    ChecksRecorded(c, s.(observed := s.observed + {c}), Items(Get(case_.fields, "checks")));
  }

  lemma AllRecordedStays(small: map<Identity, bool>, large: map<Identity, bool>, c: Case, checks: seq<Json>)
    requires Extends(small, large) && AllRecorded(small, c, checks)
    ensures AllRecorded(large, c, checks)
  {
    hide StartsWith;
    forall check | check in checks ensures Recorded(large, c, check) {
      assert Recorded(small, c, check);
    }
  }

  lemma AppendCase(before: map<Identity, bool>, after: map<Identity, bool>, front: seq<Json>, case_: Json)
    requires Extends(before, after) && AllCasesRecorded(before, front) && CaseRecorded(after, case_)
    requires FromCases(before, front) && forall id <- after :: id in before || FromCase(id, case_)
    ensures AllCasesRecorded(after, front + [case_]) && FromCases(after, front + [case_])
  {
    hide AllRecorded, Extends, FromCase, RequiredCases, CaseOf, AllSucceed;
    var cases := front + [case_];
    assert forall x :: x in cases <==> x in front || x == case_;
    forall x | x in front ensures CaseRecorded(after, x) {
      assert CaseRecorded(before, x);
      AllRecordedStays(before, after, CaseOf(x), Items(Get(x.fields, "checks")));
    }
    hide CaseRecorded;
    forall id | id in after ensures exists x <- cases :: FromCase(id, x) {
      if id in before {
        var x :| x in front && FromCase(id, x);
        assert x in cases;
      } else {
        assert case_ in cases;
      }
    }
  }

  lemma {:induction false} FullCasesRecorded(s: Scan, cases: seq<Json>)
    requires FullCases(s, cases).errors == [] && s.identities == map[] && s.observed == {}
    ensures s.errors == []
    ensures
      var s' := FullCases(s, cases);
      && AllCasesRecorded(s'.identities, cases) && FromCases(s'.identities, cases)
      && NoRepeats(CasesOf(cases)) && s'.observed == Members(CasesOf(cases))
  {
    hide CaseStep, CaseRecorded, FromCase, CaseOf, Extends, AllCasesRecorded, FromCases, NoRepeats, CasesOf, Members;
    if cases == [] {
      NoCasesRecorded();
    } else {
      var (front, case_) := (cases[..|cases| - 1], cases[|cases| - 1]);
      var (before, after) := (FullCases(s, front), FullCases(s, cases));
      assert after == CaseStep(before, case_);
      CaseStepRecords(before, case_);
      FullCasesRecorded(s, front);
      assert cases == front + [case_];
      AppendCase(before.identities, after.identities, front, case_);
      CasesAppend(front, case_);
    }
  }

  lemma NoCasesRecorded()
    ensures AllCasesRecorded(map[], []) && FromCases(map[], []) && NoRepeats(CasesOf([])) && Members(CasesOf([])) == {}
  {
  }

  lemma CasesAppend(front: seq<Json>, case_: Json)
    requires NoRepeats(CasesOf(front)) && CaseOf(case_) !in Members(CasesOf(front))
    ensures NoRepeats(CasesOf(front + [case_])) && Members(CasesOf(front + [case_])) == Members(CasesOf(front)) + {CaseOf(case_)}
  {
    hide CaseOf;
    var cs := CasesOf(front + [case_]);
    assert cs == CasesOf(front) + [CaseOf(case_)];
    assert cs[..|cs| - 1] == CasesOf(front);
  }

  /**
   * An accepted full report lists every required case exactly once, each with at least one check, and
   * the validation recovers exactly the reported checks with the reported verdicts.
   */
  lemma AcceptedFullReport(report: Dict)
    requires Accepts(report) && !IsCompact(report)
    ensures
      var (cases, ids) := (Items(Get(report, "cases")), Identities(report));
      && AllCasesRecorded(ids, cases) && FromCases(ids, cases)
      && NoRepeats(CasesOf(cases)) && Members(CasesOf(cases)) == RequiredCases()
  {
    EmptyHeader(report);
    hide FullCases, Header, CaseOf, AllCasesRecorded, FromCases, RequiredCases, Finish, TotalsAgree, CasesOf, Members;
    var s := Header(report);
    FinishKeeps(report, FullBody(s, report));
    FullCasesRecorded(if Get(report, "cases").Arr? then s else Err(s, "no production reviewer cases", []), Items(Get(report, "cases")));
  }

  lemma EmptyHeader(report: Dict)
    ensures Header(report).observed == {} && Header(report).identities == map[]
  {
  }

  // ----- a compact baseline is read back as the checks it was made from -----

  predicate AllTriples(ids: seq<Identity>) { forall id <- ids :: |id| == 3 }

  lemma RecordReads(success: bool, s: Scan, id: Identity)
    requires |id| == 3 && WellFormed(id) && id !in s.identities
    ensures RecordStep(success, s, Record(id)) == s.(identities := s.identities[id := success])
  {
    hide WellFormed;
    assert id == [id[0], id[1], id[2]];
    var fields := Record(id).fields;
    assert Get(fields, "mode") == Str(id[0]) && Get(fields, "transport") == Str(id[1]) && Get(fields, "check_id") == Str(id[2]);
  }

  lemma CaseReads(s: Scan, c: Case)
    requires |c| == 2 && c !in s.observed
    ensures RequiredCaseStep(s, CaseRecord(c)) == s.(observed := s.observed + {c})
  {
    assert c == [c[0], c[1]];
    var fields := CaseRecord(c).fields;
    assert Get(fields, "mode") == Str(c[0]) && Get(fields, "transport") == Str(c[1]);
  }

  predicate Fresh(s: Scan, ids: seq<Identity>) {
    forall id <- ids :: WellFormed(id) && id !in s.identities
  }

  function All(ids: seq<Identity>, success: bool): map<Identity, bool> {
    map id | id in ids :: success
  }

  lemma AllOneMore(m: map<Identity, bool>, front: seq<Identity>, id: Identity, success: bool)
    ensures (m + All(front, success))[id := success] == m + All(front + [id], success)
  {
  }

  lemma RecordsFront(ids: seq<Identity>)
    requires ids != [] && AllTriples(ids)
    ensures AllTriples(ids[..|ids| - 1]) && RecordsOf(ids)[..|ids| - 1] == RecordsOf(ids[..|ids| - 1])
    ensures RecordsOf(ids)[|ids| - 1] == Record(ids[|ids| - 1])
  {
    hide Record;
  }

  lemma {:induction false} RecordsBuild(success: bool, s: Scan, ids: seq<Identity>)
    requires NoRepeats(ids) && AllTriples(ids) && Fresh(s, ids)
    ensures Records(success, s, RecordsOf(ids)) == s.(identities := s.identities + All(ids, success))
  {
    hide WellFormed, RecordStep, Record, All, NoRepeats;
    if ids == [] {
      assert s.identities + All(ids, success) == s.identities by { EmptyAll(s.identities, success); }
    } else {
      var (front, id) := (ids[..|ids| - 1], ids[|ids| - 1]);
      NoRepeatsFront(ids);
      RecordsBuild(success, s, front);
      RecordsFront(ids);
      hide RecordsOf, AllTriples;
      assert |id| == 3 && WellFormed(id) && id !in s.identities;
      hide Fresh;
      var before := Records(success, s, RecordsOf(front));
      assert id !in before.identities by { AllHas(s.identities, front, id, success); }
      RecordReads(success, before, id);
      AllOneMore(s.identities, front, id, success);
      assert ids == front + [id];
    }
  }

  lemma EmptyAll(m: map<Identity, bool>, success: bool)
    ensures m + All([], success) == m
  {
  }

  lemma AllHas(m: map<Identity, bool>, ids: seq<Identity>, id: Identity, success: bool)
    ensures id in m + All(ids, success) <==> id in m || id in ids
  {
  }

  predicate FreshCases(s: Scan, cases: seq<Case>) {
    forall c <- cases :: |c| == 2 && c !in s.observed
  }

  lemma {:induction false} CompactCasesBuild(s: Scan, cases: seq<Case>)
    requires NoRepeats(cases) && FreshCases(s, cases)
    ensures CompactCases(s, CaseRecords(cases)) == s.(observed := s.observed + Members(cases))
  {
    hide RequiredCaseStep, CaseRecord, Members, NoRepeats;
    if cases == [] {
      assert s.observed + Members(cases) == s.observed by { MembersOneMore(s.observed, cases, []); }
    } else {
      var (front, c) := (cases[..|cases| - 1], cases[|cases| - 1]);
      NoRepeatsFront(cases);
      CompactCasesBuild(s, front);
      assert CaseRecords(cases)[..|cases| - 1] == CaseRecords(front);
      hide CaseRecords, FreshCases;
      MembersOneMore(s.observed, front, c);
      CaseReads(CompactCases(s, CaseRecords(front)), c);
      assert cases == front + [c];
    }
  }

  function Members(cases: seq<Case>): set<Case> { set c | c in cases }

  lemma MembersOneMore(s: set<Case>, front: seq<Case>, c: Case)
    ensures (s + Members(front)) + {c} == s + Members(front + [c])
    ensures c in s + Members(front) <==> c in s || c in front
    ensures s + Members([]) == s
  {
  }

  /** The values under the keys of a compact baseline. */
  lemma DocumentFields(cases: Json, summary: Json, passing: Json, failing: Json)
    ensures
      var d := Document(cases, summary, passing, failing);
      && Get(d, "baselineKind") == Str(BASELINE_KIND) && Get(d, "schemaVersion") == Num(SCHEMA_VERSION as real)
      && Get(d, "reviewer") == Str(REVIEWER) && Get(d, "requiredModes") == Strings(MODES)
      && Get(d, "requiredCases") == cases && Get(d, "summary") == summary
      && Get(d, "checks").Obj? && Get(Get(d, "checks").fields, "passing") == passing && Get(Get(d, "checks").fields, "failing") == failing
  {
    hide Strings;
  }

  lemma CompactIsDocument(identities: map<Identity, bool>, summary: Dict)
    requires forall id <- identities :: |id| == 3
    ensures forall c <- Sorted(RequiredCases()) :: |c| == 2
    ensures AllTriples(Sorted(Passing(identities))) && AllTriples(Sorted(Failing(identities)))
    ensures CompactOf(identities, summary) ==
      Document(Arr(CaseRecords(Sorted(RequiredCases()))), SummaryOf(summary),
               Arr(RecordsOf(Sorted(Passing(identities)))), Arr(RecordsOf(Sorted(Failing(identities)))))
  {
    RequiredCasesArePairs();
    hide RequiredCases, Sorted, Document, CaseRecords, RecordsOf;
  }

  lemma FailingFresh(s: Scan, identities: map<Identity, bool>)
    requires s.identities == All(Sorted(Passing(identities)), true) && forall id <- identities :: WellFormed(id)
    ensures Fresh(s, Sorted(Failing(identities)))
  {
    hide Sorted, WellFormed;
  }

  lemma AllPassingFailing(identities: map<Identity, bool>)
    ensures All(Sorted(Passing(identities)), true) + All(Sorted(Failing(identities)), false) == identities
  {
    hide Sorted;
  }

  lemma BothBuckets(s: Scan, identities: map<Identity, bool>, fields: Dict)
    requires forall id <- identities :: WellFormed(id) && |id| == 3
    requires s.identities == map[]
    requires Get(fields, "passing") == Arr(RecordsOf(Sorted(Passing(identities))))
    requires Get(fields, "failing") == Arr(RecordsOf(Sorted(Failing(identities))))
    ensures Bucket(false, Bucket(true, s, fields), fields) == s.(identities := identities)
  {
    var (passing, failing) := (Sorted(Passing(identities)), Sorted(Failing(identities)));
    hide WellFormed, Sorted, Records, All;
    SortedNoRepeats(passing);
    SortedNoRepeats(failing);
    RecordsBuild(true, s, passing);
    var half := s.(identities := All(passing, true));
    assert map[] + All(passing, true) == All(passing, true);
    assert Bucket(true, s, fields) == half;
    assert Fresh(half, failing) by { FailingFresh(half, identities); }
    RecordsBuild(false, half, failing);
    AllPassingFailing(identities);
  }

  /** A document that lists the required cases and these checks is read as them. */
  lemma DocumentReads(identities: map<Identity, bool>, d: Dict)
    requires forall id <- identities :: WellFormed(id) && |id| == 3
    requires Get(d, "baselineKind") == Str(BASELINE_KIND)
    requires (forall c <- Sorted(RequiredCases()) :: |c| == 2) && Get(d, "requiredCases") == Arr(CaseRecords(Sorted(RequiredCases())))
    requires Get(d, "checks").Obj?
    requires Get(Get(d, "checks").fields, "passing") == Arr(RecordsOf(Sorted(Passing(identities))))
    requires Get(Get(d, "checks").fields, "failing") == Arr(RecordsOf(Sorted(Failing(identities))))
    ensures CompactBody(Scan([], {}, map[]), d) == Scan([], RequiredCases(), identities)
  {
    hide WellFormed, RequiredCases, Sorted, CompactCases, Bucket, Passing, Failing, CaseRecords, RecordsOf;
    var cases := Sorted(RequiredCases());
    var s0 := Scan([], {}, map[]);
    SortedNoRepeats(cases);
    CompactCasesBuild(s0, cases);
    assert {} + Members(cases) == RequiredCases();
    BothBuckets(s0.(observed := RequiredCases()), identities, Get(d, "checks").fields);
  }

  lemma TriplesEach(ids: seq<Identity>)
    requires AllTriples(ids)
    ensures forall id <- ids :: |id| == 3
  {
  }

  lemma DocumentHeader(d: Dict)
    requires Get(d, "baselineKind") == Str(BASELINE_KIND) && Get(d, "schemaVersion") == Num(SCHEMA_VERSION as real)
    requires Get(d, "reviewer") == Str(REVIEWER) && Get(d, "requiredModes") == Strings(MODES)
    ensures Header(d) == Scan([], {}, map[]) && IsCompact(d)
  {
    hide Get;
  }

  lemma CompactReads(identities: map<Identity, bool>, summary: Dict)
    requires forall id <- identities :: WellFormed(id) && |id| == 3
    ensures
      var d := CompactOf(identities, summary);
      && Header(d) == Scan([], {}, map[]) && IsCompact(d) && Get(d, "summary") == SummaryOf(summary)
      && CompactBody(Scan([], {}, map[]), d) == Scan([], RequiredCases(), identities)
  {
    hide *;
    CompactIsDocument(identities, summary);
    TriplesEach(Sorted(Passing(identities)));
    TriplesEach(Sorted(Failing(identities)));
    DocumentFields(Arr(CaseRecords(Sorted(RequiredCases()))), SummaryOf(summary),
                   Arr(RecordsOf(Sorted(Passing(identities)))), Arr(RecordsOf(Sorted(Failing(identities)))));
    DocumentHeader(CompactOf(identities, summary));
    DocumentReads(identities, CompactOf(identities, summary));
  }

  lemma SummaryCarries(s: Scan, summary: Json)
    requires TotalsAgree(s, summary)
    ensures TotalsAgree(s, SummaryOf(summary.fields))
  {
    hide CasesPassed, Passing;
  }

  /** What acceptance establishes, for either form of report. */
  lemma AcceptedScan(report: Dict)
    requires Accepts(report)
    ensures Validate(report) == Scan([], RequiredCases(), Identities(report))
    ensures TotalsAgree(Validate(report), Get(report, "summary"))
  {
    hide CompactBody, FullBody, Header, TotalsAgree, RequiredCases, Finish;
    var s := Header(report);
    FinishKeeps(report, if IsCompact(report) then CompactBody(s, report) else FullBody(s, report));
    var body := if IsCompact(report) then CompactBody(s, report) else FullBody(s, report);
    assert Validate(report) == body;
  }

  /**
   * Compaction keeps the meaning: whatever the validator accepts compacts to a baseline that the
   * validator accepts too, with every check and its verdict recovered and every required case present.
   */
  lemma CompactKeepsChecks(report: Dict)
    requires Accepts(report)
    ensures Compact(report).Some? && Accepts(Compact(report).value)
    ensures Validate(Compact(report).value) == Validate(report)
  {
    AcceptedScan(report);
    ValidationWellFormed(report);
    hide TotalsAgree, RequiredCases, CompactBody, Header, IsCompact, WellFormed, Finish;
    var summary := Get(report, "summary");
    assert summary.Obj? by { TotalsNeedSummary(Validate(report), summary); }
    var identities := Identities(report);
    var compact := CompactOf(identities, summary.fields);
    assert Compact(report) == Some(compact);
    CompactReads(identities, summary.fields);
    SummaryCarries(Validate(report), summary);
    FinishKeeps(compact, Scan([], RequiredCases(), identities));
  }

  lemma TotalsNeedSummary(s: Scan, summary: Json)
    requires TotalsAgree(s, summary)
    ensures summary.Obj?
  {
  }

  /** The gate cannot tell a report from its compact baseline, on either side. */
  lemma GateSeesCompactAlike(candidate: Dict, baseline: Dict)
    requires Accepts(baseline)
    ensures Compact(baseline).Some?
    ensures Gate(candidate, Compact(baseline).value) == Gate(candidate, baseline)
    ensures Gate(Compact(baseline).value, candidate) == Gate(baseline, candidate)
  {
    CompactKeepsChecks(baseline);
  }

  lemma SummaryAgain(summary: Dict)
    ensures SummaryOf(summary).Obj? && SummaryOf(SummaryOf(summary).fields) == SummaryOf(summary)
  {
    var once := SummaryOf(summary).fields;
    assert Get(once, "passed") == Get(summary, "passed");
    assert Get(once, "failed") == Get(summary, "failed");
    assert Get(once, "total") == Get(summary, "total");
    assert Get(once, "casesPassed") == Get(summary, "casesPassed");
    assert Get(once, "casesTotal") == Get(summary, "casesTotal");
    hide Get;
  }

  lemma SummaryTwice(identities: map<Identity, bool>, summary: Dict)
    requires forall id <- identities :: |id| == 3
    ensures CompactOf(identities, SummaryOf(summary).fields) == CompactOf(identities, summary)
  {
    SummaryAgain(summary);
    hide RequiredCases, Sorted, Passing, Failing, SummaryOf, Document;
  }

  /** Compacting a compact baseline changes nothing. */
  lemma CompactTwice(report: Dict)
    requires Accepts(report)
    ensures Compact(report).Some? && Compact(Compact(report).value) == Compact(report)
  {
    CompactKeepsChecks(report);
    AcceptedScan(report);
    ValidationWellFormed(report);
    hide TotalsAgree, RequiredCases, Validate, Sorted, WellFormed, CompactOf;
    var summary := Get(report, "summary");
    TotalsNeedSummary(Validate(report), summary);
    CompactReads(Identities(report), summary.fields);
    SummaryTwice(Identities(report), summary.fields);
  }

  // ----- the gate as an order -----

  lemma GatePasses(b: Scan, c: Scan)
    ensures GateOf(b, c).success <==>
      && b.errors == [] && c.errors == []
      && (forall id <- c.identities :: !c.identities[id] ==> id in b.identities && !b.identities[id])
      && (forall id <- b.identities :: id in c.identities)
  {
    if Failing(c.identities) - Failing(b.identities) == {} {
      forall id | id in c.identities && !c.identities[id] ensures id in Failing(b.identities) {
        assert id !in Failing(c.identities) - Failing(b.identities);
      }
    }
    if b.identities.Keys - c.identities.Keys == {} {
      forall id | id in b.identities ensures id in c.identities {
        assert id !in b.identities.Keys - c.identities.Keys;
      }
    }
  }

  /** A report passes against itself exactly when it is valid. */
  lemma GateReflexive(report: Dict)
    ensures Gate(report, report).success <==> Accepts(report)
  {
    hide Validate;
    GatePasses(Validate(report), Validate(report));
  }

  lemma GateTransitive(b: Dict, c: Dict, d: Dict)
    requires Gate(c, b).success && Gate(d, c).success
    ensures Gate(d, b).success
  {
    hide Validate;
    GatePasses(Validate(b), Validate(c));
    GatePasses(Validate(c), Validate(d));
    GatePasses(Validate(b), Validate(d));
  }

  /** The verdict accounts for every baseline check exactly once, and for every failing check of the candidate. */
  lemma GatePartition(candidate: Dict, baseline: Dict, id: Identity)
    requires id in Identities(baseline)
    ensures
      var (v, b, c) := (Gate(candidate, baseline), Identities(baseline), Identities(candidate));
      var stillPassing := b[id] && id in c && c[id];
      var regressed := b[id] && id in v.new_;
      && (if stillPassing then 1 else 0) + (if regressed then 1 else 0) + (if id in v.known then 1 else 0)
         + (if id in v.fixed then 1 else 0) + (if id in v.missing then 1 else 0) == 1
      && (id in v.new_ ==> regressed)
  {
    hide Validate;
  }

  lemma GateListsFailures(candidate: Dict, baseline: Dict, id: Identity)
    ensures
      var (v, c) := (Gate(candidate, baseline), Identities(candidate));
      && ((id in v.known || id in v.new_) <==> (id in c && !c[id]))
      && !(id in v.known && id in v.new_)
  {
    hide Validate;
  }

  lemma {:induction false} FailedCount(identities: map<Identity, bool>)
    ensures |identities| - |Passing(identities)| == |Failing(identities)|
  {
    assert identities.Keys == Passing(identities) + Failing(identities);
    assert Passing(identities) * Failing(identities) == {};
    assert |identities.Keys| == |Passing(identities)| + |Failing(identities)|;
  }
}
