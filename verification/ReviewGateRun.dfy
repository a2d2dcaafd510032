/** The validation and the gate of reviewer reports as the loops they are. */
module ReviewGateRun {
  import opened Json
  import opened Ordering
  import opened ReviewGate

  method ScanChecks(c: Case, s: Scan, checks: seq<Json>) returns (r: Scan, success: bool)
    ensures (r, success) == Checks(c, s, checks)
  {
    var errors, identities := s.errors, s.identities;
    success := true;
    for i := 0 to |checks|
      invariant (Scan(errors, s.observed, identities), success) == Checks(c, s, checks[..i])
    {
      assert checks[..i + 1][..i] == checks[..i];
      hide Checks;
      assert Checks(c, s, checks[..i + 1]) == CheckStep(c, (Scan(errors, s.observed, identities), success), checks[i]) by { ChecksNext(c, s, checks, i); }
      var check := checks[i];
      if !check.Obj? {
        errors := errors + [Problem("malformed reviewer check", c)];
        continue;
      }
      var id, verdict := Get(check.fields, "name"), Get(check.fields, "success");
      if !id.Str? || !StartsWith(id.text, "review/") || !verdict.Bool? {
        errors := errors + [Problem("malformed reviewer check", c)];
        continue;
      }
      if c + [id.text] in identities {
        errors := errors + [Problem("duplicate reviewer check", c + [id.text])];
        continue;
      }
      identities := identities[c + [id.text] := verdict.value];
      success := success && verdict.value;
    }
    assert checks[..|checks|] == checks;
    r := Scan(errors, s.observed, identities);
  }

  lemma ChecksNext(c: Case, s: Scan, checks: seq<Json>, i: nat)
    requires i < |checks|
    ensures Checks(c, s, checks[..i + 1]) == CheckStep(c, Checks(c, s, checks[..i]), checks[i])
  {
    assert checks[..i + 1][..i] == checks[..i];
  }

  method ScanCases(s: Scan, cases: seq<Json>) returns (r: Scan)
    ensures r == FullCases(s, cases)
  {
    var errors, observed, identities := s.errors, s.observed, s.identities;
    for i := 0 to |cases|
      invariant Scan(errors, observed, identities) == FullCases(s, cases[..i])
    {
      CasesNext(s, cases, i);
      hide FullCases, RequiredCases, Checks;
      var case_ := cases[i];
      if !case_.Obj? {
        errors := errors + [Problem("malformed reviewer case", [])];
        continue;
      }
      var mode, transport := Get(case_.fields, "mode"), Get(case_.fields, "transport");
      if !mode.Str? || !transport.Str? || [mode.text, transport.text] !in RequiredCases() {
        errors := errors + [Problem("unexpected reviewer case", [])];
        continue;
      }
      var c := [mode.text, transport.text];
      if c in observed {
        errors := errors + [Problem("duplicate reviewer case", c)];
        continue;
      }
      observed := observed + {c};
      var checks := Items(Get(case_.fields, "checks"));
      if checks == [] {
        errors := errors + [Problem("no reviewer checks", c)];
        continue;
      }
      var scan, success := ScanChecks(c, Scan(errors, observed, identities), checks);
      errors, observed, identities := scan.errors, scan.observed, scan.identities;
      if Get(case_.fields, "success") != Bool(success) {
        errors := errors + [Problem("inconsistent reviewer case success", c)];
      }
    }
    assert cases[..|cases|] == cases;
    r := Scan(errors, observed, identities);
  }

  lemma CasesNext(s: Scan, cases: seq<Json>, i: nat)
    requires i < |cases|
    ensures FullCases(s, cases[..i + 1]) == CaseStep(FullCases(s, cases[..i]), cases[i])
    ensures CompactCases(s, cases[..i + 1]) == RequiredCaseStep(CompactCases(s, cases[..i]), cases[i])
  {
    assert cases[..i + 1][..i] == cases[..i];
  }

  method ScanRequiredCases(s: Scan, cases: seq<Json>) returns (r: Scan)
    ensures r == CompactCases(s, cases)
  {
    var errors, observed := s.errors, s.observed;
    for i := 0 to |cases|
      invariant Scan(errors, observed, s.identities) == CompactCases(s, cases[..i])
    {
      CasesNext(s, cases, i);
      hide CompactCases;
      var case_ := cases[i];
      if !case_.Obj? {
        errors := errors + [Problem("malformed reviewer case", [])];
        continue;
      }
      var mode, transport := Get(case_.fields, "mode"), Get(case_.fields, "transport");
      if !mode.Str? || !transport.Str? {
        errors := errors + [Problem("malformed reviewer case", [])];
        continue;
      }
      var identity := [mode.text, transport.text];
      if identity in observed {
        errors := errors + [Problem("duplicate reviewer case", identity)];
        continue;
      }
      observed := observed + {identity};
    }
    assert cases[..|cases|] == cases;
    r := Scan(errors, observed, s.identities);
  }

  method ScanRecords(success: bool, s: Scan, records: seq<Json>) returns (r: Scan)
    ensures r == Records(success, s, records)
  {
    var errors, identities := s.errors, s.identities;
    for i := 0 to |records|
      invariant Scan(errors, s.observed, identities) == Records(success, s, records[..i])
    {
      RecordsNext(success, s, records, i);
      hide Records, WellFormed;
      var record := records[i];
      if !record.Obj? {
        errors := errors + [Problem("malformed reviewer check", [])];
        continue;
      }
      var mode, transport, id := Get(record.fields, "mode"), Get(record.fields, "transport"), Get(record.fields, "check_id");
      if !mode.Str? || !transport.Str? || !id.Str? || !WellFormed([mode.text, transport.text, id.text]) {
        errors := errors + [Problem("malformed reviewer check", [])];
        continue;
      }
      var identity := [mode.text, transport.text, id.text];
      if identity in identities {
        errors := errors + [Problem("duplicate reviewer check", identity)];
        continue;
      }
      identities := identities[identity := success];
    }
    assert records[..|records|] == records;
    r := Scan(errors, s.observed, identities);
  }

  lemma RecordsNext(success: bool, s: Scan, records: seq<Json>, i: nat)
    requires i < |records|
    ensures Records(success, s, records[..i + 1]) == RecordStep(success, Records(success, s, records[..i]), records[i])
  {
    assert records[..i + 1][..i] == records[..i];
  }

  /** Failures known and new among the candidate's checks, in one pass over them in order. */
  method CandidateFailures(b: Scan, c: Scan) returns (known: seq<Identity>, new_: seq<Identity>)
    ensures known == GateOf(b, c).known && new_ == GateOf(b, c).new_
  {
    hide Sorted, Passing, Filter, StrictlySorted;
    var listed := Sorted(c.identities.Keys);
    known, new_ := [], [];
    FilterNone(listed);
    ghost var knownSet := Failing(c.identities) * Failing(b.identities);
    ghost var newSet := Failing(c.identities) - Failing(b.identities);
    for i := 0 to |listed|
      invariant known == Filter(listed[..i], knownSet) && new_ == Filter(listed[..i], newSet)
    {
      var identity := listed[i];
      assert identity in c.identities.Keys;
      FilterNext(listed, i, knownSet);
      FilterNext(listed, i, newSet);
      if c.identities[identity] { continue; }
      if identity in b.identities && !b.identities[identity] {
        known := known + [identity];
      } else {
        new_ := new_ + [identity];
      }
    }
    assert listed[..|listed|] == listed;
    FilterOfSorted(c.identities.Keys, knownSet);
    FilterOfSorted(c.identities.Keys, newSet);
    assert c.identities.Keys * knownSet == knownSet && c.identities.Keys * newSet == newSet;
  }

  /** Checks gone and checks repaired, in one pass over the baseline's checks in order. */
  method BaselineChanges(b: Scan, c: Scan) returns (missing: seq<Identity>, fixed: seq<Identity>)
    ensures missing == GateOf(b, c).missing && fixed == GateOf(b, c).fixed
  {
    hide Sorted, Filter, StrictlySorted;
    var listed := Sorted(b.identities.Keys);
    missing, fixed := [], [];
    FilterNone(listed);
    ghost var missingSet := b.identities.Keys - c.identities.Keys;
    ghost var fixedSet := Failing(b.identities) * Passing(c.identities);
    for i := 0 to |listed|
      invariant missing == Filter(listed[..i], missingSet) && fixed == Filter(listed[..i], fixedSet)
    {
      var identity := listed[i];
      assert identity in b.identities.Keys;
      FilterNext(listed, i, missingSet);
      FilterNext(listed, i, fixedSet);
      if identity !in c.identities {
        missing := missing + [identity];
      } else if !b.identities[identity] && c.identities[identity] {
        fixed := fixed + [identity];
      }
    }
    assert listed[..|listed|] == listed;
    FilterOfSorted(b.identities.Keys, missingSet);
    FilterOfSorted(b.identities.Keys, fixedSet);
    assert b.identities.Keys * missingSet == missingSet && b.identities.Keys * fixedSet == fixedSet;
  }

  /** The validation of either form of report. */
  method RequiredReviewChecks(report: Dict) returns (s: Scan)
    ensures s == Validate(report)
  {
    hide FullCases, CompactCases, Records, Header, Finish;
    s := Header(report);
    if IsCompact(report) {
      if Get(report, "baselineKind") != Str(BASELINE_KIND) { s := Err(s, "unsupported baseline format", []); }
      var cases := Get(report, "requiredCases");
      if !cases.Arr? { s := Err(s, "no required reviewer cases", []); }
      s := ScanRequiredCases(s, Items(cases));
      var checks := Get(report, "checks");
      if !checks.Obj? { s := Err(s, "no reviewer check identities", []); }
      var fields := if checks.Obj? then checks.fields else map[];
      s := ScanBucket(true, s, fields);
      s := ScanBucket(false, s, fields);
    } else {
      var cases := Get(report, "cases");
      if !cases.Arr? { s := Err(s, "no production reviewer cases", []); }
      s := ScanCases(s, Items(cases));
    }
    s := Finish(report, s);
  }

  method ScanBucket(success: bool, s: Scan, checks: Dict) returns (r: Scan)
    ensures r == Bucket(success, s, checks)
  {
    hide Records;
    var records := Get(checks, if success then "passing" else "failing");
    if !records.Arr? {
      r := Err(s, "no reviewer checks of this outcome", []);
    } else {
      r := ScanRecords(success, s, records.items);
    }
  }

  method EvaluateReviewRegressionGate(candidate: Dict, baseline: Dict) returns (v: Verdict)
    ensures v == Gate(candidate, baseline)
  {
    hide Validate, Sorted, Passing, Failing;
    var b := RequiredReviewChecks(baseline);
    var c := RequiredReviewChecks(candidate);
    var known, new_ := CandidateFailures(b, c);
    var missing, fixed := BaselineChanges(b, c);
    EmptyListing(Failing(c.identities) - Failing(b.identities));
    EmptyListing(b.identities.Keys - c.identities.Keys);
    v := Verdict(b.errors == [] && c.errors == [] && new_ == [] && missing == [], b.errors, c.errors, known, new_, missing, fixed);
  }
}
