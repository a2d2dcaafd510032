/** The conformance validation and gate as the loops they are. */
module ComplianceRun {
  import opened Json
  import opened Ordering
  import opened ComplianceGate

  method ScanRecords(status: Status, s: Scan, records: seq<Json>) returns (r: Scan)
    ensures r == Records(status, s, records).0
  {
    var errors, identities := s.errors, s.identities;
    var seen: set<Identity> := {};
    for i := 0 to |records|
      invariant (Scan(errors, identities), seen) == Records(status, s, records[..i])
    {
      RecordsNext(status, s, records, i);
      hide Records, RecordIdentity;
      var identity := RecordIdentity(records[i]);
      if identity.None? {
        errors := errors + [Problem("malformed baseline identity", [])];
        continue;
      }
      if identity.value in seen {
        errors := errors + [Problem("duplicate baseline identity", [identity.value])];
        continue;
      }
      seen := seen + {identity.value};
      identities := Add(identities, identity.value, status);
    }
    assert records[..|records|] == records;
    r := Scan(errors, identities);
  }

  lemma RecordsNext(status: Status, s: Scan, records: seq<Json>, i: nat)
    requires i < |records|
    ensures Records(status, s, records[..i + 1]) == RecordStep(status, Records(status, s, records[..i]), records[i])
  {
    assert records[..i + 1][..i] == records[..i];
  }

  method ReadCases(errors: seq<Problem>, list: seq<Json>) returns (errors': seq<Problem>, cases: Cases)
    ensures (errors', cases) == CasesOf(errors, list)
  {
    errors', cases := errors, map[];
    for i := 0 to |list|
      invariant (errors', cases) == CasesOf(errors, list[..i])
    {
      CasesNext(errors, list, i);
      hide CasesOf;
      var case_ := list[i];
      if !case_.Obj? {
        errors' := errors' + [Problem("malformed transport case", [])];
        continue;
      }
      var mode, transport := Get(case_.fields, "mode"), Get(case_.fields, "transport");
      if !mode.Str? || mode.text !in MODES { continue; }
      if !transport.Str? {
        errors' := errors' + [Problem("malformed required transport case", [])];
        continue;
      }
      var key := [mode.text, transport.text];
      if key in cases {
        errors' := errors' + [Problem("duplicate transport case", [])];
        continue;
      }
      cases := cases[key := case_.fields];
    }
    assert list[..|list|] == list;
  }

  lemma CasesNext(errors: seq<Problem>, list: seq<Json>, i: nat)
    requires i < |list|
    ensures CasesOf(errors, list[..i + 1]) == CaseStep(CasesOf(errors, list[..i]), list[i])
  {
    assert list[..i + 1][..i] == list[..i];
  }

  method ScanChecks(cat: Catalog, mode: string, transport: string, s: Scan, checks: seq<Json>) returns (r: Scan, observed: set<string>)
    ensures (r, observed) == Checks(cat, mode, transport, s, checks)
  {
    var errors, identities := s.errors, s.identities;
    observed := {};
    for i := 0 to |checks|
      invariant (Scan(errors, identities), observed) == Checks(cat, mode, transport, s, checks[..i])
    {
      ChecksNext(cat, mode, transport, s, checks, i);
      hide Checks, ReadCheck;
      var read := ReadCheck(cat, mode, transport, checks[i]);
      if read.None? {
        errors := errors + [Problem("malformed check", [[mode, transport]])];
        continue;
      }
      identities := Add(identities, read.value.0, read.value.1);
      if RunsScenario(read.value.0, mode) {
        observed := observed + {read.value.0[3]};
      }
    }
    assert checks[..|checks|] == checks;
    r := Scan(errors, identities);
  }

  lemma ChecksNext(cat: Catalog, mode: string, transport: string, s: Scan, checks: seq<Json>, i: nat)
    requires i < |checks|
    ensures Checks(cat, mode, transport, s, checks[..i + 1]) == CheckStep(cat, mode, transport, Checks(cat, mode, transport, s, checks[..i]), checks[i])
  {
    assert checks[..i + 1][..i] == checks[..i];
  }

  method ScanTransport(cat: Catalog, cases: Cases, s: Scan, mode: string, transport: string) returns (r: Scan)
    ensures r == TransportScan(cat, cases, s, mode, transport)
  {
    hide Checks, ObservationErrors;
    if [mode, transport] !in cases { return Err(s, "missing required case", [[mode, transport]]); }
    var checks := Items(Get(cases[[mode, transport]], "checks"));
    if checks == [] { return Err(s, "no checks", [[mode, transport]]); }
    var observed;
    r, observed := ScanChecks(cat, mode, transport, s, checks);
    if transport == HTTP {
      r := r.(errors := r.errors + ObservationErrors(mode, cat.scenarios(mode), observed));
    }
  }

  function ModesScan(cat: Catalog, selected: Dict, cases: Cases, s: Scan, n: nat): Scan
    requires n <= |MODES|
  {
    if n == 0 then s else ModeScan(cat, selected, cases, ModesScan(cat, selected, cases, s, n - 1), MODES[n - 1])
  }

  function ModesErrors(cat: Catalog, selected: Dict, ids: map<Identity, set<Status>>, n: nat): seq<Problem>
    requires n <= |MODES|
  {
    if n == 0 then [] else ModesErrors(cat, selected, ids, n - 1) + CompactModeErrors(cat, selected, ids, MODES[n - 1])
  }

  lemma ThreeModes(cat: Catalog, selected: Dict, cases: Cases, s: Scan, ids: map<Identity, set<Status>>)
    ensures ModesScan(cat, selected, cases, s, 3) ==
      ModeScan(cat, selected, cases, ModeScan(cat, selected, cases, ModeScan(cat, selected, cases, s, MODES[0]), MODES[1]), MODES[2])
    ensures ModesErrors(cat, selected, ids, 3) == AllModeErrors(cat, selected, ids)
  {
    hide ModeScan, CompactModeErrors;
    assert ModesScan(cat, selected, cases, s, 1) == ModeScan(cat, selected, cases, s, MODES[0]);
    assert ModesScan(cat, selected, cases, s, 2) == ModeScan(cat, selected, cases, ModesScan(cat, selected, cases, s, 1), MODES[1]);
    assert ModesErrors(cat, selected, ids, 1) == CompactModeErrors(cat, selected, ids, MODES[0]);
    assert ModesErrors(cat, selected, ids, 2) == CompactModeErrors(cat, selected, ids, MODES[0]) + CompactModeErrors(cat, selected, ids, MODES[1]);
  }

  method ScanCompact(cat: Catalog, report: Dict) returns (r: Scan)
    ensures r == CompactScan(cat, report)
  {
    hide HeaderErrors, Records, CompactModeErrors, AllModeErrors, EqualsStrings, BothTransports;
    if Get(report, "baselineKind") != Str(BASELINE_KIND) {
      return Scan(HeaderErrors(report) + ErrorIf(true, "unsupported baseline format"), map[]);
    }
    var checks := Get(report, "checks");
    if !checks.Obj? { return Scan(CompactHeader(report) + ErrorIf(true, "no baseline identities"), map[]); }
    r := ScanBucket(Pass, Scan(CompactHeader(report), map[]), checks.fields);
    r := ScanBucket(Fail, r, checks.fields);
    ghost var s := r;
    ThreeModes(cat, Selected(report), map[], s, s.identities);
    for i := 0 to |MODES|
      invariant r == s.(errors := s.errors + ModesErrors(cat, Selected(report), s.identities, i))
    {
      r := r.(errors := r.errors + CompactModeErrors(cat, Selected(report), r.identities, MODES[i]));
    }
  }

  method ScanBucket(status: Status, s: Scan, checks: Dict) returns (r: Scan)
    ensures r == Bucket(status, s, checks)
  {
    hide Records;
    var records := Get(checks, if status.Pass? then "passing" else "failing");
    if !records.Arr? {
      r := Err(s, "no baseline identities of this outcome", []);
    } else {
      r := ScanRecords(status, s, records.items);
    }
  }

  method ScanMode(cat: Catalog, selected: Dict, cases: Cases, s: Scan, mode: string) returns (r: Scan)
    ensures r == ModeScan(cat, selected, cases, s, mode)
  {
    hide TransportScan, CatalogComplete;
    r := s.(errors := s.errors + ErrorIf(!CatalogComplete(cat, selected, mode), "scenario catalog not complete"));
    r := ScanTransport(cat, cases, r, mode, STDIO);
    r := ScanTransport(cat, cases, r, mode, HTTP);
  }

  method ScanFull(cat: Catalog, report: Dict) returns (r: Scan)
    ensures r == FullScan(cat, report)
  {
    hide HeaderErrors, CasesOf, ModeScan, Selected;
    var list := Get(report, "cases");
    var errors, cases := ReadCases(HeaderErrors(report) + ErrorIf(!list.Arr?, "no transport cases"), Items(list));
    var selected := Selected(report);
    ThreeModes(cat, selected, cases, Scan(errors, map[]), map[]);
    r := Scan(errors, map[]);
    for i := 0 to |MODES|
      invariant r == ModesScan(cat, selected, cases, Scan(errors, map[]), i)
    {
      r := ScanMode(cat, selected, cases, r, MODES[i]);
    }
  }

  method RequiredRegressionChecks(cat: Catalog, report: Dict) returns (r: Scan)
    ensures r == Validate(cat, report)
  {
    hide CompactScan, FullScan;
    if IsCompact(report) {
      r := ScanCompact(cat, report);
    } else {
      r := ScanFull(cat, report);
    }
  }

  /** The pass over the candidate's checks in order. */
  method CandidateFailures(b: Scan, c: Scan) returns (shipping: seq<Identity>, known: seq<Identity>, new_: seq<Identity>)
    ensures shipping == Sorted(Shipping(With(c.identities, Fail)))
    ensures known == Sorted(With(c.identities, Fail) * With(b.identities, Fail))
    ensures new_ == Sorted(With(c.identities, Fail) - With(b.identities, Fail))
  {
    hide Sorted, Filter, StrictlySorted;
    var listed := Sorted(c.identities.Keys);
    shipping, known, new_ := [], [], [];
    ghost var ships := Shipping(With(c.identities, Fail));
    ghost var knowns := With(c.identities, Fail) * With(b.identities, Fail);
    ghost var news := With(c.identities, Fail) - With(b.identities, Fail);
    FilterNone(listed);
    for i := 0 to |listed|
      invariant shipping == Filter(listed[..i], ships) && known == Filter(listed[..i], knowns) && new_ == Filter(listed[..i], news)
    {
      var identity := listed[i];
      assert identity in c.identities.Keys;
      FilterNext(listed, i, ships);
      FilterNext(listed, i, knowns);
      FilterNext(listed, i, news);
      if Fail !in c.identities[identity] { continue; }
      if identity != [] && identity[0] == SHIPPING {
        shipping := shipping + [identity];
      }
      if Fail in Statuses(b.identities, identity) {
        known := known + [identity];
      } else {
        new_ := new_ + [identity];
      }
    }
    assert listed[..|listed|] == listed;
    FilterOfSorted(c.identities.Keys, ships);
    FilterOfSorted(c.identities.Keys, knowns);
    FilterOfSorted(c.identities.Keys, news);
    assert c.identities.Keys * ships == ships && c.identities.Keys * knowns == knowns && c.identities.Keys * news == news;
  }

  /** The pass over the baseline's checks in order. */
  method BaselineChanges(b: Scan, c: Scan) returns (shipping: seq<Identity>, missing: seq<Identity>, fixed: seq<Identity>)
    ensures shipping == Sorted(Shipping(With(b.identities, Fail)))
    ensures missing == Sorted(Missing(b.identities, c.identities))
    ensures fixed == Sorted(With(b.identities, Fail) - With(c.identities, Fail) - Missing(b.identities, c.identities))
  {
    hide Sorted, Filter, StrictlySorted;
    var listed := Sorted(b.identities.Keys);
    shipping, missing, fixed := [], [], [];
    ghost var ships := Shipping(With(b.identities, Fail));
    ghost var gone := Missing(b.identities, c.identities);
    ghost var repaired := With(b.identities, Fail) - With(c.identities, Fail) - gone;
    FilterNone(listed);
    for i := 0 to |listed|
      invariant shipping == Filter(listed[..i], ships) && missing == Filter(listed[..i], gone) && fixed == Filter(listed[..i], repaired)
    {
      var identity := listed[i];
      assert identity in b.identities.Keys;
      FilterNext(listed, i, ships);
      FilterNext(listed, i, gone);
      FilterNext(listed, i, repaired);
      var before, after := b.identities[identity], Statuses(c.identities, identity);
      if identity != [] && identity[0] == SHIPPING && Fail in before {
        shipping := shipping + [identity];
      }
      if Pass in before && Pass !in after {
        missing := missing + [identity];
      } else if Fail in before && Fail !in after && Pass !in after {
        missing := missing + [identity];
      } else if Fail in before && Fail !in after {
        fixed := fixed + [identity];
      }
    }
    assert listed[..|listed|] == listed;
    FilterOfSorted(b.identities.Keys, ships);
    FilterOfSorted(b.identities.Keys, gone);
    FilterOfSorted(b.identities.Keys, repaired);
    assert b.identities.Keys * ships == ships && b.identities.Keys * gone == gone && b.identities.Keys * repaired == repaired;
  }

  method EvaluateRegressionGate(cat: Catalog, candidate: Dict, baseline: Dict) returns (v: Verdict)
    ensures v == Gate(cat, candidate, baseline)
  {
    hide Validate, Sorted, With, Shipping, Missing;
    var b := RequiredRegressionChecks(cat, baseline);
    var c := RequiredRegressionChecks(cat, candidate);
    var policy := PolicyErrors(Get(baseline, "automaticAuthRequired"), Get(candidate, "automaticAuthRequired"));
    var shippingFailed, known, new_ := CandidateFailures(b, c);
    var baselineShipping, missing, fixed := BaselineChanges(b, c);
    EmptyListing(Shipping(With(c.identities, Fail)));
    EmptyListing(Shipping(With(b.identities, Fail)));
    EmptyListing(With(c.identities, Fail) - With(b.identities, Fail));
    EmptyListing(Missing(b.identities, c.identities));
    v := Verdict(b.errors == [] && c.errors == [] && policy == [] && shippingFailed == [] && baselineShipping == [] && new_ == [] && missing == [],
                 b.errors, c.errors, policy, shippingFailed, baselineShipping, new_, missing, known, fixed);
  }
}
