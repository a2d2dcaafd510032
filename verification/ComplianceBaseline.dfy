/** Compacting a conformance report keeps what the gate looks at; the gate is an order. */
module ComplianceBaseline {
  import opened Json
  import opened Ordering
  import opened Text
  import opened ComplianceGate

  /** The checks that passed or failed somewhere; a check that was only skipped is dropped. */
  function Kept(ids: map<Identity, set<Status>>): map<Identity, set<Status>> {
    map id | id in ids && (Pass in ids[id] || Fail in ids[id]) :: ids[id] * {Pass, Fail}
  }

  /** Every required case and every scenario has a check that passed or failed. */
  predicate Covered(cat: Catalog, ids: map<Identity, set<Status>>) {
    forall mode <- MODES :: ModeCovered(cat, ids, mode)
  }

  predicate ModeCovered(cat: Catalog, ids: map<Identity, set<Status>>, mode: string) {
    && HasCase(Kept(ids), mode, STDIO) && HasCase(Kept(ids), mode, HTTP)
    && forall name <- cat.scenarios(mode) :: name in Observed(Kept(ids), mode)
  }

  // ----- reading records back -----

  function AddAll(ids: map<Identity, set<Status>>, xs: seq<Identity>, status: Status): map<Identity, set<Status>> {
    if xs == [] then ids else Add(AddAll(ids, xs[..|xs| - 1], status), xs[|xs| - 1], status)
  }

  lemma {:induction false} AddAllAt(ids: map<Identity, set<Status>>, xs: seq<Identity>, status: Status, id: Identity)
    ensures id in AddAll(ids, xs, status) <==> id in ids || id in xs
    ensures Statuses(AddAll(ids, xs, status), id) == Statuses(ids, id) + if id in xs then {status} else {}
  {
    if xs != [] {
      AddAllAt(ids, xs[..|xs| - 1], status, id);
      assert xs == xs[..|xs| - 1] + [xs[|xs| - 1]];
    }
  }

  lemma RecordReads(id: Identity)
    requires |id| == 5 && WellFormed(id)
    ensures RecordIdentity(Record(id)) == Some(id)
  {
    hide WellFormed;
    assert id == [id[0], id[1], id[2], id[3], id[4]];
    var fields := Record(id).fields;
    assert Get(fields, "mode") == Str(id[0]) && Get(fields, "transport") == Str(id[1]) && Get(fields, "source") == Str(id[2]);
    assert Get(fields, "scenario") == Str(id[3]) && Get(fields, "check_id") == Str(id[4]);
    hide Get;
  }

  predicate AllWell(xs: seq<Identity>) {
    forall id <- xs :: |id| == 5 && WellFormed(id)
  }

  lemma RecordsFront(xs: seq<Identity>)
    requires xs != [] && AllWell(xs)
    ensures AllWell(xs[..|xs| - 1]) && |xs[|xs| - 1]| == 5 && WellFormed(xs[|xs| - 1])
    ensures RecordsOf(xs)[..|xs| - 1] == RecordsOf(xs[..|xs| - 1])
    ensures RecordsOf(xs)[|xs| - 1] == Record(xs[|xs| - 1])
  {
    hide Record, WellFormed;
  }

  function Members(xs: seq<Identity>): set<Identity> { set x | x in xs }

  lemma MembersNext(xs: seq<Identity>)
    ensures Members([]) == {}
    ensures xs != [] ==> Members(xs) == Members(xs[..|xs| - 1]) + {xs[|xs| - 1]}
    ensures forall x :: x in Members(xs) <==> x in xs
  {
    if xs != [] { assert xs == xs[..|xs| - 1] + [xs[|xs| - 1]]; }
  }

  lemma {:induction false} RecordsBuild(status: Status, s: Scan, xs: seq<Identity>)
    requires NoRepeats(xs) && AllWell(xs)
    ensures Records(status, s, RecordsOf(xs)) == (s.(identities := AddAll(s.identities, xs, status)), Members(xs))
  {
    hide RecordIdentity, Record, AllWell, NoRepeats, Members, WellFormed, Add;
    MembersNext(xs);
    if xs != [] {
      var (front, id) := (xs[..|xs| - 1], xs[|xs| - 1]);
      RecordsFront(xs);
      NoRepeatsFront(xs);
      RecordsBuild(status, s, front);
      RecordReads(id);
      MembersNext(front);
      hide RecordsOf;
    }
  }

  lemma KeptIsAddAll(ids: map<Identity, set<Status>>)
    ensures AddAll(AddAll(map[], Sorted(With(ids, Pass)), Pass), Sorted(With(ids, Fail)), Fail) == Kept(ids)
  {
    var (passing, failing) := (Sorted(With(ids, Pass)), Sorted(With(ids, Fail)));
    var half := AddAll(map[], passing, Pass);
    var whole := AddAll(half, failing, Fail);
    hide Sorted, AddAll;
    forall id ensures id in whole <==> id in Kept(ids)
      ensures id in whole ==> whole[id] == Kept(ids)[id]
    {
      AddAllAt(map[], passing, Pass, id);
      AddAllAt(half, failing, Fail, id);
    }
    assert whole.Keys == Kept(ids).Keys;
  }

  lemma BucketsRead(s: Scan, ids: map<Identity, set<Status>>, fields: Dict)
    requires IdsOk(ids) && s.identities == map[]
    requires (forall id <- Sorted(With(ids, Pass)) :: |id| == 5) && (forall id <- Sorted(With(ids, Fail)) :: |id| == 5)
    requires Get(fields, "passing") == Arr(RecordsOf(Sorted(With(ids, Pass))))
    requires Get(fields, "failing") == Arr(RecordsOf(Sorted(With(ids, Fail))))
    ensures BothBuckets(s, fields) == s.(identities := Kept(ids))
  {
    var (passing, failing) := (Sorted(With(ids, Pass)), Sorted(With(ids, Fail)));
    assert AllWell(passing) && AllWell(failing) by { hide Sorted, WellFormed; }
    hide Sorted, IdsOk, WellFormed, Records, AddAll, AllWell, NoRepeats;
    SortedNoRepeats(passing);
    SortedNoRepeats(failing);
    RecordsBuild(Pass, s, passing);
    var half := s.(identities := AddAll(map[], passing, Pass));
    assert Bucket(Pass, s, fields) == half;
    RecordsBuild(Fail, half, failing);
    KeptIsAddAll(ids);
  }

  // ----- the document -----

  lemma DocumentFields(auth: Json, scenarios: Json, passing: Json, failing: Json)
    ensures
      var d := Document(auth, scenarios, passing, failing);
      && Get(d, "baselineKind") == Str(BASELINE_KIND) && Get(d, "schemaVersion") == Num(SCHEMA_VERSION as real)
      && Get(d, "requiredModes") == Strings(MODES) && Get(d, "transports") == Strings([STDIO, HTTP])
      && Get(d, "modernFeatureEnablement") == Bool(true) && Get(d, "automaticAuthRequired") == auth
  {
    hide Strings;
  }

  lemma DocumentParts(auth: Json, scenarios: Json, passing: Json, failing: Json)
    ensures
      var d := Document(auth, scenarios, passing, failing);
      && Get(d, "versionCheck").Obj? && Get(Get(d, "versionCheck").fields, "success") == Bool(true)
      && Get(d, "checks").Obj? && Get(Get(d, "checks").fields, "passing") == passing && Get(Get(d, "checks").fields, "failing") == failing
  {
    hide Strings;
  }

  lemma DocumentOfficial(auth: Json, scenarios: Json, passing: Json, failing: Json)
    ensures
      var d := Document(auth, scenarios, passing, failing);
      && Get(d, "officialConformance").Obj?
      && var official := Get(d, "officialConformance").fields;
         && Get(official, "repository") == Str(REPOSITORY) && Get(official, "gitRef") == Str(GIT_REF)
         && Get(official, "authenticationIncluded") == Bool(true) && Get(official, "scenarios") == scenarios
  {
    hide Strings;
  }

  lemma DocumentHeader(d: Dict)
    requires Get(d, "schemaVersion") == Num(SCHEMA_VERSION as real) && Get(d, "modernFeatureEnablement") == Bool(true)
    requires Get(d, "versionCheck").Obj? && Get(Get(d, "versionCheck").fields, "success") == Bool(true)
    requires Get(d, "officialConformance").Obj?
    requires
      var official := Get(d, "officialConformance").fields;
      && Get(official, "repository") == Str(REPOSITORY) && Get(official, "gitRef") == Str(GIT_REF)
      && Get(official, "authenticationIncluded") == Bool(true) && Get(official, "scenarios").Obj?
    ensures HeaderErrors(d) == []
  {
    hide Get;
  }

  lemma ScenariosCopied(selected: Dict, mode: string)
    requires mode in MODES
    ensures Get(ScenariosOf(selected).fields, mode) == Get(selected, mode)
  {
    hide Get;
    assert mode == MODES[0] || mode == MODES[1] || mode == MODES[2];
    var d := ScenariosOf(selected).fields;
    assert MODES[0] in d && MODES[1] in d && MODES[2] in d;
    assert d[MODES[0]] == Get(selected, MODES[0]) && d[MODES[1]] == Get(selected, MODES[1]) && d[MODES[2]] == Get(selected, MODES[2]);
    KeyRead(d, mode);
  }

  lemma KeyRead(d: Dict, key: string)
    requires key in d
    ensures Get(d, key) == d[key]
  {
  }

  lemma ScenariosTwice(selected: Dict)
    ensures ScenariosOf(ScenariosOf(selected).fields) == ScenariosOf(selected)
  {
    ScenariosCopied(selected, MODES[0]);
    ScenariosCopied(selected, MODES[1]);
    ScenariosCopied(selected, MODES[2]);
    hide Get;
  }

  /** The transports a compact baseline names. */
  lemma TransportsNamed()
    ensures BothTransports(Strings([STDIO, HTTP]))
  {
    var j := Strings([STDIO, HTTP]);
    assert j.items == [Str(STDIO), Str(HTTP)];
  }

  /** What a document with the checks of `ids` is read as. */
  lemma DocumentReads(cat: Catalog, d: Dict, ids: map<Identity, set<Status>>)
    requires IdsOk(ids) && HeaderErrors(d) == []
    requires Get(d, "baselineKind") == Str(BASELINE_KIND) && Get(d, "requiredModes") == Strings(MODES)
    requires Get(d, "transports") == Strings([STDIO, HTTP]) && Get(d, "checks").Obj?
    requires (forall id <- Sorted(With(ids, Pass)) :: |id| == 5) && (forall id <- Sorted(With(ids, Fail)) :: |id| == 5)
    requires Get(Get(d, "checks").fields, "passing") == Arr(RecordsOf(Sorted(With(ids, Pass))))
    requires Get(Get(d, "checks").fields, "failing") == Arr(RecordsOf(Sorted(With(ids, Fail))))
    ensures Validate(cat, d) == Scan(AllModeErrors(cat, Selected(d), Kept(ids)), Kept(ids))
  {
    hide *;
    CompactScanReads(cat, d);
    CompactHeaderEmpty(d);
    BucketsRead(Scan([], map[]), ids, Get(d, "checks").fields);
    assert [] + AllModeErrors(cat, Selected(d), Kept(ids)) == AllModeErrors(cat, Selected(d), Kept(ids));
  }

  lemma CompactScanReads(cat: Catalog, d: Dict)
    requires Get(d, "baselineKind") == Str(BASELINE_KIND) && Get(d, "checks").Obj?
    ensures
      var s := BothBuckets(Scan(CompactHeader(d), map[]), Get(d, "checks").fields);
      Validate(cat, d) == s.(errors := s.errors + AllModeErrors(cat, Selected(d), s.identities))
  {
    hide Get, CompactHeader, BothBuckets, AllModeErrors, Selected;
  }

  lemma CompactHeaderEmpty(d: Dict)
    requires HeaderErrors(d) == []
    requires Get(d, "requiredModes") == Strings(MODES) && Get(d, "transports") == Strings([STDIO, HTTP])
    ensures CompactHeader(d) == []
  {
    hide HeaderErrors, Get, BothTransports, EqualsStrings, Strings;
    TransportsNamed();
    ModesNamed();
  }

  lemma ModesNamed()
    ensures EqualsStrings(Strings(MODES), MODES)
  {
  }

  // ----- acceptance of the compact form -----

  lemma ModeErrorsEmpty(cat: Catalog, selected: Dict, ids: map<Identity, set<Status>>, mode: string)
    ensures CompactModeErrors(cat, selected, ids, mode) == [] <==>
      && CatalogComplete(cat, selected, mode) && HasCase(ids, mode, STDIO) && HasCase(ids, mode, HTTP)
      && (set x | x in cat.scenarios(mode)) == Observed(ids, mode)
  {
    hide CatalogComplete, HasCase, Observed, Sorted;
  }

  /** What acceptance establishes, for either form of report. */
  lemma AcceptedScenarios(cat: Catalog, report: Dict)
    requires Accepts(cat, report)
    ensures ScenariosExpected(cat, Identities(cat, report))
    ensures forall mode <- MODES :: CatalogComplete(cat, Selected(report), mode)
  {
    hide CatalogComplete, FullScan;
    ValidationWellFormed(cat, report);
    if IsCompact(report) {
      CompactAccepted(cat, report);
    } else {
      FullScanOk(cat, report);
    }
  }

  lemma AllModeErrorsEmpty(cat: Catalog, selected: Dict, ids: map<Identity, set<Status>>)
    ensures AllModeErrors(cat, selected, ids) == [] <==> forall mode <- MODES :: CompactModeErrors(cat, selected, ids, mode) == []
  {
    hide CompactModeErrors;
    assert MODES[0] in MODES && MODES[1] in MODES && MODES[2] in MODES;
    assert forall mode <- MODES :: mode == MODES[0] || mode == MODES[1] || mode == MODES[2];
  }

  lemma AcceptedModeErrors(cat: Catalog, report: Dict)
    requires CompactScan(cat, report).errors == []
    ensures AllModeErrors(cat, Selected(report), CompactScan(cat, report).identities) == []
  {
    hide HeaderErrors, CompactHeader, BothBuckets, AllModeErrors, Selected;
  }

  lemma CompactAccepted(cat: Catalog, report: Dict)
    requires CompactScan(cat, report).errors == []
    ensures ScenariosExpected(cat, CompactScan(cat, report).identities)
    ensures forall mode <- MODES :: CatalogComplete(cat, Selected(report), mode)
  {
    var ids := CompactScan(cat, report).identities;
    CompactScanOk(cat, report);
    FiveEach(ids);
    AcceptedModeErrors(cat, report);
    AllModeErrorsEmpty(cat, Selected(report), ids);
    hide CompactScan, CompactModeErrors, CatalogComplete, IdsOk, HasCase, Selected, AllModeErrors;
    forall mode | mode in MODES
      ensures CatalogComplete(cat, Selected(report), mode) && (set x | x in cat.scenarios(mode)) == Observed(ids, mode)
    {
      ModeErrorsEmpty(cat, Selected(report), ids, mode);
    }
    forall id | id in ids && RunsScenario(id, id[0]) ensures id[3] in cat.scenarios(id[0]) {
      WellFormedMode(ids, id);
      assert id[3] in Observed(ids, id[0]);
    }
  }

  lemma WellFormedMode(ids: map<Identity, set<Status>>, id: Identity)
    requires IdsOk(ids) && id in ids
    ensures |id| == 5 && id[0] in MODES
  {
  }

  lemma KeptModeErrors(cat: Catalog, selected: Dict, ids: map<Identity, set<Status>>, mode: string)
    requires ScenariosExpected(cat, ids) && CatalogComplete(cat, selected, mode)
    ensures CompactModeErrors(cat, selected, Kept(ids), mode) == [] <==> ModeCovered(cat, ids, mode)
  {
    hide CatalogComplete, HasCase;
    ModeErrorsEmpty(cat, selected, Kept(ids), mode);
    forall name | name in Observed(Kept(ids), mode) ensures name in cat.scenarios(mode) {
      var id :| id in Kept(ids) && RunsScenario(id, mode) && id[3] == name;
      assert id in ids;
    }
  }

  /**
   * Compaction of a report keeps every check that passed or failed, with those statuses. The compact
   * baseline is accepted exactly when every required case and every scenario has such a check.
   */
  lemma CompactKeepsChecks(cat: Catalog, report: Dict)
    requires Compactable(cat, report)
    ensures Compact(cat, report).Some?
    ensures
      var compact := Compact(cat, report).value;
      && Identities(cat, compact) == Kept(Identities(cat, report))
      && (Accepts(cat, compact) <==> Covered(cat, Identities(cat, report)))
      && Get(compact, "automaticAuthRequired") == Get(report, "automaticAuthRequired")
      && Selected(compact) == ScenariosOf(Selected(report)).fields
  {
    hide *;
    CompactableMeans(cat, report);
    ValidationWellFormed(cat, report);
    AcceptedScenarios(cat, report);
    var ids := Identities(cat, report);
    var (auth, selected) := (Get(report, "automaticAuthRequired"), Selected(report));
    CompactIsDocument(ids, auth, selected);
    var (passing, failing) := (Arr(RecordsOf(Sorted(With(ids, Pass)))), Arr(RecordsOf(Sorted(With(ids, Fail)))));
    var d := Document(auth, ScenariosOf(selected), passing, failing);
    ScenariosObject(selected);
    DocumentFields(auth, ScenariosOf(selected), passing, failing);
    DocumentParts(auth, ScenariosOf(selected), passing, failing);
    DocumentOfficial(auth, ScenariosOf(selected), passing, failing);
    DocumentHeader(d);
    DocumentReads(cat, d, ids);
    SelectedIs(d, ScenariosOf(selected));
    CoveredAccepted(cat, d, selected, ids);
    AcceptsMeans(cat, d);
  }

  lemma CompactableMeans(cat: Catalog, report: Dict)
    requires Compactable(cat, report)
    ensures Accepts(cat, report)
    ensures (forall id <- Identities(cat, report) :: |id| == 5) ==>
      Compact(cat, report) == Some(CompactOf(Identities(cat, report), Get(report, "automaticAuthRequired"), Selected(report)))
  {
    hide Validate, CompactOf, Selected;
  }

  lemma AcceptsMeans(cat: Catalog, report: Dict)
    ensures Accepts(cat, report) <==> Validate(cat, report).errors == []
    ensures Identities(cat, report) == Validate(cat, report).identities
  {
  }

  lemma ScenariosObject(selected: Dict)
    ensures ScenariosOf(selected).Obj?
  {
  }

  lemma SelectedIs(d: Dict, scenarios: Json)
    requires scenarios.Obj? && Get(d, "officialConformance").Obj? && Get(Get(d, "officialConformance").fields, "scenarios") == scenarios
    ensures Selected(d) == scenarios.fields
  {
    hide Get;
  }

  lemma CompactIsDocument(ids: map<Identity, set<Status>>, auth: Json, selected: Dict)
    requires forall id <- ids :: |id| == 5
    ensures (forall id <- Sorted(With(ids, Pass)) :: |id| == 5) && (forall id <- Sorted(With(ids, Fail)) :: |id| == 5)
    ensures CompactOf(ids, auth, selected) ==
      Document(auth, ScenariosOf(selected), Arr(RecordsOf(Sorted(With(ids, Pass)))), Arr(RecordsOf(Sorted(With(ids, Fail)))))
  {
    hide Sorted, Document, RecordsOf, ScenariosOf;
  }

  lemma CoveredAccepted(cat: Catalog, d: Dict, selected: Dict, ids: map<Identity, set<Status>>)
    requires ScenariosExpected(cat, ids) && forall mode <- MODES :: CatalogComplete(cat, selected, mode)
    requires ScenariosOf(selected).Obj? && Selected(d) == ScenariosOf(selected).fields
    ensures Covered(cat, ids) <==> AllModeErrors(cat, Selected(d), Kept(ids)) == []
  {
    hide ModeCovered, ScenariosExpected, CompactModeErrors, Selected, ScenariosOf, Kept, EqualsStrings, Get, AllModeErrors;
    forall mode | mode in MODES ensures CompactModeErrors(cat, Selected(d), Kept(ids), mode) == [] <==> ModeCovered(cat, ids, mode) {
      ScenariosCopied(selected, mode);
      KeptModeErrors(cat, Selected(d), ids, mode);
    }
    AllModeErrorsEmpty(cat, Selected(d), Kept(ids));
  }

  // ----- what the gate makes of it -----

  lemma KeptWith(ids: map<Identity, set<Status>>, status: Status)
    requires status != Skip
    ensures With(Kept(ids), status) == With(ids, status)
  {
  }

  lemma GateOfKept(b: Scan, b': Scan, c: Scan, policy: seq<Problem>)
    requires b'.identities == Kept(b.identities) && b.errors == []
    ensures GateOf(b', c, policy) == GateOf(b, c, policy).(baselineErrors := b'.errors, success := b'.errors == [] && GateOf(b, c, policy).success)
    ensures GateOf(c, b', policy) == GateOf(c, b, policy).(candidateErrors := b'.errors, success := b'.errors == [] && GateOf(c, b, policy).success)
  {
    KeptWith(b.identities, Pass);
    KeptWith(b.identities, Fail);
    hide With, Kept, Shipping, Sorted;
  }

  /**
   * Against the compact baseline the gate gives the lists it gives against the full report, whichever
   * side it is on; and the same verdict altogether exactly when the report covers what is required.
   */
  lemma GateSeesCompactAlike(cat: Catalog, report: Dict, other: Dict)
    requires Compactable(cat, report)
    ensures Compact(cat, report).Some?
    ensures
      var compact := Compact(cat, report).value;
      var (v, v') := (Gate(cat, other, report), Gate(cat, other, compact));
      var (u, u') := (Gate(cat, report, other), Gate(cat, compact, other));
      && v' == v.(baselineErrors := v'.baselineErrors, success := v'.success)
      && u' == u.(candidateErrors := u'.candidateErrors, success := u'.success)
      && (v' == v <==> Covered(cat, Identities(cat, report)))
      && (u' == u <==> Covered(cat, Identities(cat, report)))
  {
    CompactKeepsChecks(cat, report);
    CompactableMeans(cat, report);
    var compact := Compact(cat, report).value;
    hide Validate, GateOf, Kept, Covered, Compactable, Compact, PolicyErrors;
    var (b, b', c) := (Validate(cat, report), Validate(cat, compact), Validate(cat, other));
    var auth := Get(report, "automaticAuthRequired");
    GateOfKept(b, b', c, PolicyErrors(auth, Get(other, "automaticAuthRequired")));
    GateOfKept(b, b', c, PolicyErrors(Get(other, "automaticAuthRequired"), auth));
    assert GateOf(b, c, PolicyErrors(auth, Get(other, "automaticAuthRequired"))).baselineErrors == [] by { GateErrors(b, c, PolicyErrors(auth, Get(other, "automaticAuthRequired"))); }
    assert GateOf(c, b, PolicyErrors(Get(other, "automaticAuthRequired"), auth)).candidateErrors == [] by { GateErrors(c, b, PolicyErrors(Get(other, "automaticAuthRequired"), auth)); }
  }

  lemma GateErrors(b: Scan, c: Scan, policy: seq<Problem>)
    ensures GateOf(b, c, policy).baselineErrors == b.errors && GateOf(b, c, policy).candidateErrors == c.errors
  {
    hide With, Shipping, Sorted, Missing;
  }

  /** Compacting the compact baseline changes nothing, when it is accepted at all. */
  lemma CompactTwice(cat: Catalog, report: Dict)
    requires Compactable(cat, report)
    ensures Compact(cat, report).Some?
    ensures Compact(cat, Compact(cat, report).value) ==
      if Covered(cat, Identities(cat, report)) then Compact(cat, report) else None
  {
    CompactKeepsChecks(cat, report);
    var compact := Compact(cat, report).value;
    var ids := Identities(cat, report);
    KeptWith(ids, Pass);
    KeptWith(ids, Fail);
    KeptTwice(ids);
    ScenariosTwice(Selected(report));
    ValidationWellFormed(cat, report);
    ValidationWellFormed(cat, compact);
    hide Validate, CompactOf, Kept, Covered, ScenariosOf, Selected, Accepts, Identities, Shipping, With, IdsOk;
    if Covered(cat, ids) {
      CompactOfKept(ids, Get(report, "automaticAuthRequired"), Selected(report), Selected(compact));
    }
  }

  lemma KeptTwice(ids: map<Identity, set<Status>>)
    ensures Kept(Kept(ids)) == Kept(ids)
  {
  }

  lemma CompactOfKept(ids: map<Identity, set<Status>>, auth: Json, selected: Dict, selected': Dict)
    requires (forall id <- ids :: |id| == 5) && (forall id <- Kept(ids) :: |id| == 5)
    requires ScenariosOf(selected') == ScenariosOf(selected)
    ensures CompactOf(Kept(ids), auth, selected') == CompactOf(ids, auth, selected)
  {
    hide *;
    KeptWith(ids, Pass);
    KeptWith(ids, Fail);
    CompactIsDocument(ids, auth, selected);
    CompactIsDocument(Kept(ids), auth, selected');
  }

  // ----- the gate as an order -----

  lemma GatePasses(b: Scan, c: Scan, policy: seq<Problem>)
    ensures GateOf(b, c, policy).success <==>
      && b.errors == [] && c.errors == [] && policy == []
      && Shipping(With(c.identities, Fail)) == {} && Shipping(With(b.identities, Fail)) == {}
      && With(c.identities, Fail) <= With(b.identities, Fail)
      && With(b.identities, Pass) <= With(c.identities, Pass)
      && With(b.identities, Fail) <= With(c.identities, Fail) + With(c.identities, Pass)
  {
    var (bp, bf) := (With(b.identities, Pass), With(b.identities, Fail));
    var (cp, cf) := (With(c.identities, Pass), With(c.identities, Fail));
    hide With, Sorted, Shipping;
    EmptyDifference(cf, bf);
    EmptyDifference(bp, cp);
    EmptyDifference(bf, cf + cp);
    assert bf - (cf + cp) == bf - cf - cp;
  }

  lemma EmptyDifference(x: set<Identity>, y: set<Identity>)
    ensures x - y == {} <==> x <= y
  {
    if x - y == {} {
      forall z | z in x ensures z in y { assert z !in x - y; }
    }
  }

  /** A report passes against itself exactly when it could be made a baseline. */
  lemma GateReflexive(cat: Catalog, report: Dict)
    ensures Gate(cat, report, report).success <==> Compactable(cat, report)
  {
    hide Validate, With, Shipping;
    var auth := Get(report, "automaticAuthRequired");
    GatePasses(Validate(cat, report), Validate(cat, report), PolicyErrors(auth, auth));
    hide GateOf;
  }

  lemma GateTransitive(cat: Catalog, b: Dict, c: Dict, d: Dict)
    requires Gate(cat, c, b).success && Gate(cat, d, c).success
    ensures Gate(cat, d, b).success
  {
    hide Validate, With, Shipping, GateOf;
    var (sb, sc, sd) := (Validate(cat, b), Validate(cat, c), Validate(cat, d));
    var (ab, ac, ad) := (Get(b, "automaticAuthRequired"), Get(c, "automaticAuthRequired"), Get(d, "automaticAuthRequired"));
    GatePasses(sb, sc, PolicyErrors(ab, ac));
    GatePasses(sc, sd, PolicyErrors(ac, ad));
    GatePasses(sb, sd, PolicyErrors(ab, ad));
  }

  /** Every failing check of the candidate is new or known, and every failing check of the baseline is known, fixed or missing. */
  lemma GateAccountsForFailures(cat: Catalog, candidate: Dict, baseline: Dict, id: Identity)
    ensures
      var (v, b, c) := (Gate(cat, candidate, baseline), Identities(cat, baseline), Identities(cat, candidate));
      && (Fail in Statuses(c, id) <==> id in v.new_ || id in v.known) && !(id in v.new_ && id in v.known)
      && (Fail in Statuses(b, id) ==> id in v.known || id in v.fixed || id in v.missing)
      && (id in v.fixed ==> Fail in Statuses(b, id) && Pass in Statuses(c, id) && Fail !in Statuses(c, id))
      && (id in v.missing <==>
            || (Pass in Statuses(b, id) && Pass !in Statuses(c, id))
            || (Fail in Statuses(b, id) && Pass !in Statuses(c, id) && Fail !in Statuses(c, id)))
  {
    hide Validate, Shipping;
  }
}
