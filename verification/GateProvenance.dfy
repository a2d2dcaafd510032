/** Where every "allow" comes from: no hits, a saved rule, a turn grant, or a human answer. */
module GateProvenance {
  import opened Text
  import opened Noise
  import opened Gate
  import opened GateStates
  import opened GateRetries

  // ----- hit lists and keys -----

  predicate LabelOk(name: string) {
    name != "" && '|' !in name && ',' !in name
  }

  /** A hit list a key is built from. */
  predicate HitsOk(hits: seq<string>) {
    hits != [] && forall h <- hits :: LabelOk(h)
  }

  /** `tool|hits` and `turn|hits` determine both halves, whatever the tool or turn looks like. */
  lemma KeyInjective(a: string, x: seq<string>, b: string, y: seq<string>)
    requires HitsOk(x) && HitsOk(y)
    requires Key(a, x) == Key(b, y)
    ensures a == b && x == y
  {
    assert forall p <- x :: LabelOk(p);
    assert forall p <- y :: LabelOk(p);
    JoinWithout(x, ',', '|');
    JoinWithout(y, ',', '|');
    assert Key(a, x) == a + ['|'] + Join(x, ',') && Key(b, y) == b + ['|'] + Join(y, ',');
    LastSeparator(a, Join(x, ','), b, Join(y, ','), '|');
    JoinInjective(x, y, ',');
  }

  lemma RuleLabelsOk()
    ensures forall name <- RULE_LABELS :: LabelOk(name)
  {
  }

  lemma {:induction false} ScanLabels(rules: seq<Rule>, text: string)
    requires forall r <- rules :: LabelOk(r.name)
    ensures forall h <- Scan(rules, text) :: LabelOk(h)
  {
    if rules != [] {
      ScanLabels(rules[1..], text);
    }
  }

  lemma ChallengesOk(t: Tables, s: State, scanned: seq<string>, text: string, threshold: real)
    requires forall h <- scanned :: LabelOk(h)
    ensures forall h <- Challenges(s, scanned, text, threshold) :: LabelOk(h)
  {
    hide Similarity.Hits;
    assert LabelOk(RUBBISH_SIMILAR) && LabelOk(SIMILAR_TO_BLOCKED) && LabelOk(ASK_ALL);
  }

  lemma TablesLabels(t: Tables, text: string)
    requires t.Ok()
    ensures forall h <- Scan(t.rules, text) :: LabelOk(h)
  {
    RuleLabelsOk();
    forall r | r in t.rules ensures LabelOk(r.name) {
      var i :| 0 <= i < |t.rules| && t.rules[i] == r;
      assert RULE_LABELS[i] in RULE_LABELS;
    }
    ScanLabels(t.rules, text);
  }

  // ----- what the answers so far amount to -----

  predicate SetsRule(a: Answer, tool: string, hits: seq<string>) {
    a.always && a.tool == tool && a.hits == hits
  }

  predicate GrantsTurn(a: Answer, turn: string, hits: seq<string>) {
    TurnGrantable(a.turn, a.hits) && a.turn == Some(turn) && a.hits == hits
  }

  /** The saved value for a tool and hit list: the latest "always" answer, else the boot file. */
  function RuleAfter(boot: map<string, string>, answers: seq<Answer>, tool: string, hits: seq<string>): Option<string> {
    if answers == [] then
      if Key(tool, hits) in boot then Some(boot[Key(tool, hits)]) else None
    else
      var last := answers[|answers| - 1];
      if SetsRule(last, tool, hits) then Some(if last.allow then "allow" else "deny")
      else RuleAfter(boot, answers[..|answers| - 1], tool, hits)
  }

  /** The grant for a turn and hit list: the latest answer given for that pair. */
  function GrantAfter(answers: seq<Answer>, turn: string, hits: seq<string>): Option<bool> {
    if answers == [] then None
    else
      var last := answers[|answers| - 1];
      if GrantsTurn(last, turn, hits) then Some(last.allow)
      else GrantAfter(answers[..|answers| - 1], turn, hits)
  }

  /** Answer `i` is the latest one that grants this turn and hit list. */
  predicate IsLatestGrant(answers: seq<Answer>, turn: string, hits: seq<string>, i: nat) {
    && i < |answers| && GrantsTurn(answers[i], turn, hits)
    && forall j :: i < j < |answers| ==> !GrantsTurn(answers[j], turn, hits)
  }

  lemma {:induction false} GrantIsLatestAnswer(answers: seq<Answer>, turn: string, hits: seq<string>, allow: bool)
    ensures GrantAfter(answers, turn, hits) == Some(allow) <==>
      exists i: nat :: IsLatestGrant(answers, turn, hits, i) && answers[i].allow == allow
  {
    if answers != [] {
      var n := |answers| - 1;
      var front := answers[..n];
      GrantIsLatestAnswer(front, turn, hits, allow);
      if GrantsTurn(answers[n], turn, hits) {
        assert IsLatestGrant(answers, turn, hits, n);
        forall i: nat | IsLatestGrant(answers, turn, hits, i) ensures i == n {}
      } else {
        forall i: nat ensures IsLatestGrant(answers, turn, hits, i) <==> IsLatestGrant(front, turn, hits, i) {
          assert i < n ==> front[i] == answers[i];
          assert forall j :: i < j < n ==> front[j] == answers[j];
        }
        if i: nat :| IsLatestGrant(front, turn, hits, i) && front[i].allow == allow {
          assert IsLatestGrant(answers, turn, hits, i) && answers[i] == front[i];
        }
        if i: nat :| IsLatestGrant(answers, turn, hits, i) && answers[i].allow == allow {
          assert IsLatestGrant(front, turn, hits, i) && answers[i] == front[i];
        }
      }
    }
  }

  function Lookup<V>(m: map<string, V>, key: string): Option<V> {
    if key in m then Some(m[key]) else None
  }

  // ----- the two maps are exactly what the answers say -----

  ghost predicate RuleTraced(boot: map<string, string>, saved: map<string, string>, answers: seq<Answer>,
                             tool: string, hits: seq<string>)
  {
    HitsOk(hits) ==> Lookup(saved, Key(tool, hits)) == RuleAfter(boot, answers, tool, hits)
  }

  ghost predicate GrantTraced(grants: map<string, bool>, answers: seq<Answer>, turn: string, hits: seq<string>) {
    HitsOk(hits) ==> Lookup(grants, Key(turn, hits)) == GrantAfter(answers, turn, hits)
  }

  /** A live question carries its own key and well-formed hits, and its body's tool and text. */
  predicate QuestionOk(q: Question) {
    && HitsOk(q.hits) && q.key == Key(q.tool, q.hits)
    && (q.asker.Review? ==> Some(q.tool) == q.asker.body.tool && q.text == q.asker.body.text)
  }

  ghost predicate Traced(boot: map<string, string>, s: State) {
    && (forall pid <- s.pending :: QuestionOk(s.pending[pid]))
    && (forall tool, hits :: RuleTraced(boot, s.savedRules, s.answers, tool, hits))
    && (forall turn, hits :: GrantTraced(s.turnGrants, s.answers, turn, hits))
  }

  lemma BootTraced(saved: map<string, string>, askAll: bool, rubbish: seq<string>, blocked: seq<string>)
    ensures Traced(saved, Boot(saved, askAll, rubbish, blocked))
    ensures Inv(Boot(saved, askAll, rubbish, blocked))
  {
  }

  lemma RuleTracedStep(boot: map<string, string>, saved: map<string, string>, answers: seq<Answer>,
                       q: Question, a: Answer, tool: string, hits: seq<string>)
    requires QuestionOk(q) && a.tool == q.tool && a.hits == q.hits
    requires RuleTraced(boot, saved, answers, tool, hits)
    ensures RuleTraced(boot, if a.always then saved[q.key := if a.allow then "allow" else "deny"] else saved,
                       answers + [a], tool, hits)
  {
    assert (answers + [a])[..|answers + [a]| - 1] == answers;
    if HitsOk(hits) && Key(tool, hits) == q.key {
      KeyInjective(tool, hits, q.tool, q.hits);
    }
  }

  lemma GrantTracedStep(grants: map<string, bool>, answers: seq<Answer>, a: Answer, turn: string, hits: seq<string>)
    requires HitsOk(a.hits)
    requires GrantTraced(grants, answers, turn, hits)
    ensures GrantTraced(Granted(grants, a.turn, a.hits, a.allow), answers + [a], turn, hits)
  {
    assert (answers + [a])[..|answers + [a]| - 1] == answers;
    if HitsOk(hits) && a.turn.Some? && Key(turn, hits) == Key(a.turn.value, a.hits) {
      KeyInjective(turn, hits, a.turn.value, a.hits);
    }
  }

  lemma SettleTraced(boot: map<string, string>, s: State, pid: string, allow: bool, always: bool)
    requires Traced(boot, s)
    ensures Traced(boot, Settle(s, pid, allow, always))
  {
    if pid in s.pending {
      var q := s.pending[pid];
      var a := AnswerTo(q, allow, always);
      var s' := Settle(s, pid, allow, always);
      SettleMaps(s, pid, allow, always);
      hide Settle, AnswerTo, Granted, QuestionOk;
      forall tool, hits ensures RuleTraced(boot, s'.savedRules, s'.answers, tool, hits) {
        assert RuleTraced(boot, s.savedRules, s.answers, tool, hits);
        RuleTracedStep(boot, s.savedRules, s.answers, q, a, tool, hits);
      }
      forall turn, hits ensures GrantTraced(s'.turnGrants, s'.answers, turn, hits) {
        assert GrantTraced(s.turnGrants, s.answers, turn, hits);
        assert HitsOk(a.hits);
        GrantTracedStep(s.turnGrants, s.answers, a, turn, hits);
      }
    }
  }

  lemma DeliverMaps(s: State, q: Question, allow: bool)
    ensures
      var s' := Deliver(s, q, allow);
      s'.pending == s.pending && s'.answers == s.answers && s'.savedRules == s.savedRules
  {
    hide ReviewEntry, Appended, Granted, VerdictFor, TurnOf, Decide;
    match q.asker
    case Call(_) =>
    case Review(id, b) => DecideMaps(s, id, b, VerdictFor(allow), "island");
  }

  lemma DecideMaps(s: State, id: string, b: Body, verdict: Verdict, why: string)
    ensures Decide(s, id, b, verdict, why).(reviews := s.reviews, log := s.log) == s
  {
    hide ReviewEntry, Appended;
  }

  lemma DeliverGrants(s: State, q: Question, allow: bool)
    ensures Deliver(s, q, allow).turnGrants == Granted(s.turnGrants, AnswerTo(q, allow, false).turn, q.hits, allow)
  {
    hide ReviewEntry, Appended;
    match q.asker
    case Call(_) => assert !TurnGrantable(None, q.hits);
    case Review(_, _) => hide Granted;
  }

  lemma SettleMaps(s: State, pid: string, allow: bool, always: bool)
    requires pid in s.pending
    ensures
      var s', q, a := Settle(s, pid, allow, always), s.pending[pid], AnswerTo(s.pending[pid], allow, always);
      && a.tool == q.tool && a.hits == q.hits && a.allow == allow && a.always == always
      && s'.pending == s.pending - {pid} && s'.answers == s.answers + [a]
      && s'.savedRules == (if always then s.savedRules[q.key := if allow then "allow" else "deny"] else s.savedRules)
      && s'.turnGrants == Granted(s.turnGrants, a.turn, a.hits, allow)
      && (QuestionOk(q) ==> HitsOk(a.hits))
  {
    var q := s.pending[pid];
    DeliverMaps(Answered(s, pid, q, allow, always), q, allow);
    DeliverGrants(Answered(s, pid, q, allow, always), q, allow);
    hide Deliver, Similarity.Added, Granted, HitsOk;
  }

  /** Steps that only add well-formed questions keep the trace. */
  lemma QuestionsAdded(boot: map<string, string>, s: State, s': State)
    requires Traced(boot, s)
    requires s'.savedRules == s.savedRules && s'.turnGrants == s.turnGrants && s'.answers == s.answers
    requires forall pid <- s'.pending :: (pid in s.pending && s'.pending[pid] == s.pending[pid]) || QuestionOk(s'.pending[pid])
    ensures Traced(boot, s')
  {
    hide RuleTraced, GrantTraced, QuestionOk;
  }

  lemma ReviewHitsOk(t: Tables, s: State, b: Body)
    requires t.Ok()
    ensures forall h <- ReviewHits(t, s, b) :: LabelOk(h)
  {
    TablesLabels(t, b.text);
    ChallengesOk(t, s, if b.kind == "tool_output" then [] else Scan(t.rules, b.text), b.text, Similarity.STRICT_THRESHOLD);
  }

  lemma CallHitsOk(t: Tables, s: State, c: ToolCall)
    requires t.Ok()
    ensures forall h <- CallHits(t, s, c) :: LabelOk(h)
  {
    TablesLabels(t, CallText(c));
    ChallengesOk(t, s, Scan(t.rules, CallText(c)), CallText(c), Similarity.THRESHOLD);
  }

  lemma ReviewAsksAreOk(t: Tables, s: State, b: Body)
    requires t.Ok()
    ensures ReviewOutcome(t, s, b).Ask? ==> b.tool.Some? && HitsOk(ReviewOutcome(t, s, b).hits)
  {
    ReviewHitsOk(t, s, b);
    SkipNeverAllows(t, b);
    hide ReviewHits, SkipList;
  }

  lemma CallAsksAreOk(t: Tables, s: State, c: ToolCall)
    requires t.Ok()
    ensures CallOutcome(t, s, c).Ask? ==> HitsOk(CallOutcome(t, s, c).hits)
  {
    CallHitsOk(t, s, c);
    hide CallHits, FirstMatch;
  }

  lemma FreshPostTraced(boot: map<string, string>, s: State, header: Option<string>, b: Body, o: Outcome)
    requires Traced(boot, s)
    requires o.Ask? ==> b.tool.Some? && HitsOk(o.hits)
    ensures
      var (s0, key) := Keyed(s, header);
      var s1 := Claimed(s0, key);
      Traced(boot, s1) && Traced(boot, Judged(s1, s1.idem[key], b, o))
  {
    var (s0, key) := Keyed(s, header);
    var s1 := Claimed(s0, key);
    JudgedShape(s1, s1.idem[key], b, o);
    hide Judged, Traced, Appended, ReviewEntry, VerdictOf;
    QuestionsAdded(boot, s, s1);
    QuestionsAdded(boot, s1, Judged(s1, s1.idem[key], b, o));
  }

  lemma PostTraced(boot: map<string, string>, t: Tables, s: State, header: Option<string>, posted: Posted<Body>)
    requires t.Ok() && Traced(boot, s)
    ensures Traced(boot, PostReview(t, s, header, posted).0)
  {
    hide ReviewOutcome, CallOutcome, Judged, Traced, HitsOk;
    if !posted.BadJson? {
      var (s0, key) := Keyed(s, header);
      if key in s0.idem {
        QuestionsAdded(boot, s, s0);
      } else if posted.Parsed? {
        var s1 := Claimed(s0, key);
        ReviewAsksAreOk(t, s1, posted.value);
        FreshPostTraced(boot, s, header, posted.value, ReviewOutcome(t, s1, posted.value));
      } else {
        QuestionsAdded(boot, s, Claimed(s0, key));
      }
    }
  }

  lemma CallTraced(boot: map<string, string>, t: Tables, s: State, posted: Posted<ToolCall>)
    requires t.Ok() && Traced(boot, s)
    ensures Traced(boot, PostCall(t, s, posted))
  {
    hide CallOutcome, CallJudged, Traced, HitsOk, CallText, CallTool;
    if posted.Parsed? {
      CallAsksAreOk(t, s, posted.value);
      CallJudgedShape(s, posted.value, CallOutcome(t, s, posted.value));
    }
    QuestionsAdded(boot, s, PostCall(t, s, posted));
  }

  lemma StepTraced(boot: map<string, string>, t: Tables, s: State, step: Step)
    requires t.Ok() && Traced(boot, s)
    ensures Traced(boot, Next(t, s, step))
  {
    hide PostReview, PostCall, Settle, Traced;
    var s' := Next(t, s, step);
    match step
    case ReviewStep(header, posted) => PostTraced(boot, t, s, header, posted);
    case CallStep(posted) => CallTraced(boot, t, s, posted);
    case DecisionStep(pid, allow, always) => SettleTraced(boot, s, pid, allow, always);
    case RenderFailureStep(pid) => SettleTraced(boot, s, pid, false, false);
    case ActivitiesStep(items) =>
      ActivitiesOnlyLog(s, items);
      QuestionsAdded(boot, s, s');
    case _ => QuestionsAdded(boot, s, s');
  }

  lemma {:induction false} RunTraced(boot: map<string, string>, t: Tables, s: State, steps: seq<Step>)
    requires t.Ok() && Traced(boot, s)
    ensures Traced(boot, Run(t, s, steps))
    decreases |steps|
  {
    hide Next, Traced;
    if steps != [] {
      RunTraced(boot, t, s, steps[..|steps| - 1]);
      StepTraced(boot, t, Run(t, s, steps[..|steps| - 1]), steps[|steps| - 1]);
    }
  }

  // ----- provenance -----

  /** A rule counts when its value is not the empty string. */
  predicate RuleSays(rule: Option<string>, value: string) {
    rule == Some(value)
  }

  predicate NoRule(rule: Option<string>) {
    rule == None || rule == Some("")
  }

  /** The grounds for allowing a challenged or clean review, read off the answers alone. */
  ghost predicate ReviewGrounds(boot: map<string, string>, answers: seq<Answer>, b: Body, hits: seq<string>) {
    || hits == []
    || (b.tool.Some? && RuleSays(RuleAfter(boot, answers, b.tool.value, hits), "allow"))
    || (b.tool.Some? && NoRule(RuleAfter(boot, answers, b.tool.value, hits))
        && TurnGrantable(TurnOf(b.turn), hits) && GrantAfter(answers, TurnOf(b.turn).value, hits) == Some(true))
  }

  ghost predicate CallGrounds(boot: map<string, string>, answers: seq<Answer>, tool: string, hits: seq<string>) {
    hits == [] || RuleSays(RuleAfter(boot, answers, tool, hits), "allow")
  }

  lemma SkipNeverAllows(t: Tables, b: Body)
    ensures SkipList(t, b).Some? ==>
      SkipList(t, b).value.Stopped? || (SkipList(t, b).value.Skipped? && SkipList(t, b).value.verdict != Allow)
  {
  }

  lemma ReviewOutcomeGrounds(boot: map<string, string>, t: Tables, s: State, b: Body)
    requires t.Ok() && Traced(boot, s)
    ensures
      var o := ReviewOutcome(t, s, b);
      (o.Answers() && VerdictOf(o) == Allow) <==>
        SkipList(t, b).None? && ReviewGrounds(boot, s.answers, b, ReviewHits(t, s, b))
  {
    var hits := ReviewHits(t, s, b);
    ReviewHitsOk(t, s, b);
    SkipNeverAllows(t, b);
    hide ReviewHits, SkipList;
    if b.tool.Some? {
      assert RuleTraced(boot, s.savedRules, s.answers, b.tool.value, hits);
    }
    if TurnOf(b.turn).Some? {
      assert GrantTraced(s.turnGrants, s.answers, TurnOf(b.turn).value, hits);
    }
  }

  lemma CallOutcomeGrounds(boot: map<string, string>, t: Tables, s: State, c: ToolCall)
    requires t.Ok() && Traced(boot, s)
    ensures
      var o := CallOutcome(t, s, c);
      (o.Answers() && VerdictOf(o) == Allow) <==>
        c.writable && FirstMatch(t.garbage, CallText(c)).None? && CallGrounds(boot, s.answers, CallTool(c), CallHits(t, s, c))
  {
    var hits := CallHits(t, s, c);
    CallHitsOk(t, s, c);
    hide CallHits, FirstMatch;
    assert RuleTraced(boot, s.savedRules, s.answers, CallTool(c), hits);
  }

  /** The review has an "allow" verdict. */
  ghost predicate Allowed(s: State, id: string) {
    id in s.reviews && s.reviews[id] == Decided(Allow)
  }

  /**
   * A step of the gate makes review `id` allowed exactly when it is the fresh post that claims `id`,
   * not on the skip list and with grounds in the answers so far; or a human answer "allow" to the
   * question open for `id`. In particular no skip, render failure, tool call or feed item ever does.
   */
  ghost predicate AllowsReview(boot: map<string, string>, t: Tables, s: State, step: Step, id: string) {
    match step
    case ReviewStep(header, posted) =>
      var (s0, key) := Keyed(s, header);
      && posted.Parsed? && key !in s0.idem && id == ReviewId(s0.counter + 1)
      && SkipList(t, posted.value).None?
      && ReviewGrounds(boot, s.answers, posted.value, ReviewHits(t, Claimed(s0, key), posted.value))
    case DecisionStep(pid, allow, _) => allow && AsksFor(s, pid, id)
    case _ => false
  }

  lemma AllowProvenance(boot: map<string, string>, t: Tables, s: State, step: Step, id: string)
    requires t.Ok() && Inv(s) && Traced(boot, s)
    ensures (Allowed(Next(t, s, step), id) && !Allowed(s, id)) <==> AllowsReview(boot, t, s, step, id)
  {
    match step
    case ReviewStep(header, posted) => PostProvenance(boot, t, s, header, posted, id);
    case DecisionStep(pid, allow, always) => SettleProvenance(s, pid, allow, always, id);
    case RenderFailureStep(pid) => SettleProvenance(s, pid, false, false, id);
    case _ =>
      hide Next, Inv;
      OtherStepsKeepIdem(t, s, step);
      if id in s.reviews { ReviewsAdvance(t, s, step, id); }
  }

  lemma SettleProvenance(s: State, pid: string, allow: bool, always: bool, id: string)
    requires Inv(s)
    ensures (Allowed(Settle(s, pid, allow, always), id) && !Allowed(s, id)) <==> allow && AsksFor(s, pid, id)
  {
    if pid in s.pending {
      SettleShape(s, pid, allow, always);
      hide Settle;
      var q := s.pending[pid];
      if q.asker.Review? {
        assert AsksFor(s, pid, q.asker.id);
      }
    }
  }

  lemma FreshPostAllows(s: State, header: Option<string>, b: Body, o: Outcome, id: string)
    requires Inv(s)
    ensures
      var (s0, key) := Keyed(s, header);
      var s1 := Claimed(s0, key);
      (Allowed(Judged(s1, s1.idem[key], b, o), id) && !Allowed(s, id)) <==>
        (id == ReviewId(s0.counter + 1) && o.Answers() && VerdictOf(o) == Allow)
  {
    var (s0, key) := Keyed(s, header);
    var s1 := Claimed(s0, key);
    FreshClaim(s, header);
    JudgedShape(s1, s1.idem[key], b, o);
    hide Judged, Appended, ReviewEntry, ToolName;
    assert s1.idem[key] !in s.reviews;
  }

  lemma PostProvenance(boot: map<string, string>, t: Tables, s: State, header: Option<string>, posted: Posted<Body>, id: string)
    requires t.Ok() && Inv(s) && Traced(boot, s)
    ensures
      (Allowed(PostReview(t, s, header, posted).0, id) && !Allowed(s, id)) <==>
        AllowsReview(boot, t, s, ReviewStep(header, posted), id)
  {
    hide ReviewOutcome, Judged, ReviewGrounds, ReviewHits, SkipList, Traced, Inv;
    if !posted.BadJson? {
      var (s0, key) := Keyed(s, header);
      if key !in s0.idem && posted.Parsed? {
        var s1 := Claimed(s0, key);
        FreshPostTraced(boot, s, header, posted.value, Clean);
        ReviewOutcomeGrounds(boot, t, s1, posted.value);
        FreshPostAllows(s, header, posted.value, ReviewOutcome(t, s1, posted.value), id);
      }
    }
  }

  ghost predicate CallAllowed(s: State, call: nat) {
    exists i :: 0 <= i < |s.ended| && s.ended[i].0 == call && IsAllow(s.ended[i].1)
  }

  predicate IsAllow(reply: ToolReply) {
    reply.ToolReply? && reply.allow
  }

  /** The same for tool calls: clean, an "allow" rule, or a human answer to the question holding the call. */
  ghost predicate AllowsCall(boot: map<string, string>, t: Tables, s: State, step: Step, call: nat) {
    match step
    case CallStep(posted) =>
      && posted.Parsed? && posted.value.writable && call == s.calls
      && FirstMatch(t.garbage, CallText(posted.value)).None?
      && CallGrounds(boot, s.answers, CallTool(posted.value), CallHits(t, s, posted.value))
    case DecisionStep(pid, allow, _) => allow && HoldsCall(s, pid, call)
    case _ => false
  }

  lemma CallAllowedAppend(s: State, s': State, last: (nat, ToolReply), call: nat)
    requires s'.ended == s.ended + [last]
    ensures CallAllowed(s', call) <==> CallAllowed(s, call) || (last.0 == call && IsAllow(last.1))
  {
    if CallAllowed(s, call) {
      var i :| 0 <= i < |s.ended| && s.ended[i].0 == call && IsAllow(s.ended[i].1);
      assert s'.ended[i] == s.ended[i];
    }
    assert s'.ended[|s.ended|] == last;
  }

  lemma CallProvenance(boot: map<string, string>, t: Tables, s: State, step: Step, call: nat)
    requires t.Ok() && Inv(s) && Traced(boot, s)
    ensures (CallAllowed(Next(t, s, step), call) && !CallAllowed(s, call)) <==> AllowsCall(boot, t, s, step, call)
  {
    match step
    case CallStep(posted) => PostCallProvenance(boot, t, s, posted, call);
    case DecisionStep(pid, allow, always) => SettleCallProvenance(s, pid, allow, always, call);
    case RenderFailureStep(pid) => SettleCallProvenance(s, pid, false, false, call);
    case ReviewStep(header, posted) => PostKeepsEnded(t, s, header, posted);
    case ActivitiesStep(items) => ActivitiesOnlyLog(s, items);
    case _ =>
  }

  lemma PostCallProvenance(boot: map<string, string>, t: Tables, s: State, posted: Posted<ToolCall>, call: nat)
    requires t.Ok() && Inv(s) && Traced(boot, s)
    ensures (CallAllowed(PostCall(t, s, posted), call) && !CallAllowed(s, call)) <==>
      AllowsCall(boot, t, s, CallStep(posted), call)
  {
    if posted.BadJson? {
      CallAllowedAppend(s, PostCall(t, s, posted), (s.calls, InvalidJson), call);
    } else if posted.Parsed? {
      CallOutcomeGrounds(boot, t, s, posted.value);
      var o := CallOutcome(t, s, posted.value);
      var s' := PostCall(t, s, posted);
      CallJudgedShape(s, posted.value, o);
      hide CallOutcome, CallJudged, CallGrounds, CallHits, Traced;
      assert !CallAllowed(s, s.calls);
      if o.Answers() {
        CallAllowedAppend(s, s', (s.calls, ToolReply(VerdictOf(o) == Allow, DecidedBy(o))), call);
      }
    }
  }

  lemma SettleCallProvenance(s: State, pid: string, allow: bool, always: bool, call: nat)
    requires Inv(s)
    ensures (CallAllowed(Settle(s, pid, allow, always), call) && !CallAllowed(s, call)) <==> allow && HoldsCall(s, pid, call)
  {
    if pid in s.pending {
      SettleShape(s, pid, allow, always);
      var s' := Settle(s, pid, allow, always);
      hide Settle;
      var q := s.pending[pid];
      if q.asker.Call? {
        assert HoldsCall(s, pid, q.asker.call);
        assert !CallAllowed(s, q.asker.call) by { assert !Ended(s, q.asker.call); }
        CallAllowedAppend(s, s', (q.asker.call, ToolReply(allow, if allow then "user-approved" else "user-denied")), call);
      }
    }
  }

  lemma PostKeepsEnded(t: Tables, s: State, header: Option<string>, posted: Posted<Body>)
    ensures PostReview(t, s, header, posted).0.ended == s.ended
  {
    hide ReviewOutcome, Judged;
    if !posted.BadJson? {
      var (s0, key) := Keyed(s, header);
      if key !in s0.idem && posted.Parsed? {
        var s1 := Claimed(s0, key);
        JudgedShape(s1, s1.idem[key], posted.value, ReviewOutcome(t, s1, posted.value));
      }
    }
  }

  /**
   * Over whole runs from boot: whatever steps came before, the next step allows a review, or a tool
   * call, on exactly the stated grounds.
   */
  lemma EveryAllowHasGrounds(t: Tables, saved: map<string, string>, askAll: bool, rubbish: seq<string>,
                             blocked: seq<string>, steps: seq<Step>, step: Step, id: string, call: nat)
    requires t.Ok()
    ensures
      var s := Run(t, Boot(saved, askAll, rubbish, blocked), steps);
      && ((Allowed(Next(t, s, step), id) && !Allowed(s, id)) <==> AllowsReview(saved, t, s, step, id))
      && ((CallAllowed(Next(t, s, step), call) && !CallAllowed(s, call)) <==> AllowsCall(saved, t, s, step, call))
  {
    var s0 := Boot(saved, askAll, rubbish, blocked);
    BootTraced(saved, askAll, rubbish, blocked);
    hide Next, Inv, Traced, Boot, AllowsReview, AllowsCall, Allowed, CallAllowed;
    RunTraced(saved, t, s0, steps);
    RunKeeps(t, s0, steps);
    AllowProvenance(saved, t, Run(t, s0, steps), step, id);
    CallProvenance(saved, t, Run(t, s0, steps), step, call);
  }

  // ----- ask-all -----

  lemma {:induction false} AskAllGrantsNothing(answers: seq<Answer>, turn: string, hits: seq<string>)
    requires ASK_ALL in hits
    ensures GrantAfter(answers, turn, hits) == None
  {
    if answers != [] {
      AskAllGrantsNothing(answers[..|answers| - 1], turn, hits);
    }
  }

  /** In every run from boot: no turn has a grant for an ask-all challenge, and none is settled by one. */
  lemma AskAllIsNeverGranted(t: Tables, saved: map<string, string>, askAll: bool, rubbish: seq<string>,
                             blocked: seq<string>, steps: seq<Step>, turn: string, hits: seq<string>, b: Body)
    requires t.Ok() && HitsOk(hits) && ASK_ALL in hits
    ensures
      var s := Run(t, Boot(saved, askAll, rubbish, blocked), steps);
      && Key(turn, hits) !in s.turnGrants
      && (ReviewOutcome(t, s, b).ByTurn? ==> ASK_ALL !in ReviewOutcome(t, s, b).hits)
      && (ReviewHits(t, s, b) == [ASK_ALL] ==> !ReviewOutcome(t, s, b).ByTurn?)
  {
    var s0 := Boot(saved, askAll, rubbish, blocked);
    BootTraced(saved, askAll, rubbish, blocked);
    RunTraced(saved, t, s0, steps);
    var s := Run(t, s0, steps);
    assert GrantTraced(s.turnGrants, s.answers, turn, hits);
    AskAllGrantsNothing(s.answers, turn, hits);
    SkipNeverAllows(t, b);
    hide Run, Boot, ReviewHits, SkipList;
  }
}
