/** What the gate remembers: a denied text is challenged until it is pruned. */
module GateMemory {
  import opened Text
  import opened Noise
  import opened Similarity
  import opened Gate
  import opened GateStates

  // ----- denial memory -----

  /**
   * The step denies text `x`: an answer of no, a render failure, or a saved rule whose value is
   * exactly "deny". (Any other saved value that is not "allow" refuses without remembering.)
   */
  ghost predicate Denies(t: Tables, s: State, step: Step, x: string) {
    match step
    case DecisionStep(pid, allow, _) => !allow && pid in s.pending && s.pending[pid].text == x
    case RenderFailureStep(pid) => pid in s.pending && s.pending[pid].text == x
    case ReviewStep(header, posted) =>
      var (s0, key) := Keyed(s, header);
      && posted.Parsed? && key !in s0.idem && posted.value.text == x
      && (var o := ReviewOutcome(t, Claimed(s0, key), posted.value); o.ByRule? && o.saved == "deny")
    case CallStep(posted) =>
      && posted.Parsed? && CallText(posted.value) == x
      && (var o := CallOutcome(t, s, posted.value); o.ByRule? && o.saved == "deny")
    case _ => false
  }

  lemma JudgedBlocked(s: State, id: string, b: Body, o: Outcome)
    ensures Judged(s, id, b, o).blocked == Seeded(s.blocked, o, b.text)
  {
    hide Added, ReviewEntry, Appended, VerdictOf, DecidedBy, HitsOf;
  }

  lemma CallJudgedBlocked(s: State, c: ToolCall, o: Outcome)
    ensures CallJudged(s, c, o).blocked == Seeded(s.blocked, o, CallText(c))
  {
    hide Added, HitsOf, CallText, CallTool, Key, VerdictOf, DecidedBy;
  }

  lemma SettleBlocked(s: State, pid: string, allow: bool, always: bool)
    ensures Settle(s, pid, allow, always).blocked ==
      if pid in s.pending && !allow && s.pending[pid].text != "" then Added(s.blocked, s.pending[pid].text) else s.blocked
  {
    hide Added, Answered, Deliver;
    if pid in s.pending {
      var q := s.pending[pid];
      AnsweredBlocked(s, pid, q, allow, always);
      DeliverBlocked(Answered(s, pid, q, allow, always), q, allow);
    }
  }

  lemma AnsweredBlocked(s: State, pid: string, q: Question, allow: bool, always: bool)
    ensures Answered(s, pid, q, allow, always).blocked == if !allow && q.text != "" then Added(s.blocked, q.text) else s.blocked
  {
    hide Added, AnswerTo;
  }

  lemma DeliverBlocked(s: State, q: Question, allow: bool)
    ensures Deliver(s, q, allow).blocked == s.blocked
  {
    hide ReviewEntry, Appended, Granted, VerdictFor, TurnOf, Decide;
    match q.asker
    case Call(_) =>
    case Review(id, b) => DecideBlocked(s, id, b, VerdictFor(allow), "island");
  }

  lemma DecideBlocked(s: State, id: string, b: Body, verdict: Verdict, why: string)
    ensures Decide(s, id, b, verdict, why).blocked == s.blocked
  {
    hide ReviewEntry, Appended;
  }

  lemma DenialIsRemembered(t: Tables, s: State, step: Step, x: string)
    requires Denies(t, s, step, x) && x != ""
    ensures x in Next(t, s, step).blocked
  {
    hide ReviewOutcome, CallOutcome, Judged, CallJudged, Settle;
    match step
    case DecisionStep(pid, allow, always) => SettleBlocked(s, pid, allow, always);
    case RenderFailureStep(pid) => SettleBlocked(s, pid, false, false);
    case ReviewStep(header, posted) =>
      var (s0, key) := Keyed(s, header);
      var s1 := Claimed(s0, key);
      JudgedBlocked(s1, s1.idem[key], posted.value, ReviewOutcome(t, s1, posted.value));
    case CallStep(posted) =>
      CallJudgedBlocked(s, posted.value, CallOutcome(t, s, posted.value));
  }

  /** Only pruning `x` itself removes it from the blocked index. */
  lemma OnlyPruningForgets(t: Tables, s: State, step: Step, x: string)
    requires x in s.blocked && step != PruneBlockedStep(x)
    ensures x in Next(t, s, step).blocked
  {
    hide PostReview, CallOutcome, CallJudged, Settle;
    match step
    case DecisionStep(pid, allow, always) => SettleBlocked(s, pid, allow, always);
    case RenderFailureStep(pid) => SettleBlocked(s, pid, false, false);
    case ReviewStep(header, posted) => PostRemembers(t, s, header, posted, x);
    case CallStep(posted) =>
      if posted.Parsed? {
        CallJudgedBlocked(s, posted.value, CallOutcome(t, s, posted.value));
      }
    case ActivitiesStep(items) => ActivitiesOnlyLog(s, items);
    case _ =>
  }

  lemma PostRemembers(t: Tables, s: State, header: Option<string>, posted: Posted<Body>, x: string)
    requires x in s.blocked
    ensures x in PostReview(t, s, header, posted).0.blocked
  {
    hide ReviewOutcome, Judged;
    if posted.Parsed? {
      var (s0, key) := Keyed(s, header);
      var s1 := Claimed(s0, key);
      JudgedBlocked(s1, s1.idem[key], posted.value, ReviewOutcome(t, s1, posted.value));
    }
  }

  lemma {:induction false} RememberedUntilPruned(t: Tables, s: State, more: seq<Step>, x: string)
    requires x in s.blocked && PruneBlockedStep(x) !in more
    ensures x in Run(t, s, more).blocked
    decreases |more|
  {
    hide Next;
    if more != [] {
      var front := more[..|more| - 1];
      assert more == front + [more[|more| - 1]];
      RememberedUntilPruned(t, s, front, x);
      OnlyPruningForgets(t, Run(t, s, front), more[|more| - 1], x);
    }
  }

  /** A text in the blocked index is a hit at both gates. */
  lemma BlockedTextIsHit(t: Tables, s: State, b: Body, c: ToolCall)
    ensures b.text in s.blocked && b.text != "" ==> SIMILAR_TO_BLOCKED in ReviewHits(t, s, b)
    ensures CallText(c) in s.blocked ==> SIMILAR_TO_BLOCKED in CallHits(t, s, c)
  {
    if b.text in s.blocked { IndexedTextHits(s.blocked, b.text, THRESHOLD); }
    if CallText(c) in s.blocked { IndexedTextHits(s.blocked, CallText(c), THRESHOLD); }
    hide Hits, Scan;
  }

  lemma HitIsNotClean(t: Tables, s: State, b: Body, c: ToolCall)
    ensures ReviewHits(t, s, b) != [] ==> !ReviewOutcome(t, s, b).Clean?
    ensures CallHits(t, s, c) != [] ==> !CallOutcome(t, s, c).Clean?
  {
    hide ReviewHits, CallHits, FirstMatch, SkipList;
    if SkipList(t, b).Some? {
      SkipIsSkipped(t, b);
    }
  }

  lemma SkipIsSkipped(t: Tables, b: Body)
    ensures SkipList(t, b).Some? ==> !SkipList(t, b).value.Clean?
  {
    hide FirstMatch, TrimNoise;
  }

  /**
   * After a denial of `x`, and until `x` is pruned from the blocked index, no review and no tool call
   * with the text `x` is found clean, whatever happens in between.
   */
  lemma DeniedTextIsNeverClean(t: Tables, s: State, step: Step, more: seq<Step>, x: string, b: Body, c: ToolCall)
    requires Denies(t, s, step, x) && x != "" && PruneBlockedStep(x) !in more
    ensures
      var s' := Run(t, Next(t, s, step), more);
      && (b.text == x ==> !ReviewOutcome(t, s', b).Clean?)
      && (CallText(c) == x ==> !CallOutcome(t, s', c).Clean?)
  {
    DenialIsRemembered(t, s, step, x);
    hide Next, ReviewOutcome, CallOutcome, ReviewHits, CallHits, Denies;
    RememberedUntilPruned(t, Next(t, s, step), more, x);
    var s' := Run(t, Next(t, s, step), more);
    BlockedTextIsHit(t, s', b, c);
    HitIsNotClean(t, s', b, c);
  }

}
