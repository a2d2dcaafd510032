/** Polling and idempotency keys over whole runs of the gate. */
module GateRetries {
  import opened Text
  import opened Noise
  import opened Gate
  import opened GateStates
  import Similarity

  /** How the answer to a poll may move: a verdict is final, and a known review stays known. */
  ghost predicate Settles(earlier: Reply, later: Reply) {
    match earlier
    case Verdicted(_, _) => later == earlier
    case Pending(_) => later == earlier || later.Verdicted?
    case _ => true
  }

  /** No step forgets a review or changes a verdict, and only an answered question decides a waiting one. */
  lemma ReviewsAdvance(t: Tables, s: State, step: Step, id: string)
    requires Inv(s) && id in s.reviews
    ensures
      var s' := Next(t, s, step);
      && id in s'.reviews
      && (s'.reviews[id] != s.reviews[id] ==>
            && s.reviews[id] == Waiting && s'.reviews[id].Decided?
            && (step.DecisionStep? || step.RenderFailureStep?)
            && AsksFor(s, step.pid, id)
            && s'.reviews[id].verdict == VerdictFor(step.DecisionStep? && step.allow))
  {
    hide PostReview, PostCall, Settle, Inv;
    match step
    case ReviewStep(header, posted) => PostAdvances(t, s, header, posted, id);
    case CallStep(posted) => PostCallShape(t, s, posted);
    case DecisionStep(pid, allow, always) => SettleAdvances(s, pid, allow, always, id);
    case RenderFailureStep(pid) => SettleAdvances(s, pid, false, false, id);
    case ActivitiesStep(items) => ActivitiesOnlyLog(s, items);
    case _ =>
  }

  lemma PostAdvances(t: Tables, s: State, header: Option<string>, posted: Posted<Body>, id: string)
    requires Inv(s) && id in s.reviews
    ensures
      var s' := PostReview(t, s, header, posted).0;
      id in s'.reviews && s'.reviews[id] == s.reviews[id]
  {
    hide ReviewOutcome, Judged;
    if !posted.BadJson? {
      var (s0, key) := Keyed(s, header);
      if key !in s0.idem && posted.Parsed? {
        var s1 := Claimed(s0, key);
        FreshClaim(s, header);
        JudgedShape(s1, s1.idem[key], posted.value, ReviewOutcome(t, s1, posted.value));
      }
    }
  }

  lemma SettleAdvances(s: State, pid: string, allow: bool, always: bool, id: string)
    requires Inv(s) && id in s.reviews
    ensures
      var s' := Settle(s, pid, allow, always);
      && id in s'.reviews
      && (s'.reviews[id] != s.reviews[id] ==>
            s.reviews[id] == Waiting && AsksFor(s, pid, id) && s'.reviews[id] == Decided(VerdictFor(allow)))
  {
    hide ReviewOutcome, PostCall, Judged, Answered, Deliver;
    if pid in s.pending {
      var q := s.pending[pid];
      SettleShape(s, pid, allow, always);
      if q.asker.Review? {
        assert AsksFor(s, pid, q.asker.id);
      }
    }
  }

  /** Every sequence of polls of one review reads pending, ..., pending, then one constant verdict. */
  lemma {:induction false} PollsSettle(t: Tables, s: State, more: seq<Step>, id: string)
    requires Inv(s)
    ensures Settles(Respond(s, id), Respond(Run(t, s, more), id))
    decreases |more|
  {
    if more != [] {
      var front := more[..|more| - 1];
      PollsSettle(t, s, front, id);
      RunKeeps(t, s, front);
      var mid := Run(t, s, front);
      if id in mid.reviews {
        ReviewsAdvance(t, mid, more[|more| - 1], id);
      }
    }
  }

  /** Settling a question a second time changes nothing, whatever the second answer is. */
  lemma SettledTwice(s: State, pid: string, allow: bool, always: bool, allow2: bool, always2: bool)
    ensures Settle(Settle(s, pid, allow, always), pid, allow2, always2) == Settle(s, pid, allow, always)
  {
    hide ReviewOutcome, PostCall, Judged, Answered, Deliver;
    if pid in s.pending {
      var q := s.pending[pid];
      SettleShape(s, pid, allow, always);
    }
  }

  /** Step `k` of the run posts call `call`, and throws before it is answered or asked about. */
  ghost predicate ThrowsAt(t: Tables, s: State, steps: seq<Step>, k: nat, call: nat) {
    k < |steps| && NeverAnswered(steps[k]) && Run(t, s, steps[..k]).calls == call
  }

  /** The calls that hang after a run are exactly those whose own post threw. */
  lemma {:induction false} HangingCalls(t: Tables, s: State, steps: seq<Step>, call: nat)
    requires Inv(s) && forall c: nat :: !Hangs(s, c)
    ensures Hangs(Run(t, s, steps), call) <==> exists k: nat :: ThrowsAt(t, s, steps, k, call)
    decreases |steps|
  {
    hide Next, Inv, Hangs, NeverAnswered;
    if steps == [] {
      assert forall k: nat :: !ThrowsAt(t, s, steps, k, call);
    } else {
      var n := |steps| - 1;
      var front := steps[..n];
      HangingCalls(t, s, front, call);
      RunKeeps(t, s, front);
      HangsStep(t, Run(t, s, front), steps[n], call);
      forall k: nat | k < n ensures ThrowsAt(t, s, steps, k, call) <==> ThrowsAt(t, s, front, k, call) {
        assert front[..k] == steps[..k];
      }
      assert ThrowsAt(t, s, steps, n, call) <==> NeverAnswered(steps[n]) && Run(t, s, front).calls == call;
    }
  }

  /** Ended or held, and not both. */
  ghost predicate AnsweredOnce(s: State, call: nat) {
    Ended(s, call) <==> !exists pid :: HoldsCall(s, pid, call)
  }

  /**
   * No tool call is ended twice, held by two questions, or ended while held. Every call posted is
   * ended or held exactly when no call of the run threw before it was answered or asked about.
   */
  lemma EachCallEndsOnce(t: Tables, s: State, steps: seq<Step>)
    requires Inv(s) && forall c: nat :: !Hangs(s, c)
    ensures
      var s' := Run(t, s, steps);
      && (forall i, j :: 0 <= i < |s'.ended| && 0 <= j < |s'.ended| && s'.ended[i].0 == s'.ended[j].0 ==> i == j)
      && (forall p, q, call :: HoldsCall(s', p, call) && HoldsCall(s', q, call) ==> p == q)
    ensures
      var s' := Run(t, s, steps);
      (forall call: nat :: call < s'.calls ==> AnsweredOnce(s', call)) <==>
        forall k :: 0 <= k < |steps| ==> !NeverAnswered(steps[k])
  {
    RunKeeps(t, s, steps);
    var s' := Run(t, s, steps);
    hide Run, Next, NeverAnswered;
    forall call: nat ensures Hangs(s', call) <==> exists k: nat :: ThrowsAt(t, s, steps, k, call) {
      HangingCalls(t, s, steps, call);
    }
    forall call: nat ensures Hangs(s', call) <==> call < s'.calls && !AnsweredOnce(s', call) {
      EndedNotHeld(s', call);
    }
    if k: nat :| k < |steps| && NeverAnswered(steps[k]) {
      assert ThrowsAt(t, s, steps, k, Run(t, s, steps[..k]).calls);
      assert Hangs(s', Run(t, s, steps[..k]).calls);
    }
  }

  lemma EndedNotHeld(s: State, call: nat)
    requires Inv(s)
    ensures Ended(s, call) ==> !exists pid :: HoldsCall(s, pid, call)
  {
    hide Ended;
  }

  /** The failing input: the call null, whose response stays open whatever happens after it. */
  lemma {:induction false} NullCallHangs(t: Tables, s: State, more: seq<Step>)
    requires Inv(s)
    ensures Hangs(Run(t, Next(t, s, CallStep(Unreadable)), more), s.calls)
    decreases |more|
  {
    hide Next, Inv, Hangs;
    var s1 := Next(t, s, CallStep(Unreadable));
    StepKeeps(t, s, CallStep(Unreadable));
    if more == [] {
      HangsStep(t, s, CallStep(Unreadable), s.calls);
    } else {
      var front := more[..|more| - 1];
      NullCallHangs(t, s, front);
      RunKeeps(t, s1, front);
      HangsStep(t, Run(t, s1, front), more[|more| - 1], s.calls);
    }
  }

  // ----- idempotency keys -----

  /** A repeated key changes nothing at all and answers with the review it first claimed. */
  lemma RepeatChangesNothing(t: Tables, s: State, key: string, posted: Posted<Body>)
    requires key in s.idem
    ensures PostReview(t, s, Some(key), posted) ==
      (s, if posted.BadJson? then BadRequest else Respond(s, s.idem[key]))
  {
  }

  lemma KeyKept(t: Tables, s: State, step: Step, key: string)
    requires key in s.idem
    ensures key in Next(t, s, step).idem && Next(t, s, step).idem[key] == s.idem[key]
  {
    hide PostReview, PostCall, Answered, Deliver;
    match step
    case ReviewStep(header, posted) => PostKeepsKeys(t, s, header, posted, key);
    case CallStep(posted) => PostCallShape(t, s, posted);
    case DecisionStep(pid, allow, always) => SettleKeepsIdem(s, pid, allow, always);
    case RenderFailureStep(pid) => SettleKeepsIdem(s, pid, false, false);
    case ActivitiesStep(items) => ActivitiesOnlyLog(s, items);
    case _ =>
  }

  lemma PostKeepsKeys(t: Tables, s: State, header: Option<string>, posted: Posted<Body>, key: string)
    requires key in s.idem
    ensures
      var s' := PostReview(t, s, header, posted).0;
      key in s'.idem && s'.idem[key] == s.idem[key]
  {
    hide ReviewOutcome, Judged, PostReply, Appended, ReviewEntry, VerdictOf, ToolName;
    if !posted.BadJson? {
      var (s0, k) := Keyed(s, header);
      if k !in s0.idem && posted.Parsed? {
        var s1 := Claimed(s0, k);
        JudgedShape(s1, s1.idem[k], posted.value, ReviewOutcome(t, s1, posted.value));
      }
    }
  }

  lemma SettleKeepsIdem(s: State, pid: string, allow: bool, always: bool)
    ensures Settle(s, pid, allow, always).idem == s.idem
  {
    hide ReviewOutcome, PostCall, Judged, Answered, Deliver;
    if pid in s.pending {
      SettleShape(s, pid, allow, always);
    }
  }

  /**
   * Over any run, all later posts with a key refer to the review of the first one: the run in between
   * may do anything, and the repeat leaves the whole state as it finds it.
   */
  lemma {:induction false} OneReviewPerKey(t: Tables, s: State, key: string, more: seq<Step>, posted: Posted<Body>)
    requires key in s.idem
    ensures
      var s' := Run(t, s, more);
      && key in s'.idem && s'.idem[key] == s.idem[key]
      && PostReview(t, s', Some(key), posted) ==
           (s', if posted.BadJson? then BadRequest else Respond(s', s.idem[key]))
    decreases |more|
  {
    if more != [] {
      var front := more[..|more| - 1];
      OneReviewPerKey(t, s, key, front, posted);
      KeyKept(t, Run(t, s, front), more[|more| - 1], key);
    }
    RepeatChangesNothing(t, Run(t, s, more), key, posted);
  }

  // ----- the review a key refers to -----

  /** Every key refers to a review that exists. */
  ghost predicate KeysResolve(s: State) {
    forall key <- s.idem :: s.idem[key] in s.reviews
  }

  /**
   * A body that is read but ends in an exception: garbage whose command has no text, a tool output one
   * of whose parts has none, or a challenged action whose tool has none, or whose turn has none when no
   * saved rule answers first.
   */
  ghost predicate Stops(t: Tables, s: State, b: Body) {
    || (b.kind in ["tool_call", "approval"] && FirstMatch(t.garbage, b.text).Some? && b.command.None?)
    || (b.kind == "tool_output" && !Printable(b.response))
    || (SkipList(t, b).None? && ReviewHits(t, s, b) != [] &&
        (b.tool.None? ||
         (b.turn.Unprintable? && SavedRule(s.savedRules, Key(b.tool.value, ReviewHits(t, s, b))).None?)))
  }

  lemma StopsExactly(t: Tables, s: State, b: Body)
    ensures ReviewOutcome(t, s, b).Stopped? <==> Stops(t, s, b)
    ensures b.tool.Some? && b.command.Some? && Printable(b.response) && !b.turn.Unprintable? ==> !Stops(t, s, b)
  {
    hide FirstMatch, NoiseSkip, ReviewHits, SavedRule, Key, TurnGrantable;
    NoiseIsSkipped(t, b.response);
  }

  lemma NoiseIsSkipped(t: Tables, response: ToolResponse)
    ensures Printable(response) && NoiseSkip(t, response).Some? ==> NoiseSkip(t, response).value.Skipped?
  {
  }

  /** The post claims a fresh key and then fails: on its first reading, or as `Stops` says. */
  ghost predicate ClaimsThenFails(t: Tables, s: State, step: Step) {
    && step.ReviewStep?
    && var (s0, key) := Keyed(s, step.header);
       && key !in s0.idem
       && (step.review.Unreadable? || (step.review.Parsed? && Stops(t, Claimed(s0, key), step.review.value)))
  }

  lemma KeysResolveStep(t: Tables, s: State, step: Step)
    requires Inv(s)
    ensures KeysResolve(Next(t, s, step)) <==> KeysResolve(s) && !ClaimsThenFails(t, s, step)
  {
    if step.ReviewStep? {
      KeysResolvePost(t, s, step.header, step.review);
    } else {
      hide Next;
      OtherStepsKeepIdem(t, s, step);
      var s' := Next(t, s, step);
      assert forall key <- s.idem :: s.idem[key] in s.reviews <==> s'.idem[key] in s'.reviews;
    }
  }

  lemma KeysResolvePost(t: Tables, s: State, header: Option<string>, posted: Posted<Body>)
    requires Inv(s)
    ensures KeysResolve(PostReview(t, s, header, posted).0) <==>
      KeysResolve(s) && !ClaimsThenFails(t, s, ReviewStep(header, posted))
  {
    hide ReviewOutcome, Judged, Stops, Appended, ReviewEntry, ToolName, VerdictOf, PostReply, Inv;
    if !posted.BadJson? {
      var s' := PostReview(t, s, header, posted).0;
      var (s0, key) := Keyed(s, header);
      if key !in s0.idem {
        var s1 := Claimed(s0, key);
        FreshClaim(s, header);
        if posted.Parsed? {
          StopsExactly(t, s1, posted.value);
          JudgedShape(s1, s1.idem[key], posted.value, ReviewOutcome(t, s1, posted.value));
        }
        FreshKeyResolves(s, s', key, s1.idem[key], posted.Parsed? && !Stops(t, s1, posted.value));
      }
    }
  }

  lemma FreshKeyResolves(s: State, s': State, key: string, id: string, entered: bool)
    requires Inv(s) && key !in s.idem && !ReviewIdUpTo(id, s.counter)
    requires s'.idem == s.idem[key := id]
    requires s'.reviews.Keys == s.reviews.Keys + if entered then {id} else {}
    ensures KeysResolve(s') <==> KeysResolve(s) && entered
  {
    if KeysResolve(s') {
      assert s'.idem[key] in s'.reviews;
      forall k | k in s.idem ensures s.idem[k] in s.reviews {
        assert s'.idem[k] == s.idem[k] && s'.idem[k] in s'.reviews;
      }
    }
  }

  lemma OtherStepsKeepIdem(t: Tables, s: State, step: Step)
    requires Inv(s) && !step.ReviewStep?
    ensures Next(t, s, step).idem == s.idem && Next(t, s, step).reviews.Keys == s.reviews.Keys
  {
    hide ReviewOutcome, PostCall, Judged, Answered, Deliver;
    match step
    case CallStep(posted) => PostCallShape(t, s, posted);
    case DecisionStep(pid, allow, always) => SettleKeepsReviewIds(s, pid, allow, always);
    case RenderFailureStep(pid) => SettleKeepsReviewIds(s, pid, false, false);
    case ActivitiesStep(items) => ActivitiesOnlyLog(s, items);
    case _ =>
  }

  lemma SettleKeepsReviewIds(s: State, pid: string, allow: bool, always: bool)
    requires Inv(s)
    ensures Settle(s, pid, allow, always).idem == s.idem && Settle(s, pid, allow, always).reviews.Keys == s.reviews.Keys
  {
    hide ReviewOutcome, PostCall, Judged, Answered, Deliver;
    SettleKeepsIdem(s, pid, allow, always);
    SettleKeepsThreads(s, pid, allow, always);
  }

  /** No post along the run claims a key and then fails. */
  ghost predicate NoPostFails(t: Tables, s: State, steps: seq<Step>)
    decreases |steps|
  {
    steps == [] ||
    (var front := steps[..|steps| - 1];
     NoPostFails(t, s, front) && !ClaimsThenFails(t, Run(t, s, front), steps[|steps| - 1]))
  }

  /**
   * In a run from a state where every key resolves, every key still resolves at the end exactly when
   * no post along the way failed after claiming a fresh key.
   */
  lemma {:induction false} KeysResolveExactly(t: Tables, s: State, steps: seq<Step>)
    requires Inv(s) && KeysResolve(s)
    ensures KeysResolve(Run(t, s, steps)) <==> NoPostFails(t, s, steps)
    decreases |steps|
  {
    hide Next, Inv, KeysResolve, ClaimsThenFails;
    if steps != [] {
      var front := steps[..|steps| - 1];
      KeysResolveExactly(t, s, front);
      RunKeeps(t, s, front);
      KeysResolveStep(t, Run(t, s, front), steps[|steps| - 1]);
    }
  }

  /** A review id that was drawn and not entered is never entered later. */
  lemma {:induction false} MissingForGood(t: Tables, s: State, more: seq<Step>, id: string)
    requires Inv(s) && ReviewIdUpTo(id, s.counter) && id !in s.reviews
    ensures id !in Run(t, s, more).reviews && ReviewIdUpTo(id, Run(t, s, more).counter)
    decreases |more|
  {
    if more != [] {
      hide Next, Inv;
      var front, step := more[..|more| - 1], more[|more| - 1];
      MissingForGood(t, s, front, id);
      RunKeeps(t, s, front);
      StillMissing(t, Run(t, s, front), step, id);
    }
  }

  lemma StillMissing(t: Tables, s: State, step: Step, id: string)
    requires Inv(s) && ReviewIdUpTo(id, s.counter) && id !in s.reviews
    ensures id !in Next(t, s, step).reviews && ReviewIdUpTo(id, Next(t, s, step).counter)
  {
    CounterGrows(t, s, step);
    IdsUpToMonotone(id, s.counter, Next(t, s, step).counter);
    if step.ReviewStep? {
      PostKeepsThreads(t, s, step.header, step.review);
      ReviewIdFresh(s.counter, Keyed(s, step.header).0.counter + 1);
      hide PostReview, Inv, ReviewIdUpTo;
    } else {
      OtherStepsKeepIdem(t, s, step);
      hide Next, Inv;
    }
  }

  /** The key of a failed post answers "unknown review" for ever after, whatever is posted with it. */
  lemma FailedPostStrandsItsKey(t: Tables, s: State, key: string, failing: Posted<Body>, more: seq<Step>,
                                posted: Posted<Body>)
    requires Inv(s) && ClaimsThenFails(t, s, ReviewStep(Some(key), failing)) && !posted.BadJson?
    ensures
      var s' := Run(t, Next(t, s, ReviewStep(Some(key), failing)), more);
      PostReview(t, s', Some(key), posted) == (s', Unknown)
  {
    var s1 := Next(t, s, ReviewStep(Some(key), failing));
    FailedPost(t, s, key, failing);
    StepKeeps(t, s, ReviewStep(Some(key), failing));
    hide Next, Inv, ClaimsThenFails;
    MissingForGood(t, s1, more, s1.idem[key]);
    OneReviewPerKey(t, s1, key, more, posted);
  }

  lemma FailedPost(t: Tables, s: State, key: string, failing: Posted<Body>)
    requires Inv(s) && ClaimsThenFails(t, s, ReviewStep(Some(key), failing))
    ensures
      var s1 := Next(t, s, ReviewStep(Some(key), failing));
      key in s1.idem && s1.idem[key] !in s1.reviews && ReviewIdUpTo(s1.idem[key], s1.counter)
  {
    var claimed := Claimed(s, key);
    FreshClaim(s, Some(key));
    if failing.Parsed? {
      StopsExactly(t, claimed, failing.value);
      JudgedShape(claimed, claimed.idem[key], failing.value, ReviewOutcome(t, claimed, failing.value));
      hide ReviewOutcome, Judged, Stops, Appended, ReviewEntry, ToolName, VerdictOf;
    }
  }

  /** The first kind of failing input: the body null. */
  lemma NullBodyStrandsItsKey(t: Tables, s: State, key: string, more: seq<Step>, posted: Posted<Body>)
    requires Inv(s) && key !in s.idem && !posted.BadJson?
    ensures
      var s' := Run(t, Next(t, s, ReviewStep(Some(key), Unreadable)), more);
      PostReview(t, s', Some(key), posted) == (s', Unknown)
  {
    assert ClaimsThenFails(t, s, ReviewStep(Some(key), Unreadable));
    hide *;
    FailedPostStrandsItsKey(t, s, key, Unreadable, more, posted);
  }

  /** The second kind: a prompt that trips a rule, with an object for a tool name that has no text. */
  lemma UnprintableToolStrandsItsKey(t: Tables, s: State, key: string, b: Body, more: seq<Step>, posted: Posted<Body>)
    requires Inv(s) && key !in s.idem && !posted.BadJson?
    requires b.kind == "prompt" && b.tool.None? && Scan(t.rules, b.text) != []
    ensures
      var s' := Run(t, Next(t, s, ReviewStep(Some(key), Parsed(b))), more);
      PostReview(t, s', Some(key), posted) == (s', Unknown)
  {
    assert ReviewHits(t, Claimed(s, key), b) != [] && SkipList(t, b).None? by {
      hide Scan, FirstMatch, NoiseSkip, Similarity.Hits;
    }
    assert ClaimsThenFails(t, s, ReviewStep(Some(key), Parsed(b)));
    hide *;
    FailedPostStrandsItsKey(t, s, key, Parsed(b), more, posted);
  }

  // ----- posts without a key -----

  /** `steps` contain a post, parsed, whose client chose `key`. */
  ghost predicate ClientChose(steps: seq<Step>, key: string) {
    exists i :: 0 <= i < |steps| && steps[i].ReviewStep? && !steps[i].review.BadJson? && steps[i].header == Some(key)
  }

  ghost predicate NoKeyUpTo(key: string, n: nat) {
    exists m: nat :: m <= n && key == NoKey(m)
  }

  lemma NoKeyFresh(n: nat, m: nat)
    requires n < m
    ensures !NoKeyUpTo(NoKey(m), n)
  {
    forall k: nat | k <= n && NoKey(m) == NoKey(k) ensures false {
      assert NoKey(m)[7..] == Decimal(m) && NoKey(k)[7..] == Decimal(k);
      DecimalInjective(m, k);
    }
  }

  /** The keys of the map are the clients' and the counter's, and every client key is there. */
  ghost predicate KeysComeFrom(s: State, steps: seq<Step>) {
    && (forall key <- s.idem :: ClientChose(steps, key) || NoKeyUpTo(key, s.counter))
    && (forall key :: ClientChose(steps, key) ==> key in s.idem)
  }

  lemma ClientChoseMore(steps: seq<Step>, step: Step, key: string)
    ensures ClientChose(steps + [step], key) <==>
      (ClientChose(steps, key) || (step.ReviewStep? && !step.review.BadJson? && step.header == Some(key)))
  {
    var more := steps + [step];
    assert more[|steps|] == step;
    assert forall i :: 0 <= i < |steps| ==> more[i] == steps[i];
  }

  lemma KeysComeFromStep(t: Tables, s: State, steps: seq<Step>, step: Step)
    requires Inv(s) && KeysComeFrom(s, steps)
    ensures KeysComeFrom(Next(t, s, step), steps + [step])
  {
    var s' := Next(t, s, step);
    CounterGrows(t, s, step);
    if step.ReviewStep? {
      NewKey(t, s, step.header, step.review);
    } else {
      OtherStepsKeepIdem(t, s, step);
    }
    assert step.ReviewStep? ==> s' == PostReview(t, s, step.header, step.review).0;
    hide Next, PostReview, Inv;
    forall key ensures ClientChose(steps + [step], key) <==>
      (ClientChose(steps, key) || (step.ReviewStep? && !step.review.BadJson? && step.header == Some(key)))
    {
      ClientChoseMore(steps, step, key);
    }
    forall key | key in s.idem ensures key in s'.idem { KeyKept(t, s, step, key); }
    forall key ensures NoKeyUpTo(key, s.counter) ==> NoKeyUpTo(key, s'.counter) {}
    if step.ReviewStep? && step.header.None? && !step.review.BadJson? {
      assert NoKeyUpTo(NoKey(s.counter + 1), s'.counter);
    }
  }

  lemma {:induction false} RunKeysComeFrom(t: Tables, s: State, steps: seq<Step>)
    requires Inv(s) && s.idem == map[]
    ensures KeysComeFrom(Run(t, s, steps), steps)
    decreases |steps|
  {
    if steps != [] {
      hide Next, Inv, KeysComeFrom;
      var front, step := steps[..|steps| - 1], steps[|steps| - 1];
      RunKeysComeFrom(t, s, front);
      RunKeeps(t, s, front);
      KeysComeFromStep(t, Run(t, s, front), front, step);
      assert steps == front + [step];
    }
  }

  lemma CounterGrows(t: Tables, s: State, step: Step)
    ensures s.counter <= Next(t, s, step).counter
  {
    hide PostReview, PostCall, Settle, Activities, PostEvent, Similarity.Added, Similarity.Removed;
    match step
    case ActivitiesStep(items) => ActivitiesKeepCounter(s, items);
    case EventStep(item) => EventKeepsCounter(s, item);
    case ReviewStep(header, posted) => PostKeepsCounter(t, s, header, posted);
    case CallStep(posted) => CallKeepsCounter(t, s, posted);
    case DecisionStep(pid, allow, always) => SettleKeepsCounter(s, pid, allow, always);
    case RenderFailureStep(pid) => SettleKeepsCounter(s, pid, false, false);
    case _ =>
  }

  lemma PostKeepsCounter(t: Tables, s: State, header: Option<string>, posted: Posted<Body>)
    ensures s.counter <= PostReview(t, s, header, posted).0.counter
  {
    hide PostReview;
    NewKey(t, s, header, posted);
  }

  lemma CallKeepsCounter(t: Tables, s: State, posted: Posted<ToolCall>)
    ensures s.counter <= PostCall(t, s, posted).counter
  {
    hide PostCall;
    PostCallShape(t, s, posted);
  }

  lemma ActivitiesKeepCounter(s: State, items: seq<FeedItem>)
    ensures Activities(s, items).counter == s.counter
  {
    hide Activities;
    ActivitiesOnlyLog(s, items);
  }

  lemma EventKeepsCounter(s: State, item: FeedItem)
    ensures PostEvent(s, item).counter == s.counter
  {
    hide Appended, FeedEntry, Remembered, Copied;
  }

  lemma SettleKeepsCounter(s: State, pid: string, allow: bool, always: bool)
    ensures Settle(s, pid, allow, always).counter == s.counter
  {
    hide Answered, Deliver;
    if pid in s.pending { SettleShape(s, pid, allow, always); }
  }

  lemma NewKey(t: Tables, s: State, header: Option<string>, posted: Posted<Body>)
    ensures
      var s', key := PostReview(t, s, header, posted).0, Keyed(s, header).1;
      && s.counter <= s'.counter
      && (posted.BadJson? ==> s' == s)
      && (!posted.BadJson? ==> key in s'.idem && s'.counter >= Keyed(s, header).0.counter)
      && forall k <- s'.idem :: k in s.idem || (k == key && !posted.BadJson?)
  {
    hide ReviewOutcome, PostCall, Judged, Answered, Deliver;
    if !posted.BadJson? {
      var (s0, key) := Keyed(s, header);
      if key !in s0.idem && posted.Parsed? {
        var s1 := Claimed(s0, key);
        JudgedShape(s1, s1.idem[key], posted.value, ReviewOutcome(t, s1, posted.value));
      }
    }
  }

  /**
   * After any run from boot, a post without a key is taken for a repeat exactly when some client had
   * sent, as its own key, the very key the counter hands out next.
   */
  lemma KeylessPostsAreFresh(t: Tables, s: State, steps: seq<Step>)
    requires Inv(s) && s.idem == map[]
    ensures
      var s' := Run(t, s, steps);
      Keyed(s', None).1 in s'.idem <==> ClientChose(steps, NoKey(s'.counter + 1))
  {
    hide Next, Inv;
    RunKeysComeFrom(t, s, steps);
    var n := Run(t, s, steps).counter;
    NoKeyFresh(n, n + 1);
  }
}
