/** What every run of the gate keeps: fresh ids, reviews that wait or are decided, calls answered once. */
module GateStates {
  import opened Text
  import opened Gate
  import opened Similarity

  // ----- ids -----

  ghost predicate ReviewIdUpTo(id: string, n: nat) {
    exists m: nat :: m <= n && id == ReviewId(m)
  }

  ghost predicate QuestionIdUpTo(pid: string, n: nat) {
    exists m: nat :: m <= n && pid == Decimal(m)
  }

  /** Every id in use was drawn from the counter. */
  ghost predicate IdsDrawn(s: State) {
    && (forall id <- s.reviews :: ReviewIdUpTo(id, s.counter))
    && (forall pid <- s.pending :: QuestionIdUpTo(pid, s.counter))
    && (forall key <- s.idem :: ReviewIdUpTo(s.idem[key], s.counter))
  }

  lemma ReviewIdFresh(n: nat, m: nat)
    requires n < m
    ensures !ReviewIdUpTo(ReviewId(m), n)
  {
    forall k: nat | k <= n && ReviewId(m) == ReviewId(k) ensures false {
      assert ReviewId(m)[4..] == Decimal(m) && ReviewId(k)[4..] == Decimal(k);
      DecimalInjective(m, k);
    }
  }

  lemma QuestionIdFresh(n: nat, m: nat)
    requires n < m
    ensures !QuestionIdUpTo(Decimal(m), n)
  {
    forall k: nat | k <= n && Decimal(m) == Decimal(k) ensures false {
      DecimalInjective(m, k);
    }
  }

  lemma IdsUpToMonotone(id: string, n: nat, m: nat)
    requires n <= m
    ensures ReviewIdUpTo(id, n) ==> ReviewIdUpTo(id, m)
    ensures QuestionIdUpTo(id, n) ==> QuestionIdUpTo(id, m)
  {
  }

  // ----- waiting reviews and unanswered calls -----

  /** Question `pid` is on the island for review `id`, or for tool call `call`. */
  ghost predicate AsksFor(s: State, pid: string, id: string) {
    pid in s.pending && s.pending[pid].asker.Review? && s.pending[pid].asker.id == id
  }

  ghost predicate HoldsCall(s: State, pid: string, call: nat) {
    pid in s.pending && s.pending[pid].asker == Call(call)
  }

  ghost predicate Ended(s: State, call: nat) {
    exists i :: 0 <= i < |s.ended| && s.ended[i].0 == call
  }

  /** Pending reviews and the live review questions are in bijection. */
  ghost predicate ReviewsPaired(s: State) {
    && (forall pid, id :: AsksFor(s, pid, id) ==> id in s.reviews && s.reviews[id] == Waiting)
    && (forall p, q, id :: AsksFor(s, p, id) && AsksFor(s, q, id) ==> p == q)
    && (forall id <- s.reviews :: s.reviews[id] == Waiting ==> exists pid :: AsksFor(s, pid, id))
  }

  /** No tool call has been ended twice, or is held by two live questions; and never both. */
  ghost predicate CallsAnsweredOnce(s: State) {
    && (forall pid, call: nat :: HoldsCall(s, pid, call) ==> call < s.calls && !Ended(s, call))
    && (forall p, q, call :: HoldsCall(s, p, call) && HoldsCall(s, q, call) ==> p == q)
    && (forall i :: 0 <= i < |s.ended| ==> s.ended[i].0 < s.calls)
    && (forall i, j :: 0 <= i < j < |s.ended| ==> s.ended[i].0 != s.ended[j].0)
  }

  /** The thread of every review is on record, and a waiting one's question still carries it. */
  ghost predicate ThreadsKept(s: State) {
    && s.threads.Keys == s.reviews.Keys
    && forall pid, id :: AsksFor(s, pid, id) ==> id in s.threads && s.threads[id] == s.pending[pid].asker.body.thread
  }

  ghost predicate Inv(s: State) {
    IdsDrawn(s) && ReviewsPaired(s) && CallsAnsweredOnce(s) && ThreadsKept(s)
  }

  // ----- the shapes a handler's effect can take -----

  /** Reviews, questions and calls are as they were; ids already drawn stay drawn. */
  ghost predicate Untouched(s: State, s': State) {
    && s'.counter >= s.counter && s'.reviews == s.reviews && s'.pending == s.pending
    && s'.calls == s.calls && s'.ended == s.ended && s'.threads == s.threads
  }

  /** A fresh review id enters decided. */
  ghost predicate EntersDecided(s: State, s': State, id: string) {
    && s'.counter >= s.counter && ReviewIdUpTo(id, s'.counter) && !ReviewIdUpTo(id, s.counter)
    && id in s'.reviews && s'.reviews[id].Decided? && s'.reviews == s.reviews[id := s'.reviews[id]]
    && s'.pending == s.pending && s'.calls == s.calls && s'.ended == s.ended
    && id in s'.threads && s'.threads == s.threads[id := s'.threads[id]]
  }

  /** A fresh review id enters waiting, with a fresh question. */
  ghost predicate EntersWaiting(s: State, s': State, id: string, pid: string, q: Question) {
    && s'.counter >= s.counter && ReviewIdUpTo(id, s'.counter) && !ReviewIdUpTo(id, s.counter)
    && QuestionIdUpTo(pid, s'.counter) && !QuestionIdUpTo(pid, s.counter)
    && q.asker.Review? && q.asker.id == id
    && s'.reviews == s.reviews[id := Waiting] && s'.pending == s.pending[pid := q]
    && s'.calls == s.calls && s'.ended == s.ended && s'.threads == s.threads[id := q.asker.body.thread]
  }

  /** The next tool call is ended at once, or held by a fresh question, or neither. */
  ghost predicate CallEnds(s: State, s': State) {
    && s'.counter >= s.counter && s'.reviews == s.reviews && s'.pending == s.pending
    && s'.calls == s.calls + 1 && s'.threads == s.threads
    && EndsOne(s, s', s.calls)
  }

  ghost predicate CallHangs(s: State, s': State) {
    && s'.counter >= s.counter && s'.reviews == s.reviews && s'.pending == s.pending
    && s'.calls == s.calls + 1 && s'.ended == s.ended && s'.threads == s.threads
  }

  ghost predicate EndsOne(s: State, s': State, call: nat) {
    |s'.ended| > 0 && s'.ended == s.ended + [(call, s'.ended[|s'.ended| - 1].1)]
  }

  ghost predicate CallWaits(s: State, s': State, pid: string, q: Question) {
    && s'.counter >= s.counter && s'.reviews == s.reviews
    && QuestionIdUpTo(pid, s'.counter) && !QuestionIdUpTo(pid, s.counter)
    && q.asker == Call(s.calls) && s'.pending == s.pending[pid := q]
    && s'.calls == s.calls + 1 && s'.ended == s.ended && s'.threads == s.threads
  }

  ghost predicate IdemDrawn(s: State) {
    forall key <- s.idem :: ReviewIdUpTo(s.idem[key], s.counter)
  }

  lemma UntouchedKeeps(s: State, s': State)
    requires Inv(s) && Untouched(s, s') && IdemDrawn(s')
    ensures Inv(s')
  {
    assert forall pid, id :: AsksFor(s', pid, id) <==> AsksFor(s, pid, id);
    assert forall pid, call :: HoldsCall(s', pid, call) <==> HoldsCall(s, pid, call);
    assert forall call :: Ended(s', call) <==> Ended(s, call);
  }

  lemma EntersDecidedThreads(s: State, s': State, id: string)
    requires ReviewsPaired(s) && ThreadsKept(s) && EntersDecided(s, s', id) && id !in s.reviews
    ensures ThreadsKept(s')
  {
    hide ReviewIdUpTo;
    forall p, i | AsksFor(s', p, i) ensures i in s'.threads && s'.threads[i] == s'.pending[p].asker.body.thread {
      assert AsksFor(s, p, i);
    }
  }

  lemma EntersDecidedPaired(s: State, s': State, id: string)
    requires ReviewsPaired(s) && EntersDecided(s, s', id) && id !in s.reviews
    ensures ReviewsPaired(s')
  {
    hide ReviewIdUpTo;
    assert forall pid, i :: AsksFor(s', pid, i) <==> AsksFor(s, pid, i);
  }

  lemma EntersDecidedCalls(s: State, s': State, id: string)
    requires CallsAnsweredOnce(s) && EntersDecided(s, s', id)
    ensures CallsAnsweredOnce(s')
  {
    hide ReviewIdUpTo;
    assert forall pid, call :: HoldsCall(s', pid, call) <==> HoldsCall(s, pid, call);
    assert forall call :: Ended(s', call) <==> Ended(s, call);
  }

  lemma EntersDecidedKeeps(s: State, s': State, id: string)
    requires Inv(s) && EntersDecided(s, s', id) && IdemDrawn(s')
    ensures Inv(s')
  {
    assert id !in s.reviews;
    EntersDecidedThreads(s, s', id);
    EntersDecidedPaired(s, s', id);
    EntersDecidedCalls(s, s', id);
    hide ReviewsPaired, ThreadsKept, CallsAnsweredOnce;
  }

  lemma EntersWaitingThreads(s: State, s': State, id: string, pid: string, q: Question)
    requires ThreadsKept(s) && EntersWaiting(s, s', id, pid, q) && id !in s.reviews && pid !in s.pending
    ensures ThreadsKept(s')
  {
    hide ReviewIdUpTo, QuestionIdUpTo;
    forall p, i | AsksFor(s', p, i) ensures i in s'.threads && s'.threads[i] == s'.pending[p].asker.body.thread {
      if p != pid { assert AsksFor(s, p, i); }
    }
  }

  lemma EntersWaitingCalls(s: State, s': State, id: string, pid: string, q: Question)
    requires CallsAnsweredOnce(s) && EntersWaiting(s, s', id, pid, q) && pid !in s.pending
    ensures CallsAnsweredOnce(s')
  {
    hide ReviewIdUpTo, QuestionIdUpTo;
    assert forall p, call :: HoldsCall(s', p, call) <==> HoldsCall(s, p, call);
    assert forall call :: Ended(s', call) <==> Ended(s, call);
  }

  lemma EntersWaitingPaired(s: State, s': State, id: string, pid: string, q: Question)
    requires ReviewsPaired(s) && EntersWaiting(s, s', id, pid, q) && id !in s.reviews && pid !in s.pending
    ensures ReviewsPaired(s')
  {
    hide ReviewIdUpTo, QuestionIdUpTo;
    assert forall p, i :: AsksFor(s', p, i) <==> AsksFor(s, p, i) || (p == pid && i == id);
    assert AsksFor(s', pid, id);
  }

  lemma EntersWaitingKeeps(s: State, s': State, id: string, pid: string, q: Question)
    requires Inv(s) && EntersWaiting(s, s', id, pid, q) && IdemDrawn(s')
    ensures Inv(s')
  {
    assert id !in s.reviews && pid !in s.pending;
    EntersWaitingThreads(s, s', id, pid, q);
    EntersWaitingCalls(s, s', id, pid, q);
    EntersWaitingPaired(s, s', id, pid, q);
    hide ThreadsKept, CallsAnsweredOnce, ReviewsPaired;
  }

  lemma CallEndsKeeps(s: State, s': State)
    requires Inv(s) && CallEnds(s, s') && IdemDrawn(s')
    ensures Inv(s')
  {
    assert forall p, i :: AsksFor(s', p, i) <==> AsksFor(s, p, i);
    assert forall p, call :: HoldsCall(s', p, call) <==> HoldsCall(s, p, call);
    forall call: nat ensures Ended(s', call) <==> Ended(s, call) || call == s.calls {
      if Ended(s, call) {
        var i :| 0 <= i < |s.ended| && s.ended[i].0 == call;
        assert s'.ended[i].0 == call;
      }
      assert s'.ended[|s.ended|].0 == s.calls;
    }
  }

  lemma CallHangsKeeps(s: State, s': State)
    requires Inv(s) && CallHangs(s, s') && IdemDrawn(s')
    ensures Inv(s')
  {
    assert forall p, i :: AsksFor(s', p, i) <==> AsksFor(s, p, i);
    assert forall p, call :: HoldsCall(s', p, call) <==> HoldsCall(s, p, call);
    assert forall call :: Ended(s', call) <==> Ended(s, call);
  }

  lemma CallWaitsReviews(s: State, s': State, pid: string, q: Question)
    requires ReviewsPaired(s) && ThreadsKept(s) && CallWaits(s, s', pid, q) && pid !in s.pending
    ensures ReviewsPaired(s') && ThreadsKept(s')
  {
    hide QuestionIdUpTo;
    assert forall p, i :: AsksFor(s', p, i) <==> AsksFor(s, p, i);
  }

  lemma CallWaitsCalls(s: State, s': State, pid: string, q: Question)
    requires CallsAnsweredOnce(s) && CallWaits(s, s', pid, q) && pid !in s.pending
    ensures CallsAnsweredOnce(s')
  {
    hide QuestionIdUpTo;
    assert forall p, call :: HoldsCall(s', p, call) <==> HoldsCall(s, p, call) || (p == pid && call == s.calls);
    assert forall call :: Ended(s', call) <==> Ended(s, call);
    assert !Ended(s, s.calls);
  }

  lemma CallWaitsKeeps(s: State, s': State, pid: string, q: Question)
    requires Inv(s) && CallWaits(s, s', pid, q) && IdemDrawn(s')
    ensures Inv(s')
  {
    assert pid !in s.pending;
    CallWaitsReviews(s, s', pid, q);
    CallWaitsCalls(s, s', pid, q);
    hide ReviewsPaired, ThreadsKept, CallsAnsweredOnce;
  }

  // ----- handlers -----

  /** A post that gets as far as a fresh id: the id is new, and nothing else has moved. */
  lemma FreshClaim(s: State, header: Option<string>)
    ensures
      var (s0, key) := Keyed(s, header);
      var s1 := Claimed(s0, key);
      && Untouched(s, s1) && ReviewIdUpTo(s1.idem[key], s1.counter) && !ReviewIdUpTo(s1.idem[key], s.counter)
      && !QuestionIdUpTo(Decimal(s1.counter + 1), s.counter) && QuestionIdUpTo(Decimal(s1.counter + 1), s1.counter + 1)
      && s1.idem == s.idem[key := s1.idem[key]]
  {
    var (s0, key) := Keyed(s, header);
    ReviewIdFresh(s.counter, s0.counter + 1);
    QuestionIdFresh(s.counter, s0.counter + 2);
    assert ReviewIdUpTo(ReviewId(s0.counter + 1), s0.counter + 1);
  }

  /** Logging an outcome touches the events and the blocked index only. */
  lemma NotedShape(s: State, kind: string, tool: Option<string>, o: Outcome, text: string)
    ensures Noted(s, kind, tool, o, text).(events := s.events, blocked := s.blocked) == s
  {
    hide HitsOf, Seeded;
  }

  lemma StoppedShape(s: State, id: string, b: Body, o: Outcome)
    requires o.Stopped?
    ensures Judged(s, id, b, o).(events := s.events, blocked := s.blocked) == s
  {
    hide Noted;
    NotedShape(s, "review", b.tool, o, b.text);
  }

  lemma AskedShape(s: State, id: string, b: Body, o: Outcome)
    requires o.Ask?
    ensures Judged(s, id, b, o).(events := s.events, blocked := s.blocked) ==
      s.(counter := s.counter + 1, reviews := s.reviews[id := Waiting], threads := s.threads[id := b.thread],
         pending := s.pending[Decimal(s.counter + 1) :=
           Question(Review(id, b), ToolName(b), o.hits, Key(ToolName(b), o.hits), b.text)])
  {
    hide Noted, ToolName, Key;
    NotedShape(s, "review", b.tool, o, b.text);
  }

  lemma DecidedShape(s: State, id: string, b: Body, o: Outcome)
    requires o.Answers()
    ensures Judged(s, id, b, o).(events := s.events, blocked := s.blocked) ==
      s.(reviews := s.reviews[id := Decided(VerdictOf(o))], threads := s.threads[id := b.thread],
         log := Appended(s.log, b.thread, b.writable, ReviewEntry(id, b, VerdictOf(o), DecidedBy(o))))
  {
    hide Noted, ReviewEntry, Appended, VerdictOf, DecidedBy;
    NotedShape(s, "review", b.tool, o, b.text);
  }

  lemma JudgedShape(s: State, id: string, b: Body, o: Outcome)
    ensures
      var s' := Judged(s, id, b, o);
      && s'.idem == s.idem && s'.calls == s.calls && s'.ended == s.ended && s'.read == s.read
      && s'.answers == s.answers && s'.savedRules == s.savedRules && s'.turnGrants == s.turnGrants
      && s'.threads == (if o.Stopped? then s.threads else s.threads[id := b.thread])
      && s'.reviews == (if o.Stopped? then s.reviews
                        else s.reviews[id := if o.Ask? then Waiting else Decided(VerdictOf(o))])
      && s'.log == (if o.Answers() then Appended(s.log, b.thread, b.writable, ReviewEntry(id, b, VerdictOf(o), DecidedBy(o)))
                    else s.log)
      && s'.counter == (if o.Ask? then s.counter + 1 else s.counter)
      && s'.pending == if !o.Ask? then s.pending else
           s.pending[Decimal(s.counter + 1) :=
             Question(Review(id, b), ToolName(b), o.hits, Key(ToolName(b), o.hits), b.text)]
  {
    hide Judged, ReviewEntry, Appended, VerdictOf, DecidedBy, ToolName, Key;
    if o.Stopped? {
      StoppedShape(s, id, b, o);
    } else if o.Ask? {
      AskedShape(s, id, b, o);
    } else {
      DecidedShape(s, id, b, o);
    }
  }

  lemma FreshPostKeeps(s: State, header: Option<string>, b: Body, o: Outcome)
    requires Inv(s)
    ensures
      var (s0, key) := Keyed(s, header);
      var s1 := Claimed(s0, key);
      Inv(s1) && Inv(Judged(s1, s1.idem[key], b, o))
  {
    hide Judged;
    var (s0, key) := Keyed(s, header);
    var s1 := Claimed(s0, key);
    FreshClaim(s, header);
    IdemStaysDrawn(s, s1, key);
    UntouchedKeeps(s, s1);
    JudgedKeeps(s, s1, key, b, o);
  }

  lemma JudgedKeeps(s: State, s1: State, key: string, b: Body, o: Outcome)
    requires Inv(s) && Untouched(s, s1) && key in s1.idem && s1.idem == s.idem[key := s1.idem[key]]
    requires ReviewIdUpTo(s1.idem[key], s1.counter) && !ReviewIdUpTo(s1.idem[key], s.counter)
    requires !QuestionIdUpTo(Decimal(s1.counter + 1), s.counter)
    requires QuestionIdUpTo(Decimal(s1.counter + 1), s1.counter + 1)
    ensures Inv(Judged(s1, s1.idem[key], b, o))
  {
    var id := s1.idem[key];
    var s' := Judged(s1, id, b, o);
    JudgedShape(s1, id, b, o);
    hide Judged, Appended, ReviewEntry, VerdictOf, DecidedBy, ToolName, Key, ReviewIdUpTo, QuestionIdUpTo, Inv,
      EntersWaiting, EntersDecided, Untouched, Decimal, IdemDrawn;
    assert IdsDrawn(s) by { KeepsIds(s); }
    UntouchedMeans(s, s1);
    IdsUpToMonotone(id, s1.counter, s'.counter);
    IdemStaysDrawn(s, s', key);
    JudgedEnters(s, s1, s', id, b, o);
    if o.Ask? {
      var pid := Decimal(s1.counter + 1);
      EntersWaitingKeeps(s, s', id, pid, s'.pending[pid]);
    } else if o.Stopped? {
      UntouchedKeeps(s, s');
    } else {
      EntersDecidedKeeps(s, s', id);
    }
  }

  lemma KeepsIds(s: State)
    requires Inv(s)
    ensures IdsDrawn(s)
  {
  }

  lemma UntouchedMeans(s: State, s': State)
    requires Untouched(s, s')
    ensures s'.counter >= s.counter
  {
  }

  lemma JudgedEnters(s: State, s1: State, s': State, id: string, b: Body, o: Outcome)
    requires Untouched(s, s1) && s' == Judged(s1, id, b, o)
    requires ReviewIdUpTo(id, s'.counter) && !ReviewIdUpTo(id, s.counter)
    requires !QuestionIdUpTo(Decimal(s1.counter + 1), s.counter)
    requires QuestionIdUpTo(Decimal(s1.counter + 1), s1.counter + 1)
    ensures
      var pid := Decimal(s1.counter + 1);
      if o.Ask? then pid in s'.pending && EntersWaiting(s, s', id, pid, s'.pending[pid])
      else if o.Stopped? then Untouched(s, s')
      else EntersDecided(s, s', id)
  {
    JudgedShape(s1, id, b, o);
    hide Judged, Appended, ReviewEntry, VerdictOf, DecidedBy, ToolName, Key, ReviewIdUpTo, QuestionIdUpTo, Decimal;
  }

  lemma PostReviewKeeps(t: Tables, s: State, header: Option<string>, posted: Posted<Body>)
    requires Inv(s)
    ensures Inv(PostReview(t, s, header, posted).0)
  {
    if !posted.BadJson? {
      var (s0, key) := Keyed(s, header);
      if key in s0.idem {
        IdemStaysDrawn(s, s0, key);
        UntouchedKeeps(s, s0);
      } else if posted.Parsed? {
        FreshPostKeeps(s, header, posted.value, ReviewOutcome(t, Claimed(s0, key), posted.value));
      } else {
        FreshClaim(s, header);
        IdemStaysDrawn(s, Claimed(s0, key), key);
        UntouchedKeeps(s, Claimed(s0, key));
      }
    }
  }

  lemma IdemStaysDrawn(s: State, s': State, key: string)
    requires IdsDrawn(s) && s.counter <= s'.counter
    requires s'.idem == s.idem || (key in s'.idem && s'.idem == s.idem[key := s'.idem[key]] && ReviewIdUpTo(s'.idem[key], s'.counter))
    ensures IdemDrawn(s')
  {
    forall k | k in s'.idem ensures ReviewIdUpTo(s'.idem[k], s'.counter) {
      IdsUpToMonotone(s'.idem[k], s.counter, s'.counter);
    }
  }

  lemma CallJudgedShape(s: State, c: ToolCall, o: Outcome)
    ensures
      var s' := CallJudged(s, c, o);
      && s'.idem == s.idem && s'.reviews == s.reviews && s'.calls == s.calls + 1
      && s'.answers == s.answers && s'.savedRules == s.savedRules && s'.turnGrants == s.turnGrants
      && s'.log == s.log && s'.threads == s.threads && s'.read == s.read + 1
      && if o.Ask? then
           && s'.counter == s.counter + 1 && s'.ended == s.ended
           && s'.pending == s.pending[Decimal(s.counter + 1) :=
                Question(Call(s.calls), CallTool(c), o.hits, Key(CallTool(c), o.hits), CallText(c))]
         else
           && s'.counter == s.counter && s'.pending == s.pending
           && s'.ended == s.ended + if o.Stopped? then [] else [(s.calls, ToolReply(VerdictOf(o) == Allow, DecidedBy(o)))]
  {
    var s0 := Noted(s, "toolcall", c.tool, o, CallText(c));
    NotedShape(s, "toolcall", c.tool, o, CallText(c));
    ConcludedShape(s0, c, o);
    hide Noted, CallConcluded, CallText, CallTool, Key, VerdictOf, DecidedBy;
  }

  lemma ConcludedShape(s: State, c: ToolCall, o: Outcome)
    ensures CallConcluded(s, c, o).(ended := s.ended, pending := s.pending, counter := s.counter) ==
      s.(calls := s.calls + 1, read := s.read + 1)
    ensures
      var s' := CallConcluded(s, c, o);
      if o.Ask? then
        && s'.counter == s.counter + 1 && s'.ended == s.ended
        && s'.pending == s.pending[Decimal(s.counter + 1) :=
             Question(Call(s.calls), CallTool(c), o.hits, Key(CallTool(c), o.hits), CallText(c))]
      else
        && s'.counter == s.counter && s'.pending == s.pending
        && s'.ended == s.ended + if o.Stopped? then [] else [(s.calls, ToolReply(VerdictOf(o) == Allow, DecidedBy(o)))]
  {
    hide CallText, CallTool, Key, VerdictOf, DecidedBy;
  }

  /** What no tool call touches, read or not. */
  lemma PostCallShape(t: Tables, s: State, posted: Posted<ToolCall>)
    ensures
      var s' := PostCall(t, s, posted);
      && s'.counter >= s.counter && s'.calls == s.calls + 1
      && s'.idem == s.idem && s'.reviews == s.reviews && s'.threads == s.threads && s'.log == s.log
      && s'.answers == s.answers && s'.savedRules == s.savedRules && s'.turnGrants == s.turnGrants
  {
    hide CallOutcome, CallJudged;
    if posted.Parsed? {
      CallJudgedShape(s, posted.value, CallOutcome(t, s, posted.value));
    }
  }

  lemma PostCallKeeps(t: Tables, s: State, posted: Posted<ToolCall>)
    requires Inv(s)
    ensures Inv(PostCall(t, s, posted))
  {
    var s' := PostCall(t, s, posted);
    if posted.BadJson? {
      IdemStaysDrawn(s, s', "");
      CallEndsKeeps(s, s');
    } else if posted.Unreadable? {
      IdemStaysDrawn(s, s', "");
      CallHangsKeeps(s, s');
    } else {
      var o := CallOutcome(t, s, posted.value);
      CallJudgedShape(s, posted.value, o);
      IdemStaysDrawn(s, s', "");
      hide CallOutcome, CallJudged, Inv;
      if o.Stopped? {
        CallHangsKeeps(s, s');
      } else if o.Ask? {
        var pid := Decimal(s.counter + 1);
        QuestionIdFresh(s.counter, s.counter + 1);
        assert QuestionIdUpTo(pid, s.counter + 1);
        CallWaitsKeeps(s, s', pid, s'.pending[pid]);
      } else {
        CallEndsKeeps(s, s');
      }
    }
  }

  lemma SettleShape(s: State, pid: string, allow: bool, always: bool)
    requires pid in s.pending
    ensures
      var s' := Settle(s, pid, allow, always);
      && s'.counter == s.counter && s'.pending == s.pending - {pid} && s'.idem == s.idem && s'.calls == s.calls
      && s'.events == s.events && s'.threads == s.threads && s'.read == s.read
    ensures
      var s', q := Settle(s, pid, allow, always), s.pending[pid];
      q.asker.Call? ==>
        && s'.reviews == s.reviews && s'.log == s.log
        && s'.ended == s.ended + [(q.asker.call, ToolReply(allow, if allow then "user-approved" else "user-denied"))]
    ensures
      var s', q := Settle(s, pid, allow, always), s.pending[pid];
      q.asker.Review? ==>
        && s'.ended == s.ended && s'.reviews == s.reviews[q.asker.id := Decided(VerdictFor(allow))]
        && s'.log == Appended(s.log, q.asker.body.thread, q.asker.body.writable,
                              ReviewEntry(q.asker.id, q.asker.body, VerdictFor(allow), "island"))
  {
    var q := s.pending[pid];
    var s1 := Answered(s, pid, q, allow, always);
    AnsweredShape(s, pid, q, allow, always);
    hide Answered, ReviewEntry, Appended, Granted, VerdictFor;
    match q.asker
    case Call(_) =>
    case Review(id, b) => DeliverShape(s1, q, id, b, allow);
  }

  lemma AnsweredShape(s: State, pid: string, q: Question, allow: bool, always: bool)
    ensures Answered(s, pid, q, allow, always)
      .(savedRules := s.savedRules, blocked := s.blocked, answers := s.answers, pending := s.pending) == s
    ensures Answered(s, pid, q, allow, always).pending == s.pending - {pid}
  {
    hide AnswerTo, Added;
  }

  lemma DeliverShape(s: State, q: Question, id: string, b: Body, allow: bool)
    requires q.asker == Review(id, b)
    ensures Deliver(s, q, allow).(turnGrants := s.turnGrants) ==
      s.(reviews := s.reviews[id := Decided(VerdictFor(allow))],
         log := Appended(s.log, b.thread, b.writable, ReviewEntry(id, b, VerdictFor(allow), "island")))
  {
    hide ReviewEntry, Appended, Granted, VerdictFor, TurnOf;
  }

  lemma SettleKeeps(s: State, pid: string, allow: bool, always: bool)
    requires Inv(s)
    ensures Inv(Settle(s, pid, allow, always))
  {
    if pid in s.pending {
      var s', q := Settle(s, pid, allow, always), s.pending[pid];
      SettleShape(s, pid, allow, always);
      hide Settle;
      match q.asker
      case Call(call) => SettledCall(s, s', pid, call);
      case Review(id, b) => SettledReview(s, s', pid, id);
    }
  }

  lemma SettledCall(s: State, s': State, pid: string, call: nat)
    requires Inv(s) && HoldsCall(s, pid, call)
    requires s'.counter == s.counter && s'.pending == s.pending - {pid} && s'.idem == s.idem && s'.calls == s.calls
    requires s'.reviews == s.reviews && s'.threads == s.threads && EndsOne(s, s', call)
    ensures Inv(s')
  {
    assert forall p, i :: AsksFor(s', p, i) <==> AsksFor(s, p, i);
    assert forall p, c :: HoldsCall(s', p, c) <==> HoldsCall(s, p, c) && p != pid;
    forall c: nat ensures Ended(s', c) <==> Ended(s, c) || c == call {
      if Ended(s, c) {
        var i :| 0 <= i < |s.ended| && s.ended[i].0 == c;
        assert s'.ended[i].0 == c;
      }
      assert s'.ended[|s.ended|].0 == call;
    }
    assert !Ended(s, call);
  }

  lemma SettledReview(s: State, s': State, pid: string, id: string)
    requires Inv(s) && AsksFor(s, pid, id)
    requires s'.counter == s.counter && s'.pending == s.pending - {pid} && s'.idem == s.idem && s'.calls == s.calls
    requires s'.ended == s.ended && id in s'.reviews && s'.reviews[id].Decided?
    requires s'.reviews == s.reviews[id := s'.reviews[id]] && s'.threads == s.threads
    ensures Inv(s')
  {
    assert forall p, i :: AsksFor(s', p, i) <==> AsksFor(s, p, i) && p != pid;
    assert forall p, c :: HoldsCall(s', p, c) <==> HoldsCall(s, p, c);
    assert forall c :: Ended(s', c) <==> Ended(s, c);
  }

  /**
   * The history of threads is the threads of the posts: a post that enters a review under a fresh id
   * puts that body's thread on record for it, and no step changes what is on record.
   */
  lemma ThreadsOnRecord(t: Tables, s: State, step: Step, id: string)
    requires Inv(s)
    ensures
      var s' := Next(t, s, step);
      id in s'.reviews ==>
        && id in s'.threads
        && if id in s.reviews then s'.threads[id] == s.threads[id]
           else step.ReviewStep? && step.review.Parsed? && s'.threads[id] == step.review.value.thread
  {
    hide PostReview, PostCall, Settle, IdsDrawn, ReviewsPaired, CallsAnsweredOnce;
    match step
    case ReviewStep(header, posted) => PostKeepsThreads(t, s, header, posted);
    case CallStep(posted) => PostCallShape(t, s, posted);
    case DecisionStep(pid, allow, always) => SettleKeepsThreads(s, pid, allow, always);
    case RenderFailureStep(pid) => SettleKeepsThreads(s, pid, false, false);
    case ActivitiesStep(items) => ActivitiesOnlyLog(s, items);
    case _ =>
  }

  lemma PostKeepsThreads(t: Tables, s: State, header: Option<string>, posted: Posted<Body>)
    requires Inv(s)
    ensures
      var s', id := PostReview(t, s, header, posted).0, ReviewId(Keyed(s, header).0.counter + 1);
      && id !in s.reviews
      && ((s'.threads == s.threads && s'.reviews.Keys == s.reviews.Keys)
          || (posted.Parsed? && s'.threads == s.threads[id := posted.value.thread]
              && s'.reviews.Keys == s.reviews.Keys + {id}))
  {
    hide *;
    FreshReview(s, header);
    PostCases(t, s, header, posted);
    ClaimShape(s, header);
    if posted.Parsed? {
      var s1 := Claimed(Keyed(s, header).0, Keyed(s, header).1);
      JudgedShape(s1, s1.idem[Keyed(s, header).1], posted.value, ReviewOutcome(t, s1, posted.value));
    }
  }

  /** What a post comes to: nothing, a drawn key, a claimed key, or a judged review. */
  lemma PostCases(t: Tables, s: State, header: Option<string>, posted: Posted<Body>)
    ensures
      var s', s0, key := PostReview(t, s, header, posted).0, Keyed(s, header).0, Keyed(s, header).1;
      var s1 := Claimed(s0, key);
      && key in s1.idem
      && s' == (if posted.BadJson? then s else if key in s0.idem then s0 else if posted.Unreadable? then s1
                else Judged(s1, s1.idem[key], posted.value, ReviewOutcome(t, s1, posted.value)))
  {
    hide ReviewOutcome, Judged, PostReply;
  }

  lemma ClaimShape(s: State, header: Option<string>)
    ensures
      var s0, key := Keyed(s, header).0, Keyed(s, header).1;
      var s1 := Claimed(s0, key);
      && s0.threads == s1.threads == s.threads && s0.reviews == s1.reviews == s.reviews
      && key in s1.idem && s1.idem[key] == ReviewId(s0.counter + 1)
  {
    hide ReviewId;
  }

  lemma FreshReview(s: State, header: Option<string>)
    requires Inv(s)
    ensures ReviewId(Keyed(s, header).0.counter + 1) !in s.reviews
  {
    ReviewIdFresh(s.counter, Keyed(s, header).0.counter + 1);
  }

  lemma SettleKeepsThreads(s: State, pid: string, allow: bool, always: bool)
    requires Inv(s)
    ensures Settle(s, pid, allow, always).threads == s.threads
    ensures Settle(s, pid, allow, always).reviews.Keys == s.reviews.Keys
  {
    if pid in s.pending {
      SettleShape(s, pid, allow, always);
      hide Settle;
      var q := s.pending[pid];
      if q.asker.Review? {
        assert AsksFor(s, pid, q.asker.id);
      }
    }
  }

  lemma ActivitiesOnlyLog(s: State, items: seq<FeedItem>)
    ensures Activities(s, items).(events := s.events, log := s.log) == s
    decreases |items|
  {
    if items != [] {
      ActivitiesOnlyLog(Activity(s, items[0]), items[1..]);
    }
  }

  lemma StepKeeps(t: Tables, s: State, step: Step)
    requires Inv(s)
    ensures Inv(Next(t, s, step))
  {
    match step
    case ReviewStep(header, posted) => PostReviewKeeps(t, s, header, posted);
    case CallStep(posted) => PostCallKeeps(t, s, posted);
    case DecisionStep(pid, allow, always) => SettleKeeps(s, pid, allow, always);
    case RenderFailureStep(pid) => SettleKeeps(s, pid, false, false);
    case ActivitiesStep(items) =>
      ActivitiesOnlyLog(s, items);
      UntouchedKeeps(s, Next(t, s, step));
    case _ => UntouchedKeeps(s, Next(t, s, step));
  }

  // ----- calls that are never answered -----

  /** The call was posted, and is neither ended nor held by a question. */
  ghost predicate Hangs(s: State, call: nat) {
    call < s.calls && !Ended(s, call) && !exists pid :: HoldsCall(s, pid, call)
  }

  /** Building the text of the call, or writing its event, throws. */
  predicate NeverAnswered(step: Step) {
    step.CallStep? && (step.call.Unreadable? || (step.call.Parsed? && !step.call.value.writable))
  }

  /** A step leaves a call hanging exactly when it hung before, or is this very call and throws. */
  lemma HangsStep(t: Tables, s: State, step: Step, call: nat)
    requires Inv(s)
    ensures Hangs(Next(t, s, step), call) <==> Hangs(s, call) || (NeverAnswered(step) && call == s.calls)
  {
    hide PostReview, PostCall, Settle, Inv, Hangs;
    match step
    case ReviewStep(header, posted) => PostHangs(t, s, header, posted, call);
    case CallStep(posted) => PostCallHangs(t, s, posted, call);
    case DecisionStep(pid, allow, always) => SettleHangs(s, pid, allow, always, call);
    case RenderFailureStep(pid) => SettleHangs(s, pid, false, false, call);
    case ActivitiesStep(items) =>
      ActivitiesOnlyLog(s, items);
      HangsSame(s, Next(t, s, step), call);
    case _ => HangsSame(s, Next(t, s, step), call);
  }

  lemma HangsSame(s: State, s': State, call: nat)
    requires s'.calls == s.calls && s'.ended == s.ended
    requires forall pid :: HoldsCall(s', pid, call) <==> HoldsCall(s, pid, call)
    ensures Hangs(s', call) <==> Hangs(s, call)
  {
    assert Ended(s', call) <==> Ended(s, call);
  }

  lemma PostHangs(t: Tables, s: State, header: Option<string>, posted: Posted<Body>, call: nat)
    requires Inv(s)
    ensures Hangs(PostReview(t, s, header, posted).0, call) <==> Hangs(s, call)
  {
    hide Hangs, PostReview, ReviewOutcome, Judged, Inv;
    PostCases(t, s, header, posted);
    var (s0, key) := Keyed(s, header);
    var s1 := Claimed(s0, key);
    HangsSame(s, s1, call);
    HangsSame(s, s0, call);
    if posted.Parsed? {
      FreshQuestion(s, header);
      JudgedHangs(s1, s1.idem[key], posted.value, ReviewOutcome(t, s1, posted.value), call);
    }
  }

  lemma FreshQuestion(s: State, header: Option<string>)
    requires Inv(s)
    ensures
      var s1 := Claimed(Keyed(s, header).0, Keyed(s, header).1);
      s1.pending == s.pending && Decimal(s1.counter + 1) !in s1.pending
  {
    FreshClaim(s, header);
  }

  lemma JudgedHangs(s: State, id: string, b: Body, o: Outcome, call: nat)
    requires Decimal(s.counter + 1) !in s.pending
    ensures Hangs(Judged(s, id, b, o), call) <==> Hangs(s, call)
  {
    JudgedShape(s, id, b, o);
    hide Hangs, Judged, Appended, ReviewEntry, VerdictOf, ToolName, Key;
    HangsSame(s, Judged(s, id, b, o), call);
  }

  lemma PostCallHangs(t: Tables, s: State, posted: Posted<ToolCall>, call: nat)
    requires Inv(s)
    ensures Hangs(PostCall(t, s, posted), call) <==>
      Hangs(s, call) || (NeverAnswered(CallStep(posted)) && call == s.calls)
  {
    var s' := PostCall(t, s, posted);
    assert !Ended(s, s.calls) && forall pid :: !HoldsCall(s, pid, s.calls);
    if posted.Parsed? {
      var o := CallOutcome(t, s, posted.value);
      CallJudgedShape(s, posted.value, o);
      StoppedCalls(t, s, posted.value);
      hide CallOutcome, CallJudged, CallText, CallTool, Key;
      QuestionIdFresh(s.counter, s.counter + 1);
      if o.Ask? {
        HangsHeld(s, s', Decimal(s.counter + 1), s'.pending[Decimal(s.counter + 1)], call);
      } else if o.Stopped? {
        HangsNow(s, s', call);
      } else {
        HangsEnded(s, s', (s.calls, ToolReply(VerdictOf(o) == Allow, DecidedBy(o))), call);
      }
    } else if posted.BadJson? {
      HangsEnded(s, s', (s.calls, InvalidJson), call);
    } else {
      HangsNow(s, s', call);
    }
  }

  lemma StoppedCalls(t: Tables, s: State, c: ToolCall)
    ensures CallOutcome(t, s, c).Stopped? <==> !c.writable
  {
    hide CallHits, CallEventHits;
  }

  lemma EndedAppend(s: State, s': State, last: (nat, ToolReply), call: nat)
    requires s'.ended == s.ended + [last]
    ensures Ended(s', call) <==> Ended(s, call) || call == last.0
  {
    if Ended(s, call) {
      var i :| 0 <= i < |s.ended| && s.ended[i].0 == call;
      assert s'.ended[i].0 == call;
    }
    assert s'.ended[|s.ended|] == last;
  }

  lemma HangsEnded(s: State, s': State, last: (nat, ToolReply), call: nat)
    requires last.0 == s.calls && s'.calls == s.calls + 1 && s'.ended == s.ended + [last] && s'.pending == s.pending
    ensures Hangs(s', call) <==> Hangs(s, call)
  {
    EndedAppend(s, s', last, call);
    assert forall pid :: HoldsCall(s', pid, call) <==> HoldsCall(s, pid, call);
  }

  lemma HangsNow(s: State, s': State, call: nat)
    requires s'.calls == s.calls + 1 && s'.ended == s.ended && s'.pending == s.pending
    requires !Ended(s, s.calls) && forall pid :: !HoldsCall(s, pid, s.calls)
    ensures Hangs(s', call) <==> Hangs(s, call) || call == s.calls
  {
    assert Ended(s', call) <==> Ended(s, call);
    assert forall pid :: HoldsCall(s', pid, call) <==> HoldsCall(s, pid, call);
  }

  lemma HangsHeld(s: State, s': State, pid: string, q: Question, call: nat)
    requires s'.calls == s.calls + 1 && s'.ended == s.ended && s'.pending == s.pending[pid := q]
    requires pid !in s.pending && q.asker == Call(s.calls)
    ensures Hangs(s', call) <==> Hangs(s, call)
  {
    assert Ended(s', call) <==> Ended(s, call);
    assert forall p :: HoldsCall(s', p, call) <==> HoldsCall(s, p, call) || (p == pid && call == s.calls);
    assert HoldsCall(s', pid, s.calls);
  }

  lemma SettleHangs(s: State, pid: string, allow: bool, always: bool, call: nat)
    requires Inv(s)
    ensures Hangs(Settle(s, pid, allow, always), call) <==> Hangs(s, call)
  {
    if pid in s.pending {
      var s', q := Settle(s, pid, allow, always), s.pending[pid];
      SettleShape(s, pid, allow, always);
      hide Settle, IdsDrawn, ReviewsPaired, ThreadsKept;
      assert forall p :: HoldsCall(s', p, call) <==> HoldsCall(s, p, call) && p != pid;
      match q.asker
      case Review(_, _) => HangsSame(s, s', call);
      case Call(held) =>
        assert HoldsCall(s, pid, held);
        EndedAppend(s, s', (held, ToolReply(allow, if allow then "user-approved" else "user-denied")), call);
    }
  }

  lemma {:induction false} RunKeeps(t: Tables, s: State, steps: seq<Step>)
    requires Inv(s)
    ensures Inv(Run(t, s, steps))
    decreases |steps|
  {
    if steps != [] {
      RunKeeps(t, s, steps[..|steps| - 1]);
      StepKeeps(t, Run(t, s, steps[..|steps| - 1]), steps[|steps| - 1]);
    }
  }
}
