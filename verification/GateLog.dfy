/** What the gate writes: one entry in its own thread's file for each decision, one event for each request. */
module GateLog {
  import opened Text
  import opened Noise
  import opened SessionStore
  import opened Gate
  import opened GateStates
  import opened GateRetries
  import opened GateMemory
  import Similarity

  // ----- the thread files -----

  predicate RecordsReview(e: LogEntry, id: string) {
    e.kind == Some("review") && e.reviewId == Some(id)
  }

  /** How many of the entries of a thread file are about review `id`. */
  function Records(entries: seq<LogEntry>, id: string): nat {
    if entries == [] then 0
    else Records(entries[..|entries| - 1], id) + if RecordsReview(entries[|entries| - 1], id) then 1 else 0
  }

  ghost predicate HasVerdict(s: State, id: string) {
    id in s.reviews && s.reviews[id].Decided?
  }

  /** The review is decided, and `name` is the file of the thread it was posted for. */
  ghost predicate DecidedIn(s: State, id: string, name: string) {
    HasVerdict(s, id) && id in s.threads && FileOf(s.threads[id]) == Some(name)
  }

  ghost predicate EntryAgrees(s: State, e: LogEntry, id: string) {
    RecordsReview(e, id) ==> HasVerdict(s, id) && e.verdict == Some(s.reviews[id].verdict)
  }

  /** `entries` have one entry, with its verdict, for a review decided in file `name`, and none for any other. */
  ghost predicate ReadsAs(s: State, entries: seq<LogEntry>, name: string, id: string) {
    && Records(entries, id) == (if DecidedIn(s, id, name) then 1 else 0)
    && forall e <- entries :: EntryAgrees(s, e, id)
  }

  ghost predicate FileMatches(s: State, name: string, id: string) {
    ReadsAs(s, Project(s.log, name), name, id)
  }

  ghost predicate HasFile(s: State, id: string) {
    HasVerdict(s, id) ==> id in s.threads && FileOf(s.threads[id]).Some?
  }

  /** Every decided review has exactly one entry, with its verdict, in its thread's file and in no other. */
  ghost predicate LogMatches(s: State) {
    (forall id :: HasFile(s, id)) && forall name, id :: FileMatches(s, name, id)
  }

  // ----- what a step writes -----

  /** The body does not overwrite the kind or the review id of the entry it is spread into. */
  predicate KeepsEntry(id: string, b: Body) {
    (b.kindField == None || b.kindField == Some("review")) && (b.idField == None || b.idField == Some(id))
  }

  /** The entry of a decision can be written, and is under its own kind and id. */
  predicate WritesOwn(id: string, b: Body) {
    Filable(b.thread, b.writable) && KeepsEntry(id, b)
  }

  predicate PosesAsReview(item: FeedItem) {
    item.kind == Some("review") && item.reviewId.Some?
  }

  /** The items of a batch that get their copy: those before the first that cannot be filed. */
  function Filed(items: seq<FeedItem>): seq<FeedItem> {
    if items == [] || !Filable(items[0].thread, items[0].writable) then [] else [items[0]] + Filed(items[1..])
  }

  /** The items of a batch that are announced: the same, and the one that ends the loop. */
  function Announced(items: seq<FeedItem>): seq<FeedItem> {
    if items == [] then []
    else [items[0]] + if Filable(items[0].thread, items[0].writable) then Announced(items[1..]) else []
  }

  /** The entries a step writes say what they are: own kind and id for a decision, neither for a feed item. */
  ghost predicate WritesFaithfully(t: Tables, s: State, step: Step) {
    match step
    case ReviewStep(header, posted) =>
      var (s0, key) := Keyed(s, header);
      posted.Parsed? && key !in s0.idem && ReviewOutcome(t, Claimed(s0, key), posted.value).Answers() ==>
        WritesOwn(ReviewId(s0.counter + 1), posted.value)
    case DecisionStep(pid, _, _) => AnswersFaithfully(s, pid)
    case RenderFailureStep(pid) => AnswersFaithfully(s, pid)
    case EventStep(item) => Copied(item) ==> !PosesAsReview(item)
    case ActivitiesStep(items) => forall item <- Filed(items) :: !PosesAsReview(item)
    case _ => true
  }

  ghost predicate AnswersFaithfully(s: State, pid: string) {
    pid in s.pending && s.pending[pid].asker.Review? ==>
      WritesOwn(s.pending[pid].asker.id, s.pending[pid].asker.body)
  }

  // ----- one append -----

  lemma ProjectAppend(log: seq<(string, LogEntry)>, file: string, e: LogEntry, name: string)
    ensures Project(log + [(file, e)], name) == Project(log, name) + if file == name then [e] else []
  {
    assert (log + [(file, e)])[..|log + [(file, e)]| - 1] == log;
  }

  lemma RecordsAppend(entries: seq<LogEntry>, e: LogEntry, id: string)
    ensures Records(entries + [e], id) == Records(entries, id) + if RecordsReview(e, id) then 1 else 0
    ensures Records(entries + [], id) == Records(entries, id)
  {
    assert (entries + [e])[..|entries + [e]| - 1] == entries;
    assert entries + [] == entries;
  }

  /** What one more entry in `file` does to what file `name` says about review `id`. */
  lemma FileAppend(log: seq<(string, LogEntry)>, file: string, e: LogEntry, name: string, id: string)
    ensures Records(Project(log + [(file, e)], name), id) ==
      Records(Project(log, name), id) + if file == name && RecordsReview(e, id) then 1 else 0
    ensures forall x :: x in Project(log + [(file, e)], name) <==> x in Project(log, name) || (file == name && x == e)
  {
    ProjectAppend(log, file, e, name);
    RecordsAppend(Project(log, name), e, id);
    hide Project;
  }

  /** One decision: the log still matches exactly when the entry was written under its own kind and id. */
  lemma DecisionLogged(s: State, s': State, id: string, b: Body, verdict: Verdict, why: string)
    requires LogMatches(s) && !HasVerdict(s, id)
    requires s'.log == Appended(s.log, b.thread, b.writable, ReviewEntry(id, b, verdict, why))
    requires s'.reviews == s.reviews[id := Decided(verdict)] && s'.threads == s.threads[id := b.thread]
    ensures LogMatches(s') <==> WritesOwn(id, b)
  {
    var e := ReviewEntry(id, b, verdict, why);
    EntryIsOwn(id, b, verdict, why);
    if !Filable(b.thread, b.writable) {
      hide ReviewEntry, KeepsEntry, RecordsReview;
      UnwrittenEntry(s, s', id);
    } else {
      var file := FileOf(b.thread).value;
      assert s'.log == s.log + [(file, e)];
      hide ReviewEntry, FileOf, Appended, KeepsEntry, RecordsReview;
      if KeepsEntry(id, b) {
        OwnEntry(s, s', id, file, e, verdict);
      } else {
        ForeignEntry(s, s', id, file, e);
      }
    }
  }

  lemma UnwrittenEntry(s: State, s': State, id: string)
    requires LogMatches(s) && !HasVerdict(s, id)
    requires s'.log == s.log && HasVerdict(s', id) && id in s'.threads
    ensures !LogMatches(s')
  {
    var file := FileOf(s'.threads[id]);
    hide Project, Records, FileOf;
    if file.Some? {
      assert FileMatches(s, file.value, id);
      assert !FileMatches(s', file.value, id);
    } else {
      assert !HasFile(s', id);
    }
  }

  lemma EntryIsOwn(id: string, b: Body, verdict: Verdict, why: string)
    ensures RecordsReview(ReviewEntry(id, b, verdict, why), id) <==> KeepsEntry(id, b)
    ensures ReviewEntry(id, b, verdict, why).verdict == Some(verdict)
  {
  }

  lemma OwnEntry(s: State, s': State, id: string, file: string, e: LogEntry, verdict: Verdict)
    requires LogMatches(s) && !HasVerdict(s, id)
    requires RecordsReview(e, id) && e.verdict == Some(verdict)
    requires s'.log == s.log + [(file, e)] && s'.reviews == s.reviews[id := Decided(verdict)]
    requires id in s'.threads && s'.threads == s.threads[id := s'.threads[id]] && FileOf(s'.threads[id]) == Some(file)
    ensures LogMatches(s')
  {
    hide Project, Records, RecordsReview, FileOf;
    forall name, i ensures FileMatches(s', name, i) {
      assert FileMatches(s, name, i);
      OwnEntryKeeps(s, s', id, file, e, verdict, name, i);
    }
    forall i ensures HasFile(s', i) { assert HasFile(s, i); }
  }

  lemma ForeignEntry(s: State, s': State, id: string, file: string, e: LogEntry)
    requires LogMatches(s) && !HasVerdict(s, id) && !RecordsReview(e, id)
    requires s'.log == s.log + [(file, e)] && DecidedIn(s', id, file)
    ensures !LogMatches(s')
  {
    FileAppend(s.log, file, e, file, id);
    hide Project, Records, RecordsReview, FileOf;
    assert FileMatches(s, file, id);
    assert !FileMatches(s', file, id);
  }

  lemma OwnEntryKeeps(s: State, s': State, id: string, file: string, e: LogEntry, verdict: Verdict,
                      name: string, i: string)
    requires FileMatches(s, name, i) && !HasVerdict(s, id)
    requires RecordsReview(e, id) && e.verdict == Some(verdict)
    requires s'.log == s.log + [(file, e)] && s'.reviews == s.reviews[id := Decided(verdict)]
    requires s'.threads.Keys == s.threads.Keys + {id} && FileOf(s'.threads[id]) == Some(file)
    requires forall k <- s.threads :: k != id ==> s'.threads[k] == s.threads[k]
    ensures FileMatches(s', name, i)
  {
    FileAppend(s.log, file, e, name, i);
    hide FileOf, Project, Records;
    assert DecidedIn(s', i, name) <==> if i == id then name == file else DecidedIn(s, i, name);
    forall x | x in Project(s'.log, name) ensures EntryAgrees(s', x, i) {
      if x in Project(s.log, name) { assert EntryAgrees(s, x, i); }
    }
  }

  /** A new id that only waits, and any change outside log and reviews, leave the match as it was. */
  lemma LogUntouched(s: State, s': State, id: string, thread: Field)
    requires s'.log == s.log && LogMatches(s)
    requires (s'.reviews == s.reviews && s'.threads == s.threads) ||
             (id !in s.reviews && s'.reviews == s.reviews[id := Waiting] && s'.threads == s.threads[id := thread])
    ensures LogMatches(s')
  {
    hide FileOf, Project, Records;
    forall i ensures HasFile(s', i) { assert HasFile(s, i); }
    forall name, i ensures FileMatches(s', name, i) {
      assert FileMatches(s, name, i);
      assert forall e :: EntryAgrees(s, e, i) ==> EntryAgrees(s', e, i);
    }
  }

  /** An entry that records a review without a verdict is in the log; nothing takes it out again. */
  ghost predicate Forged(s: State) {
    exists k :: 0 <= k < |s.log| && IsForged(s.log[k].1)
  }

  predicate IsForged(e: LogEntry) {
    e.kind == Some("review") && e.reviewId.Some? && e.verdict == None
  }

  lemma {:induction false} InItsFile(log: seq<(string, LogEntry)>, k: nat)
    requires k < |log|
    ensures log[k].1 in Project(log, log[k].0)
  {
    var n := |log| - 1;
    if k < n {
      InItsFile(log[..n], k);
      assert log[..n][k] == log[k];
    }
  }

  lemma ForgedNeverMatches(s: State)
    requires Forged(s)
    ensures !LogMatches(s)
  {
    var k: nat :| k < |s.log| && IsForged(s.log[k].1);
    var (name, e) := s.log[k];
    InItsFile(s.log, k);
    hide Project, Records;
    assert !EntryAgrees(s, e, e.reviewId.value);
    assert !FileMatches(s, name, e.reviewId.value);
  }

  /** One feed entry: the match is lost exactly when the entry poses as a review. */
  lemma FeedLogged(s: State, s': State, file: string, e: LogEntry)
    requires s'.log == s.log + [(file, e)] && s'.reviews == s.reviews && s'.threads == s.threads
    requires LogMatches(s) && e.verdict == None
    ensures LogMatches(s') <==> !IsForged(e)
    ensures IsForged(e) ==> Forged(s')
  {
    if IsForged(e) {
      assert s'.log[|s.log|] == (file, e);
      ForgedNeverMatches(s');
    } else {
      hide Project, Records, FileOf;
      forall i ensures HasFile(s', i) { assert HasFile(s, i); }
      forall name, i ensures FileMatches(s', name, i) {
        assert FileMatches(s, name, i);
        PlainEntryKeeps(s, s', file, e, name, i);
      }
    }
  }

  lemma PlainEntryKeeps(s: State, s': State, file: string, e: LogEntry, name: string, id: string)
    requires s'.log == s.log + [(file, e)] && s'.reviews == s.reviews && s'.threads == s.threads
    requires FileMatches(s, name, id) && e.verdict == None && !IsForged(e)
    ensures FileMatches(s', name, id)
  {
    FileAppend(s.log, file, e, name, id);
    hide FileOf, Project, Records;
    assert !RecordsReview(e, id);
    assert forall x :: EntryAgrees(s, x, id) ==> EntryAgrees(s', x, id);
  }

  lemma {:induction false} ActivitiesLogged(s: State, items: seq<FeedItem>)
    requires LogMatches(s) || Forged(s)
    ensures LogMatches(Activities(s, items)) <==> LogMatches(s) && forall item <- Filed(items) :: !PosesAsReview(item)
    ensures LogMatches(Activities(s, items)) || Forged(Activities(s, items))
    decreases |items|
  {
    if items != [] {
      var item, s1 := items[0], Activity(s, items[0]);
      ActivityLogged(s, item);
      hide LogMatches, Forged, Activity;
      if Filable(item.thread, item.writable) {
        ActivitiesLogged(s1, items[1..]);
        assert Filed(items) == [item] + Filed(items[1..]);
      }
    }
  }

  lemma ActivityLogged(s: State, item: FeedItem)
    requires LogMatches(s) || Forged(s)
    ensures LogMatches(Activity(s, item)) <==> LogMatches(s) && (Filable(item.thread, item.writable) ==> !PosesAsReview(item))
    ensures LogMatches(Activity(s, item)) || Forged(Activity(s, item))
  {
    var s1 := Activity(s, item);
    if Forged(s) {
      var k :| 0 <= k < |s.log| && IsForged(s.log[k].1);
      assert s1.log[k] == s.log[k];
      ForgedNeverMatches(s);
      ForgedNeverMatches(s1);
    } else if !Filable(item.thread, item.writable) {
      LogUntouched(s, s1, "", Absent);
    } else {
      hide LogMatches, Forged;
      var e := FeedEntry(if item.kind.Some? then item.kind else Some("activity"), item);
      FeedLogged(s, s1, FileOf(item.thread).value, e);
    }
  }

  /** A matching log still matches after a step exactly when the step writes its entries faithfully. */
  lemma LogMatchesStep(t: Tables, s: State, step: Step)
    requires Inv(s) && LogMatches(s)
    ensures LogMatches(Next(t, s, step)) <==> WritesFaithfully(t, s, step)
  {
    hide PostReview, ReviewOutcome, PostCall, Settle, LogMatches, AnswersFaithfully, WritesOwn, Inv;
    match step
    case ReviewStep(header, posted) => PostLogged(t, s, header, posted);
    case DecisionStep(pid, allow, always) => SettleLogged(s, pid, allow, always);
    case RenderFailureStep(pid) => SettleLogged(s, pid, false, false);
    case EventStep(item) => EventLogged(s, item);
    case ActivitiesStep(items) => ActivitiesLogged(s, items);
    case CallStep(posted) => CallLogged(t, s, posted);
    case _ => LogUntouched(s, Next(t, s, step), "", Absent);
  }

  lemma EventLogged(s: State, item: FeedItem)
    requires LogMatches(s)
    ensures LogMatches(PostEvent(s, item)) <==> (Copied(item) ==> !PosesAsReview(item))
  {
    hide LogMatches, Forged, Similarity.Added;
    if Copied(item) {
      FeedLogged(s, PostEvent(s, item), FileOf(item.thread).value, FeedEntry(item.kind, item));
    } else {
      LogUntouched(s, PostEvent(s, item), "", Absent);
    }
  }

  lemma CallLogged(t: Tables, s: State, posted: Posted<ToolCall>)
    requires LogMatches(s)
    ensures LogMatches(PostCall(t, s, posted))
  {
    hide PostCall, LogMatches;
    PostCallShape(t, s, posted);
    LogUntouched(s, PostCall(t, s, posted), "", Absent);
  }

  lemma SettleLogged(s: State, pid: string, allow: bool, always: bool)
    requires Inv(s) && LogMatches(s)
    ensures LogMatches(Settle(s, pid, allow, always)) <==> AnswersFaithfully(s, pid)
  {
    if pid in s.pending {
      SettleShape(s, pid, allow, always);
      var q, s' := s.pending[pid], Settle(s, pid, allow, always);
      hide Settle, LogMatches, Appended, ReviewEntry;
      match q.asker
      case Call(_) => LogUntouched(s, s', "", Absent);
      case Review(id, b) =>
        assert AsksFor(s, pid, id);
        assert s'.threads == s.threads[id := b.thread];
        DecisionLogged(s, s', id, b, VerdictFor(allow), "island");
    }
  }

  lemma FreshPostLogged(s: State, header: Option<string>, b: Body, o: Outcome)
    requires Inv(s) && LogMatches(s)
    ensures
      var (s0, key) := Keyed(s, header);
      var s1 := Claimed(s0, key);
      LogMatches(Judged(s1, s1.idem[key], b, o)) <==> (o.Answers() ==> WritesOwn(s1.idem[key], b))
  {
    var (s0, key) := Keyed(s, header);
    var s1 := Claimed(s0, key);
    var id := s1.idem[key];
    FreshClaim(s, header);
    assert id !in s.reviews;
    JudgedShape(s1, id, b, o);
    hide Judged, Appended, ReviewEntry, LogMatches, VerdictOf, DecidedBy, ToolName, Key, Inv, WritesOwn;
    if o.Answers() {
      DecisionLogged(s, Judged(s1, id, b, o), id, b, VerdictOf(o), DecidedBy(o));
    } else {
      LogUntouched(s, Judged(s1, id, b, o), id, b.thread);
    }
  }

  lemma PostLogged(t: Tables, s: State, header: Option<string>, posted: Posted<Body>)
    requires Inv(s) && LogMatches(s)
    ensures LogMatches(PostReview(t, s, header, posted).0) <==> WritesFaithfully(t, s, ReviewStep(header, posted))
  {
    hide ReviewOutcome, Judged, LogMatches, WritesOwn, Inv;
    if !posted.BadJson? {
      var (s0, key) := Keyed(s, header);
      if key in s0.idem {
        LogUntouched(s, s0, "", Absent);
      } else if posted.Parsed? {
        FreshPostLogged(s, header, posted.value, ReviewOutcome(t, Claimed(s0, key), posted.value));
      } else {
        LogUntouched(s, Claimed(s0, key), "", Absent);
      }
    }
  }

  ghost predicate AllFaithful(t: Tables, s: State, steps: seq<Step>)
    decreases |steps|
  {
    steps == [] ||
    (var front := steps[..|steps| - 1];
     AllFaithful(t, s, front) && WritesFaithfully(t, Run(t, s, front), steps[|steps| - 1]))
  }

  ghost predicate MatchesAfter(t: Tables, s: State, steps: seq<Step>, n: nat)
    requires n <= |steps|
  {
    LogMatches(Run(t, s, steps[..n]))
  }

  /**
   * Along a run the log matches at every point exactly when every step writes faithfully. (At the end
   * alone it can match again after a mismatch: SwappedIdsMatchAgain.)
   */
  lemma {:induction false} LogMatchesRun(t: Tables, s: State, steps: seq<Step>)
    requires Inv(s) && LogMatches(s)
    ensures (forall n: nat :: n <= |steps| ==> MatchesAfter(t, s, steps, n)) <==> AllFaithful(t, s, steps)
    decreases |steps|
  {
    hide Next, Inv, LogMatches, WritesFaithfully;
    if steps == [] {
      assert steps[..0] == [];
    } else {
      var front, step := steps[..|steps| - 1], steps[|steps| - 1];
      LogMatchesRun(t, s, front);
      RunKeeps(t, s, front);
      forall n: nat | n < |steps| ensures MatchesAfter(t, s, steps, n) <==> MatchesAfter(t, s, front, n) {
        assert front[..n] == steps[..n];
      }
      assert front[..|front|] == front && steps[..|steps|] == steps;
      if MatchesAfter(t, s, front, |front|) {
        LogMatchesStep(t, Run(t, s, front), step);
      }
      assert MatchesAfter(t, s, steps, |steps|) <==> LogMatches(Next(t, Run(t, s, front), step));
      if AllFaithful(t, s, front) {
        assert MatchesAfter(t, s, front, |front|);
      } else {
        var n: nat :| n <= |front| && !MatchesAfter(t, s, front, n);
        assert !MatchesAfter(t, s, steps, n);
      }
    }
  }

  // ----- two wrong entries that make a right log -----

  const NO_TABLES := Tables([], [], [])
  const EMPTY_GATE := Boot(map[], false, [], [])

  /** A harmless prompt whose body names another review. */
  function Naming(other: string): Body {
    Body(Absent, Absent, "prompt", Some("codex"), "", Some(""), Plain(""), None, Some(other), true)
  }

  function SwappedSteps(): seq<Step> {
    [ReviewStep(Some("a"), Parsed(Naming(ReviewId(2)))), ReviewStep(Some("b"), Parsed(Naming(ReviewId(1))))]
  }

  function CleanEntry(id: string): (string, LogEntry) {
    (Safe(""), LogEntry(Some("review"), Some(id), Some(Allow), "clean"))
  }

  lemma HarmlessPost(s: State, key: string, other: string)
    requires s.rubbish == [] && s.blocked == [] && !s.askAll && key !in s.idem
    ensures
      var s', id := PostReview(NO_TABLES, s, Some(key), Parsed(Naming(other))).0, ReviewId(s.counter + 1);
      && s'.rubbish == [] && s'.blocked == [] && !s'.askAll && s'.counter == s.counter + 1
      && s'.idem == s.idem[key := id] && s'.threads == s.threads[id := Absent]
      && s'.reviews == s.reviews[id := Decided(Allow)]
      && s'.log == s.log + [CleanEntry(other)]
  {
    hide ReviewOutcome, ReviewId, Judged, Appended, ReviewEntry, Naming, CleanEntry;
    var s1, b := Claimed(s, key), Naming(other);
    HarmlessOutcome(s1, other);
    DecidedShape(s1, s1.idem[key], b, Clean);
    JudgedBlocked(s1, s1.idem[key], b, Clean);
    HarmlessEntry(s1.log, s1.idem[key], other);
  }

  lemma HarmlessOutcome(s: State, other: string)
    requires s.rubbish == [] && s.blocked == [] && !s.askAll
    ensures ReviewOutcome(NO_TABLES, s, Naming(other)) == Clean
  {
  }

  lemma HarmlessEntry(log: seq<(string, LogEntry)>, id: string, other: string)
    ensures Naming(other).thread == Absent
    ensures Appended(log, Naming(other).thread, Naming(other).writable, ReviewEntry(id, Naming(other), Allow, "clean")) == log + [CleanEntry(other)]
  {
  }

  lemma RunOfTwo(t: Tables, s: State, a: Step, b: Step)
    ensures Run(t, s, [a, b][..1]) == Next(t, s, a)
    ensures Run(t, s, [a, b][..2]) == Next(t, Next(t, s, a), b)
  {
    hide Next;
    assert [a, b][..1] == [a] && [a, b][..2] == [a, b];
    assert [a][..0] == [] && [a, b][..1] == [a];
    assert Run(t, s, [a]) == Next(t, Run(t, s, []), a);
  }

  /** Two reviews that name each other: the log is wrong after the first post and right after the second. */
  lemma SwappedIdsMatchAgain()
    ensures !MatchesAfter(NO_TABLES, EMPTY_GATE, SwappedSteps(), 1)
    ensures MatchesAfter(NO_TABLES, EMPTY_GATE, SwappedSteps(), 2)
  {
    var s1 := PostReview(NO_TABLES, EMPTY_GATE, Some("a"), Parsed(Naming(ReviewId(2)))).0;
    var s2 := PostReview(NO_TABLES, s1, Some("b"), Parsed(Naming(ReviewId(1)))).0;
    RunOfTwo(NO_TABLES, EMPTY_GATE, SwappedSteps()[0], SwappedSteps()[1]);
    hide PostReview, Run, LogMatches, ReviewId;
    assert EMPTY_GATE.idem == map[] && EMPTY_GATE.log == [] && EMPTY_GATE.reviews == map[] && EMPTY_GATE.threads == map[];
    TwoIds();
    SwappedPosts(EMPTY_GATE, s1, s2, ReviewId(1), ReviewId(2));
  }

  lemma TwoIds()
    ensures ReviewId(1) != ReviewId(2) && "a" != "b"
  {
    ReviewIdFresh(1, 2);
    assert ReviewIdUpTo(ReviewId(1), 1);
  }

  lemma SwappedPosts(s0: State, s1: State, s2: State, a: string, b: string)
    requires s0.counter == 0 && s0.idem == map[] && s0.reviews == map[] && s0.threads == map[] && s0.log == []
    requires s0.rubbish == [] && s0.blocked == [] && !s0.askAll
    requires a == ReviewId(1) && b == ReviewId(2) && a != b && "a" != "b"
    requires s1 == PostReview(NO_TABLES, s0, Some("a"), Parsed(Naming(b))).0
    requires s2 == PostReview(NO_TABLES, s1, Some("b"), Parsed(Naming(a))).0
    ensures !LogMatches(s1) && LogMatches(s2)
  {
    hide *;
    HarmlessPost(s0, "a", b);
    HarmlessPost(s1, "b", a);
    FirstIsWrong(s1, a, b);
    BothAreRight(s2, a, b);
  }

  lemma FirstIsWrong(s: State, a: string, b: string)
    requires a != b && s.log == [] + [CleanEntry(b)] && s.reviews == map[][a := Decided(Allow)]
    ensures !LogMatches(s)
  {
    InItsFile(s.log, 0);
    hide Project, Records, FileOf, Safe;
    var e := CleanEntry(b).1;
    assert s.log[0] == CleanEntry(b);
    assert !EntryAgrees(s, e, b);
    assert !FileMatches(s, CleanEntry(b).0, b);
  }

  lemma TwoEntries(file: string, e1: LogEntry, e2: LogEntry, name: string, id: string)
    ensures
      var entries := Project([(file, e1), (file, e2)], name);
      && entries == (if name == file then [e1, e2] else [])
      && Records(entries, id) ==
           (if name == file && RecordsReview(e1, id) then 1 else 0) + if name == file && RecordsReview(e2, id) then 1 else 0
  {
    var log := [(file, e1), (file, e2)];
    assert [] + [(file, e1)] == [(file, e1)] && [(file, e1)] + [(file, e2)] == log;
    ProjectAppend([], file, e1, name);
    ProjectAppend([(file, e1)], file, e2, name);
    assert [] + [e1] == [e1] && [e1] + [e2] == [e1, e2];
    RecordsAppend([], e1, id);
    RecordsAppend([e1], e2, id);
  }

  lemma BothAreRight(s: State, a: string, b: string)
    requires a != b && s.log == [] + [CleanEntry(b)] + [CleanEntry(a)]
    requires s.reviews == map[][a := Decided(Allow)][b := Decided(Allow)] && s.threads == map[][a := Absent][b := Absent]
    ensures LogMatches(s)
  {
    hide CleanEntry, Project, Records, FileOf, Safe, EntryAgrees;
    assert s.log == [CleanEntry(b), CleanEntry(a)];
    forall name, id ensures FileMatches(s, name, id) { BothInFile(s, a, b, name, id); }
    forall id ensures HasFile(s, id) { BothHaveFiles(s, a, b, id); }
  }

  lemma BothHaveFiles(s: State, a: string, b: string, id: string)
    requires s.reviews.Keys == {a, b} && s.threads == map[][a := Absent][b := Absent]
    ensures HasFile(s, id)
  {
  }

  lemma EntryFacts(x: string, id: string)
    ensures RecordsReview(CleanEntry(x).1, id) <==> id == x
    ensures CleanEntry(x) == (Safe(""), CleanEntry(x).1) && CleanEntry(x).1.verdict == Some(Allow)
  {
    hide Safe;
  }

  lemma BothDecided(s: State, a: string, b: string, name: string, id: string)
    requires s.reviews == map[][a := Decided(Allow)][b := Decided(Allow)] && s.threads == map[][a := Absent][b := Absent]
    ensures DecidedIn(s, id, name) <==> name == Safe("") && (id == a || id == b)
    ensures EntryAgrees(s, CleanEntry(a).1, id) && EntryAgrees(s, CleanEntry(b).1, id)
  {
    assert FileOf(Absent) == Some(Safe(""));
    hide FileOf, Safe, CleanEntry, RecordsReview;
    EntryFacts(a, id);
    EntryFacts(b, id);
  }

  lemma BothInFile(s: State, a: string, b: string, name: string, id: string)
    requires a != b && s.log == [CleanEntry(b), CleanEntry(a)]
    requires s.reviews == map[][a := Decided(Allow)][b := Decided(Allow)] && s.threads == map[][a := Absent][b := Absent]
    ensures FileMatches(s, name, id)
  {
    hide Project, Records, FileOf, Safe, CleanEntry, RecordsReview, DecidedIn, EntryAgrees;
    EntryFacts(a, id);
    EntryFacts(b, id);
    BothDecided(s, a, b, name, id);
    TwoEntries(Safe(""), CleanEntry(b).1, CleanEntry(a).1, name, id);
  }

  // ----- the firehose -----

  function EventsOf(events: seq<Event>, kind: string): nat {
    if events == [] then 0
    else EventsOf(events[..|events| - 1], kind) + if events[|events| - 1].kind == Some(kind) then 1 else 0
  }

  lemma EventsAppend(events: seq<Event>, e: Event, kind: string)
    ensures EventsOf(events + [e], kind) == EventsOf(events, kind) + if e.kind == Some(kind) then 1 else 0
  {
    assert (events + [e])[..|events + [e]| - 1] == events;
  }

  /** How many more events of the kind there are than reviews known to the gate, or tool calls it has read. */
  ghost function Surplus(s: State, kind: string): int {
    EventsOf(s.events, kind) - if kind == "review" then |s.reviews| else s.read
  }

  function ItemsOf(items: seq<FeedItem>, kind: string): nat {
    if items == [] then 0 else (if items[0].kind == Some(kind) then 1 else 0) + ItemsOf(items[1..], kind)
  }

  /** A fresh post that announces its review and then fails before entering it. */
  ghost predicate AnnouncesThenFails(t: Tables, s: State, step: Step) {
    ClaimsThenFails(t, s, step) && step.review.Parsed? && SkipList(t, step.review.value).None?
  }

  /** What a step adds to the surplus: feed items that claim the kind, and a post that fails too late. */
  ghost function Extra(t: Tables, s: State, step: Step, kind: string): nat {
    match step
    case ReviewStep(_, _) => if kind == "review" && AnnouncesThenFails(t, s, step) then 1 else 0
    case EventStep(item) => if item.kind == Some(kind) then 1 else 0
    case ActivitiesStep(items) => ItemsOf(Announced(items), kind)
    case _ => 0
  }

  lemma {:induction false} ActivitiesEvents(s: State, items: seq<FeedItem>, kind: string)
    requires kind != "activity"
    ensures EventsOf(Activities(s, items).events, kind) == EventsOf(s.events, kind) + ItemsOf(Announced(items), kind)
    decreases |items|
  {
    if items != [] {
      var s1 := Activity(s, items[0]);
      EventsAppend(s.events, s1.events[|s.events|], kind);
      assert s1.events == s.events + [s1.events[|s.events|]];
      hide Activity, EventsOf;
      if Filable(items[0].thread, items[0].writable) {
        ActivitiesEvents(s1, items[1..], kind);
        assert Announced(items)[1..] == Announced(items[1..]);
      } else {
        assert Announced(items)[1..] == [];
      }
    }
  }

  /** The events of a fresh post: one, with that post's tool and hits, unless it fails on the skip list. */
  lemma FreshPostAnnounces(t: Tables, s: State, header: Option<string>, b: Body)
    requires Keyed(s, header).1 !in Keyed(s, header).0.idem
    ensures
      var s1 := Claimed(Keyed(s, header).0, Keyed(s, header).1);
      PostReview(t, s, header, Parsed(b)).0.events == s.events +
        match SkipList(t, b)
        case None => [Event(Some("review"), b.tool, ReviewHits(t, s1, b))]
        case Some(Skipped(_, _, hits)) => [Event(Some("review"), b.tool, hits)]
        case Some(_) => []
  {
    hide ReviewHits, SkipList, Judged, PostReply;
    var (s0, key) := Keyed(s, header);
    var s1 := Claimed(s0, key);
    JudgedEvents(s1, s1.idem[key], b, ReviewOutcome(t, s1, b));
    SkipOrStop(t, b);
    OutcomeHits(t, s1, b);
    hide ReviewOutcome, HitsOf;
  }

  lemma OutcomeHits(t: Tables, s: State, b: Body)
    ensures SkipList(t, b).None? ==>
      ReviewOutcome(t, s, b) != Stopped(None) && HitsOf(ReviewOutcome(t, s, b)) == ReviewHits(t, s, b)
    ensures SkipList(t, b).Some? ==> ReviewOutcome(t, s, b) == SkipList(t, b).value
  {
    hide ReviewHits, SkipList;
  }

  lemma SkipOrStop(t: Tables, b: Body)
    ensures SkipList(t, b).Some? ==> SkipList(t, b).value.Skipped? || SkipList(t, b).value == Stopped(None)
  {
    hide FirstMatch, TrimNoise;
  }

  lemma JudgedEvents(s: State, id: string, b: Body, o: Outcome)
    ensures Judged(s, id, b, o).events ==
      if o == Stopped(None) then s.events else s.events + [Event(Some("review"), b.tool, HitsOf(o))]
  {
    hide ReviewEntry, Appended, Seeded, HitsOf, VerdictOf, DecidedBy;
  }

  lemma CallJudgedEvents(s: State, c: ToolCall, o: Outcome)
    requires o != Stopped(None)
    ensures CallJudged(s, c, o).events == s.events + [Event(Some("toolcall"), c.tool, HitsOf(o))]
  {
    hide Seeded, HitsOf;
  }

  lemma CallsAnnounce(t: Tables, s: State, c: ToolCall)
    ensures CallOutcome(t, s, c) != Stopped(None)
  {
    hide CallEventHits, CallHits, FirstMatch;
  }

  lemma CallFirehose(t: Tables, s: State, posted: Posted<ToolCall>, kind: string)
    requires kind == "review" || kind == "toolcall"
    ensures Surplus(PostCall(t, s, posted), kind) == Surplus(s, kind)
  {
    if posted.Parsed? {
      var c, o := posted.value, CallOutcome(t, s, posted.value);
      CallJudgedShape(s, c, o);
      CallsAnnounce(t, s, c);
      CallJudgedEvents(s, c, o);
      hide CallOutcome, CallJudged, HitsOf;
      EventsAppend(s.events, Event(Some("toolcall"), c.tool, HitsOf(o)), kind);
    }
  }

  lemma SettleFirehose(s: State, pid: string, allow: bool, always: bool, kind: string)
    requires Inv(s)
    ensures Surplus(Settle(s, pid, allow, always), kind) == Surplus(s, kind)
  {
    SettleKeepsThreads(s, pid, allow, always);
    if pid in s.pending {
      SettleShape(s, pid, allow, always);
      hide Settle, Inv;
      assert |Settle(s, pid, allow, always).reviews.Keys| == |s.reviews.Keys|;
    }
  }

  lemma OneMore<V>(m: map<string, V>, key: string, value: V)
    requires key !in m
    ensures |m[key := value]| == |m| + 1
  {
    assert m[key := value].Keys == m.Keys + {key};
  }

  lemma FreshPostFirehose(s: State, header: Option<string>, b: Body, o: Outcome, kind: string)
    requires Inv(s) && (kind == "review" || kind == "toolcall")
    ensures
      var (s0, key) := Keyed(s, header);
      var s1 := Claimed(s0, key);
      Surplus(Judged(s1, s1.idem[key], b, o), kind) ==
        Surplus(s, kind) + if kind == "review" && o.Stopped? && o.logged.Some? then 1 else 0
  {
    var (s0, key) := Keyed(s, header);
    var s1 := Claimed(s0, key);
    var id := s1.idem[key];
    FreshClaim(s, header);
    assert id !in s.reviews;
    JudgedShape(s1, id, b, o);
    JudgedEvents(s1, id, b, o);
    hide Judged, HitsOf, Inv, ReviewIdUpTo, QuestionIdUpTo, Appended, ReviewEntry, VerdictOf, ToolName, Key;
    EventsAppend(s.events, Event(Some("review"), b.tool, HitsOf(o)), kind);
    if !o.Stopped? {
      OneMore(s.reviews, id, if o.Ask? then Waiting else Decided(VerdictOf(o)));
    }
  }

  lemma PostFirehose(t: Tables, s: State, header: Option<string>, posted: Posted<Body>, kind: string)
    requires Inv(s) && (kind == "review" || kind == "toolcall")
    ensures Surplus(PostReview(t, s, header, posted).0, kind) ==
      Surplus(s, kind) + Extra(t, s, ReviewStep(header, posted), kind)
  {
    if !posted.BadJson? {
      var (s0, key) := Keyed(s, header);
      if key !in s0.idem && posted.Parsed? {
        var s1, b := Claimed(s0, key), posted.value;
        StopsExactly(t, s1, b);
        StopsAnnounced(t, s1, b);
        hide ReviewOutcome, Judged, Inv, Stops, SkipList, Surplus;
        FreshPostFirehose(s, header, b, ReviewOutcome(t, s1, b), kind);
      }
    }
  }

  lemma StopsAnnounced(t: Tables, s: State, b: Body)
    ensures ReviewOutcome(t, s, b).Stopped? ==>
      (ReviewOutcome(t, s, b).logged.Some? <==> SkipList(t, b).None?)
  {
    SkipOrStop(t, b);
    hide SkipList, ReviewHits;
  }

  /** One step adds to the surplus of events exactly what posing items and late failures make of it. */
  lemma FirehoseStep(t: Tables, s: State, step: Step, kind: string)
    requires Inv(s) && (kind == "review" || kind == "toolcall")
    ensures Surplus(Next(t, s, step), kind) == Surplus(s, kind) + Extra(t, s, step, kind)
  {
    hide PostReview, PostCall, Settle, Inv, AnnouncesThenFails;
    match step
    case ReviewStep(header, posted) => PostFirehose(t, s, header, posted, kind);
    case CallStep(posted) => CallFirehose(t, s, posted, kind);
    case DecisionStep(pid, allow, always) => SettleFirehose(s, pid, allow, always, kind);
    case RenderFailureStep(pid) => SettleFirehose(s, pid, false, false, kind);
    case EventStep(item) => EventsAppend(s.events, Event(item.kind, None, []), kind);
    case ActivitiesStep(items) =>
      ActivitiesOnlyLog(s, items);
      ActivitiesEvents(s, items, kind);
    case _ =>
  }

  /** No step of the run adds to the surplus. */
  ghost predicate NoExtra(t: Tables, s: State, steps: seq<Step>, kind: string)
    decreases |steps|
  {
    steps == [] ||
    (var front := steps[..|steps| - 1];
     NoExtra(t, s, front, kind) && Extra(t, Run(t, s, front), steps[|steps| - 1], kind) == 0)
  }

  /**
   * In every run from boot there is at least one event for each review and each tool call read, and
   * exactly one exactly when no step of the run posed as the gate or failed after announcing a review.
   */
  lemma {:induction false} FirehoseRun(t: Tables, saved: map<string, string>, askAll: bool, rubbish: seq<string>,
                                       blocked: seq<string>, steps: seq<Step>, kind: string)
    requires kind == "review" || kind == "toolcall"
    ensures
      var s0 := Boot(saved, askAll, rubbish, blocked);
      && Surplus(Run(t, s0, steps), kind) >= 0
      && (Surplus(Run(t, s0, steps), kind) == 0 <==> NoExtra(t, s0, steps, kind))
    decreases |steps|
  {
    var s0 := Boot(saved, askAll, rubbish, blocked);
    assert Inv(s0);
    assert Surplus(s0, kind) == 0;
    hide Boot, Next, Inv, Surplus, Extra;
    if steps != [] {
      var front := steps[..|steps| - 1];
      FirehoseRun(t, saved, askAll, rubbish, blocked, front, kind);
      RunKeeps(t, s0, front);
      FirehoseStep(t, Run(t, s0, front), steps[|steps| - 1], kind);
    }
  }
}
