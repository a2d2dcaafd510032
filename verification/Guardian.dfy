/** The gate as it runs: one object whose handlers update its maps, its two indexes and the thread files in place. */
module Guardian {
  import opened Text
  import opened Noise
  import opened SessionStore
  import opened Gate
  import GateLog
  import Similarity

  class Guardian {
    const t: Tables
    const rubbish: Similarity.RubbishStore
    const blocked: Similarity.RubbishStore
    const sessions: Store<LogEntry>
    var counter: nat
    var pending: map<string, Question>
    var reviews: map<string, Status>
    var idem: map<string, string>
    var turnGrants: map<string, bool>
    var savedRules: map<string, string>
    var askAll: bool
    var events: seq<Event>
    var calls: nat
    var ended: seq<(nat, ToolReply)>
    ghost var read: nat
    ghost var threads: map<string, Field>
    ghost var answers: seq<Answer>

    ghost predicate Valid()
      reads this, rubbish, blocked, sessions
    {
      rubbish != blocked && rubbish.Valid() && blocked.Valid() && sessions.Valid()
    }

    ghost function View(): State
      reads this, rubbish, blocked, sessions
    {
      State(counter, pending, reviews, idem, turnGrants, savedRules, askAll, rubbish.Texts(), blocked.Texts(),
            events, sessions.history, calls, read, ended, threads, answers)
    }

    constructor (t: Tables, saved: map<string, string>, askAll: bool,
                 rubbish: Similarity.RubbishStore, blocked: Similarity.RubbishStore, sessions: Store<LogEntry>)
      requires rubbish != blocked && rubbish.Valid() && blocked.Valid()
      requires sessions.Valid() && sessions.history == []
      ensures Valid() && this.t == t && this.rubbish == rubbish && this.blocked == blocked && this.sessions == sessions
      ensures View() == Boot(saved, askAll, rubbish.Texts(), blocked.Texts())
    {
      this.t, this.rubbish, this.blocked, this.sessions := t, rubbish, blocked, sessions;
      counter, calls, read := 0, 0, 0;
      pending, reviews, idem, turnGrants := map[], map[], map[], map[];
      savedRules, this.askAll := saved, askAll;
      events, ended, threads, answers := [], [], map[], [];
    }

    method RespondReview(id: string) returns (reply: Reply)
      ensures reply == Respond(View(), id)
    {
      if id !in reviews { return Unknown; }
      match reviews[id]
      case Waiting => reply := Pending(id);
      case Decided(verdict) => reply := Verdicted(id, verdict);
    }

    /** The reasons to challenge a text: rules, then the two indexes, then ask-all. */
    method Challenge(scanned: seq<string>, text: string, threshold: real) returns (hits: seq<string>)
      requires Valid()
      ensures hits == Challenges(View(), scanned, text, threshold)
    {
      hits := scanned;
      var junk := rubbish.Match(text, threshold);
      if junk.Some? { hits := hits + [RUBBISH_SIMILAR]; }
      var past := blocked.Match(text, Similarity.THRESHOLD);
      if past.Some? { hits := hits + [SIMILAR_TO_BLOCKED]; }
      if |hits| == 0 && askAll { hits := [ASK_ALL]; }
      hide Similarity.Hits;
      assert scanned + [] == scanned;
    }

    method JudgeReview(b: Body) returns (o: Outcome)
      requires Valid()
      ensures o == ReviewOutcome(t, View(), b)
    {
      hide SkipList, Similarity.Hits;
      var skip := SkipList(t, b);
      if skip.Some? { return skip.value; }
      var hits := Challenge(if b.kind == "tool_output" then [] else Scan(t.rules, b.text), b.text,
                            Similarity.STRICT_THRESHOLD);
      if |hits| == 0 { return Clean; }
      if b.tool.None? { return Stopped(Some(hits)); }
      var saved := SavedRule(savedRules, Key(b.tool.value, hits));
      if saved.Some? { return ByRule(saved.value, hits); }
      if b.turn.Unprintable? { return Stopped(Some(hits)); }
      var turn := TurnOf(b.turn);
      if TurnGrantable(turn, hits) && Key(turn.value, hits) in turnGrants {
        return ByTurn(turnGrants[Key(turn.value, hits)], hits);
      }
      o := Ask(hits);
    }

    method HandleReviewPost(header: Option<string>, posted: Posted<Body>) returns (reply: Reply)
      requires Valid()
      modifies this, blocked, sessions
      ensures Valid() && (View(), reply) == PostReview(t, old(View()), header, posted)
    {
      hide ReviewOutcome, Judged, ReviewId, NoKey;
      if posted.BadJson? { return BadRequest; }
      var key;
      match header {
        case Some(k) => key := k;
        case None =>
          counter := counter + 1;
          key := NoKey(counter);
      }
      if key in idem {
        reply := RespondReview(idem[key]);
        return;
      }
      counter := counter + 1;
      var id := ReviewId(counter);
      idem := idem[key := id];
      if posted.Unreadable? { return NoReply; }
      ghost var claimed := View();
      assert claimed == Claimed(Keyed(old(View()), header).0, key);
      var answered := JudgePosted(id, posted.value);
      if !answered { return NoReply; }
      reply := RespondReview(id);
    }

    /** False when an exception ends the handler on the way. */
    method JudgePosted(id: string, b: Body) returns (answered: bool)
      requires Valid()
      modifies this, blocked, sessions
      ensures
        var o := ReviewOutcome(t, old(View()), b);
        && Valid() && View() == Judged(old(View()), id, b, o)
        && answered == !(o.Stopped? || (o.Answers() && !Filable(b.thread, b.writable)))
    {
      var o := JudgeReview(b);
      hide ReviewOutcome, Concluded, Seeded, HitsOf;
      if o != Stopped(None) {
        LogAndSeed("review", b.tool, o, b.text);
      }
      assert View() == Noted(old(View()), "review", b.tool, o, b.text);
      answered := Conclude(id, b, o);
    }

    method Conclude(id: string, b: Body, o: Outcome) returns (answered: bool)
      requires Valid()
      modifies this, sessions
      ensures Valid() && View() == Concluded(old(View()), id, b, o)
      ensures answered == !(o.Stopped? || (o.Answers() && !Filable(b.thread, b.writable)))
    {
      hide ReviewEntry, Filable, ToolName, Key, VerdictOf, DecidedBy;
      if o.Stopped? { return false; }
      threads := threads[id := b.thread];
      if o.Ask? {
        reviews := reviews[id := Waiting];
        counter := counter + 1;
        pending := pending[Decimal(counter) :=
          Question(Review(id, b), ToolName(b), o.hits, Key(ToolName(b), o.hits), b.text)];
        answered := true;
      } else {
        reviews := reviews[id := Decided(VerdictOf(o))];
        answered := AppendEntry(b.thread, b.writable, ReviewEntry(id, b, VerdictOf(o), DecidedBy(o)));
      }
    }

    /** sessions.append: false when the thread has no text, or the entry no JSON, and the append throws. */
    method AppendEntry(thread: Field, writable: bool, entry: LogEntry) returns (written: bool)
      requires Valid()
      modifies sessions
      ensures Valid() && View() == old(View()).(log := Appended(old(View()).log, thread, writable, entry))
      ensures written <==> Filable(thread, writable)
    {
      if thread.Unprintable? || !writable { return false; }
      sessions.Append(if thread.Shown? then thread.text else "", entry);
      written := true;
    }

    /**
     * What a reader of one thread gets: while the log matches, exactly one entry for each review
     * decided in that thread, with its verdict, and none for any other.
     */
    method ReadThread(threadId: string) returns (entries: Option<seq<LogEntry>>)
      requires Valid()
      ensures
        var read := if entries.Some? then entries.value else [];
        && read == Project(View().log, Safe(threadId))
        && (GateLog.LogMatches(View()) ==> forall id :: GateLog.ReadsAs(View(), read, Safe(threadId), id))
    {
      entries := sessions.Read(threadId);
      if GateLog.LogMatches(View()) {
        hide Project, GateLog.Records, GateLog.EntryAgrees;
        forall id ensures GateLog.ReadsAs(View(), Project(View().log, Safe(threadId)), Safe(threadId), id) {
          assert GateLog.FileMatches(View(), Safe(threadId), id);
        }
      }
    }

    /** The firehose entry; a rule denial also keeps seeding the blocked index. */
    method LogAndSeed(kind: string, tool: Option<string>, o: Outcome, text: string)
      requires Valid() && o != Stopped(None)
      modifies this`events, blocked
      ensures Valid()
      ensures View() == Noted(old(View()), kind, tool, o, text)
    {
      events := events + [Event(Some(kind), tool, HitsOf(o))];
      if o.ByRule? && o.saved == "deny" {
        var _ := blocked.AddText(text);
      }
    }

    method JudgeCall(c: ToolCall) returns (o: Outcome)
      requires Valid()
      ensures o == CallOutcome(t, View(), c) && o != Stopped(None)
    {
      hide Similarity.Hits;
      var garbage := FirstMatch(t.garbage, CallText(c));
      if garbage.Some? {
        if !c.writable { return Stopped(Some(["garbage:" + garbage.value])); }
        return Skipped(Deny("skipped: " + garbage.value), "garbage", ["garbage:" + garbage.value]);
      }
      var hits := Challenge(Scan(t.rules, CallText(c)), CallText(c), Similarity.THRESHOLD);
      if !c.writable { return Stopped(Some(hits)); }
      if |hits| == 0 { return Clean; }
      var saved := SavedRule(savedRules, Key(CallTool(c), hits));
      o := if saved.Some? then ByRule(saved.value, hits) else Ask(hits);
    }

    method HandleToolcall(posted: Posted<ToolCall>)
      requires Valid()
      modifies this, blocked
      ensures Valid() && View() == PostCall(t, old(View()), posted)
    {
      hide CallOutcome, CallJudged;
      match posted {
        case BadJson =>
          ended := ended + [(calls, InvalidJson)];
          calls := calls + 1;
        case Unreadable =>
          calls := calls + 1;
        case Parsed(c) =>
          JudgePostedCall(c);
      }
    }

    method JudgePostedCall(c: ToolCall)
      requires Valid()
      modifies this, blocked
      ensures Valid() && View() == CallJudged(old(View()), c, CallOutcome(t, old(View()), c))
    {
      var o := JudgeCall(c);
      hide CallOutcome, CallConcluded, CallText, Noted;
      LogAndSeed("toolcall", c.tool, o, CallText(c));
      ConcludeCall(c, o);
    }

    method ConcludeCall(c: ToolCall, o: Outcome)
      modifies this
      ensures rubbish.entries == old(rubbish.entries) && blocked.entries == old(blocked.entries)
      ensures View() == CallConcluded(old(View()), c, o)
    {
      hide CallText, CallTool, Key, VerdictOf, DecidedBy;
      var call := calls;
      calls, read := calls + 1, read + 1;
      if o.Stopped? { return; }
      if o.Ask? {
        counter := counter + 1;
        pending := pending[Decimal(counter) :=
          Question(Call(call), CallTool(c), o.hits, Key(CallTool(c), o.hits), CallText(c))];
      } else {
        ended := ended + [(call, ToolReply(VerdictOf(o) == Allow, DecidedBy(o)))];
      }
    }

    /** settle: the answer to question `pid`, or nothing when it is no longer open. */
    method SettleQuestion(pid: string, allow: bool, always: bool)
      requires Valid()
      modifies this, blocked, sessions
      ensures Valid() && View() == Settle(old(View()), pid, allow, always)
    {
      if pid !in pending { return; }
      var q := pending[pid];
      RecordAnswer(pid, q, allow, always);
      hide Gate.Answered;
      DeliverAnswer(q, allow);
    }

    method RecordAnswer(pid: string, q: Question, allow: bool, always: bool)
      requires Valid()
      modifies this, blocked
      ensures Valid() && View() == Gate.Answered(old(View()), pid, q, allow, always)
    {
      hide AnswerTo;
      pending := pending - {pid};
      if always {
        savedRules := savedRules[q.key := if allow then "allow" else "deny"];
      }
      if !allow && q.text != "" {
        var _ := blocked.AddText(q.text);
      }
      answers := answers + [AnswerTo(q, allow, always)];
    }

    method DeliverAnswer(q: Question, allow: bool)
      requires Valid()
      modifies this, sessions
      ensures Valid() && View() == Deliver(old(View()), q, allow)
    {
      match q.asker {
        case Call(call) =>
          ended := ended + [(call, ToolReply(allow, if allow then "user-approved" else "user-denied"))];
        case Review(id, b) =>
          hide ReviewEntry, Key;
          reviews := reviews[id := Decided(VerdictFor(allow))];
          var turn := TurnOf(b.turn);
          if TurnGrantable(turn, q.hits) {
            turnGrants := turnGrants[Key(turn.value, q.hits) := allow];
          }
          var _ := AppendEntry(b.thread, b.writable, ReviewEntry(id, b, VerdictFor(allow), "island"));
      }
    }

    /** Items are announced and filed in order, up to one that cannot be filed. */
    method HandleActivities(items: seq<FeedItem>)
      requires Valid()
      modifies this, sessions
      ensures Valid() && View() == Activities(old(View()), items)
    {
      for i := 0 to |items|
        invariant Valid()
        invariant Activities(View(), items[i..]) == Activities(old(View()), items)
      {
        var item := items[i];
        var kind := if item.kind.Some? then item.kind else Some("activity");
        assert items[i..][0] == item && items[i..][1..] == items[i + 1..];
        ghost var before := View();
        events := events + [Event(kind, None, [])];
        var written := AppendEntry(item.thread, item.writable, FeedEntry(kind, item));
        assert View() == Activity(before, item);
        if !written { return; }
      }
    }

    method HandleEvent(item: FeedItem)
      requires Valid()
      modifies this, blocked, sessions
      ensures Valid() && View() == PostEvent(old(View()), item)
    {
      events := events + [Event(item.kind, None, [])];
      if !item.writable { return; }
      if item.blocked {
        if item.text.None? { return; }
        var _ := blocked.AddText(item.text.value);
      }
      if !item.thread.Absent? && (item.thread.Unprintable? || item.thread.truthy) {
        var _ := AppendEntry(item.thread, item.writable, FeedEntry(item.kind, item));
      }
    }
  }
}
