/**
 * The guardian gate (desktop/main.js): what every request, answer and feed item does to the shared
 * maps. One function per handler; a handler body runs without interruption, so a run of the gate is
 * a sequence of these steps.
 */
module Gate {
  import opened Text
  import opened Noise
  import opened Similarity
  import opened SessionStore

  const ASK_ALL := "ask-all"
  const RUBBISH_SIMILAR := "rubbish-similar"
  const SIMILAR_TO_BLOCKED := "similar-to-blocked"
  const RULE_LABELS := ["destructive shell", "pipe-to-shell", "credential access", "prompt injection",
                        "exfiltration", "obfuscation"]

  /** The three pattern tables. */
  datatype Tables = Tables(rules: seq<Rule>, garbage: seq<Rule>, noise: seq<Rule>) {
    ghost predicate Ok() {
      && |rules| == |RULE_LABELS|
      && forall i :: 0 <= i < |rules| ==> rules[i].name == RULE_LABELS[i]
    }
  }

  /** The labels of all rules `text` trips, in table order. */
  function Scan(rules: seq<Rule>, text: string): seq<string> {
    if rules == [] then []
    else (if rules[0].fires(text) then [rules[0].name] else []) + Scan(rules[1..], text)
  }

  datatype Verdict = Allow | Deny(reason: string) | Rewrite(payload: string, note: string)
  datatype Status = Waiting | Decided(verdict: Verdict)

  /**
   * A value of a request where the code wants a string: absent, a value with its text, or an object
   * that has no text, because its own toString and valueOf hide the inherited ones; asking that one
   * for its text throws.
   */
  datatype Field = Absent | Shown(text: string, truthy: bool) | Unprintable

  /**
   * A review body: `kind` is action.action, `tool` the text of the defaulted tool name, `text` the
   * JSON of the action, `command` the line a flash would show, `turn` and `thread` the two ids.
   * `kindField` and `idField` are the body's own top-level "kind" and "review_id", which the log entry
   * copies over its own: strings as they are, any other value, null included, by its JSON. None for
   * `tool` or `command` is a value without a text. `writable` is false when something in the body is
   * nested too deep to be written as JSON again.
   */
  datatype Body = Body(thread: Field, turn: Field, kind: string, tool: Option<string>, text: string,
                       command: Option<string>, response: ToolResponse,
                       kindField: Option<string>, idField: Option<string>, writable: bool)

  /** A tool call; `writable` is false when its tool is nested too deep to be written as JSON again. */
  datatype ToolCall = ToolCall(tool: Option<string>, args: string, writable: bool)

  /**
   * A request body: no JSON, JSON whose first reading throws (null; an action, or the arguments of a
   * call, nested too deep to be written again; a tool of a call that has no text), or one that is read.
   */
  datatype Posted<+T> = BadJson | Unreadable | Parsed(value: T)

  /**
   * An item of a feed: `kind` and `reviewId` as for a body, `text` the text a blocked item is remembered
   * by, None where it has none, and `writable` as for a body.
   */
  datatype FeedItem = FeedItem(kind: Option<string>, reviewId: Option<string>, thread: Field,
                               blocked: bool, text: Option<string>, writable: bool)

  datatype Asker = Call(call: nat) | Review(id: string, body: Body)

  /** A question on the island: who waits for the answer, and what it is about. */
  datatype Question = Question(asker: Asker, tool: string, hits: seq<string>, key: string, text: string)

  /** An answer the gate acted on: given on the island, or the denial standing in for a failed render. */
  datatype Answer = Answer(tool: string, turn: Option<string>, hits: seq<string>, allow: bool, always: bool)

  datatype Event = Event(kind: Option<string>, tool: Option<string>, hits: seq<string>)
  datatype LogEntry = LogEntry(kind: Option<string>, reviewId: Option<string>,
                               verdict: Option<Verdict>, decidedBy: string)
  datatype ToolReply = InvalidJson | ToolReply(allow: bool, verdict: string)
  datatype Reply = BadRequest | NoReply | Unknown | Pending(id: string) | Verdicted(id: string, verdict: Verdict)

  /**
   * The shared maps and the list of events (the firehose), plus what the gate has written: log (the
   * entries appended to the thread files, each with its file) and ended (responses to tool calls, with
   * the call they answer). Histories the program does not keep: calls, the number of tool calls posted,
   * which also numbers them; read, how many of them could be read; threads, the thread each review was
   * posted for; and answers, every answer acted on.
   */
  datatype State = State(
    counter: nat,
    pending: map<string, Question>,
    reviews: map<string, Status>,
    idem: map<string, string>,
    turnGrants: map<string, bool>,
    savedRules: map<string, string>,
    askAll: bool,
    rubbish: seq<string>,
    blocked: seq<string>,
    events: seq<Event>,
    log: seq<(string, LogEntry)>,
    calls: nat,
    read: nat,
    ended: seq<(nat, ToolReply)>,
    threads: map<string, Field>,
    answers: seq<Answer>)

  function Boot(saved: map<string, string>, askAll: bool, rubbish: seq<string>, blocked: seq<string>): State {
    State(0, map[], map[], map[], map[], saved, askAll, rubbish, blocked, [], [], 0, 0, [], map[], [])
  }

  function ReviewId(n: nat): string { "rev-" + Decimal(n) }
  function NoKey(n: nat): string { "no-key-" + Decimal(n) }

  /** `tool|hit,hit` and `turn|hit,hit`. */
  function Key(name: string, hits: seq<string>): string { name + "|" + Join(hits, ',') }

  function VerdictFor(allow: bool): Verdict {
    if allow then Allow else Deny("denied by CleanMyAgent")
  }

  /** The file the entries of this thread go to; None when it has no name. */
  function FileOf(thread: Field): Option<string> {
    match thread
    case Absent => Some(Safe(""))
    case Shown(text, _) => Some(Safe(text))
    case Unprintable => None
  }

  /** An entry can be appended to the thread's file; otherwise the append throws. */
  predicate Filable(thread: Field, writable: bool) {
    writable && FileOf(thread).Some?
  }

  /** The turn a grant is kept for: only a truthy turn id stands for one. */
  function TurnOf(turn: Field): Option<string> {
    if turn.Shown? && turn.truthy then Some(turn.text) else None
  }

  // ----- deciding -----

  /** What becomes of a request. Stopped: an exception ends the handler, after the event or before it. */
  datatype Outcome =
    | Stopped(logged: Option<seq<string>>)
    | Skipped(verdict: Verdict, why: string, hits: seq<string>)
    | Clean
    | ByRule(saved: string, hits: seq<string>)
    | ByTurn(allow: bool, hits: seq<string>)
    | Ask(hits: seq<string>)
  {
    /** The request is answered at once. */
    predicate Answers() { !Ask? && !Stopped? }
  }

  /** JavaScript's String.prototype.trim() leaves nothing. */
  predicate Blank(s: string) { forall c <- s :: IsSpace(c) }

  function NoiseSkip(t: Tables, response: ToolResponse): Option<Outcome>
    requires Printable(response)
  {
    var noise := TrimNoise(t.noise, response);
    if noise.None? then None
    else
      var Trimmed(name, kept, dropped) := noise.value;
      var verdict :=
        if Blank(kept) then Deny("skipped: the output was nothing but " + name)
        else Rewrite(kept, "dropped " + Decimal(dropped) + " line(s) of " + name);
      Some(Skipped(verdict, "noise", ["noise:" + name]))
  }

  function SkipList(t: Tables, b: Body): Option<Outcome> {
    var garbage := if b.kind in ["tool_call", "approval"] then FirstMatch(t.garbage, b.text) else None;
    if garbage.Some? then
      if b.command.None? then Some(Stopped(None))
      else
        Some(Skipped(Deny("skipped: " + garbage.value + " — it burns a turn and proves nothing"),
                     "garbage", ["garbage:" + garbage.value]))
    else if b.kind == "tool_output" then
      if Printable(b.response) then NoiseSkip(t, b.response) else Some(Stopped(None))
    else None
  }

  ghost function Challenges(s: State, rules: seq<string>, text: string, threshold: real): seq<string> {
    var hits := rules
      + (if Hits(s.rubbish, text, threshold) then [RUBBISH_SIMILAR] else [])
      + (if Hits(s.blocked, text, THRESHOLD) then [SIMILAR_TO_BLOCKED] else []);
    if hits == [] && s.askAll then [ASK_ALL] else hits
  }

  /** The reasons to challenge a review; a tool output is not an action, so the rules skip it. */
  ghost function ReviewHits(t: Tables, s: State, b: Body): seq<string> {
    Challenges(s, if b.kind == "tool_output" then [] else Scan(t.rules, b.text), b.text, STRICT_THRESHOLD)
  }

  /** A saved value counts when it is a non-empty string. */
  function SavedRule(saved: map<string, string>, key: string): Option<string> {
    if key in saved && saved[key] != "" then Some(saved[key]) else None
  }

  predicate TurnGrantable(turn: Option<string>, hits: seq<string>) {
    turn.Some? && ASK_ALL !in hits
  }

  ghost function ReviewOutcome(t: Tables, s: State, b: Body): Outcome {
    var skip := SkipList(t, b);
    if skip.Some? then skip.value
    else
      var hits := ReviewHits(t, s, b);
      if hits == [] then Clean
      else if b.tool.None? then Stopped(Some(hits))
      else
        var saved := SavedRule(s.savedRules, Key(b.tool.value, hits));
        if saved.Some? then ByRule(saved.value, hits)
        else if b.turn.Unprintable? then Stopped(Some(hits))
        else
          var turn := TurnOf(b.turn);
          if TurnGrantable(turn, hits) && Key(turn.value, hits) in s.turnGrants then
            ByTurn(s.turnGrants[Key(turn.value, hits)], hits)
          else Ask(hits)
  }

  // ----- effects -----

  /** The log entry of a decision: the body is spread over its kind and review id. */
  function ReviewEntry(id: string, b: Body, verdict: Verdict, why: string): LogEntry {
    LogEntry(if b.kindField.Some? then b.kindField else Some("review"),
             if b.idField.Some? then b.idField else Some(id),
             Some(verdict), why)
  }

  /** The entry appended to the thread's file, if it can be. */
  function Appended(log: seq<(string, LogEntry)>, thread: Field, writable: bool, entry: LogEntry): seq<(string, LogEntry)> {
    if Filable(thread, writable) then log + [(FileOf(thread).value, entry)] else log
  }

  /** The verdict is there before the log entry is written, and stays when that fails. */
  function Decide(s: State, id: string, b: Body, verdict: Verdict, why: string): State {
    s.(reviews := s.reviews[id := Decided(verdict)],
       log := Appended(s.log, b.thread, b.writable, ReviewEntry(id, b, verdict, why)))
  }

  function Logged(s: State, kind: string, tool: Option<string>, hits: seq<string>): State {
    s.(events := s.events + [Event(Some(kind), tool, hits)])
  }

  function AskIsland(s: State, q: Question): State {
    s.(counter := s.counter + 1, pending := s.pending[Decimal(s.counter + 1) := q])
  }

  function Respond(s: State, id: string): Reply {
    if id !in s.reviews then Unknown
    else match s.reviews[id]
      case Waiting => Pending(id)
      case Decided(verdict) => Verdicted(id, verdict)
  }

  function HitsOf(o: Outcome): seq<string> {
    match o
    case Clean => []
    case Stopped(logged) => if logged.Some? then logged.value else []
    case _ => o.hits
  }

  /** The verdict of a review that is answered at once, and who decided it. */
  function VerdictOf(o: Outcome): Verdict
    requires o.Answers()
  {
    match o
    case Skipped(verdict, _, _) => verdict
    case Clean => Allow
    case ByRule(saved, _) => VerdictFor(saved == "allow")
    case ByTurn(allow, _) => VerdictFor(allow)
  }

  function DecidedBy(o: Outcome): string
    requires o.Answers()
  {
    match o
    case Skipped(_, why, _) => why
    case Clean => "clean"
    case ByRule(saved, _) => "rule-" + saved
    case ByTurn(_, _) => "turn-grant"
  }

  /** A saved "deny" seeds the blocked index again; any other saved value does not. */
  function Seeded(blocked: seq<string>, o: Outcome, text: string): seq<string> {
    if o.ByRule? && o.saved == "deny" then Added(blocked, text) else blocked
  }

  /** An outcome is logged first, unless it stops even before; a rule denial also seeds the index. */
  function Noted(s: State, kind: string, tool: Option<string>, o: Outcome, text: string): State {
    if o == Stopped(None) then s
    else Logged(s, kind, tool, HitsOf(o)).(blocked := Seeded(s.blocked, o, text))
  }

  /** The tool a question names; one without a text never gets as far as a question. */
  function ToolName(b: Body): string {
    if b.tool.Some? then b.tool.value else ""
  }

  function Entered(s: State, id: string, b: Body): State {
    s.(threads := s.threads[id := b.thread])
  }

  function Concluded(s: State, id: string, b: Body, o: Outcome): State {
    if o.Stopped? then s
    else
      var s0 := Entered(s, id, b);
      if o.Ask? then
        AskIsland(s0.(reviews := s.reviews[id := Waiting]),
                  Question(Review(id, b), ToolName(b), o.hits, Key(ToolName(b), o.hits), b.text))
      else
        Decide(s0, id, b, VerdictOf(o), DecidedBy(o))
  }

  function Judged(s: State, id: string, b: Body, o: Outcome): State {
    Concluded(Noted(s, "review", b.tool, o, b.text), id, b, o)
  }

  /** handleReviewPost up to its first map lookup: a post without a key draws one from the counter. */
  function Keyed(s: State, header: Option<string>): (State, string) {
    match header
    case Some(key) => (s, key)
    case None => (s.(counter := s.counter + 1), NoKey(s.counter + 1))
  }

  /** A fresh key claims the next review id before anything can fail. */
  function Claimed(s: State, key: string): State {
    s.(counter := s.counter + 1, idem := s.idem[key := ReviewId(s.counter + 1)])
  }

  /** A post is answered unless it stopped, or its log entry could not be written. */
  function PostReply(s: State, id: string, b: Body, o: Outcome): Reply {
    if o.Stopped? || (o.Answers() && !Filable(b.thread, b.writable)) then NoReply else Respond(s, id)
  }

  ghost function PostReview(t: Tables, s: State, header: Option<string>, posted: Posted<Body>): (State, Reply) {
    if posted.BadJson? then (s, BadRequest)
    else
      var (s0, key) := Keyed(s, header);
      if key in s0.idem then (s0, Respond(s0, s0.idem[key]))
      else
        var s1 := Claimed(s0, key);
        if posted.Unreadable? then (s1, NoReply)
        else
          var o := ReviewOutcome(t, s1, posted.value);
          var s2 := Judged(s1, s1.idem[key], posted.value, o);
          (s2, PostReply(s2, s1.idem[key], posted.value, o))
  }

  function CallText(c: ToolCall): string {
    (if c.tool.Some? then c.tool.value else "") + " " + c.args
  }

  function CallTool(c: ToolCall): string {
    if c.tool.Some? then c.tool.value else "unknown"
  }

  ghost function CallHits(t: Tables, s: State, c: ToolCall): seq<string> {
    Challenges(s, Scan(t.rules, CallText(c)), CallText(c), THRESHOLD)
  }

  /** The hits a call is announced with. */
  ghost function CallEventHits(t: Tables, s: State, c: ToolCall): seq<string> {
    var garbage := FirstMatch(t.garbage, CallText(c));
    if garbage.Some? then ["garbage:" + garbage.value] else CallHits(t, s, c)
  }

  /** A call whose event cannot be written gets no further than its event. */
  ghost function CallOutcome(t: Tables, s: State, c: ToolCall): Outcome {
    var garbage := FirstMatch(t.garbage, CallText(c));
    if !c.writable then Stopped(Some(CallEventHits(t, s, c)))
    else if garbage.Some? then Skipped(Deny("skipped: " + garbage.value), "garbage", ["garbage:" + garbage.value])
    else
      var hits := CallHits(t, s, c);
      if hits == [] then Clean
      else
        var saved := SavedRule(s.savedRules, Key(CallTool(c), hits));
        if saved.Some? then ByRule(saved.value, hits) else Ask(hits)
  }

  function End(s: State, call: nat, reply: ToolReply): State {
    s.(ended := s.ended + [(call, reply)])
  }

  function CallConcluded(s: State, c: ToolCall, o: Outcome): State {
    var s0 := s.(calls := s.calls + 1, read := s.read + 1);
    if o.Stopped? then s0
    else if o.Ask? then
      AskIsland(s0, Question(Call(s.calls), CallTool(c), o.hits, Key(CallTool(c), o.hits), CallText(c)))
    else
      End(s0, s.calls, ToolReply(VerdictOf(o) == Allow, DecidedBy(o)))
  }

  function CallJudged(s: State, c: ToolCall, o: Outcome): State {
    CallConcluded(Noted(s, "toolcall", c.tool, o, CallText(c)), c, o)
  }

  /** A call that is no JSON is told so; one whose reading throws is never answered. */
  ghost function PostCall(t: Tables, s: State, posted: Posted<ToolCall>): State {
    match posted
    case BadJson => End(s.(calls := s.calls + 1), s.calls, InvalidJson)
    case Unreadable => s.(calls := s.calls + 1)
    case Parsed(c) => CallJudged(s, c, CallOutcome(t, s, c))
  }

  function Granted(grants: map<string, bool>, turn: Option<string>, hits: seq<string>, allow: bool): map<string, bool> {
    if TurnGrantable(turn, hits) then grants[Key(turn.value, hits) := allow] else grants
  }

  /** The answer reaches whoever asked. */
  function Deliver(s: State, q: Question, allow: bool): State {
    match q.asker
    case Call(call) => End(s, call, ToolReply(allow, if allow then "user-approved" else "user-denied"))
    case Review(id, b) =>
      Decide(s, id, b, VerdictFor(allow), "island").(turnGrants := Granted(s.turnGrants, TurnOf(b.turn), q.hits, allow))
  }

  function AnswerTo(q: Question, allow: bool, always: bool): Answer {
    Answer(q.tool, if q.asker.Review? then TurnOf(q.asker.body.turn) else None, q.hits, allow, always)
  }

  /** The answer is recorded: the question is gone, an "always" becomes a rule, a denial is remembered. */
  function Answered(s: State, pid: string, q: Question, allow: bool, always: bool): State {
    s.(pending := s.pending - {pid},
       savedRules := if always then s.savedRules[q.key := if allow then "allow" else "deny"] else s.savedRules,
       blocked := if !allow && q.text != "" then Added(s.blocked, q.text) else s.blocked,
       answers := s.answers + [AnswerTo(q, allow, always)])
  }

  function Settle(s: State, pid: string, allow: bool, always: bool): State {
    if pid !in s.pending then s
    else Deliver(Answered(s, pid, s.pending[pid], allow, always), s.pending[pid], allow)
  }

  /** A feed entry carries what the item says it is; it has no verdict of the gate's own. */
  function FeedEntry(kind: Option<string>, item: FeedItem): LogEntry {
    LogEntry(kind, item.reviewId, None, "")
  }

  /** An item of POST /v1/activities: always announced, with "activity" where it has no kind of its own. */
  function Activity(s: State, item: FeedItem): State {
    var kind := if item.kind.Some? then item.kind else Some("activity");
    s.(events := s.events + [Event(kind, None, [])],
       log := Appended(s.log, item.thread, item.writable, FeedEntry(kind, item)))
  }

  /** The loop ends early at an item that cannot be filed, after that item's event. */
  function Activities(s: State, items: seq<FeedItem>): State
    decreases |items|
  {
    if items == [] then s
    else
      var s1 := Activity(s, items[0]);
      if Filable(items[0].thread, items[0].writable) then Activities(s1, items[1..]) else s1
  }

  /** A blocked item is remembered, unless writing its event or reading its text throws first. */
  predicate Remembered(item: FeedItem) {
    item.writable && item.blocked && item.text.Some?
  }

  /** A keyed item has its copy, unless something throws before it gets there. */
  predicate Copied(item: FeedItem) {
    item.writable && (item.blocked ==> item.text.Some?) && item.thread.Shown? && item.thread.truthy
  }

  /** POST /events: a blocked call seeds the index, and a keyed item is copied to its thread. */
  function PostEvent(s: State, item: FeedItem): State {
    s.(events := s.events + [Event(item.kind, None, [])],
       blocked := if Remembered(item) then Added(s.blocked, item.text.value) else s.blocked,
       log := if Copied(item) then Appended(s.log, item.thread, item.writable, FeedEntry(item.kind, item)) else s.log)
  }

  // ----- steps -----

  datatype Step =
    | ReviewStep(header: Option<string>, review: Posted<Body>)
    | CallStep(call: Posted<ToolCall>)
    | DecisionStep(pid: string, allow: bool, always: bool)
    | RenderFailureStep(pid: string)
    | SettingsStep(askAll: bool)
    | AddRubbishStep(text: string)
    | PruneRubbishStep(text: string)
    | PruneBlockedStep(text: string)
    | EventStep(item: FeedItem)
    | ActivitiesStep(items: seq<FeedItem>)

  ghost function Next(t: Tables, s: State, step: Step): State {
    match step
    case ReviewStep(header, posted) => PostReview(t, s, header, posted).0
    case CallStep(posted) => PostCall(t, s, posted)
    case DecisionStep(pid, allow, always) => Settle(s, pid, allow, always)
    case RenderFailureStep(pid) => Settle(s, pid, false, false)
    case SettingsStep(askAll) => s.(askAll := askAll)
    case AddRubbishStep(text) => s.(rubbish := Added(s.rubbish, text))
    case PruneRubbishStep(text) => s.(rubbish := Removed(s.rubbish, text))
    case PruneBlockedStep(text) => s.(blocked := Removed(s.blocked, text))
    case EventStep(item) => PostEvent(s, item)
    case ActivitiesStep(items) => Activities(s, items)
  }

  ghost function Run(t: Tables, s: State, steps: seq<Step>): State
    decreases |steps|
  {
    if steps == [] then s
    else Next(t, Run(t, s, steps[..|steps| - 1]), steps[|steps| - 1])
  }
}
