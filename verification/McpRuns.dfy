/** The stdio loop and the HTTP sessions of the fixture server, over whole runs. */
module McpRuns {
  import opened Json
  import opened Text
  import opened McpServer

  // ----- the stdio loop -----

  /** A line of input: no JSON, JSON on which the reader itself gives up (an integer too long), or a message. */
  datatype Line = Garbage | Unreadable | Message(message: Json)

  /** What the loop has written, the connection between two lines, and whether it still reads. */
  datatype Loop = Loop(written: seq<Json>, state: State, alive: bool)

  /** Values are written one by one; the first that cannot be encoded ends it. */
  function Encoded(w: World, values: seq<Json>): seq<Json> {
    if values == [] || !w.encodable(values[0]) then [] else [values[0]] + Encoded(w, values[1..])
  }

  predicate AllEncodable(w: World, values: seq<Json>) {
    forall j <- values :: w.encodable(j)
  }

  function Output(plan: Plan): seq<Json> {
    plan.notifications + if plan.response.Some? then [plan.response.value] else []
  }

  /** One line; an exception while reading or writing leaves the loop. */
  function StdioLine(w: World, cfg: Config, line: Line, s: State): Loop {
    match line
    case Garbage => Loop([ErrorResponse(Null, PARSE_ERROR, "Parse error")], s, true)
    case Unreadable => Loop([], s, false)
    case Message(message) =>
      var (plan, s') := Handle(w, cfg, message, s);
      if AllEncodable(w, Output(plan)) then Loop(Output(plan), s', true) else Loop(Encoded(w, Output(plan)), s, false)
  }

  function Stdio(w: World, cfg: Config, lines: seq<Line>): Loop
    decreases |lines|
  {
    if lines == [] then Loop([], NEW, true)
    else
      var before := Stdio(w, cfg, lines[..|lines| - 1]);
      if !before.alive then before
      else
        var more := StdioLine(w, cfg, lines[|lines| - 1], before.state);
        more.(written := before.written + more.written)
  }

  /** How many lines were served in full. */
  function Served(w: World, cfg: Config, lines: seq<Line>): (n: nat)
    ensures n <= |lines|
    decreases |lines|
  {
    if lines == [] || Stdio(w, cfg, lines).alive then |lines| else Served(w, cfg, lines[..|lines| - 1])
  }

  // ----- every request is answered once, in order, under its own id -----

  predicate IsNotification(j: Json) {
    j.Obj? && "method" in j.fields && "id" !in j.fields
  }

  /** What the bodies of the methods send ahead of their answers are notifications. */
  ghost predicate SendsNotifications(w: World) {
    forall name, id, params, meta, n :: n in w.body(name, id, params, meta).notifications ==> IsNotification(n)
  }

  /** Every line is owed a response, except a well-formed notification. */
  predicate Owed(line: Line) {
    line.Message? ==> !Notification(line.message)
  }

  function LineId(line: Line): Json {
    if line.Message? then IdOf(line.message) else Null
  }

  predicate OddLine(cfg: Config, line: Line) {
    line.Message? && OddDiscovery(cfg, line.message)
  }

  function Responses(written: seq<Json>): (r: seq<Json>)
    ensures forall j <- r :: IsResponse(j)
  {
    if written == [] then []
    else Responses(written[..|written| - 1]) + if IsResponse(written[|written| - 1]) then [written[|written| - 1]] else []
  }

  function Requests(lines: seq<Line>): (r: seq<Line>)
    ensures forall line <- r :: Owed(line)
  {
    if lines == [] then []
    else Requests(lines[..|lines| - 1]) + if Owed(lines[|lines| - 1]) then [lines[|lines| - 1]] else []
  }

  /** Response by response: the id of the request it answers. */
  ghost predicate Correlated(cfg: Config, responses: seq<Json>, requests: seq<Line>) {
    |responses| == |requests|
    && forall i :: 0 <= i < |requests| ==> OddLine(cfg, requests[i]) || IdOf(responses[i]) == LineId(requests[i])
  }

  ghost predicate AllNotifications(written: seq<Json>) {
    forall j <- written :: IsNotification(j)
  }

  lemma {:induction false} ResponsesConcat(a: seq<Json>, b: seq<Json>)
    ensures Responses(a + b) == Responses(a) + Responses(b)
    decreases |b|
  {
    hide IsResponse;
    if b == [] {
      assert a + b == a;
    } else {
      assert (a + b)[..|a + b| - 1] == a + b[..|b| - 1];
      ResponsesConcat(a, b[..|b| - 1]);
    }
  }

  lemma {:induction false} NotificationsHaveNoResponse(written: seq<Json>)
    requires AllNotifications(written)
    ensures Responses(written) == []
  {
    if written != [] {
      NotificationsHaveNoResponse(written[..|written| - 1]);
      assert IsNotification(written[|written| - 1]);
    }
  }

  lemma OneResponse(j: Json)
    requires IsResponse(j)
    ensures Responses([j]) == [j]
  {
    hide IsResponse;
    assert [j][..0] == [];
  }

  lemma AnswerNotifications(w: World, name: string, id: Json, params: Dict, meta: Dict)
    requires SendsNotifications(w)
    ensures AllNotifications(Answer(id, w.body(name, id, params, meta)).notifications)
  {
    hide IsNotification, ErrorResponse, Response;
  }

  lemma NoNotifications()
    ensures AllNotifications([])
  {
  }

  lemma ListPageSilent(cfg: Config, id: Json, key: string, page: Option<(seq<Json>, Option<string>)>, problem: string, ttl: int)
    ensures ListPage(cfg, id, key, page, problem, ttl).notifications == []
  {
    hide ErrorResponse, Response, ModernResult, PageFields;
  }

  lemma SharedNotifications(w: World, cfg: Config, id: Json, op: string, params: Dict, meta: Dict)
    requires SendsNotifications(w)
    ensures AllNotifications(Shared(w, cfg, id, op, params, meta).notifications)
  {
    hide AllNotifications, Answer, ListPage, SendsNotifications, ErrorResponse, Response, ToolPage, ResourcePage, ToolNames, Get;
    NoNotifications();
    ListPageSilent(cfg, id, "tools", ToolPage(w, cfg, Get(params, "cursor")), "Invalid tool cursor", 1000);
    ListPageSilent(cfg, id, "resources", ResourcePage(w, Get(params, "cursor")), "Invalid resource cursor", 2000);
    AnswerNotifications(w, op, id, params, meta);
    if Get(params, "name").Str? {
      AnswerNotifications(w, Get(params, "name").text, id, params, meta);
    }
  }

  lemma PlanNotifications(w: World, cfg: Config, message: Json, s: State)
    requires SendsNotifications(w)
    ensures AllNotifications(Handle(w, cfg, message, s).0.notifications)
  {
    hide AllNotifications, SendsNotifications, Shared, Answer, ErrorResponse, Response, DiscoveryId, ModernMeta, HasMethod, Get;
    NoNotifications();
    if message.Obj? && HasMethod(message) && Params(message.fields).Obj? {
      MethodText(message);
      var (op, id, params) := (Get(message.fields, "method").text, Get(message.fields, "id"), Params(message.fields).fields);
      SharedNotifications(w, cfg, id, op, params, map[]);
      if Get(params, "_meta").Obj? {
        SharedNotifications(w, cfg, id, op, params, Get(params, "_meta").fields);
        AnswerNotifications(w, op, id, params, Get(params, "_meta").fields);
      }
    }
  }

  lemma MethodText(message: Json)
    requires HasMethod(message)
    ensures message.Obj? && Get(message.fields, "method").Str?
  {
  }

  /** What a message is answered with. */
  lemma HandleAnswers(w: World, cfg: Config, message: Json, s: State)
    ensures
      var plan := Handle(w, cfg, message, s).0;
      && (Notification(message) ==> plan.response.None?)
      && (!Notification(message) ==> plan.response.Some? && IsResponse(plan.response.value)
                                     && (OddDiscovery(cfg, message) || IdOf(plan.response.value) == IdOf(message)))
  {
    hide Fail, HandleModern, HandleLegacy, IsResponse;
    FailAnswers(Null, INVALID_REQUEST, "Request must be a JSON object", BAD_REQUEST);
    if message.Obj? {
      var id := Get(message.fields, "id");
      FailAnswers(id, INVALID_REQUEST, "Invalid JSON-RPC 2.0 request", BAD_REQUEST);
      FailAnswers(id, INVALID_PARAMS, "params must be an object", BAD_REQUEST);
      if HasMethod(message) && Params(message.fields).Obj? && "id" in message.fields {
        var (op, params) := (Get(message.fields, "method").text, Params(message.fields).fields);
        HandleModernAnswers(w, cfg, id, op, params);
        HandleLegacyAnswers(w, cfg, id, op, params, s);
      }
    }
  }

  lemma HandleLegacyAnswers(w: World, cfg: Config, id: Json, op: string, params: Dict, s: State)
    ensures Answers(HandleLegacy(w, cfg, id, op, params, s).0, id)
  {
    hide Answers, Fail, Succeed, Shared;
    FailAnswers(id, INVALID_PARAMS, "initialize requires protocolVersion", OK);
    SucceedAnswers(id, w.fixed(op)["protocolVersion" := Str(cfg.mode)]);
    FailAnswers(id, METHOD_NOT_FOUND, "Unknown method: server/discover", NOT_FOUND);
    FailAnswers(id, INVALID_REQUEST, "Server has not received notifications/initialized", OK);
    SucceedAnswers(id, map[]);
    SharedAnswers(w, cfg, id, op, params, map[]);
  }

  lemma {:induction false} EncodedAll(w: World, values: seq<Json>)
    ensures AllEncodable(w, values) ==> Encoded(w, values) == values
    ensures !AllEncodable(w, values) ==> Encoded(w, values) <= values && |Encoded(w, values)| < |values|
  {
    if values != [] {
      EncodedAll(w, values[1..]);
      assert values == [values[0]] + values[1..];
    }
  }

  lemma SilentNotification(w: World, cfg: Config, message: Json, s: State)
    ensures Notification(message) ==> Output(Handle(w, cfg, message, s).0) == []
  {
    hide HandleModern, HandleLegacy, Fail;
  }

  /** A message whose output cannot all be written gets no response: the response comes last. */
  lemma CutOffUnanswered(w: World, plan: Plan)
    requires AllNotifications(plan.notifications) && !AllEncodable(w, Output(plan))
    ensures Responses(Encoded(w, Output(plan))) == []
  {
    EncodedAll(w, Output(plan));
    var cut := Encoded(w, Output(plan));
    assert AllNotifications(cut) by {
      forall j | j in cut ensures IsNotification(j) {
        var k :| 0 <= k < |cut| && cut[k] == j;
        assert Output(plan)[k] == plan.notifications[k] == j;
      }
    }
    NotificationsHaveNoResponse(cut);
  }

  lemma OutputResponses(plan: Plan)
    requires AllNotifications(plan.notifications) && (plan.response.Some? ==> IsResponse(plan.response.value))
    ensures Responses(Output(plan)) == if plan.response.Some? then [plan.response.value] else []
  {
    hide IsResponse, Responses, AllNotifications;
    NotificationsHaveNoResponse(plan.notifications);
    if plan.response.Some? {
      ResponsesConcat(plan.notifications, [plan.response.value]);
      OneResponse(plan.response.value);
      assert [] + [plan.response.value] == [plan.response.value];
    } else {
      assert plan.notifications + [] == plan.notifications;
    }
  }

  lemma LineAnswers(w: World, cfg: Config, line: Line, s: State)
    requires SendsNotifications(w)
    ensures
      var after := StdioLine(w, cfg, line, s);
      var responses := Responses(after.written);
      if Owed(line) && after.alive then |responses| == 1 && (OddLine(cfg, line) || IdOf(responses[0]) == LineId(line))
      else responses == []
    ensures !StdioLine(w, cfg, line, s).alive ==> Owed(line)
  {
    hide Handle, IsResponse, Responses, Notification, OddDiscovery, AllNotifications, ErrorResponse, SendsNotifications, IdOf, Output;
    match line
    case Garbage =>
      ErrorShape(Null, PARSE_ERROR, "Parse error");
      OneResponse(ErrorResponse(Null, PARSE_ERROR, "Parse error"));
    case Unreadable => NothingCorrelated(cfg);
    case Message(message) =>
      var plan := Handle(w, cfg, message, s).0;
      PlanNotifications(w, cfg, message, s);
      HandleAnswers(w, cfg, message, s);
      SilentNotification(w, cfg, message, s);
      OutputResponses(plan);
      if !AllEncodable(w, Output(plan)) { CutOffUnanswered(w, plan); }
  }

  lemma CorrelatedNext(cfg: Config, responses: seq<Json>, requests: seq<Line>, response: Json, request: Line)
    requires Correlated(cfg, responses, requests) && (OddLine(cfg, request) || IdOf(response) == LineId(request))
    ensures Correlated(cfg, responses + [response], requests + [request])
  {
    hide OddLine, LineId, IdOf;
  }

  /** The loop has written what the served lines made it write, and ends on a line that was owed a response. */
  lemma {:induction false} ServedLines(w: World, cfg: Config, lines: seq<Line>)
    requires SendsNotifications(w)
    ensures
      var n := Served(w, cfg, lines);
      && Stdio(w, cfg, lines[..n]).alive && (Stdio(w, cfg, lines).alive <==> n == |lines|)
      && Stdio(w, cfg, lines).state == Stdio(w, cfg, lines[..n]).state
      && Responses(Stdio(w, cfg, lines).written) == Responses(Stdio(w, cfg, lines[..n]).written)
      && (n < |lines| ==> Owed(lines[n]))
    decreases |lines|
  {
    assert lines[..|lines|] == lines;
    if lines != [] && !Stdio(w, cfg, lines).alive {
      hide StdioLine, Responses, Owed, SendsNotifications;
      var m := |lines| - 1;
      var front := lines[..m];
      ServedLines(w, cfg, front);
      var n := Served(w, cfg, front);
      assert front[..n] == lines[..n];
      if n == m {
        var before := Stdio(w, cfg, front);
        LineAnswers(w, cfg, lines[m], before.state);
        StdioLineState(w, cfg, lines[m], before.state);
        var more := StdioLine(w, cfg, lines[m], before.state).written;
        ResponsesConcat(before.written, more);
        assert Responses(before.written) + [] == Responses(before.written);
      }
    }
  }

  lemma StdioLineState(w: World, cfg: Config, line: Line, s: State)
    ensures !StdioLine(w, cfg, line, s).alive ==> StdioLine(w, cfg, line, s).state == s
  {
    hide Handle;
  }

  lemma {:induction false} ServedAnswered(w: World, cfg: Config, lines: seq<Line>)
    requires SendsNotifications(w) && Stdio(w, cfg, lines).alive
    ensures Correlated(cfg, Responses(Stdio(w, cfg, lines).written), Requests(lines))
    decreases |lines|
  {
    hide StdioLine, Correlated, IsResponse, Responses, Requests, SendsNotifications, Owed, OddLine, IdOf, LineId;
    if lines == [] {
      NothingCorrelated(cfg);
    } else {
      var (front, line) := (lines[..|lines| - 1], lines[|lines| - 1]);
      ServedAnswered(w, cfg, front);
      var before := Stdio(w, cfg, front);
      var more := StdioLine(w, cfg, line, before.state).written;
      ResponsesConcat(before.written, more);
      LineAnswers(w, cfg, line, before.state);
      RequestsNext(lines);
      if Owed(line) {
        assert Responses(more) == [Responses(more)[0]];
        CorrelatedNext(cfg, Responses(before.written), Requests(front), Responses(more)[0], line);
      } else {
        assert Responses(before.written) + [] == Responses(before.written) && Requests(front) + [] == Requests(front);
      }
    }
  }

  lemma NothingCorrelated(cfg: Config)
    ensures Correlated(cfg, Responses([]), Requests([])) && Responses([]) == []
  {
  }

  /** A line that is owed a response makes one request more than the lines before it. */
  lemma {:induction false} RequestsBefore(lines: seq<Line>, n: nat)
    requires n < |lines| && Owed(lines[n])
    ensures |Requests(lines[..n])| < |Requests(lines)|
    decreases |lines|
  {
    hide Owed;
    var m := |lines| - 1;
    if n < m {
      RequestsBefore(lines[..m], n);
      assert lines[..m][..n] == lines[..n];
    }
  }

  /** A line that ends the loop: it and all lines after it stay unanswered. */
  lemma {:induction false} NothingAfterTheEnd(w: World, cfg: Config, lines: seq<Line>, more: seq<Line>)
    requires !Stdio(w, cfg, lines).alive
    ensures Stdio(w, cfg, lines + more) == Stdio(w, cfg, lines)
    decreases |more|
  {
    if more == [] {
      assert lines + more == lines;
    } else {
      var m := |more| - 1;
      assert (lines + more)[..|lines + more| - 1] == lines + more[..m];
      NothingAfterTheEnd(w, cfg, lines, more[..m]);
    }
  }

  lemma RequestsNext(lines: seq<Line>)
    requires lines != []
    ensures Requests(lines) == Requests(lines[..|lines| - 1]) + if Owed(lines[|lines| - 1]) then [lines[|lines| - 1]] else []
  {
    hide Owed;
  }

  /** In modern mode no answer depends on what was said before. */
  lemma ModernForgets(w: World, cfg: Config, line: Line, s: State, t: State)
    requires cfg.Modern()
    ensures StdioLine(w, cfg, line, s).(state := t) == StdioLine(w, cfg, line, t) && StdioLine(w, cfg, line, s).state == s
  {
    hide Notification, HasMethod, HandleModern, Fail;
  }

  // ----- the lifecycle of a legacy connection -----

  /** An initialize request that names a protocol version. */
  predicate AcceptedInitialize(message: Json) {
    && HasMethod(message) && Get(message.fields, "method") == Str("initialize") && "id" in message.fields
    && Params(message.fields).Obj? && Get(Params(message.fields).fields, "protocolVersion").Str?
  }

  predicate InitializedNote(message: Json) {
    && HasMethod(message) && Get(message.fields, "method") == Str("notifications/initialized") && "id" !in message.fields
    && Params(message.fields).Obj?
  }

  predicate IsInitialize(message: Json) {
    message.Obj? && Get(message.fields, "method") == Str("initialize")
  }

  /** One message moves a legacy connection only by these two. */
  lemma LegacyState(w: World, cfg: Config, message: Json, s: State)
    requires !cfg.Modern()
    ensures Handle(w, cfg, message, s).1 ==
      if AcceptedInitialize(message) then s.(initializeSeen := true)
      else if InitializedNote(message) && s.initializeSeen then s.(initialized := true)
      else s
  {
    hide Fail, Succeed, Shared;
  }

  lemma LegacyResult(w: World, cfg: Config, message: Json, s: State)
    requires !cfg.Modern()
    ensures
      var plan := Handle(w, cfg, message, s).0;
      plan.response.Some? && HasResult(plan.response.value) ==> AcceptedInitialize(message) || (s.initialized && !IsInitialize(message))
  {
    hide Fail, Succeed, Shared, HasResult;
    FailAnswers(Null, INVALID_REQUEST, "Request must be a JSON object", BAD_REQUEST);
    if message.Obj? {
      var id := Get(message.fields, "id");
      FailAnswers(id, INVALID_REQUEST, "Invalid JSON-RPC 2.0 request", BAD_REQUEST);
      FailAnswers(id, INVALID_PARAMS, "params must be an object", BAD_REQUEST);
      FailAnswers(id, INVALID_PARAMS, "initialize requires protocolVersion", OK);
      FailAnswers(id, METHOD_NOT_FOUND, "Unknown method: server/discover", NOT_FOUND);
      FailAnswers(id, INVALID_REQUEST, "Server has not received notifications/initialized", OK);
    }
  }

  ghost predicate InitializeAt(lines: seq<Line>, i: nat) {
    i < |lines| && lines[i].Message? && AcceptedInitialize(lines[i].message)
  }

  ghost predicate NoteAt(lines: seq<Line>, j: nat) {
    j < |lines| && lines[j].Message? && InitializedNote(lines[j].message)
  }

  /** The lines hold an accepted initialize and, later, notifications/initialized. */
  ghost predicate HandshakeIn(lines: seq<Line>) {
    exists i: nat, j: nat :: i < j && InitializeAt(lines, i) && NoteAt(lines, j)
  }

  ghost predicate InitializeIn(lines: seq<Line>) {
    exists i: nat :: InitializeAt(lines, i)
  }

  lemma HandshakeNext(front: seq<Line>, line: Line)
    ensures InitializeIn(front + [line]) <==> InitializeIn(front) || (line.Message? && AcceptedInitialize(line.message))
    ensures HandshakeIn(front + [line]) <==>
      HandshakeIn(front) || (InitializeIn(front) && line.Message? && InitializedNote(line.message))
  {
    hide AcceptedInitialize, InitializedNote;
    var lines := front + [line];
    forall i: nat | InitializeAt(front, i) ensures InitializeAt(lines, i) {}
    forall j: nat | NoteAt(front, j) ensures NoteAt(lines, j) {}
    if line.Message? && AcceptedInitialize(line.message) {
      assert InitializeAt(lines, |front|);
    }
    if line.Message? && InitializedNote(line.message) {
      assert NoteAt(lines, |front|);
    }
    if InitializeIn(lines) {
      var i: nat :| InitializeAt(lines, i);
      if i < |front| { assert InitializeAt(front, i); }
    }
    if HandshakeIn(lines) {
      var i: nat, j: nat :| i < j && InitializeAt(lines, i) && NoteAt(lines, j);
      assert InitializeAt(front, i);
      if j < |front| { assert NoteAt(front, j); }
    }
  }

  lemma NotBoth(message: Json)
    requires AcceptedInitialize(message)
    ensures !InitializedNote(message)
  {
  }

  /** A legacy connection is initialized exactly when it has seen the handshake, in that order. */
  lemma LifecycleState(w: World, cfg: Config, lines: seq<Line>)
    requires !cfg.Modern() && SendsNotifications(w)
    ensures
      var seen := lines[..Served(w, cfg, lines)];
      Stdio(w, cfg, lines).state == State(InitializeIn(seen), HandshakeIn(seen))
  {
    hide Stdio, InitializeIn, HandshakeIn, Responses;
    ServedLines(w, cfg, lines);
    ServedLifecycle(w, cfg, lines[..Served(w, cfg, lines)]);
  }

  lemma {:induction false} ServedLifecycle(w: World, cfg: Config, lines: seq<Line>)
    requires !cfg.Modern() && Stdio(w, cfg, lines).alive
    ensures Stdio(w, cfg, lines).state == State(InitializeIn(lines), HandshakeIn(lines))
    decreases |lines|
  {
    hide Handle, AcceptedInitialize, InitializedNote, InitializeIn, HandshakeIn, ErrorResponse, Output, Encoded, AllEncodable;
    if lines == [] {
      NoHandshake();
    } else {
      var (front, line) := (lines[..|lines| - 1], lines[|lines| - 1]);
      ServedLifecycle(w, cfg, front);
      assert lines == front + [line];
      HandshakeNext(front, line);
      if line.Message? {
        LegacyState(w, cfg, line.message, Stdio(w, cfg, front).state);
        if AcceptedInitialize(line.message) { NotBoth(line.message); }
      }
    }
  }

  lemma NoHandshake()
    ensures !InitializeIn([]) && !HandshakeIn([])
  {
  }

  /** What the loop writes on reading line `k`. */
  function WrittenAt(w: World, cfg: Config, lines: seq<Line>, k: nat): seq<Json>
    requires k < |lines|
  {
    var before := Stdio(w, cfg, lines[..k]);
    if before.alive then StdioLine(w, cfg, lines[k], before.state).written else []
  }

  /** In a legacy mode a result for anything but initialize comes only after the handshake. */
  lemma ResultsFollowHandshake(w: World, cfg: Config, lines: seq<Line>, k: nat, response: Json)
    requires !cfg.Modern() && k < |lines| && response in WrittenAt(w, cfg, lines, k)
    requires SendsNotifications(w) && IsResponse(response) && HasResult(response)
    ensures lines[k].Message? && (AcceptedInitialize(lines[k].message) || (!IsInitialize(lines[k].message) && HandshakeIn(lines[..k])))
  {
    hide Handle, AcceptedInitialize, HandshakeIn, InitializeIn, IsInitialize, Stdio, IsNotification, SendsNotifications, ErrorResponse, AllNotifications, Encoded, AllEncodable;
    ServedLifecycle(w, cfg, lines[..k]);
    ErrorShape(Null, PARSE_ERROR, "Parse error");
    if lines[k].Message? {
      var s := Stdio(w, cfg, lines[..k]).state;
      var plan := Handle(w, cfg, lines[k].message, s).0;
      EncodedAll(w, Output(plan));
      assert response in Output(plan);
      LegacyResult(w, cfg, lines[k].message, s);
      PlanNotifications(w, cfg, lines[k].message, s);
      NotAResponse(plan.notifications, response);
    }
  }

  // ----- which lines end the loop -----

  /** The connection before a line, read off the lines before it. */
  ghost function StateBefore(cfg: Config, lines: seq<Line>): State {
    if cfg.Modern() then NEW else State(InitializeIn(lines), HandshakeIn(lines))
  }

  /** A line the reader gives up on, or one with something in its answer that cannot be encoded. */
  ghost predicate Ends(w: World, cfg: Config, line: Line, s: State) {
    line.Unreadable? || (line.Message? && !AllEncodable(w, Output(Handle(w, cfg, line.message, s).0)))
  }

  ghost predicate EndsAt(w: World, cfg: Config, lines: seq<Line>, k: nat) {
    k < |lines| && Ends(w, cfg, lines[k], StateBefore(cfg, lines[..k]))
  }

  lemma LineEnds(w: World, cfg: Config, line: Line, s: State)
    ensures StdioLine(w, cfg, line, s).alive <==> !Ends(w, cfg, line, s)
  {
    hide Handle, Output, Encoded, AllEncodable;
  }

  lemma ServedState(w: World, cfg: Config, lines: seq<Line>)
    requires Stdio(w, cfg, lines).alive
    ensures Stdio(w, cfg, lines).state == StateBefore(cfg, lines)
  {
    if cfg.Modern() {
      ModernState(w, cfg, lines);
    } else {
      ServedLifecycle(w, cfg, lines);
    }
    hide Stdio, InitializeIn, HandshakeIn;
  }

  lemma {:induction false} ModernState(w: World, cfg: Config, lines: seq<Line>)
    requires cfg.Modern()
    ensures Stdio(w, cfg, lines).state == NEW
    decreases |lines|
  {
    hide StdioLine;
    if lines != [] {
      ModernState(w, cfg, lines[..|lines| - 1]);
      ModernForgets(w, cfg, lines[|lines| - 1], NEW, NEW);
    }
  }

  /** The loop serves the lines before the first that ends it, and all of them when none does. */
  lemma {:induction false} LoopEndsAtTheFirst(w: World, cfg: Config, lines: seq<Line>)
    ensures
      var n := Served(w, cfg, lines);
      && (forall k: nat :: k < n ==> !EndsAt(w, cfg, lines, k))
      && (n < |lines| ==> EndsAt(w, cfg, lines, n))
      && (Stdio(w, cfg, lines).alive <==> n == |lines|)
    decreases |lines|
  {
    if lines != [] {
      var m := |lines| - 1;
      var front := lines[..m];
      LoopEndsAtTheFirst(w, cfg, front);
      if Stdio(w, cfg, front).alive {
        ServedState(w, cfg, front);
        LineEnds(w, cfg, lines[m], Stdio(w, cfg, front).state);
      }
      hide StdioLine, Ends, StateBefore;
      forall k: nat | k < m ensures EndsAt(w, cfg, lines, k) <==> EndsAt(w, cfg, front, k) {
        assert front[..k] == lines[..k];
      }
      assert EndsAt(w, cfg, lines, m) <==> Ends(w, cfg, lines[m], StateBefore(cfg, front));
    }
  }

  /**
   * For every input the loop writes exactly one response, with a result or an error but not both, for
   * each line that is not a well-formed notification, in the order of the lines and under the id of the
   * request; only server/discover under the two malformed-id profiles answers under another id. That
   * goes for the lines before the first that ends the loop, and so for all lines exactly when none does.
   */
  lemma RequestsAnsweredInOrder(w: World, cfg: Config, lines: seq<Line>)
    requires SendsNotifications(w)
    ensures
      var loop := Stdio(w, cfg, lines);
      && Correlated(cfg, Responses(loop.written), Requests(lines[..Served(w, cfg, lines)]))
      && (Correlated(cfg, Responses(loop.written), Requests(lines)) <==>
            forall k :: 0 <= k < |lines| ==> !EndsAt(w, cfg, lines, k))
  {
    ServedLines(w, cfg, lines);
    LoopEndsAtTheFirst(w, cfg, lines);
    var n := Served(w, cfg, lines);
    ServedAnswered(w, cfg, lines[..n]);
    assert lines[..|lines|] == lines;
    hide Stdio, StdioLine, Responses, Requests, Owed, OddLine, IdOf, LineId, SendsNotifications, EndsAt;
    if n < |lines| {
      RequestsBefore(lines, n);
    }
  }

  /** The failing input: a line that ends the loop leaves every line after it unanswered. */
  lemma LineEndsTheLoop(w: World, cfg: Config, lines: seq<Line>, line: Line, more: seq<Line>)
    requires forall k: nat :: !EndsAt(w, cfg, lines, k)
    ensures Served(w, cfg, lines + [line]) == |lines| <==> Ends(w, cfg, line, StateBefore(cfg, lines))
    ensures Ends(w, cfg, line, StateBefore(cfg, lines)) ==>
      Stdio(w, cfg, lines + [line] + more).written == Stdio(w, cfg, lines + [line]).written
  {
    var longer := lines + [line];
    assert longer[..|longer| - 1] == lines && longer[..|lines|] == lines;
    LoopEndsAtTheFirst(w, cfg, lines);
    ServedState(w, cfg, lines);
    LineEnds(w, cfg, line, Stdio(w, cfg, lines).state);
    hide StdioLine, Ends, StateBefore;
    if !Stdio(w, cfg, longer).alive {
      NothingAfterTheEnd(w, cfg, longer, more);
    }
  }

  lemma NotAResponse(written: seq<Json>, response: Json)
    requires AllNotifications(written) && IsResponse(response)
    ensures response !in written
  {
  }
}
