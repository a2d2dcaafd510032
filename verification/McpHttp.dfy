/** The HTTP sessions of the fixture server, and its objects: a connection, the stdio loop, the session table. */
module McpHttp {
  import opened Json
  import opened Text
  import opened McpServer
  import opened McpRuns

  /** A POST that parsed, with its session header and the id a new session would get, or a DELETE. */
  datatype HttpEvent =
    | Post(session: Option<string>, message: Json, newId: string, headersOk: bool)
    | Delete(session: Option<string>)

  /** What is sent back: the status, the session header, and the body. */
  datatype Outcome = Outcome(status: int, session: Option<string>, notifications: seq<Json>, body: Option<Json>)

  type Sessions = map<string, State>

  function Sent(plan: Plan, session: Option<string>): Outcome {
    Outcome(plan.status, session, plan.notifications, plan.response)
  }

  function HttpStep(w: World, cfg: Config, sessions: Sessions, e: HttpEvent): (Outcome, Sessions) {
    match e
    case Delete(session) =>
      if cfg.Modern() then (Outcome(405, None, [], None), sessions)
      else if session.Some? && session.value in sessions then (Outcome(OK, None, [], None), sessions - {session.value})
      else (Outcome(NOT_FOUND, None, [], None), sessions)
    case Post(session, message, newId, headersOk) =>
      if !message.Obj? then (Sent(Fail(Null, INVALID_REQUEST, "Request must be a JSON object", BAD_REQUEST), None), sessions)
      else if cfg.Modern() then
        if "id" in message.fields && !headersOk then
          (Sent(Fail(Get(message.fields, "id"), HEADER_MISMATCH, "Header mismatch", BAD_REQUEST), None), sessions)
        else (Sent(Handle(w, cfg, message, NEW).0, None), sessions)
      else if IsInitialize(message) then
        var (plan, s) := Handle(w, cfg, message, NEW);
        (Sent(plan, Some(newId)), sessions[newId := s])
      else if Get(message.fields, "method") == Str("server/discover") then (Sent(Handle(w, cfg, message, NEW).0, None), sessions)
      else if session.None? || session.value !in sessions then
        (Sent(Fail(Get(message.fields, "id"), INVALID_REQUEST, "Missing or unknown Mcp-Session-Id", BAD_REQUEST), None), sessions)
      else
        var (plan, s) := Handle(w, cfg, message, sessions[session.value]);
        (Sent(plan, session), sessions[session.value := s])
  }

  function HttpRun(w: World, cfg: Config, es: seq<HttpEvent>): Sessions
    decreases |es|
  {
    if es == [] then map[] else HttpStep(w, cfg, HttpRun(w, cfg, es[..|es| - 1]), es[|es| - 1]).1
  }

  // ----- requests as they arrive -----

  /** Where the server listens, whom it lets in, and which origins name the local host. */
  datatype Site = Site(endpoint: string, origins: set<string>, local: string -> bool)

  /** A request before it is admitted; a body of None is no JSON, a length of None no number. */
  datatype Request =
    | PostRequest(path: string, origin: Option<string>, contentType: string, length: Option<int>,
                  body: Option<Json>, session: Option<string>, newId: string, headersOk: bool)
    | DeleteRequest(path: string, session: Option<string>)

  datatype Admission = Refused(outcome: Outcome) | Admitted(event: HttpEvent)

  function Refuse(code: int, message: string, status: int): Admission {
    Refused(Sent(Fail(Null, code, message, status), None))
  }

  predicate OriginAllowed(site: Site, origin: Option<string>) {
    origin.Some? ==> origin.value in site.origins || site.local(origin.value)
  }

  /** The checks of a request before the session table is touched, in their order. */
  function Admit(site: Site, r: Request): Admission {
    match r
    case DeleteRequest(path, session) =>
      if path != site.endpoint then Refused(Outcome(405, None, [], None)) else Admitted(Delete(session))
    case PostRequest(path, origin, contentType, length, body, session, newId, headersOk) =>
      if path != site.endpoint then Refuse(METHOD_NOT_FOUND, "Unknown MCP endpoint: " + path, NOT_FOUND)
      else if !OriginAllowed(site, origin) then Refuse(INVALID_REQUEST, "Origin is not allowed", 403)
      else if contentType != "application/json" then Refuse(INVALID_REQUEST, "Content-Type must be application/json", 415)
      else if length.None? || !(0 <= length.value <= 1_048_576) then Refuse(INVALID_REQUEST, "Invalid Content-Length", BAD_REQUEST)
      else if body.None? then Refuse(PARSE_ERROR, "Parse error", BAD_REQUEST)
      else Admitted(Post(session, body.value, newId, headersOk))
  }

  function Serve(site: Site, w: World, cfg: Config, sessions: Sessions, r: Request): (Outcome, Sessions) {
    match Admit(site, r)
    case Refused(o) => (o, sessions)
    case Admitted(e) => HttpStep(w, cfg, sessions, e)
  }

  function ServeRun(site: Site, w: World, cfg: Config, rs: seq<Request>): Sessions
    decreases |rs|
  {
    if rs == [] then map[] else Serve(site, w, cfg, ServeRun(site, w, cfg, rs[..|rs| - 1]), rs[|rs| - 1]).1
  }

  /** The events of the requests that are admitted. */
  function Events(site: Site, rs: seq<Request>): seq<HttpEvent>
    decreases |rs|
  {
    if rs == [] then []
    else
      Events(site, rs[..|rs| - 1]) + match Admit(site, rs[|rs| - 1]) case Refused(_) => [] case Admitted(e) => [e]
  }

  /**
   * Refused requests leave no trace: the table after any requests is the table of the admitted ones.
   * So what is proved of event runs below holds of runs of requests; and a refusal carries no result.
   */
  lemma {:induction false} RefusalsLeaveNoTrace(site: Site, w: World, cfg: Config, rs: seq<Request>, r: Request)
    ensures ServeRun(site, w, cfg, rs) == HttpRun(w, cfg, Events(site, rs))
    ensures
      var body := Serve(site, w, cfg, ServeRun(site, w, cfg, rs), r).0.body;
      Admit(site, r).Refused? && body.Some? ==> IsResponse(body.value) && !HasResult(body.value) && IdOf(body.value) == Null
    decreases |rs|
  {
    if rs != [] {
      var front := rs[..|rs| - 1];
      RefusalsLeaveNoTrace(site, w, cfg, front, rs[|rs| - 1]);
      AdmittedNext(site, w, cfg, rs);
    }
    RefusalShape(site, r);
    hide Admit, HttpStep;
  }

  lemma AdmittedNext(site: Site, w: World, cfg: Config, rs: seq<Request>)
    requires rs != [] && ServeRun(site, w, cfg, rs[..|rs| - 1]) == HttpRun(w, cfg, Events(site, rs[..|rs| - 1]))
    ensures ServeRun(site, w, cfg, rs) == HttpRun(w, cfg, Events(site, rs))
  {
    hide Admit, HttpStep;
    var before := Events(site, rs[..|rs| - 1]);
    match Admit(site, rs[|rs| - 1])
    case Refused(_) => assert before + [] == before;
    case Admitted(e) => assert (before + [e])[..|before + [e]| - 1] == before;
  }

  lemma RefusalShape(site: Site, r: Request)
    ensures Admit(site, r).Refused? && Admit(site, r).outcome.body.Some? ==>
      var body := Admit(site, r).outcome.body.value;
      IsResponse(body) && !HasResult(body) && IdOf(body) == Null
  {
    hide Fail, OriginAllowed, IsResponse, HasResult, IdOf;
    if r.PostRequest? {
      FailAnswers(Null, METHOD_NOT_FOUND, "Unknown MCP endpoint: " + r.path, NOT_FOUND);
      FailAnswers(Null, INVALID_REQUEST, "Origin is not allowed", 403);
      FailAnswers(Null, INVALID_REQUEST, "Content-Type must be application/json", 415);
      FailAnswers(Null, INVALID_REQUEST, "Invalid Content-Length", BAD_REQUEST);
      FailAnswers(Null, PARSE_ERROR, "Parse error", BAD_REQUEST);
    }
  }

  // ----- sessions do not touch each other -----

  predicate Creates(e: HttpEvent, id: string) {
    e.Post? && IsInitialize(e.message) && e.newId == id
  }

  predicate Deletes(e: HttpEvent, id: string) {
    e.Delete? && e.session == Some(id)
  }

  /** notifications/initialized, posted to the session. */
  predicate Notes(e: HttpEvent, id: string) {
    e.Post? && e.session == Some(id) && InitializedNote(e.message)
  }

  function Entry(sessions: Sessions, id: string): Option<State> {
    if id in sessions then Some(sessions[id]) else None
  }

  /** A step that neither creates a session nor carries its id leaves the session alone. */
  lemma SessionsIsolated(w: World, cfg: Config, sessions: Sessions, e: HttpEvent, id: string)
    requires !Creates(e, id) && e.session != Some(id)
    ensures Entry(HttpStep(w, cfg, sessions, e).1, id) == Entry(sessions, id)
  {
    hide Handle, Fail, IsInitialize;
  }

  /** What one session's own events make of it. */
  function SessionOf(es: seq<HttpEvent>, id: string): Option<State>
    decreases |es|
  {
    if es == [] then None
    else
      var (before, e) := (SessionOf(es[..|es| - 1], id), es[|es| - 1]);
      if Creates(e, id) then Some(State(AcceptedInitialize(e.message), false))
      else if Deletes(e, id) then None
      else if Notes(e, id) && before.Some? && before.value.initializeSeen then Some(before.value.(initialized := true))
      else before
  }

  lemma HttpStepEntry(w: World, cfg: Config, sessions: Sessions, e: HttpEvent, id: string)
    requires !cfg.Modern()
    ensures Entry(HttpStep(w, cfg, sessions, e).1, id) ==
      if Creates(e, id) then Some(State(AcceptedInitialize(e.message), false))
      else if Deletes(e, id) then None
      else
        var before := Entry(sessions, id);
        if Notes(e, id) && before.Some? && before.value.initializeSeen then Some(before.value.(initialized := true)) else before
  {
    hide Handle, Fail, AcceptedInitialize, InitializedNote, IsInitialize, HasMethod;
    if e.Post? {
      InitializeKinds(e.message);
      LegacyState(w, cfg, e.message, NEW);
      if id in sessions { LegacyState(w, cfg, e.message, sessions[id]); }
    }
  }

  lemma InitializeKinds(message: Json)
    ensures AcceptedInitialize(message) ==> IsInitialize(message)
    ensures IsInitialize(message) ==> message.Obj?
    ensures InitializedNote(message) ==> message.Obj? && !IsInitialize(message) && Get(message.fields, "method") != Str("server/discover")
  {
  }

  /** The table holds, for every session, exactly what that session's own events make of it. */
  lemma {:induction false} SessionsIndependent(w: World, cfg: Config, es: seq<HttpEvent>, id: string)
    requires !cfg.Modern()
    ensures Entry(HttpRun(w, cfg, es), id) == SessionOf(es, id)
    decreases |es|
  {
    hide HttpStep, Creates, Deletes, Notes, AcceptedInitialize;
    if es != [] {
      SessionsIndependent(w, cfg, es[..|es| - 1], id);
      HttpStepEntry(w, cfg, HttpRun(w, cfg, es[..|es| - 1]), es[|es| - 1], id);
    }
  }

  // ----- the lifecycle of a session -----

  /** No event after the `i`-th creates or deletes the session. */
  ghost predicate Undisturbed(es: seq<HttpEvent>, id: string, i: nat) {
    forall k :: i < k < |es| ==> !Creates(es[k], id) && !Deletes(es[k], id)
  }

  ghost predicate OpenedAt(es: seq<HttpEvent>, id: string, i: nat) {
    i < |es| && Creates(es[i], id) && Undisturbed(es, id, i)
  }

  ghost predicate NotedAt(es: seq<HttpEvent>, id: string, j: nat) {
    j < |es| && Notes(es[j], id)
  }

  /** Created by an accepted initialize, told it is initialized, and neither deleted nor created again. */
  ghost predicate SessionReady(es: seq<HttpEvent>, id: string) {
    exists i: nat, j: nat :: i < j && OpenedAt(es, id, i) && AcceptedInitialize(es[i].message) && NotedAt(es, id, j)
  }

  ghost predicate SessionOpened(es: seq<HttpEvent>, id: string) {
    exists i: nat :: OpenedAt(es, id, i) && AcceptedInitialize(es[i].message)
  }

  lemma OpenedNext(front: seq<HttpEvent>, e: HttpEvent, id: string, i: nat)
    ensures i < |front| ==> (OpenedAt(front + [e], id, i) <==> OpenedAt(front, id, i) && !Creates(e, id) && !Deletes(e, id))
    ensures OpenedAt(front + [e], id, |front|) <==> Creates(e, id)
    ensures i < |front| ==> (NotedAt(front + [e], id, i) <==> NotedAt(front, id, i))
    ensures NotedAt(front + [e], id, |front|) <==> Notes(e, id)
  {
    hide Creates, Deletes, Notes;
    var es := front + [e];
    assert es[|front|] == e;
    if i < |front| && OpenedAt(front, id, i) && !Creates(e, id) && !Deletes(e, id) {
      forall k | i < k < |es| ensures !Creates(es[k], id) && !Deletes(es[k], id) {
        if k < |front| { assert es[k] == front[k]; }
      }
    }
    if i < |front| && OpenedAt(es, id, i) {
      forall k | i < k < |front| ensures !Creates(front[k], id) && !Deletes(front[k], id) { assert es[k] == front[k]; }
    }
  }

  lemma ReadyNext(front: seq<HttpEvent>, e: HttpEvent, id: string)
    ensures SessionOpened(front + [e], id) <==>
      if Creates(e, id) then AcceptedInitialize(e.message) else !Deletes(e, id) && SessionOpened(front, id)
    ensures SessionReady(front + [e], id) <==>
      !Creates(e, id) && !Deletes(e, id) && (SessionReady(front, id) || (SessionOpened(front, id) && Notes(e, id)))
  {
    hide Creates, Deletes, Notes, AcceptedInitialize, OpenedAt, NotedAt;
    var es := front + [e];
    assert es[|front|] == e;
    OpenedNext(front, e, id, |front|);
    forall i: nat | i < |front|
      ensures OpenedAt(es, id, i) <==> OpenedAt(front, id, i) && !Creates(e, id) && !Deletes(e, id)
      ensures NotedAt(es, id, i) <==> NotedAt(front, id, i)
      ensures es[i] == front[i]
    {
      OpenedNext(front, e, id, i);
    }
    OpenedInside(es, id);
    OpenedInside(front, id);
    CreatesOnly(e, id);
    if SessionOpened(es, id) {
      var i: nat :| OpenedAt(es, id, i) && AcceptedInitialize(es[i].message);
      if i < |front| { assert OpenedAt(front, id, i); }
    }
    if Creates(e, id) {
      assert OpenedAt(es, id, |front|);
      if SessionOpened(es, id) {
        var i: nat :| OpenedAt(es, id, i) && AcceptedInitialize(es[i].message);
        assert i == |front|;
      }
    }
    if SessionReady(es, id) {
      var i: nat, j: nat :| i < j && OpenedAt(es, id, i) && AcceptedInitialize(es[i].message) && NotedAt(es, id, j);
      assert i < |front| && OpenedAt(front, id, i);
      if j < |front| { assert NotedAt(front, id, j); }
    }
    if !Creates(e, id) && !Deletes(e, id) {
      if SessionOpened(front, id) {
        var i: nat :| OpenedAt(front, id, i) && AcceptedInitialize(front[i].message);
        assert OpenedAt(es, id, i);
        if Notes(e, id) { assert NotedAt(es, id, |front|); }
      }
      if SessionReady(front, id) {
        var i: nat, j: nat :| i < j && OpenedAt(front, id, i) && AcceptedInitialize(front[i].message) && NotedAt(front, id, j);
        assert OpenedAt(es, id, i) && NotedAt(es, id, j);
      }
    }
  }

  lemma OpenedInside(es: seq<HttpEvent>, id: string)
    ensures forall i: nat :: OpenedAt(es, id, i) ==> i < |es| && es[i].Post?
    ensures forall j: nat :: NotedAt(es, id, j) ==> j < |es|
  {
    hide AcceptedInitialize, InitializedNote, IsInitialize;
  }

  lemma CreatesOnly(e: HttpEvent, id: string)
    ensures Creates(e, id) ==> e.Post? && !Deletes(e, id) && !Notes(e, id)
  {
    if e.Post? { InitializeKinds(e.message); }
    hide AcceptedInitialize, InitializedNote, IsInitialize;
  }

  /** A session is initialized exactly when its handshake is complete and it has not been deleted since. */
  lemma {:induction false} SessionLifecycle(es: seq<HttpEvent>, id: string)
    ensures SessionOf(es, id).Some? && SessionOf(es, id).value.initializeSeen <==> SessionOpened(es, id)
    ensures SessionOf(es, id).Some? && SessionOf(es, id).value.initialized <==> SessionReady(es, id)
    decreases |es|
  {
    hide Creates, Deletes, Notes, AcceptedInitialize, SessionOpened, SessionReady;
    if es == [] {
      NothingOpened(id);
    } else {
      var (front, e) := (es[..|es| - 1], es[|es| - 1]);
      assert es == front + [e];
      SessionLifecycle(front, id);
      ReadyNext(front, e, id);
      ReadyIsOpened(front, id);
      CreatesOnly(e, id);
    }
  }

  lemma NothingOpened(id: string)
    ensures !SessionOpened([], id) && !SessionReady([], id)
  {
    hide AcceptedInitialize, Notes, Creates;
  }

  lemma ReadyIsOpened(es: seq<HttpEvent>, id: string)
    ensures SessionReady(es, id) ==> SessionOpened(es, id)
  {
    hide AcceptedInitialize, OpenedAt, NotedAt;
  }

  /**
   * Over HTTP in a legacy mode, a result for anything but initialize is sent only on a session that an
   * accepted initialize created, that was then told notifications/initialized, and that has not been
   * deleted since.
   */
  lemma HttpResultsFollowHandshake(w: World, cfg: Config, es: seq<HttpEvent>, k: nat)
    requires !cfg.Modern() && k < |es|
    requires
      var body := HttpStep(w, cfg, HttpRun(w, cfg, es[..k]), es[k]).0.body;
      body.Some? && HasResult(body.value)
    ensures es[k].Post?
    ensures AcceptedInitialize(es[k].message) || (es[k].session.Some? && SessionReady(es[..k], es[k].session.value))
  {
    hide Handle, HttpRun, SessionOf, AcceptedInitialize, SessionReady, SessionOpened, Fail, HasResult, IsInitialize;
    var (e, sessions) := (es[k], HttpRun(w, cfg, es[..k]));
    if e.Post? {
      FailAnswers(Null, INVALID_REQUEST, "Request must be a JSON object", BAD_REQUEST);
      if e.message.Obj? {
        FailAnswers(Get(e.message.fields, "id"), INVALID_REQUEST, "Missing or unknown Mcp-Session-Id", BAD_REQUEST);
        LegacyResult(w, cfg, e.message, NEW);
        if e.session.Some? && e.session.value in sessions {
          LegacyResult(w, cfg, e.message, sessions[e.session.value]);
          SessionsIndependent(w, cfg, es[..k], e.session.value);
          SessionLifecycle(es[..k], e.session.value);
        }
      }
    }
  }

  /** Once deleted, and as long as its id is not given out again, a session answers nothing but errors. */
  lemma DeletedSessionIsSilent(w: World, cfg: Config, es: seq<HttpEvent>, d: nat, k: nat, id: string)
    requires !cfg.Modern() && d < k < |es| && Deletes(es[d], id)
    requires forall i :: d < i < k ==> !Creates(es[i], id)
    requires es[k].Post? && es[k].session == Some(id) && !IsInitialize(es[k].message)
    ensures
      var body := HttpStep(w, cfg, HttpRun(w, cfg, es[..k]), es[k]).0.body;
      body.Some? ==> !HasResult(body.value)
  {
    hide HttpStep, HttpRun, AcceptedInitialize, HasResult, IsInitialize, Notes;
    InitializeKinds(es[k].message);
    var body := HttpStep(w, cfg, HttpRun(w, cfg, es[..k]), es[k]).0.body;
    if body.Some? && HasResult(body.value) {
      HttpResultsFollowHandshake(w, cfg, es, k);
      NotReadyAfterDelete(es, d, k, id);
    }
  }

  lemma NotReadyAfterDelete(es: seq<HttpEvent>, d: nat, k: nat, id: string)
    requires d < k <= |es| && Deletes(es[d], id) && forall i :: d < i < k ==> !Creates(es[i], id)
    ensures !SessionReady(es[..k], id)
  {
    hide AcceptedInitialize, IsInitialize, Notes;
    var front := es[..k];
    assert front[d] == es[d];
    forall i: nat ensures !OpenedAt(front, id, i) {
      if i < k { assert front[i] == es[i]; }
    }
  }

  /** In modern mode no HTTP answer depends on earlier requests, and there are no sessions. */
  lemma ModernHttpForgets(w: World, cfg: Config, sessions: Sessions, others: Sessions, e: HttpEvent)
    requires cfg.Modern()
    ensures HttpStep(w, cfg, sessions, e).0 == HttpStep(w, cfg, others, e).0 && HttpStep(w, cfg, sessions, e).1 == sessions
  {
    hide Handle, Fail;
  }

  // ----- the objects -----

  class Connection {
    var initializeSeen: bool
    var initialized: bool

    ghost function View(): State
      reads this
    {
      State(initializeSeen, initialized)
    }

    constructor ()
      ensures View() == NEW
    {
      initializeSeen, initialized := false, false;
    }

    method HandleNotification(cfg: Config, op: string) returns (plan: Plan)
      modifies this
      ensures (plan, View()) == McpServer.HandleNotification(cfg, op, old(View()))
    {
      if !cfg.Modern() && op == "notifications/initialized" {
        if initializeSeen { initialized := true; }
      }
      plan := Plan(None, [], ACCEPTED);
    }

    method HandleLegacy(w: World, cfg: Config, id: Json, op: string, params: Dict) returns (plan: Plan)
      modifies this
      ensures (plan, View()) == McpServer.HandleLegacy(w, cfg, id, op, params, old(View()))
    {
      hide Shared, Fail, Succeed, Get;
      if op == "initialize" {
        if !Get(params, "protocolVersion").Str? {
          plan := Fail(id, INVALID_PARAMS, "initialize requires protocolVersion", OK);
        } else {
          initializeSeen := true;
          plan := Succeed(id, w.fixed(op)["protocolVersion" := Str(cfg.mode)]);
        }
      } else {
        plan := AnswerLegacy(w, cfg, id, op, params);
      }
    }

    /** Any request but initialize: it changes nothing. */
    method AnswerLegacy(w: World, cfg: Config, id: Json, op: string, params: Dict) returns (plan: Plan)
      requires op != "initialize"
      ensures plan == McpServer.HandleLegacy(w, cfg, id, op, params, View()).0
    {
      hide Shared, Fail, Succeed, Get;
      if op == "server/discover" { return Fail(id, METHOD_NOT_FOUND, "Unknown method: server/discover", NOT_FOUND); }
      if !initialized { return Fail(id, INVALID_REQUEST, "Server has not received notifications/initialized", OK); }
      if op == "ping" || op == "logging/setLevel" { return Succeed(id, map[]); }
      plan := Shared(w, cfg, id, op, params, map[]);
    }

    method Handle(w: World, cfg: Config, message: Json) returns (plan: Plan)
      modifies this
      ensures (plan, View()) == McpServer.Handle(w, cfg, message, old(View()))
    {
      hide HandleModern, McpServer.HandleLegacy, McpServer.HandleNotification, Fail;
      if !message.Obj? { return Fail(Null, INVALID_REQUEST, "Request must be a JSON object", BAD_REQUEST); }
      var id := Get(message.fields, "id");
      if !HasMethod(message) { return Fail(id, INVALID_REQUEST, "Invalid JSON-RPC 2.0 request", BAD_REQUEST); }
      var op := Get(message.fields, "method").text;
      var params := Params(message.fields);
      if !params.Obj? {
        if "id" in message.fields { return Fail(id, INVALID_PARAMS, "params must be an object", BAD_REQUEST); }
        return Plan(None, [], BAD_REQUEST);
      }
      if "id" !in message.fields {
        plan := HandleNotification(cfg, op);
      } else if cfg.Modern() {
        plan := HandleModern(w, cfg, id, op, params.fields);
      } else {
        plan := HandleLegacy(w, cfg, id, op, params.fields);
      }
    }
  }

  /** Values are written until one cannot be encoded. */
  method Write(w: World, values: seq<Json>) returns (written: seq<Json>, complete: bool)
    ensures written == Encoded(w, values) && (complete <==> AllEncodable(w, values))
    ensures complete ==> written == values
  {
    written := [];
    for i := 0 to |values|
      invariant AllEncodable(w, values[..i]) && written == values[..i]
      invariant written + Encoded(w, values[i..]) == Encoded(w, values)
    {
      if !w.encodable(values[i]) {
        complete := false;
        return;
      }
      assert values[i..][1..] == values[i + 1..] && values[..i + 1] == values[..i] + [values[i]];
      written := written + [values[i]];
    }
    assert values[..|values|] == values;
    complete := true;
  }

  method RunStdio(w: World, cfg: Config, lines: seq<Line>) returns (written: seq<Json>)
    ensures written == Stdio(w, cfg, lines).written
  {
    hide McpServer.Handle, ErrorResponse, Encoded, AllEncodable, Output;
    var connection := new Connection();
    written := [];
    for i := 0 to |lines|
      invariant Loop(written, connection.View(), true) == Stdio(w, cfg, lines[..i])
      invariant fresh(connection)
    {
      assert lines[..i + 1][..i] == lines[..i];
      ghost var before := Stdio(w, cfg, lines[..i]);
      match lines[i] {
        case Garbage =>
          written := written + [ErrorResponse(Null, PARSE_ERROR, "Parse error")];
        case Unreadable =>
          assert written + [] == written;
          Ended(w, cfg, lines, i + 1);
          return;
        case Message(message) =>
          var plan := connection.Handle(w, cfg, message);
          var more, complete := Write(w, Output(plan));
          written := written + more;
          if !complete {
            Ended(w, cfg, lines, i + 1);
            return;
          }
      }
    }
    assert lines[..|lines|] == lines;
  }

  lemma Ended(w: World, cfg: Config, lines: seq<Line>, n: nat)
    requires n <= |lines| && !Stdio(w, cfg, lines[..n]).alive
    ensures Stdio(w, cfg, lines) == Stdio(w, cfg, lines[..n])
  {
    hide Stdio;
    assert lines == lines[..n] + lines[n..];
    NothingAfterTheEnd(w, cfg, lines[..n], lines[n..]);
  }

  class FixtureHttpServer {
    const site: Site
    var sessions: Sessions

    constructor (site: Site)
      ensures sessions == map[] && this.site == site
    {
      this.site := site;
      sessions := map[];
    }

    method DoDelete(w: World, cfg: Config, path: string, session: Option<string>) returns (o: Outcome)
      modifies this
      ensures (o, sessions) == Serve(site, w, cfg, old(sessions), DeleteRequest(path, session))
    {
      if path != site.endpoint || cfg.Modern() { return Outcome(405, None, [], None); }
      var existed := session.Some? && session.value in sessions;
      if existed { sessions := sessions - {session.value}; }
      o := Outcome(if existed then OK else NOT_FOUND, None, [], None);
    }

    method DoPost(w: World, cfg: Config, path: string, origin: Option<string>, contentType: string, length: Option<int>,
                  body: Option<Json>, session: Option<string>, newId: string, headersOk: bool) returns (o: Outcome)
      modifies this
      ensures (o, sessions) ==
        Serve(site, w, cfg, old(sessions), PostRequest(path, origin, contentType, length, body, session, newId, headersOk))
    {
      hide HttpStep, Fail;
      if path != site.endpoint {
        return Sent(Fail(Null, METHOD_NOT_FOUND, "Unknown MCP endpoint: " + path, NOT_FOUND), None);
      }
      if !OriginAllowed(site, origin) {
        return Sent(Fail(Null, INVALID_REQUEST, "Origin is not allowed", 403), None);
      }
      if contentType != "application/json" {
        return Sent(Fail(Null, INVALID_REQUEST, "Content-Type must be application/json", 415), None);
      }
      if length.None? || !(0 <= length.value <= 1_048_576) {
        return Sent(Fail(Null, INVALID_REQUEST, "Invalid Content-Length", BAD_REQUEST), None);
      }
      if body.None? {
        return Sent(Fail(Null, PARSE_ERROR, "Parse error", BAD_REQUEST), None);
      }
      o := PostMessage(w, cfg, session, body.value, newId, headersOk);
    }

    /** An admitted POST. */
    method PostMessage(w: World, cfg: Config, session: Option<string>, message: Json, newId: string, headersOk: bool) returns (o: Outcome)
      modifies this
      ensures (o, sessions) == HttpStep(w, cfg, old(sessions), Post(session, message, newId, headersOk))
    {
      hide McpServer.Handle, Fail;
      if !message.Obj? { return Sent(Fail(Null, INVALID_REQUEST, "Request must be a JSON object", BAD_REQUEST), None); }
      var id := Get(message.fields, "id");
      if cfg.Modern() && "id" in message.fields && !headersOk {
        return Sent(Fail(id, HEADER_MISMATCH, "Header mismatch", BAD_REQUEST), None);
      }
      var connection := new Connection();
      var header: Option<string> := None;
      var key: Option<string> := None;
      if !cfg.Modern() {
        if IsInitialize(message) {
          header, key := Some(newId), Some(newId);
        } else if Get(message.fields, "method") != Str("server/discover") {
          if session.None? || session.value !in sessions {
            return Sent(Fail(id, INVALID_REQUEST, "Missing or unknown Mcp-Session-Id", BAD_REQUEST), None);
          }
          connection.initializeSeen := sessions[session.value].initializeSeen;
          connection.initialized := sessions[session.value].initialized;
          header, key := session, session;
        }
      }
      var plan := connection.Handle(w, cfg, message);
      if key.Some? { sessions := sessions[key.value := State(connection.initializeSeen, connection.initialized)]; }
      o := Sent(plan, header);
    }
  }
}
