/**
 * The MCP protocol fixture server (codex/scripts/mcp_conformance/server.py): its dispatch of JSON-RPC
 * messages, the lifecycle of a connection, and its tool and resource catalogues.
 */
module McpServer {
  import opened Json
  import opened Ordering
  import opened Text

  const MODERN_VERSION := "2026-07-28"
  const REVIEW_PROFILE := "review-regressions"
  const REPEATED_CURSOR_PROFILE := "repeated-cursor"
  const MISMATCHED_DISCOVERY_ID_PROFILE := "discovery-mismatched-id"
  const NULL_DISCOVERY_ID_PROFILE := "discovery-null-id"
  const CATALOG_MAX_PROFILE := "catalog-max"
  const CATALOG_OVER_LIMIT_PROFILE := "catalog-over-limit"
  const MAX_CATALOG_ITEMS := 1024
  const REVIEW_PAGE_CURSOR := "review-page-2"
  const RESOURCE_PAGE_CURSOR := "page-2"

  const SERVER_INFO_META := Obj(map["io.modelcontextprotocol/serverInfo" :=
    Obj(map["name" := Str("openai-mcp-spec-test-server"), "version" := Str("0.1.0")])])

  const PARSE_ERROR := -32700
  const INVALID_REQUEST := -32600
  const METHOD_NOT_FOUND := -32601
  const INVALID_PARAMS := -32602
  const HEADER_MISMATCH := -32020
  const UNSUPPORTED_PROTOCOL_VERSION := -32022

  const OK := 200
  const ACCEPTED := 202
  const BAD_REQUEST := 400
  const NOT_FOUND := 404

  datatype Payload = Result(fields: Dict) | Failure(code: int, message: string, status: int)

  /** What a tool, a prompt or a subscription answers, and the notifications it sends first. */
  datatype Reply = Reply(payload: Payload, notifications: seq<Json>)

  /**
   * What the dispatch does not look into: the fixed documents of the methods that always answer the
   * same, the bodies of tools and other methods by name, tool definitions by name, resources by
   * position, the text of a request id, and which values can be written out (a string with a lone
   * surrogate cannot).
   */
  datatype World = World(fixed: string -> Dict, body: (string, Json, Dict, Dict) -> Reply,
                         describe: string -> Json, resource: nat -> Json, show: Json -> string,
                         encodable: Json -> bool)

  datatype Config = Config(mode: string, profile: string) {
    predicate Modern() { mode == MODERN_VERSION }
  }

  datatype State = State(initializeSeen: bool, initialized: bool)
  const NEW := State(false, false)

  datatype Plan = Plan(response: Option<Json>, notifications: seq<Json>, status: int)

  // ----- responses -----

  function Response(id: Json, result: Dict): Json {
    Obj(map["jsonrpc" := Str("2.0"), "id" := id, "result" := Obj(result)])
  }

  function ErrorResponse(id: Json, code: int, message: string): Json {
    Obj(map["jsonrpc" := Str("2.0"), "id" := id, "error" := Obj(map["code" := Num(code as real), "message" := Str(message)])])
  }

  function Fail(id: Json, code: int, message: string, status: int): Plan {
    Plan(Some(ErrorResponse(id, code, message)), [], status)
  }

  function Succeed(id: Json, result: Dict): Plan {
    Plan(Some(Response(id, result)), [], OK)
  }

  function Answer(id: Json, reply: Reply): Plan {
    match reply.payload
    case Result(fields) => Plan(Some(Response(id, fields)), reply.notifications, OK)
    case Failure(code, message, status) => Fail(id, code, message, status)
  }

  function ModernResult(fields: Dict, scope: string, ttl: int): Dict {
    map["resultType" := Str("complete"), "_meta" := SERVER_INFO_META] + fields + map["cacheScope" := Str(scope), "ttlMs" := Num(ttl as real)]
  }

  // ----- the tool catalogue -----

  function Digit(n: nat): char
    requires n < 10
  {
    ['0', '1', '2', '3', '4', '5', '6', '7', '8', '9'][n]
  }

  /** Four digits: an index of the boundary catalogue. */
  function FourDigits(n: nat): string
    requires n < 10000
  {
    [Digit(n / 1000), Digit(n / 100 % 10), Digit(n / 10 % 10), Digit(n % 10)]
  }

  function BoundaryName(n: nat): string
    requires n < 10000
  {
    "catalog_boundary_" + FourDigits(n)
  }

  function PlainTools(modern: bool): set<string> {
    {"client_metadata", "echo", "fail", "header_echo", "progress"} + if modern then {"request_input"} else {}
  }

  function ReviewTools(modern: bool): set<string> {
    {"review_large_integer", "review_protocol_env"} + if modern then {"review_integer_elicitation", "review_mrtr_cap"} else {}
  }

  function BoundaryTools(count: nat): set<string>
    requires count <= 10000
  {
    set i | 0 <= i < count :: BoundaryName(i)
  }

  /** The boundary catalogues are filled up to their size with numbered tools. */
  function ToolNames(cfg: Config): set<string> {
    var plain := PlainTools(cfg.Modern());
    if cfg.profile == REVIEW_PROFILE || cfg.profile == REPEATED_CURSOR_PROFILE then plain + ReviewTools(cfg.Modern())
    else if cfg.profile == CATALOG_MAX_PROFILE then plain + BoundaryTools(MAX_CATALOG_ITEMS - (if cfg.Modern() then 6 else 5))
    else if cfg.profile == CATALOG_OVER_LIMIT_PROFILE then plain + BoundaryTools(MAX_CATALOG_ITEMS + 1 - (if cfg.Modern() then 6 else 5))
    else plain
  }

  function SortedNames(names: set<string>): (r: seq<seq<string>>)
    ensures r == Sorted(set x | x in names :: [x])
  {
    Sorted(set x | x in names :: [x])
  }

  function Definitions(w: World, cfg: Config): (r: seq<Json>)
    ensures |r| == |SortedNames(ToolNames(cfg))|
  {
    var names := SortedNames(ToolNames(cfg));
    seq(|names|, i requires 0 <= i < |names| => w.describe(if names[i] == [] then "" else names[i][0]))
  }

  predicate Paged(cfg: Config) {
    cfg.Modern() && (cfg.profile == REVIEW_PROFILE || cfg.profile == REPEATED_CURSOR_PROFILE)
  }

  function Take(xs: seq<Json>, n: nat): seq<Json> { if n <= |xs| then xs[..n] else xs }
  function Drop(xs: seq<Json>, n: nat): seq<Json> { if n <= |xs| then xs[n..] else [] }

  /** One page of tools: its tools and the cursor of the next page; nothing for an unknown cursor. */
  function ToolPage(w: World, cfg: Config, cursor: Json): Option<(seq<Json>, Option<string>)> {
    var all := Definitions(w, cfg);
    if !Paged(cfg) then Some((all, None))
    else if cursor == Null then Some((Take(all, 2), Some(REVIEW_PAGE_CURSOR)))
    else if cursor == Str(REVIEW_PAGE_CURSOR) then
      Some((Drop(all, 2), if cfg.profile == REPEATED_CURSOR_PROFILE then Some(REVIEW_PAGE_CURSOR) else None))
    else None
  }

  function ResourcePage(w: World, cursor: Json): Option<(seq<Json>, Option<string>)> {
    if cursor == Null then Some(([w.resource(0)], Some(RESOURCE_PAGE_CURSOR)))
    else if cursor == Str(RESOURCE_PAGE_CURSOR) then Some(([w.resource(1)], None))
    else None
  }

  function PageFields(key: string, page: (seq<Json>, Option<string>)): Dict {
    map[key := Arr(page.0)] + if page.1.Some? then map["nextCursor" := Str(page.1.value)] else map[]
  }

  function ListPage(cfg: Config, id: Json, key: string, page: Option<(seq<Json>, Option<string>)>, problem: string, ttl: int): Plan {
    if page.None? then Fail(id, INVALID_PARAMS, problem, OK)
    else
      var fields := PageFields(key, page.value);
      Succeed(id, if cfg.Modern() then ModernResult(fields, "public", ttl) else fields)
  }

  // ----- dispatch -----

  function CallTool(w: World, cfg: Config, id: Json, params: Dict, meta: Dict): Plan {
    var name := Get(params, "name");
    var arguments := if "arguments" in params then params["arguments"] else Obj(map[]);
    if !name.Str? || !arguments.Obj? then Fail(id, INVALID_PARAMS, "tools/call requires a string name and object arguments", OK)
    else if name.text !in ToolNames(cfg) then Fail(id, INVALID_PARAMS, "Unknown tool: " + name.text, OK)
    else Answer(id, w.body(name.text, id, params, meta))
  }

  /** The methods both protocol families answer alike. */
  function Shared(w: World, cfg: Config, id: Json, op: string, params: Dict, meta: Dict): Plan {
    if op == "tools/list" then ListPage(cfg, id, "tools", ToolPage(w, cfg, Get(params, "cursor")), "Invalid tool cursor", 1000)
    else if op == "tools/call" then CallTool(w, cfg, id, params, meta)
    else if op == "resources/list" then ListPage(cfg, id, "resources", ResourcePage(w, Get(params, "cursor")), "Invalid resource cursor", 2000)
    else if op == "resources/templates/list" || op == "prompts/list" then Succeed(id, w.fixed(op))
    else if op == "resources/read" || op == "prompts/get" then Answer(id, w.body(op, id, params, meta))
    else Fail(id, METHOD_NOT_FOUND, "Unknown method: " + op, NOT_FOUND)
  }

  function DiscoveryId(w: World, cfg: Config, id: Json): Json {
    if cfg.profile == MISMATCHED_DISCOVERY_ID_PROFILE then Str("review-mismatched-" + w.show(id))
    else if cfg.profile == NULL_DISCOVERY_ID_PROFILE then Null
    else id
  }

  predicate ModernMeta(params: Dict) {
    Get(params, "_meta").Obj?
    && Get(Get(params, "_meta").fields, "io.modelcontextprotocol/protocolVersion").Str?
    && Get(Get(params, "_meta").fields, "io.modelcontextprotocol/clientCapabilities").Obj?
  }

  function HandleModern(w: World, cfg: Config, id: Json, op: string, params: Dict): Plan {
    if op == "initialize" then Fail(id, METHOD_NOT_FOUND, "initialize is not supported", NOT_FOUND)
    else if !Get(params, "_meta").Obj? then Fail(id, INVALID_PARAMS, "params._meta is required", BAD_REQUEST)
    else if !ModernMeta(params) then Fail(id, INVALID_PARAMS, "_meta must include protocolVersion and clientCapabilities", BAD_REQUEST)
    else
      var meta := Get(params, "_meta").fields;
      if Get(meta, "io.modelcontextprotocol/protocolVersion") != Str(MODERN_VERSION) then
        Fail(id, UNSUPPORTED_PROTOCOL_VERSION, "Unsupported protocol version", BAD_REQUEST)
      else if op == "server/discover" then Succeed(DiscoveryId(w, cfg, id), w.fixed(op))
      else if op == "subscriptions/listen" then Answer(id, w.body(op, id, params, meta))
      else Shared(w, cfg, id, op, params, meta)
  }

  function HandleLegacy(w: World, cfg: Config, id: Json, op: string, params: Dict, s: State): (Plan, State) {
    if op == "initialize" then
      if !Get(params, "protocolVersion").Str? then (Fail(id, INVALID_PARAMS, "initialize requires protocolVersion", OK), s)
      else (Succeed(id, w.fixed(op)["protocolVersion" := Str(cfg.mode)]), s.(initializeSeen := true))
    else if op == "server/discover" then (Fail(id, METHOD_NOT_FOUND, "Unknown method: server/discover", NOT_FOUND), s)
    else if !s.initialized then (Fail(id, INVALID_REQUEST, "Server has not received notifications/initialized", OK), s)
    else if op == "ping" || op == "logging/setLevel" then (Succeed(id, map[]), s)
    else (Shared(w, cfg, id, op, params, map[]), s)
  }

  function HandleNotification(cfg: Config, op: string, s: State): (Plan, State) {
    (Plan(None, [], ACCEPTED),
     if !cfg.Modern() && op == "notifications/initialized" && s.initializeSeen then s.(initialized := true) else s)
  }

  /** A JSON-RPC 2.0 message with a method. */
  predicate HasMethod(message: Json) {
    message.Obj? && Get(message.fields, "jsonrpc") == Str("2.0") && Get(message.fields, "method").Str?
  }

  function Params(message: Dict): Json {
    if "params" in message then message["params"] else Obj(map[])
  }

  function Handle(w: World, cfg: Config, message: Json, s: State): (Plan, State) {
    if !message.Obj? then (Fail(Null, INVALID_REQUEST, "Request must be a JSON object", BAD_REQUEST), s)
    else if !HasMethod(message) then (Fail(Get(message.fields, "id"), INVALID_REQUEST, "Invalid JSON-RPC 2.0 request", BAD_REQUEST), s)
    else
      var (op, id, params) := (Get(message.fields, "method").text, Get(message.fields, "id"), Params(message.fields));
      if !params.Obj? then
        (if "id" in message.fields then Fail(id, INVALID_PARAMS, "params must be an object", BAD_REQUEST)
         else Plan(None, [], BAD_REQUEST), s)
      else if "id" !in message.fields then HandleNotification(cfg, op, s)
      else if cfg.Modern() then (HandleModern(w, cfg, id, op, params.fields), s)
      else HandleLegacy(w, cfg, id, op, params.fields, s)
  }

  // ----- one response, with the request's own id -----

  /** A message that must not be answered: a method and no id. */
  predicate Notification(message: Json) {
    HasMethod(message) && "id" !in message.fields
  }

  function IdOf(message: Json): Json {
    if message.Obj? then Get(message.fields, "id") else Null
  }

  /** The one request whose response may carry another id: server/discover, under two profiles. */
  predicate OddDiscovery(cfg: Config, message: Json) {
    && cfg.Modern() && (cfg.profile == MISMATCHED_DISCOVERY_ID_PROFILE || cfg.profile == NULL_DISCOVERY_ID_PROFILE)
    && HasMethod(message) && Get(message.fields, "method") == Str("server/discover")
  }

  /** A JSON-RPC 2.0 response object: an id, and a result or an error but not both. */
  predicate IsResponse(j: Json) {
    && j.Obj? && Get(j.fields, "jsonrpc") == Str("2.0") && "id" in j.fields
    && ("result" in j.fields <==> "error" !in j.fields)
    && "method" !in j.fields
  }

  predicate HasResult(j: Json) { j.Obj? && "result" in j.fields }

  lemma ResponseShape(id: Json, result: Dict)
    ensures IsResponse(Response(id, result)) && HasResult(Response(id, result)) && IdOf(Response(id, result)) == id
  {
    var d := Response(id, result).fields;
    assert Get(d, "jsonrpc") == Str("2.0") && Get(d, "id") == id;
  }

  lemma ErrorShape(id: Json, code: int, message: string)
    ensures IsResponse(ErrorResponse(id, code, message)) && !HasResult(ErrorResponse(id, code, message))
    ensures IdOf(ErrorResponse(id, code, message)) == id
  {
    var d := ErrorResponse(id, code, message).fields;
    assert Get(d, "jsonrpc") == Str("2.0") && Get(d, "id") == id;
  }

  ghost predicate Answers(p: Plan, id: Json) {
    p.response.Some? && IsResponse(p.response.value) && IdOf(p.response.value) == id
  }

  lemma FailAnswers(id: Json, code: int, message: string, status: int)
    ensures Answers(Fail(id, code, message, status), id) && !HasResult(Fail(id, code, message, status).response.value)
  {
    ErrorShape(id, code, message);
    hide IsResponse, HasResult, IdOf, ErrorResponse;
  }

  lemma SucceedAnswers(id: Json, result: Dict)
    ensures Answers(Succeed(id, result), id) && HasResult(Succeed(id, result).response.value)
  {
    ResponseShape(id, result);
    hide IsResponse, HasResult, IdOf, Response;
  }

  lemma AnswerAnswers(id: Json, reply: Reply)
    ensures Answers(Answer(id, reply), id)
  {
    hide IsResponse, IdOf, Response, ErrorResponse;
    match reply.payload
    case Result(fields) => ResponseShape(id, fields);
    case Failure(code, message, status) => ErrorShape(id, code, message);
  }

  lemma ListPageAnswers(cfg: Config, id: Json, key: string, page: Option<(seq<Json>, Option<string>)>, problem: string, ttl: int)
    ensures Answers(ListPage(cfg, id, key, page, problem, ttl), id)
  {
    hide Answers, Fail, Succeed, PageFields, ModernResult;
    if page.None? {
      FailAnswers(id, INVALID_PARAMS, problem, OK);
    } else {
      var fields := PageFields(key, page.value);
      SucceedAnswers(id, if cfg.Modern() then ModernResult(fields, "public", ttl) else fields);
    }
  }

  lemma CallToolAnswers(w: World, cfg: Config, id: Json, params: Dict, meta: Dict)
    ensures Answers(CallTool(w, cfg, id, params, meta), id)
  {
    hide Answers, Fail, Answer, ToolNames;
    var name := Get(params, "name");
    FailAnswers(id, INVALID_PARAMS, "tools/call requires a string name and object arguments", OK);
    if name.Str? {
      FailAnswers(id, INVALID_PARAMS, "Unknown tool: " + name.text, OK);
      AnswerAnswers(id, w.body(name.text, id, params, meta));
    }
  }

  lemma SharedAnswers(w: World, cfg: Config, id: Json, op: string, params: Dict, meta: Dict)
    ensures Answers(Shared(w, cfg, id, op, params, meta), id)
  {
    hide Answers, Fail, Answer, Succeed, ListPage, CallTool, ToolPage, ResourcePage;
    ListPageAnswers(cfg, id, "tools", ToolPage(w, cfg, Get(params, "cursor")), "Invalid tool cursor", 1000);
    ListPageAnswers(cfg, id, "resources", ResourcePage(w, Get(params, "cursor")), "Invalid resource cursor", 2000);
    CallToolAnswers(w, cfg, id, params, meta);
    SucceedAnswers(id, w.fixed(op));
    AnswerAnswers(id, w.body(op, id, params, meta));
    FailAnswers(id, METHOD_NOT_FOUND, "Unknown method: " + op, NOT_FOUND);
  }

  lemma HandleModernAnswers(w: World, cfg: Config, id: Json, op: string, params: Dict)
    ensures Answers(HandleModern(w, cfg, id, op, params),
                    if op == "server/discover" && HandleModern(w, cfg, id, op, params).status == OK then DiscoveryId(w, cfg, id) else id)
  {
    hide Answers, Answer, Shared, DiscoveryId, ModernMeta;
    FailAnswers(id, METHOD_NOT_FOUND, "initialize is not supported", NOT_FOUND);
    FailAnswers(id, INVALID_PARAMS, "params._meta is required", BAD_REQUEST);
    FailAnswers(id, INVALID_PARAMS, "_meta must include protocolVersion and clientCapabilities", BAD_REQUEST);
    FailAnswers(id, UNSUPPORTED_PROTOCOL_VERSION, "Unsupported protocol version", BAD_REQUEST);
    SucceedAnswers(DiscoveryId(w, cfg, id), w.fixed(op));
    if Get(params, "_meta").Obj? {
      AnswerAnswers(id, w.body(op, id, params, Get(params, "_meta").fields));
      SharedAnswers(w, cfg, id, op, params, Get(params, "_meta").fields);
    }
  }
}
