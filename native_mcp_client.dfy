/** The native MCP client of `data/native_mcp_client.py`: one child process per
    Klaviyo account speaking newline-delimited JSON-RPC 2.0, a registry of
    those processes by name, and the fetch orchestration that turns their
    tool replies into the data dictionary the calendar stages use.

    The child process is an oracle: the lines it will write on stdout are
    fixed in advance (`stdout`), and reading past them returns "" as
    `readline` does at the end of the stream. `json.loads` is the parameter
    `decode` (`None` where it raises). Concurrency is not modelled: every
    `asyncio.gather` in the source awaits coroutines on one process whose lock
    is never contended and whose reads block, so they run one after the other
    in the order they are listed. */
module NativeMcpClient {
  import opened Wrappers
  import opened Text
  import OrderedMap
  import opened JsonValue
  import SecretManager

  type Decoder = string -> Option<Value>

  /** `MCPServerConfig`; the file form keeps whatever values the file holds. */
  datatype ServerConfig = ServerConfig(name: string, command: Value, args: Value, env: Value)

  /** One JSON-RPC request as written to the child's stdin. */
  datatype Request = Request(id: nat, rpcMethod: string, params: Value)

  /** The exceptions this client raises. */
  datatype Failure =
    | NotRunning(server: string)
    | ClosedConnection(server: string)
    | McpError(detail: string)
    | LaunchFailed(server: string)
    | NoServer(client: string)
    | CriticalApiFailure(report: string)
    | ValidationFailed(report: string)
    | NoConfiguration
    | Raised(exc: PyExc)

  /** `str(e)`. Python's own messages for its built-in exceptions are not
      modelled: they are shown by the exception's class name. */
  function Message(f: Failure): string {
    match f
    case NotRunning(s) => "MCP server " + s + " not running"
    case ClosedConnection(s) => "MCP server " + s + " closed connection"
    case McpError(d) => "MCP error: " + d
    case LaunchFailed(s) => "Failed to start MCP server " + s
    case NoServer(c) => "No MCP server found for client: " + c
    case CriticalApiFailure(m) => m
    case ValidationFailed(m) => m
    case NoConfiguration => "Could not load MCP configuration from local file or Clients API"
    case Raised(e) =>
      match e
      case TypeError => "TypeError"
      case AttributeError => "AttributeError"
      case KeyError => "KeyError"
      case ValueError => "ValueError"
      case JsonDecodeError => "JSONDecodeError"
  }

  function Py<T>(r: Result<T, PyExc>): (o: Result<T, Failure>)
    ensures o.Ok? <==> r.Ok?
    ensures o.Ok? ==> o.value == r.value
    ensures o.Err? ==> o.error == Raised(r.error)
  {
    match r
    case Ok(v) => Ok(v)
    case Err(e) => Err(Raised(e))
  }

  /** `json.loads(s)` */
  function Loads(decode: Decoder, s: string): (r: Result<Value, Failure>)
    ensures r.Ok? <==> decode(s).Some?
    ensures r.Ok? ==> r.value == decode(s).value
  {
    match decode(s)
    case Some(v) => Ok(v)
    case None => Err(Raised(JsonDecodeError))
  }

  // ---------------------------------------------------------------------------
  // One request/response step

  /** What `_send_request` does with one line read from the child: parse it,
      and raise for a response that has an `error` member. */
  function Reply(line: string, decode: Decoder): (r: Result<Value, Failure>)
    ensures r.Ok? <==> decode(line).Some? && In("error", decode(line).value) == Ok(false)
    ensures r.Ok? ==> r.value == decode(line).value
    ensures (decode(line).Some? && HasField(decode(line).value, "error")
             && Field(decode(line).value, "error").value.Obj?) ==> r.Err? && r.error.McpError?
  {
    var response :- Loads(decode, line);
    var hasError :- Py(In("error", response));
    if hasError then
      var error :- Py(GetItem(response, "error"));
      var message :- Py(GetOr(error, "message", Str("Unknown error")));
      Err(McpError(PyStr(message)))
    else Ok(response)
  }

  /** The line `readline` returns: "" once the child has nothing more to say. */
  function NextLine(out: seq<string>): string {
    if out == [] then "" else out[0]
  }

  function AfterRead(out: seq<string>): (r: seq<string>)
    ensures out != [] ==> |r| < |out|
  {
    if out == [] then [] else out[1..]
  }

  /** The outcome of `_send_request` against a child about to write `out`. */
  function Exchange(name: string, running: bool, out: seq<string>, decode: Decoder): (r: Result<Value, Failure>)
    ensures !running ==> r == Err(NotRunning(name))
    ensures running && NextLine(out) == "" ==> r == Err(ClosedConnection(name))
    ensures r.Ok? ==> running && out != [] && r == Reply(out[0], decode)
  {
    if !running then Err(NotRunning(name))
    else if NextLine(out) == "" then Err(ClosedConnection(name))
    else Reply(out[0], decode)
  }

  /** `response.get("result", {}).get("content", [])` */
  function Content(response: Value): Result<Value, Failure> {
    var result :- Py(GetOr(response, "result", Obj([])));
    Py(GetOr(result, "content", Arr([])))
  }

  /** The outcome of `call_tool`. */
  function ToolCall(name: string, running: bool, out: seq<string>, decode: Decoder): (r: Result<Value, Failure>)
    ensures r.Ok? ==> running && out != []
  {
    var response :- Exchange(name, running, out, decode);
    Content(response)
  }

  /** The outcome of `list_tools`: `response.get("result", {}).get("tools", [])`. */
  function ToolList(name: string, running: bool, out: seq<string>, decode: Decoder): (r: Result<Value, Failure>)
    ensures r.Ok? ==> running && out != []
  {
    var response :- Exchange(name, running, out, decode);
    var result :- Py(GetOr(response, "result", Obj([])));
    Py(GetOr(result, "tools", Arr([])))
  }

  function ToolRequest(id: nat, tool: string, arguments: Value): Request {
    Request(id, "tools/call", Obj([("name", Str(tool)), ("arguments", arguments)]))
  }

  /** The `initialize` request's parameters. */
  const InitializeParams: Value :=
    Obj([("protocolVersion", Str("2024-11-05")),
         ("capabilities", Obj([("roots", Obj([("listChanged", Bool(true))]))])),
         ("clientInfo", Obj([("name", Str("emailpilot-simple")), ("version", Str("1.0.0"))]))])

  /** Request ids strictly increase and none exceeds the counter. */
  ghost predicate IdsBelow(sent: seq<Request>, counter: nat) {
    && (forall i, j :: 0 <= i < j < |sent| ==> sent[i].id < sent[j].id)
    && (forall i :: 0 <= i < |sent| ==> 0 < sent[i].id <= counter)
  }

  /** No two requests written to one child share an id. */
  lemma IdsDistinct(sent: seq<Request>, counter: nat, i: int, j: int)
    requires IdsBelow(sent, counter)
    requires 0 <= i < |sent| && 0 <= j < |sent| && i != j
    ensures sent[i].id != sent[j].id
  {
    if i < j {
      assert sent[i].id < sent[j].id;
    } else {
      assert sent[j].id < sent[i].id;
    }
  }

  /** `MCPServerProcess`: one child process. */
  class ServerProcess {
    const config: ServerConfig
    /** `self.process` and its pipes are set. */
    var running: bool
    /** `stop` has terminated the child. */
    var stopped: bool
    /** `self.request_id`: the last id handed out. */
    var requestId: nat
    /** The lines the child has yet to write. */
    var stdout: seq<string>
    /** The requests written to the child's stdin, in order. */
    var sent: seq<Request>

    ghost predicate Valid()
      reads this
    {
      IdsBelow(sent, requestId)
    }

    constructor(config: ServerConfig)
      ensures this.config == config
      ensures !running && !stopped && requestId == 0 && stdout == [] && sent == []
      ensures Valid()
    {
      this.config := config;
      running := false;
      stopped := false;
      requestId := 0;
      stdout := [];
      sent := [];
    }

    /** `_next_request_id`: ids run 1, 2, 3, ... */
    method NextRequestId() returns (id: nat)
      requires Valid()
      modifies this
      ensures Valid()
      ensures id == old(requestId) + 1 && requestId == id
      ensures forall i :: 0 <= i < |sent| ==> sent[i].id < id
      ensures running == old(running) && stopped == old(stopped)
      ensures stdout == old(stdout) && sent == old(sent)
    {
      requestId := requestId + 1;
      id := requestId;
    }

    /** `_send_request`: write the request, read one line, parse it. */
    method SendRequest(request: Request, decode: Decoder) returns (r: Result<Value, Failure>)
      requires Valid()
      requires request.id <= requestId
      requires forall i :: 0 <= i < |sent| ==> sent[i].id < request.id
      requires 0 < request.id
      modifies this
      ensures Valid()
      ensures r == Exchange(config.name, old(running), old(stdout), decode)
      ensures sent == if old(running) then old(sent) + [request] else old(sent)
      ensures stdout == if old(running) then AfterRead(old(stdout)) else old(stdout)
      ensures running == old(running) && stopped == old(stopped) && requestId == old(requestId)
    {
      if !running {
        return Err(NotRunning(config.name));
      }
      sent := sent + [request];
      var line := NextLine(stdout);
      stdout := AfterRead(stdout);
      if line == "" {
        return Err(ClosedConnection(config.name));
      }
      r := Reply(line, decode);
    }

    /** `call_tool`: the id is taken first, even when the child is not running. */
    method CallTool(tool: string, arguments: Value, decode: Decoder) returns (r: Result<Value, Failure>)
      requires Valid()
      modifies this
      ensures Valid()
      ensures r == ToolCall(config.name, old(running), old(stdout), decode)
      ensures requestId == old(requestId) + 1
      ensures sent == if old(running) then old(sent) + [ToolRequest(requestId, tool, arguments)] else old(sent)
      ensures stdout == if old(running) then AfterRead(old(stdout)) else old(stdout)
      ensures running == old(running) && stopped == old(stopped)
    {
      var id := NextRequestId();
      var response :- SendRequest(ToolRequest(id, tool, arguments), decode);
      r := Content(response);
    }

    /** `list_tools`: like `call_tool`, with a `tools/list` request and the `tools` member of the result. */
    method ListTools(decode: Decoder) returns (r: Result<Value, Failure>)
      requires Valid()
      modifies this
      ensures Valid()
      ensures r == ToolList(config.name, old(running), old(stdout), decode)
      ensures requestId == old(requestId) + 1
      ensures sent == if old(running) then old(sent) + [Request(requestId, "tools/list", Obj([]))] else old(sent)
      ensures stdout == if old(running) then AfterRead(old(stdout)) else old(stdout)
      ensures running == old(running) && stopped == old(stopped)
    {
      var id := NextRequestId();
      var response :- SendRequest(Request(id, "tools/list", Obj([])), decode);
      var result :- Py(GetOr(response, "result", Obj([])));
      r := Py(GetOr(result, "tools", Arr([])));
    }

    /** `start`: spawn the child (`launch` is `None` when `Popen` raises,
        otherwise the lines the child will write) and send `initialize`. */
    method Start(launch: Option<seq<string>>, decode: Decoder) returns (r: Result<(), Failure>)
      requires Valid()
      modifies this
      ensures Valid()
      ensures launch.None? ==> r == Err(LaunchFailed(config.name)) && running == old(running)
                               && stdout == old(stdout) && sent == old(sent) && requestId == old(requestId)
      ensures launch.Some? ==> running && requestId == old(requestId) + 1
                               && sent == old(sent) + [Request(requestId, "initialize", InitializeParams)]
                               && stdout == AfterRead(launch.value)
      ensures launch.Some? ==> (r.Ok? <==> Handshake(config.name, launch.value, decode).Ok?)
      ensures stopped == old(stopped)
    {
      if launch.None? {
        return Err(LaunchFailed(config.name));
      }
      running := true;
      stdout := launch.value;
      var id := NextRequestId();
      var response :- SendRequest(Request(id, "initialize", InitializeParams), decode);
      var result :- Py(GetOr(response, "result", Obj([])));
      var info :- Py(GetOr(result, "serverInfo", Obj([])));
      r := Ok(());
    }

    /** `stop`: terminate the child. `self.process` is not cleared. */
    method Stop()
      modifies this
      ensures stopped == (old(stopped) || old(running))
      ensures running == old(running) && requestId == old(requestId)
      ensures stdout == old(stdout) && sent == old(sent)
    {
      if running {
        stopped := true;
      }
    }
  }

  /** Whether the `initialize` exchange succeeds, including the
      `response.get('result', {}).get('serverInfo', {})` the log line does. */
  function Handshake(name: string, out: seq<string>, decode: Decoder): Result<Value, Failure> {
    var response :- Exchange(name, true, out, decode);
    var result :- Py(GetOr(response, "result", Obj([])));
    Py(GetOr(result, "serverInfo", Obj([])))
  }

  // ---------------------------------------------------------------------------
  // Tool replies

  /** `result[0]` on a non-empty sized value. */
  function FirstItem(v: Value): (r: Result<Value, PyExc>)
    requires Len(v).Some? && Len(v).value > 0
  {
    match v
    case Arr(items) => Ok(items[0])
    case Str(s) => Ok(Str([s[0]]))
    case Obj(_) => Err(KeyError)
  }

  /** The common head of every fetch: `if result and len(result) > 0`, the
      first content item, and the JSON text it carries when its type is
      "text". `None` when there is no such text (the fetch then returns []). */
  function TextPayload(content: Value, decode: Decoder): (r: Result<Option<Value>, Failure>)
    ensures !Truthy(content) ==> r == Ok(None)
    ensures r.Ok? && r.value.Some? ==> Truthy(content) && Len(content).Some?
  {
    if !Truthy(content) then Ok(None)
    else if Len(content).None? then Err(Raised(TypeError))
    else
      var first :- Py(FirstItem(content));
      if !first.Obj? then Err(Raised(AttributeError))
      else if GetOr(first, "type", Null).value != Str("text") then Ok(None)
      else
        var text := GetOr(first, "text", Str("{}")).value;
        if !text.Str? then Err(Raised(TypeError))
        else
          var data :- Loads(decode, text.s);
          Ok(Some(data))
  }

  /** `_fetch_segments`, `_fetch_flows`, `_fetch_metrics`, `_fetch_lists`:
      the `data` member of the payload, whatever it is, or [] without one. */
  function ListData(content: Value, decode: Decoder): (r: Result<Value, Failure>)
    ensures !Truthy(content) ==> r == Ok(Arr([]))
    ensures r.Ok? ==> TextPayload(content, decode).Ok?
    ensures var t := TextPayload(content, decode);
            && (t.Err? ==> r == Err(t.error))
            && (t == Ok(None) ==> r == Ok(Arr([])))
            && (t.Ok? && t.value.Some? ==> (r.Ok? <==> t.value.value.Obj?))
            && (t.Ok? && t.value.Some? && t.value.value.Obj? ==>
                  r.value == if HasField(t.value.value, "data") then Field(t.value.value, "data").value else Arr([]))
  {
    var payload :- TextPayload(content, decode);
    match payload
    case None => Ok(Arr([]))
    case Some(data) => Py(GetOr(data, "data", Arr([])))
  }

  /** `_fetch_campaigns`: the payload's `data` poured into a fresh list. */
  function CampaignData(content: Value, decode: Decoder): (r: Result<Value, Failure>)
    ensures r.Ok? ==> r.value.Arr?
    ensures !Truthy(content) ==> r == Ok(Arr([]))
    ensures var d := ListData(content, decode);
            && (d.Err? ==> r == Err(d.error))
            && (d.Ok? ==> (r.Ok? <==> Iterate(d.value).Some?))
            && (r.Ok? ==> d.Ok? && r.value.items == Iterate(d.value).value)
  {
    var data :- ListData(content, decode);
    match Iterate(data)
    case Some(xs) => Ok(Arr(xs))
    case None => Err(Raised(TypeError))
  }

  // ---------------------------------------------------------------------------
  // Catalog pagination

  /** What one catalog page tells the loop to do. */
  datatype Page = Fail | Last(items: seq<Value>) | More(items: seq<Value>, cursor: Value)

  /** One iteration of the loop in `_fetch_catalog_items` after the tool call:
      an exception anywhere is `Fail`, no text content ends the loop with
      nothing added, a page without a truthy `links.next` is the last one. */
  function PageStep(call: Result<Value, Failure>, decode: Decoder): (p: Page)
    ensures call.Err? ==> p == Fail
    ensures p.More? ==> Truthy(p.cursor)
    ensures call.Ok? && TextPayload(call.value, decode).Err? ==> p == Fail
    ensures call.Ok? && TextPayload(call.value, decode) == Ok(None) ==> p == Last([])
    ensures call.Ok? && TextPayload(call.value, decode).Ok? && TextPayload(call.value, decode).value.Some? ==>
              var data := TextPayload(call.value, decode).value.value;
              p != Fail ==>
                && data.Obj?
                && Iterate(GetOr(data, "data", Arr([])).value).Some?
                && p.items == Iterate(GetOr(data, "data", Arr([])).value).value
                && GetOr(data, "links", Obj([])).value.Obj?
                && (p.More? <==> Truthy(GetOr(GetOr(data, "links", Obj([])).value, "next", Null).value))
  {
    match call
    case Err(_) => Fail
    case Ok(content) =>
      match TextPayload(content, decode)
      case Err(_) => Fail
      case Ok(None) => Last([])
      case Ok(Some(data)) =>
        if !data.Obj? then Fail
        else
          var items := GetOr(data, "data", Arr([])).value;
          var links := GetOr(data, "links", Obj([])).value;
          if Len(items).None? || !links.Obj? then Fail
          else
            var next := GetOr(links, "next", Null).value;
            if Truthy(next) then More(Iterate(items).value, next) else Last(Iterate(items).value)
  }

  const MaxCatalogItems: nat := 100

  function Cap(items: seq<Value>): (r: seq<Value>)
    ensures |r| <= MaxCatalogItems && r <= items
    ensures |items| <= MaxCatalogItems ==> r == items
  {
    if |items| <= MaxCatalogItems then items else items[..MaxCatalogItems]
  }

  /** The result of the pagination loop, entered with `acc` collected so far,
      against a child about to write `out`. */
  function Catalog(acc: seq<Value>, name: string, running: bool, out: seq<string>, decode: Decoder): (r: seq<Value>)
    decreases |out|
    ensures |r| <= MaxCatalogItems
  {
    if |acc| >= MaxCatalogItems then Cap(acc)
    else
      var call := ToolCall(name, running, out, decode);
      match PageStep(call, decode)
      case Fail => []
      case Last(xs) => Cap(acc + xs)
      case More(xs, _) => Catalog(acc + xs, name, running, out[1..], decode)
  }

  /** Every item the pages hold, read until the loop would stop on its own. */
  function PageItems(name: string, running: bool, out: seq<string>, decode: Decoder): seq<Value>
    decreases |out|
  {
    var call := ToolCall(name, running, out, decode);
    match PageStep(call, decode)
    case Fail => []
    case Last(xs) => xs
    case More(xs, _) => xs + PageItems(name, running, out[1..], decode)
  }

  /** The catalog is a prefix of the pages' items concatenated in order
      (the empty prefix when a page fails). */
  lemma {:induction false} CatalogIsPrefix(acc: seq<Value>, name: string, running: bool, out: seq<string>, decode: Decoder)
    ensures Catalog(acc, name, running, out, decode) <= acc + PageItems(name, running, out, decode)
    decreases |out|, 1
  {
    if |acc| < MaxCatalogItems {
      var p := PageStep(ToolCall(name, running, out, decode), decode);
      if p.More? {
        CatalogIsPrefixMore(acc, name, running, out, decode);
      } else if p.Last? {
        assert Catalog(acc, name, running, out, decode) == Cap(acc + p.items);
      }
    }
  }

  /** The step of `CatalogIsPrefix` past a page that names a next one. */
  lemma {:induction false} CatalogIsPrefixMore(acc: seq<Value>, name: string, running: bool, out: seq<string>, decode: Decoder)
    requires |acc| < MaxCatalogItems
    requires PageStep(ToolCall(name, running, out, decode), decode).More?
    ensures Catalog(acc, name, running, out, decode) <= acc + PageItems(name, running, out, decode)
    decreases |out|, 0
  {
    var p := PageStep(ToolCall(name, running, out, decode), decode);
    var rest := PageItems(name, running, out[1..], decode);
    var next := Catalog(acc + p.items, name, running, out[1..], decode);
    assert Catalog(acc, name, running, out, decode) == next;
    assert PageItems(name, running, out, decode) == p.items + rest;
    CatalogIsPrefix(acc + p.items, name, running, out[1..], decode);
    OrderedMap.ConcatAssoc(acc, p.items, rest);
  }

  /** A failing page discards everything collected before it. */
  lemma CatalogFailure(acc: seq<Value>, name: string, running: bool, out: seq<string>, decode: Decoder)
    requires |acc| < MaxCatalogItems
    requires PageStep(ToolCall(name, running, out, decode), decode) == Fail
    ensures Catalog(acc, name, running, out, decode) == []
  {
  }

  /** The request for one catalog page; the cursor is sent only when truthy. */
  function CatalogParams(cursor: Value): Value {
    var fields := Arr([Str("title"), Str("description"), Str("price"), Str("external_id"),
                       Str("url"), Str("image_full_url"), Str("custom_metadata"), Str("published")]);
    var base := [("model", Str("claude")), ("catalog_item_fields", fields)];
    if Truthy(cursor) then Obj(base + [("page_cursor", cursor)]) else Obj(base)
  }

  /** `_fetch_catalog_items`: never raises; at most 100 items. */
  method FetchCatalogItems(server: ServerProcess, decode: Decoder) returns (items: seq<Value>)
    requires server.Valid()
    modifies server
    ensures server.Valid()
    ensures items == Catalog([], server.config.name, old(server.running), old(server.stdout), decode)
    ensures |items| <= MaxCatalogItems
    ensures server.running == old(server.running) && server.stopped == old(server.stopped)
  {
    var all: seq<Value> := [];
    var cursor := Null;
    ghost var name := server.config.name;
    while |all| < MaxCatalogItems
      invariant server.config.name == name
      invariant server.Valid()
      invariant server.running == old(server.running) && server.stopped == old(server.stopped)
      invariant Catalog([], name, old(server.running), old(server.stdout), decode)
                == Catalog(all, name, server.running, server.stdout, decode)
      decreases |server.stdout|
    {
      ghost var before := server.stdout;
      var call := server.CallTool("klaviyo_get_catalog_items", CatalogParams(cursor), decode);
      match PageStep(call, decode)
      case Fail =>
        return [];
      case Last(xs) =>
        all := all + xs;
        assert Catalog([], name, old(server.running), old(server.stdout), decode) == Cap(all);
        break;
      case More(xs, next) =>
        all := all + xs;
        assert server.stdout == before[1..];
        if |all| >= MaxCatalogItems {
          break;
        }
        cursor := next;
    }
    items := Cap(all);
  }

  // ---------------------------------------------------------------------------
  // The "real data" gate

  const NoSegmentsError := "No segments retrieved from Klaviyo - cannot generate audience-targeted campaigns"
  const NoHistoryError := "No historical campaigns or flows found - cannot base recommendations on past performance"
  const NoFlowsWarning := "No flows found - this may be expected for newer accounts"

  /** `not x or len(x) == 0`: on a value with a length it is `len(x) == 0`;
      `TypeError` for a truthy value without a length. */
  function Empty(x: Value): (r: Result<bool, PyExc>)
    ensures r.Ok? ==> r.value == !Truthy(x)
    ensures r.Err? <==> Truthy(x) && Len(x).None?
    ensures r.Ok? && Len(x).Some? ==> (r.value <==> Len(x).value == 0)
  {
    if !Truthy(x) then Ok(true)
    else if Len(x).None? then Err(TypeError)
    else Ok(false)
  }

  datatype Findings = Findings(errors: seq<string>, warnings: seq<string>)

  /** `mcp_data.get(key, [])` on a dict. */
  function Member(data: Value, key: string): Value
    requires data.Obj?
  {
    GetOr(data, key, Arr([])).value
  }

  /** The error and warning lists `_validate_mcp_data` collects. Every length
      test that can raise raises `TypeError`, so which one raises first does
      not matter. */
  function DataFindings(data: Value): Result<Findings, PyExc> {
    if !data.Obj? then Err(AttributeError)
    else
      var noSegments := Empty(Member(data, "segments"));
      var noCampaigns := Empty(Member(data, "campaigns"));
      var noFlows := Empty(Member(data, "flows"));
      if noSegments.Err? || noCampaigns.Err? || noFlows.Err? then Err(TypeError)
      else
        Ok(Findings((if noSegments.value then [NoSegmentsError] else [])
                    + (if noCampaigns.value && noFlows.value then [NoHistoryError] else []),
                    if noFlows.value then [NoFlowsWarning] else []))
  }

  /** The gate halts exactly when segments are empty or campaigns and flows
      both are; empty flows alone only warn. */
  lemma DataFindingsRules(data: Value)
    requires DataFindings(data).Ok?
    ensures data.Obj?
    ensures NoSegmentsError in DataFindings(data).value.errors <==> !Truthy(Member(data, "segments"))
    ensures NoHistoryError in DataFindings(data).value.errors
            <==> !Truthy(Member(data, "campaigns")) && !Truthy(Member(data, "flows"))
    ensures DataFindings(data).value.errors != []
            <==> !Truthy(Member(data, "segments"))
                 || (!Truthy(Member(data, "campaigns")) && !Truthy(Member(data, "flows")))
    ensures DataFindings(data).value.warnings == (if Truthy(Member(data, "flows")) then [] else [NoFlowsWarning])
  {
    assert NoSegmentsError != NoHistoryError;
  }

  /** The gate raises `TypeError` exactly when one of the three members is
      truthy but has no length. */
  lemma DataFindingsRaises(data: Value)
    requires data.Obj?
    ensures DataFindings(data).Err? <==>
              exists key :: key in ["segments", "campaigns", "flows"]
                            && Truthy(Member(data, key)) && Len(Member(data, key)).None?
  {
    if DataFindings(data).Err? {
      var key := if Empty(Member(data, "segments")).Err? then "segments"
                 else if Empty(Member(data, "campaigns")).Err? then "campaigns" else "flows";
      assert key in ["segments", "campaigns", "flows"];
    }
  }

  /** `"".join(prefix + x + "\n" for x in xs)` */
  function Bullets(prefix: string, xs: seq<string>): string {
    if xs == [] then "" else Bullets(prefix, xs[..|xs| - 1]) + prefix + xs[|xs| - 1] + "\n"
  }

  /** Every item gets its own bullet line. */
  lemma {:induction false} BulletsContain(prefix: string, xs: seq<string>, i: int)
    requires 0 <= i < |xs|
    ensures Contains(Bullets(prefix, xs), prefix + xs[i] + "\n")
    decreases |xs|
  {
    var front := Bullets(prefix, xs[..|xs| - 1]);
    var last := prefix + xs[|xs| - 1] + "\n";
    assert Bullets(prefix, xs) == front + last;
    if i == |xs| - 1 {
      assert (front + last)[|front|..|front| + |last|] == last;
      assert OccursAt(front + last, last, |front|);
    } else {
      assert xs[..|xs| - 1][i] == xs[i];
      BulletsContain(prefix, xs[..|xs| - 1], i);
      ContainsInPrefix(front, last, prefix + xs[i] + "\n");
    }
  }

  lemma ContainsInPrefix(a: string, b: string, sub: string)
    requires Contains(a, sub)
    ensures Contains(a + b, sub)
  {
    var i :| 0 <= i <= |a| - |sub| && OccursAt(a, sub, i);
    assert (a + b)[i..i + |sub|] == a[i..i + |sub|];
    assert OccursAt(a + b, sub, i);
  }

  function DateRange(start: Option<string>, end: Option<string>): string {
    if start.Some? && start.value != "" && end.Some? && end.value != "" then
      " (" + start.value + " to " + end.value + ")"
    else ""
  }

  function HaltHeader(client: string, start: Option<string>, end: Option<string>): string {
    "\n❌ MCP Data Validation Failed for " + client + DateRange(start, end) + "\n\n" + "Critical Issues:\n"
  }

  function WarningSection(warnings: seq<string>): string {
    if warnings != [] then "\nWarnings:\n" + Bullets("  ⚠️  ", warnings) else ""
  }

  const HaltFooter := "\n\U{1F6D1} WORKFLOW HALTED - Cannot generate calendar without real Klaviyo data"

  /** The `ValueError` text of a halted validation. */
  function HaltReport(client: string, start: Option<string>, end: Option<string>, f: Findings): string {
    HaltHeader(client, start, end) + Bullets("  • ", f.errors) + (WarningSection(f.warnings) + HaltFooter)
  }

  /** The outcome of `_validate_mcp_data`: the warnings it logs, or the
      exception it raises. */
  function CheckData(data: Value, client: string, start: Option<string>, end: Option<string>): (r: Result<seq<string>, Failure>)
    ensures DataFindings(data).Err? ==> r == Err(Raised(DataFindings(data).error))
    ensures DataFindings(data).Ok? ==> (r.Ok? <==> DataFindings(data).value.errors == [])
    ensures r.Ok? ==> r.value == DataFindings(data).value.warnings
    ensures DataFindings(data).Ok? && r.Err? ==>
              r.error == ValidationFailed(HaltReport(client, start, end, DataFindings(data).value))
  {
    var f :- Py(DataFindings(data));
    if f.errors != [] then Err(ValidationFailed(HaltReport(client, start, end, f)))
    else Ok(f.warnings)
  }

  lemma ContainsInMiddle(a: string, b: string, c: string, sub: string)
    requires Contains(b, sub)
    ensures Contains(a + b + c, sub)
  {
    var k :| 0 <= k <= |b| - |sub| && OccursAt(b, sub, k);
    assert (a + b + c)[|a| + k..|a| + k + |sub|] == b[k..k + |sub|];
    assert OccursAt(a + b + c, sub, |a| + k);
  }

  /** The halt report names every violated rule. */
  lemma HaltReportNamesErrors(client: string, start: Option<string>, end: Option<string>, f: Findings, i: int)
    requires 0 <= i < |f.errors|
    ensures Contains(HaltReport(client, start, end, f), "  • " + f.errors[i] + "\n")
  {
    BulletsContain("  • ", f.errors, i);
    ContainsInMiddle(HaltHeader(client, start, end), Bullets("  • ", f.errors),
                     WarningSection(f.warnings) + HaltFooter, "  • " + f.errors[i] + "\n");
  }

  /** The gate as the caller sees it: data whose lengths can be taken passes
      exactly when there are segments and either campaigns or flows, passing
      on the missing-flows warning if any; otherwise it raises with a report
      that names every violated rule. */
  lemma GateRules(data: Value, client: string, start: Option<string>, end: Option<string>)
    requires DataFindings(data).Ok?
    ensures data.Obj?
    ensures var r := CheckData(data, client, start, end);
            (r.Ok? <==> Truthy(Member(data, "segments"))
                        && (Truthy(Member(data, "campaigns")) || Truthy(Member(data, "flows"))))
            && (r.Ok? ==> r.value == (if Truthy(Member(data, "flows")) then [] else [NoFlowsWarning]))
            && (r.Err? ==> r.error.ValidationFailed?
                           && forall i :: 0 <= i < |DataFindings(data).value.errors| ==>
                                Contains(r.error.report, "  • " + DataFindings(data).value.errors[i] + "\n"))
  {
    DataFindingsRules(data);
    var f := DataFindings(data).value;
    forall i | 0 <= i < |f.errors|
      ensures Contains(HaltReport(client, start, end, f), "  • " + f.errors[i] + "\n")
    {
      HaltReportNamesErrors(client, start, end, f, i);
    }
  }

  /** `_validate_mcp_data`, which builds its report line by line. */
  method ValidateMcpData(data: Value, client: string, start: Option<string>, end: Option<string>)
    returns (r: Result<seq<string>, Failure>)
    ensures r == CheckData(data, client, start, end)
  {
    var f :- Py(DataFindings(data));
    if f.errors == [] {
      return Ok(f.warnings);
    }
    var report := BuildHaltReport(client, start, end, f);
    r := Err(ValidationFailed(report));
  }

  method BuildHaltReport(client: string, start: Option<string>, end: Option<string>, f: Findings)
    returns (report: string)
    ensures report == HaltReport(client, start, end, f)
  {
    report := HaltHeader(client, start, end);
    report := AppendBullets(report, "  • ", f.errors);
    var warn := "";
    if f.warnings != [] {
      warn := AppendBullets("\nWarnings:\n", "  ⚠️  ", f.warnings);
    }
    assert warn == WarningSection(f.warnings);
    report := report + (warn + HaltFooter);
  }

  /** `for x in xs: text += prefix + x + "\n"` */
  method AppendBullets(text: string, prefix: string, xs: seq<string>) returns (r: string)
    ensures r == text + Bullets(prefix, xs)
  {
    r := text;
    for i := 0 to |xs|
      invariant r == text + Bullets(prefix, xs[..i])
    {
      assert xs[..i + 1][..i] == xs[..i];
      r := r + prefix + xs[i] + "\n";
    }
    assert xs[..|xs|] == xs;
  }

  // ---------------------------------------------------------------------------
  // Configuration

  /** The local `.mcp.json`: absent, unreadable (`open` or `json.load`
      raises), or its parsed contents. */
  datatype ConfigFile = Missing | Unreadable | Json(data: Value)

  const DefaultCommand := "/usr/local/bin/uvx"

  /** One `mcpServers` entry of the file, or `None` when its name does not
      mention Klaviyo. */
  function FileEntry(name: string, entry: Value): (r: Result<Option<ServerConfig>, PyExc>)
    ensures r.Ok? && r.value.Some? ==> Contains(name, "Klaviyo") && r.value.value.name == name
    ensures !Contains(name, "Klaviyo") ==> r == Ok(None)
    ensures Contains(name, "Klaviyo") && entry.Obj? && r.Ok? ==>
              && r.value.Some?
              && r.value.value.command == (if HasField(entry, "command") then Field(entry, "command").value else Str(DefaultCommand))
              && r.value.value.args == (if HasField(entry, "args") then Field(entry, "args").value else Arr([]))
  {
    if !Contains(name, "Klaviyo") then Ok(None)
    else
      var env :- GetOr(entry, "env", Obj([]));
      // `.copy()` exists on dicts and lists only
      if !(env.Obj? || env.Arr?) then Err(AttributeError)
      else
        var command := GetOr(entry, "command", Str(DefaultCommand)).value;
        var args := GetOr(entry, "args", Arr([])).value;
        Ok(Some(ServerConfig(name, command, args, env)))
  }

  /** The configurations `_load_config_from_file` builds from the entries,
      in file order. */
  function FileEntries(entries: seq<(string, Value)>): (r: Result<seq<ServerConfig>, PyExc>)
    ensures r.Ok? ==> forall i :: 0 <= i < |r.value| ==> Contains(r.value[i].name, "Klaviyo")
    ensures r.Ok? ==> |r.value| <= |entries|
  {
    if entries == [] then Ok([])
    else
      var front :- FileEntries(entries[..|entries| - 1]);
      var last := entries[|entries| - 1];
      var entry :- FileEntry(last.0, last.1);
      Ok(front + (if entry.Some? then [entry.value] else []))
  }

  /** Only the entries whose name mentions Klaviyo are kept, in file order. */
  lemma {:induction false} FileEntriesNames(entries: seq<(string, Value)>)
    requires FileEntries(entries).Ok?
    ensures Names(FileEntries(entries).value) == KlaviyoNames(OrderedMap.Keys(entries))
  {
    if entries != [] {
      var n := |entries| - 1;
      var init := entries[..n];
      var last := entries[n];
      FileEntriesNames(init);
      var front := FileEntries(init).value;
      var entry := FileEntry(last.0, last.1).value;
      var more := if entry.Some? then [entry.value] else [];
      assert FileEntries(entries).value == front + more;
      NamesAppend(front, more);
      assert Names(more) == if Contains(last.0, "Klaviyo") then [last.0] else [];
      OrderedMap.KeysInit(entries);
    }
  }

  lemma FileEntriesSnoc(entries: seq<(string, Value)>, k: int)
    requires 0 <= k < |entries|
    ensures var front := FileEntries(entries[..k]);
            var entry := FileEntry(entries[k].0, entries[k].1);
            FileEntries(entries[..k + 1])
            == if front.Err? then front
               else if entry.Err? then Err(entry.error)
               else Ok(front.value + (if entry.value.Some? then [entry.value.value] else []))
  {
    assert entries[..k + 1][..k] == entries[..k];
  }

  /** A failing entry ends the whole load with its exception. */
  lemma {:induction false} FileEntriesStops(entries: seq<(string, Value)>, k: nat)
    requires k <= |entries|
    requires FileEntries(entries[..k]).Err?
    ensures FileEntries(entries) == FileEntries(entries[..k])
    decreases |entries| - k
  {
    if k < |entries| {
      var init := entries[..|entries| - 1];
      assert init[..k] == entries[..k];
      FileEntriesStops(init, k);
    } else {
      assert entries[..k] == entries;
    }
  }

  function Names(cs: seq<ServerConfig>): (r: seq<string>)
    ensures |r| == |cs|
    ensures forall i :: 0 <= i < |cs| ==> r[i] == cs[i].name
  {
    if cs == [] then [] else Names(cs[..|cs| - 1]) + [cs[|cs| - 1].name]
  }

  lemma NamesAppend(a: seq<ServerConfig>, b: seq<ServerConfig>)
    ensures Names(a + b) == Names(a) + Names(b)
  {
  }

  /** The names that mention Klaviyo, in order. */
  function KlaviyoNames(names: seq<string>): (r: seq<string>)
  {
    if names == [] then []
    else KlaviyoNames(names[..|names| - 1])
         + (if Contains(names[|names| - 1], "Klaviyo") then [names[|names| - 1]] else [])
  }

  /** `_load_config_from_file` on the parsed file. */
  function FileConfigs(data: Value): Result<seq<ServerConfig>, PyExc> {
    var servers :- GetOr(data, "mcpServers", Obj([]));
    if !servers.Obj? then Err(AttributeError) else FileEntries(servers.fields)
  }

  /** `record.get(key)`, `None` for a missing key. */
  function RecordGet(record: Value, key: string): Value
    requires record.Obj?
  {
    GetOr(record, key, Null).value
  }

  /** The configuration built for a registry client whose secret holds `key`:
      the `klaviyo-mcp-server` package in read-only mode. */
  function KlaviyoConfig(clientName: string, key: string): (c: ServerConfig)
    ensures EndsWith(c.name, " Klaviyo") && c.name[..|c.name| - |" Klaviyo"|] == clientName
    ensures c.command == Str(DefaultCommand) && c.args == Arr([Str("klaviyo-mcp-server@latest")])
    ensures c.env.Obj? && Field(c.env, "PRIVATE_API_KEY") == Some(Str(key)) && Field(c.env, "READ_ONLY") == Some(Str("true"))
  {
    var name := clientName + " Klaviyo";
    assert name[|name| - |" Klaviyo"|..] == " Klaviyo";
    var env := Obj([("PRIVATE_API_KEY", Str(key)), ("READ_ONLY", Str("true"))]);
    assert OrderedMap.IndexOf(env.fields, "READ_ONLY") == 1;
    ServerConfig(name, Str(DefaultCommand), Arr([Str("klaviyo-mcp-server@latest")]), env)
  }

  /** The configuration a registry record yields, or `None` when the record
      is skipped: not LIVE, no secret name, or the secret cannot be read. */
  function ApiEntry(record: Value, projectId: string, secretOf: string -> Option<string>): (r: Option<ServerConfig>)
    requires record.Obj?
    ensures var path := SecretManager.SecretPath(projectId, PyStr(RecordGet(record, "klaviyo_secret_name")), SecretManager.LatestVersion);
            && (r.Some? <==> RecordGet(record, "status") == Str("LIVE") && Truthy(RecordGet(record, "klaviyo_secret_name"))
                             && secretOf(path).Some?)
            && (r.Some? ==> r.value == KlaviyoConfig(PyStr(GetOr(record, "name", Str("Unknown")).value), secretOf(path).value))
  {
    var secret := RecordGet(record, "klaviyo_secret_name");
    if RecordGet(record, "status") != Str("LIVE") || !Truthy(secret) then None
    else
      match secretOf(SecretManager.SecretPath(projectId, PyStr(secret), SecretManager.LatestVersion))
      case None => None
      case Some(key) => Some(KlaviyoConfig(PyStr(GetOr(record, "name", Str("Unknown")).value), key))
  }

  /** The values `f` yields for the elements of `xs`, in order, skipping
      the elements it yields nothing for. */
  function Yields<A, B>(xs: seq<A>, f: A --> Option<B>): (r: seq<B>)
    requires forall i :: 0 <= i < |xs| ==> f.requires(xs[i])
    ensures |r| <= |xs|
  {
    if xs == [] then []
    else
      var n := |xs| - 1;
      var e := f(xs[n]);
      Yields(xs[..n], f) + (if e.Some? then [e.value] else [])
  }

  /** A value is yielded exactly when some element yields it. */
  lemma {:induction false} YieldsMembers<A, B>(xs: seq<A>, f: A --> Option<B>, y: B)
    requires forall i :: 0 <= i < |xs| ==> f.requires(xs[i])
    ensures y in Yields(xs, f) <==> exists j :: 0 <= j < |xs| && f(xs[j]) == Some(y)
  {
    if xs != [] {
      var n := |xs| - 1;
      var init := xs[..n];
      assert forall j :: 0 <= j < n ==> init[j] == xs[j];
      YieldsMembers(init, f, y);
    }
  }

  /** The configurations of the registry records that are not skipped, in
      registry order. */
  function ApiEntries(records: seq<Value>, projectId: string, secretOf: string -> Option<string>): (r: seq<ServerConfig>)
    requires forall i :: 0 <= i < |records| ==> records[i].Obj?
    ensures |r| <= |records|
  {
    Yields(records, (record: Value) requires record.Obj? => ApiEntry(record, projectId, secretOf))
  }

  lemma ApiEntriesSnoc(records: seq<Value>, projectId: string, secretOf: string -> Option<string>, k: int)
    requires forall i :: 0 <= i < |records| ==> records[i].Obj?
    requires 0 <= k < |records|
    ensures var e := ApiEntry(records[k], projectId, secretOf);
            ApiEntries(records[..k + 1], projectId, secretOf)
            == ApiEntries(records[..k], projectId, secretOf) + (if e.Some? then [e.value] else [])
  {
    assert records[..k + 1][..k] == records[..k];
  }

  /** A configuration is loaded exactly when some record yields it. */
  lemma ApiEntriesMembers(records: seq<Value>, projectId: string, secretOf: string -> Option<string>, c: ServerConfig)
    requires forall i :: 0 <= i < |records| ==> records[i].Obj?
    ensures c in ApiEntries(records, projectId, secretOf)
            <==> exists j :: 0 <= j < |records| && ApiEntry(records[j], projectId, secretOf) == Some(c)
  {
    YieldsMembers(records, (record: Value) requires record.Obj? => ApiEntry(record, projectId, secretOf), c);
  }

  /** `{c.get('slug'): c for c in clients}`. */
  function SlugIndex(records: seq<Value>): (r: Result<OrderedMap.Dict<Value, Value>, PyExc>)
    ensures r.Ok? ==> forall i :: 0 <= i < |records| ==> records[i].Obj?
  {
    if records == [] then Ok([])
    else
      var front :- SlugIndex(records[..|records| - 1]);
      var c := records[|records| - 1];
      if !c.Obj? then Err(AttributeError)
      else
        var slug := RecordGet(c, "slug");
        if !Hashable(slug) then Err(TypeError)
        else
          assert forall i :: 0 <= i < |records| - 1 ==> records[i] == records[..|records| - 1][i];
          Ok(OrderedMap.Put(front, KeyOf(slug), c))
  }

  lemma {:induction false} SlugIndexStops(records: seq<Value>, k: nat)
    requires k <= |records|
    requires SlugIndex(records[..k]).Err?
    ensures SlugIndex(records) == SlugIndex(records[..k])
    decreases |records| - k
  {
    if k < |records| {
      var init := records[..|records| - 1];
      assert init[..k] == records[..k];
      SlugIndexStops(init, k);
    } else {
      assert records[..k] == records;
    }
  }

  /** `if c.get(key): clients_data[c.get(key)] = c`; false where it raises. */
  function AddKey(index: OrderedMap.Dict<Value, Value>, c: Value, key: string): (OrderedMap.Dict<Value, Value>, bool)
    requires c.Obj?
  {
    var k := RecordGet(c, key);
    if !Truthy(k) then (index, true)
    else if !Hashable(k) then (index, false)
    else (OrderedMap.Put(index, KeyOf(k), c), true)
  }

  /** The loop that also indexes each record by `id` and `client_id`; it
      stops at the first unhashable key, keeping what it has added. */
  function IdIndex(index: OrderedMap.Dict<Value, Value>, records: seq<Value>): (OrderedMap.Dict<Value, Value>, bool)
    requires forall i :: 0 <= i < |records| ==> records[i].Obj?
  {
    if records == [] then (index, true)
    else
      var (front, ok) := IdIndex(index, records[..|records| - 1]);
      if !ok then (front, false)
      else
        var c := records[|records| - 1];
        var (afterId, ok1) := AddKey(front, c, "id");
        if !ok1 then (afterId, false) else AddKey(afterId, c, "client_id")
  }

  lemma {:induction false} IdIndexStops(index: OrderedMap.Dict<Value, Value>, records: seq<Value>, k: nat)
    requires k <= |records|
    requires forall i :: 0 <= i < |records| ==> records[i].Obj?
    requires !IdIndex(index, records[..k]).1
    ensures IdIndex(index, records) == IdIndex(index, records[..k])
    decreases |records| - k
  {
    if k < |records| {
      var init := records[..|records| - 1];
      assert init[..k] == records[..k];
      IdIndexStops(index, init, k);
    } else {
      assert records[..k] == records;
    }
  }

  /** The outcome of `_load_config_from_api` on the registry's reply:
      the configurations, and the index left in `clients_data`. */
  datatype ApiLoad = ApiLoad(configs: Result<seq<ServerConfig>, PyExc>, index: OrderedMap.Dict<Value, Value>)

  function ApiConfigs(reply: Value, index0: OrderedMap.Dict<Value, Value>, projectId: string,
                      secretOf: string -> Option<string>): ApiLoad
  {
    match Iterate(reply)
    case None => ApiLoad(Err(TypeError), index0)
    case Some(records) =>
      match SlugIndex(records)
      case Err(e) => ApiLoad(Err(e), index0)
      case Ok(bySlug) =>
        var (index, ok) := IdIndex(bySlug, records);
        if !ok then ApiLoad(Err(TypeError), index)
        else ApiLoad(Ok(ApiEntries(records, projectId, secretOf)), index)
  }

  /** `_load_config`: the file's configurations when there are any, else the
      registry's, else `ValueError`. `api` is `None` when the request or its
      decoding fails. */
  function ChooseConfigs(file: ConfigFile, api: Option<Value>, index0: OrderedMap.Dict<Value, Value>,
                         projectId: string, secretOf: string -> Option<string>): (r: ApiLoad)
    ensures r.configs.Ok? ==> r.configs.value != []
  {
    var fromFile := if file.Json? then FileConfigs(file.data) else Ok([]);
    if fromFile.Ok? && fromFile.value != [] then ApiLoad(fromFile, index0)
    else if api.None? then ApiLoad(Err(ValueError), index0)
    else
      var load := ApiConfigs(api.value, index0, projectId, secretOf);
      if load.configs.Ok? && load.configs.value != [] then load
      else ApiLoad(Err(ValueError), load.index)
  }

  /** With no usable file and no reachable registry there is no configuration. */
  lemma NoConfigurationWithoutSources(file: ConfigFile, index0: OrderedMap.Dict<Value, Value>,
                                      projectId: string, secretOf: string -> Option<string>)
    requires file.Missing? || file.Unreadable?
    ensures ChooseConfigs(file, None, index0, projectId, secretOf) == ApiLoad(Err(ValueError), index0)
  {
  }

  // ---------------------------------------------------------------------------
  // Account resolution

  function NormChar(c: char): char {
    if c == '-' || c == '_' then ' ' else LowerChar(c)
  }

  /** `name.lower().replace("-", " ").replace("_", " ")` */
  function Normalize(name: string): (r: string)
    ensures |r| == |name|
    ensures forall i :: 0 <= i < |name| ==> r[i] == NormChar(name[i])
  {
    var lowered := Lower(name);
    ReplaceChar(lowered, '-', ' ');
    var dashed := Replace(lowered, "-", " ");
    ReplaceChar(dashed, '_', ' ');
    Replace(dashed, "_", " ")
  }

  /** The test `_get_server_for_client` applies to each server name. */
  predicate NameMatches(serverName: string, client: string) {
    var n := Normalize(client);
    var sn := Normalize(serverName);
    Contains(sn, n) || StartsWith(sn, n)
  }

  /** The prefix test adds nothing: a server matches exactly when its
      normalised name contains the normalised request. */
  lemma NameMatchesIsContainment(serverName: string, client: string)
    ensures NameMatches(serverName, client) <==> Contains(Normalize(serverName), Normalize(client))
  {
    if StartsWith(Normalize(serverName), Normalize(client)) {
      StartsWithContains(Normalize(serverName), Normalize(client));
    }
  }

  /** The position of the first matching server name, or -1. */
  function FirstMatch(names: seq<string>, client: string): (r: int)
    ensures -1 <= r < |names|
    ensures r == -1 <==> forall i :: 0 <= i < |names| ==> !NameMatches(names[i], client)
    ensures r >= 0 ==> NameMatches(names[r], client) && forall i :: 0 <= i < r ==> !NameMatches(names[i], client)
  {
    if names == [] then -1
    else if NameMatches(names[0], client) then 0
    else
      var j := FirstMatch(names[1..], client);
      assert forall i :: 1 <= i < |names| ==> names[i] == names[1..][i - 1];
      if j == -1 then -1 else j + 1
  }

  /** A matching name with no match before it is the first match. */
  lemma FirstMatchAt(names: seq<string>, client: string, i: int)
    requires 0 <= i < |names| && NameMatches(names[i], client)
    requires forall j :: 0 <= j < i ==> !NameMatches(names[j], client)
    ensures FirstMatch(names, client) == i
  {
  }

  // ---------------------------------------------------------------------------
  // Fetch orchestration

  /** What the six tool fetches of `fetch_all_data` returned. */
  datatype Calls = Calls(segments: Result<Value, Failure>, campaigns: Result<Value, Failure>,
                         flows: Result<Value, Failure>, metrics: Result<Value, Failure>,
                         lists: Result<Value, Failure>, catalog: seq<Value>)

  /** The stream after one `call_tool`. */
  function Advance(running: bool, out: seq<string>): seq<string> {
    if running then AfterRead(out) else out
  }

  function Fetched(call: Result<Value, Failure>, decode: Decoder): Result<Value, Failure> {
    var content :- call;
    ListData(content, decode)
  }

  function FetchedCampaigns(call: Result<Value, Failure>, decode: Decoder): Result<Value, Failure> {
    var content :- call;
    CampaignData(content, decode)
  }

  /** The six fetches in the order they run against one child. */
  function PlannedCalls(name: string, running: bool, out: seq<string>, decode: Decoder): (c: Calls)
    ensures |c.catalog| <= MaxCatalogItems
  {
    var out1 := Advance(running, out);
    var out2 := Advance(running, out1);
    var out3 := Advance(running, out2);
    var out4 := Advance(running, out3);
    var out5 := Advance(running, out4);
    Calls(Fetched(ToolCall(name, running, out, decode), decode),
          FetchedCampaigns(ToolCall(name, running, out1, decode), decode),
          Fetched(ToolCall(name, running, out2, decode), decode),
          Fetched(ToolCall(name, running, out3, decode), decode),
          Fetched(ToolCall(name, running, out4, decode), decode),
          Catalog([], name, running, out5, decode))
  }

  /** A failed non-critical fetch becomes []. */
  function Recover(r: Result<Value, Failure>): (v: Value)
    ensures r.Ok? ==> v == r.value
    ensures r.Err? ==> v == Arr([])
  {
    if r.Ok? then r.value else Arr([])
  }

  /** The line naming a failed critical call. */
  function CriticalLine(api: string, f: Failure): string {
    api + " API failed: " + Message(f)
  }

  function CriticalErrors(calls: Calls): (r: seq<string>)
    ensures r == [] <==> calls.segments.Ok? && calls.campaigns.Ok?
  {
    (if calls.segments.Err? then [CriticalLine("Segments", calls.segments.error)] else [])
    + (if calls.campaigns.Err? then [CriticalLine("Campaigns", calls.campaigns.error)] else [])
  }

  function CriticalHeader(client: string): string {
    "\n❌ Critical MCP API Failures for " + client + "\n\n"
  }

  const CriticalFooter := "\n\U{1F6D1} WORKFLOW HALTED - Cannot proceed without Klaviyo API access"

  function CriticalReport(client: string, errors: seq<string>): string {
    CriticalHeader(client) + Bullets("  • ", errors) + CriticalFooter
  }

  /** The keys of the result dictionary, in order. */
  const ResultKeys := ["segments", "campaigns", "flows", "metrics", "lists", "catalog_items"]

  lemma ResultKeysDistinct()
    ensures forall a, b :: 0 <= a < b < |ResultKeys| ==> ResultKeys[a] != ResultKeys[b]
    ensures forall a :: 0 <= a < |ResultKeys| ==> |ResultKeys[a]| < |"affinity_segments"| < |"universal_segments"|
  {
    assert "flows"[0] != "lists"[0];
  }

  /** What each of `ResultKeys` holds: the two critical results, the other
      three with a failure replaced by [], and the catalog items. */
  function ResultValues(calls: Calls): (vs: seq<Value>)
    requires calls.segments.Ok? && calls.campaigns.Ok?
    ensures |vs| == |ResultKeys|
  {
    [calls.segments.value, calls.campaigns.value, Recover(calls.flows), Recover(calls.metrics),
     Recover(calls.lists), Arr(calls.catalog)]
  }

  /** The result dictionary before the segment injection. */
  function ResultDict(calls: Calls): (v: Value)
    requires calls.segments.Ok? && calls.campaigns.Ok?
  {
    Obj(OrderedMap.Zip(ResultKeys, ResultValues(calls)))
  }

  /** Copy `key` into `result` from the record's metadata, else from the
      record itself; `sized` adds the `len()` the log line takes. */
  function InjectKey(result: Value, record: Value, metadata: Value, key: string, sized: bool): (r: Result<Value, PyExc>)
    requires result.Obj? && record.Obj?
    ensures r.Ok? ==> r.value.Obj?
    ensures r.Ok? ==> forall k :: k != key ==> Field(r.value, k) == Field(result, k)
  {
    var inMeta :- In(key, metadata);
    var source := if inMeta then GetItem(metadata, key) else if HasField(record, key) then GetItem(record, key) else Err(KeyError);
    if !inMeta && !HasField(record, key) then Ok(result)
    else
      var x :- source;
      if sized && Len(x).None? then Err(TypeError)
      else
        forall k | k != key ensures Field(Set(result, key, x), k) == Field(result, k) {
          OrderedMap.PutOther(result.fields, key, x, k);
        }
        Ok(Set(result, key, x))
  }

  /** The affinity and universal segments copied from the registry record
      of the client, when `clients_data` has one under its name. */
  function Inject(result: Value, client: string, index: OrderedMap.Dict<Value, Value>): (r: Result<Value, PyExc>)
    requires result.Obj?
    ensures r.Ok? ==> r.value.Obj?
    ensures r.Ok? ==> forall k :: k != "affinity_segments" && k != "universal_segments" ==> Field(r.value, k) == Field(result, k)
    ensures OrderedMap.Get(index, Str(client)).None? ==> r == Ok(result)
  {
    match OrderedMap.Get(index, Str(client))
    case None => Ok(result)
    case Some(record) =>
      var metadata :- GetOr(record, "metadata", Obj([]));
      var withAffinity :- InjectKey(result, record, metadata, "affinity_segments", true);
      InjectKey(withAffinity, record, metadata, "universal_segments", false)
  }

  /** `fetch_all_data` once a server is found, from the six outcomes. */
  function Assemble(client: string, start: Option<string>, end: Option<string>, calls: Calls,
                    index: OrderedMap.Dict<Value, Value>): Result<Value, Failure>
  {
    var critical := CriticalErrors(calls);
    if critical != [] then Err(CriticalApiFailure(CriticalReport(client, critical)))
    else
      var result :- Py(Inject(ResultDict(calls), client, index));
      // the log line takes `len` of segments, campaigns, flows and catalog_items
      if Len(calls.segments.value).None? || Len(Recover(calls.flows)).None? then Err(Raised(TypeError))
      else
        var warnings :- CheckData(result, client, start, end);
        Ok(result)
  }

  /** The critical report names every failed call on its own bullet line. */
  lemma CriticalReportNames(client: string, errors: seq<string>, i: int)
    requires 0 <= i < |errors|
    ensures Contains(CriticalReport(client, errors), "  • " + errors[i] + "\n")
  {
    BulletsContain("  • ", errors, i);
    ContainsInMiddle(CriticalHeader(client), Bullets("  • ", errors), CriticalFooter, "  • " + errors[i] + "\n");
  }

  /** A failed segments or campaigns fetch halts the fetch, and the report
      names each failed critical call. */
  lemma AssembleCritical(client: string, start: Option<string>, end: Option<string>, calls: Calls,
                         index: OrderedMap.Dict<Value, Value>)
    requires calls.segments.Err? || calls.campaigns.Err?
    ensures var r := Assemble(client, start, end, calls, index);
            && r.Err? && r.error.CriticalApiFailure?
            && (calls.segments.Err? ==> Contains(Message(r.error), "  • " + CriticalLine("Segments", calls.segments.error) + "\n"))
            && (calls.campaigns.Err? ==> Contains(Message(r.error), "  • " + CriticalLine("Campaigns", calls.campaigns.error) + "\n"))
  {
    var critical := CriticalErrors(calls);
    assert Assemble(client, start, end, calls, index) == Err(CriticalApiFailure(CriticalReport(client, critical)));
    if calls.segments.Err? {
      CriticalReportNames(client, critical, 0);
    }
    if calls.campaigns.Err? {
      CriticalReportNames(client, critical, |critical| - 1);
    }
  }

  /** A successful fetch carries both critical results, [] for each failed
      non-critical one, the capped catalog, and passes the data gate. */
  lemma AssembleInjects(client: string, start: Option<string>, end: Option<string>, calls: Calls,
                        index: OrderedMap.Dict<Value, Value>)
    requires Assemble(client, start, end, calls, index).Ok?
    ensures calls.segments.Ok? && calls.campaigns.Ok?
    ensures Inject(ResultDict(calls), client, index).Ok?
    ensures Assemble(client, start, end, calls, index).value == Inject(ResultDict(calls), client, index).value
    ensures CheckData(Assemble(client, start, end, calls, index).value, client, start, end).Ok?
  {
  }

  lemma AssembleSuccess(client: string, start: Option<string>, end: Option<string>, calls: Calls,
                        index: OrderedMap.Dict<Value, Value>)
    requires Assemble(client, start, end, calls, index).Ok?
    ensures calls.segments.Ok? && calls.campaigns.Ok?
    ensures var v := Assemble(client, start, end, calls, index).value;
            && (forall i :: 0 <= i < 6 ==> Field(v, ResultKeys[i]) == Some(ResultValues(calls)[i]))
            && CheckData(v, client, start, end).Ok?
  {
    AssembleInjects(client, start, end, calls, index);
    var v := Inject(ResultDict(calls), client, index).value;
    ResultKeysDistinct();
    forall i | 0 <= i < 6
      ensures Field(v, ResultKeys[i]) == Some(ResultValues(calls)[i])
    {
      OrderedMap.GetZip(ResultKeys, ResultValues(calls), i);
      assert ResultKeys[i] != "affinity_segments" && ResultKeys[i] != "universal_segments";
    }
  }

  /** With no registry record under the client's name nothing is injected. */
  lemma AssembleWithoutRecord(client: string, start: Option<string>, end: Option<string>, calls: Calls,
                              index: OrderedMap.Dict<Value, Value>)
    requires OrderedMap.Get(index, Str(client)).None?
    requires Assemble(client, start, end, calls, index).Ok?
    ensures Assemble(client, start, end, calls, index).value == ResultDict(calls)
  {
  }

  /** `{"model": "claude", "fields": fields}` */
  function ToolArgs(fields: seq<string>): Value {
    Obj([("model", Str("claude")), ("fields", Arr(seq(|fields|, i requires 0 <= i < |fields| => Str(fields[i]))))])
  }

  const SegmentsArgs := ToolArgs(["name", "definition", "created", "updated", "is_active"])
  const CampaignsArgs := Obj([("model", Str("claude")), ("channel", Str("email")),
                              ("fields", Arr([Str("name"), Str("status"), Str("created_at"), Str("send_time"), Str("audiences")]))])
  const FlowsArgs := ToolArgs(["name", "status", "created", "updated", "trigger_type"])
  const MetricsArgs := ToolArgs(["name", "created", "updated"])
  const ListsArgs := ToolArgs(["name", "created", "updated"])

  /** `_fetch_segments`, `_fetch_flows`, `_fetch_metrics` and `_fetch_lists`:
      one tool call, then the `data` list of its text payload. */
  method FetchList(server: ServerProcess, tool: string, arguments: Value, decode: Decoder) returns (r: Result<Value, Failure>)
    requires server.Valid()
    modifies server
    ensures server.Valid()
    ensures r == Fetched(ToolCall(server.config.name, old(server.running), old(server.stdout), decode), decode)
    ensures server.stdout == Advance(old(server.running), old(server.stdout))
    ensures server.requestId == old(server.requestId) + 1
    ensures server.sent == if old(server.running) then old(server.sent) + [ToolRequest(server.requestId, tool, arguments)] else old(server.sent)
    ensures server.running == old(server.running) && server.stopped == old(server.stopped)
  {
    var content :- server.CallTool(tool, arguments, decode);
    r := ListData(content, decode);
  }

  /** `_fetch_campaigns`: the email campaigns only; the date range is not
      passed to the tool. */
  method FetchCampaigns(server: ServerProcess, decode: Decoder) returns (r: Result<Value, Failure>)
    requires server.Valid()
    modifies server
    ensures server.Valid()
    ensures r == FetchedCampaigns(ToolCall(server.config.name, old(server.running), old(server.stdout), decode), decode)
    ensures r.Ok? ==> r.value.Arr?
    ensures server.stdout == Advance(old(server.running), old(server.stdout))
    ensures server.requestId == old(server.requestId) + 1
    ensures server.sent == if old(server.running) then old(server.sent) + [ToolRequest(server.requestId, "klaviyo_get_campaigns", CampaignsArgs)] else old(server.sent)
    ensures server.running == old(server.running) && server.stopped == old(server.stopped)
  {
    var content :- server.CallTool("klaviyo_get_campaigns", CampaignsArgs, decode);
    r := CampaignData(content, decode);
  }

  /** The six fetches `fetch_all_data` gathers, in the order they run. */
  method FetchSix(p: ServerProcess, decode: Decoder) returns (calls: Calls)
    requires p.Valid()
    modifies p
    ensures p.Valid()
    ensures calls == PlannedCalls(p.config.name, old(p.running), old(p.stdout), decode)
    ensures p.running == old(p.running) && p.stopped == old(p.stopped)
  {
    var segments := FetchList(p, "klaviyo_get_segments", SegmentsArgs, decode);
    var campaigns := FetchCampaigns(p, decode);
    var flows := FetchList(p, "klaviyo_get_flows", FlowsArgs, decode);
    var metrics := FetchList(p, "klaviyo_get_metrics", MetricsArgs, decode);
    var lists := FetchList(p, "klaviyo_get_lists", ListsArgs, decode);
    var catalog := FetchCatalogItems(p, decode);
    calls := Calls(segments, campaigns, flows, metrics, lists, catalog);
  }

  // ---------------------------------------------------------------------------
  // The client

  /** `NativeMCPClient` */
  /** What spawning the child of each configuration gives: the lines it
      writes, by configuration name; a name without an entry is one whose
      `Popen` raises. */
  type Children = map<string, seq<string>>

  function Spawn(children: Children, name: string): Option<seq<string>> {
    if name in children then Some(children[name]) else None
  }

  /** The configuration each server of `servers` was made for. */
  function ConfigsOf(servers: seq<(string, ServerProcess)>): (r: OrderedMap.Dict<string, ServerConfig>)
    ensures |r| == |servers| && forall i :: 0 <= i < |r| ==> r[i] == (servers[i].0, servers[i].1.config)
  {
    seq(|servers|, i requires 0 <= i < |servers| => (servers[i].0, servers[i].1.config))
  }

  lemma ConfigsOfAppend(servers: seq<(string, ServerProcess)>, name: string, p: ServerProcess)
    ensures ConfigsOf(servers + [(name, p)]) == ConfigsOf(servers) + [(name, p.config)]
  {
    var a := ConfigsOf(servers + [(name, p)]);
    var b := ConfigsOf(servers) + [(name, p.config)];
    forall j | 0 <= j < |a| ensures a[j] == b[j] {
      if j < |servers| {
        assert (servers + [(name, p)])[j] == servers[j];
      }
    }
  }

  lemma ConfigsOfUpdate(servers: seq<(string, ServerProcess)>, i: int, name: string, p: ServerProcess)
    requires 0 <= i < |servers|
    ensures ConfigsOf(servers[i := (name, p)]) == ConfigsOf(servers)[i := (name, p.config)]
  {
    var a := ConfigsOf(servers[i := (name, p)]);
    var b := ConfigsOf(servers)[i := (name, p.config)];
    forall j | 0 <= j < |a| ensures a[j] == b[j] {
    }
  }

  /** Storing a server stores its configuration. */
  lemma ConfigsOfPut(servers: seq<(string, ServerProcess)>, name: string, p: ServerProcess)
    ensures ConfigsOf(OrderedMap.Put(servers, name, p)) == OrderedMap.Put(ConfigsOf(servers), name, p.config)
  {
    var e := ConfigsOf(servers);
    OrderedMap.IndexOfSameKeys(servers, e, name);
    OrderedMap.PutShape(servers, name, p);
    OrderedMap.PutShape(e, name, p.config);
    var i := OrderedMap.IndexOf(servers, name);
    if i == -1 {
      ConfigsOfAppend(servers, name, p);
    } else {
      ConfigsOfUpdate(servers, i, name, p);
    }
  }

  class Client {
    const projectId: string
    /** `self.servers`, by configuration name in insertion order. */
    var servers: seq<(string, ServerProcess)>
    /** `self.clients_data`, registry records by slug, id and client id. */
    var clientsData: OrderedMap.Dict<Value, Value>
    var initialized: bool

    function Processes(): set<ServerProcess>
      reads this`servers
    {
      set i | 0 <= i < |servers| :: servers[i].1
    }

    /** One process per name, each valid. */
    ghost predicate Consistent()
      reads this`servers, Processes()
    {
      && OrderedMap.UniqueKeys(servers)
      && (forall i, j :: 0 <= i < j < |servers| ==> servers[i].1 != servers[j].1)
      && (forall i :: 0 <= i < |servers| ==> servers[i].1.Valid())
    }

    /** Between calls, servers exist only once the client is initialized. */
    ghost predicate Valid()
      reads this`servers, this`initialized, Processes()
    {
      Consistent() && (!initialized ==> servers == [])
    }

    constructor(projectId: string)
      ensures this.projectId == projectId
      ensures servers == [] && clientsData == [] && !initialized
      ensures Valid()
    {
      this.projectId := projectId;
      servers := [];
      clientsData := [];
      initialized := false;
    }

    /** `_get_server_for_client`: the server of the first name that matches
        `client`, if any. */
    function ServerFor(client: string): (r: Option<ServerProcess>)
      reads this`servers
      ensures r.None? <==> forall i :: 0 <= i < |servers| ==> !NameMatches(servers[i].0, client)
      ensures r.Some? ==> exists i :: 0 <= i < |servers| && servers[i].1 == r.value && NameMatches(servers[i].0, client)
                                      && forall j :: 0 <= j < i ==> !NameMatches(servers[j].0, client)
    {
      var i := FirstMatch(OrderedMap.Keys(servers), client);
      if i == -1 then None else Some(servers[i].1)
    }

    /** The one server `fetch_all_data` for `client` talks to. */
    function Touched(client: string): set<ServerProcess>
      reads this`servers
    {
      if ServerFor(client).Some? then {ServerFor(client).value} else {}
    }

    method GetServerForClient(client: string) returns (r: Option<ServerProcess>)
      ensures r == ServerFor(client)
    {
      ghost var names := OrderedMap.Keys(servers);
      var normalized := Normalize(client);
      var i := 0;
      while i < |servers|
        invariant 0 <= i <= |servers|
        invariant forall j :: 0 <= j < i ==> !NameMatches(names[j], client)
      {
        var serverNormalized := Normalize(servers[i].0);
        if Contains(serverNormalized, normalized) || StartsWith(serverNormalized, normalized) {
          assert NameMatches(names[i], client);
          FirstMatchAt(names, client, i);
          return Some(servers[i].1);
        }
        i := i + 1;
      }
      return None;
    }

    /** `_load_config_from_file`, one entry at a time. */
    static method LoadConfigFromFile(data: Value) returns (r: Result<seq<ServerConfig>, PyExc>)
      ensures r == FileConfigs(data)
    {
      var servers :- GetOr(data, "mcpServers", Obj([]));
      if !servers.Obj? {
        return Err(AttributeError);
      }
      var entries := servers.fields;
      var configs: seq<ServerConfig> := [];
      for k := 0 to |entries|
        invariant FileEntries(entries[..k]) == Ok(configs)
      {
        FileEntriesSnoc(entries, k);
        var entry := FileEntry(entries[k].0, entries[k].1);
        if entry.Err? {
          FileEntriesStops(entries, k + 1);
          return Err(entry.error);
        }
        configs := configs + (if entry.value.Some? then [entry.value.value] else []);
      }
      assert entries[..|entries|] == entries;
      return Ok(configs);
    }

    /** The slug index `_load_config_from_api` builds first. */
    static method IndexBySlug(records: seq<Value>) returns (r: Result<OrderedMap.Dict<Value, Value>, PyExc>)
      ensures r == SlugIndex(records)
    {
      var bySlug: OrderedMap.Dict<Value, Value> := [];
      for k := 0 to |records|
        invariant SlugIndex(records[..k]) == Ok(bySlug)
      {
        assert records[..k + 1][..k] == records[..k];
        if !records[k].Obj? {
          SlugIndexStops(records, k + 1);
          return Err(AttributeError);
        }
        var slug := RecordGet(records[k], "slug");
        if !Hashable(slug) {
          SlugIndexStops(records, k + 1);
          return Err(TypeError);
        }
        bySlug := OrderedMap.Put(bySlug, KeyOf(slug), records[k]);
      }
      assert records[..|records|] == records;
      return Ok(bySlug);
    }

    /** `if c.get(key): self.clients_data[c.get(key)] = c`; false when the
        key cannot be hashed. */
    method AddRecordKey(c: Value, key: string) returns (ok: bool)
      requires c.Obj?
      modifies this`clientsData
      ensures (clientsData, ok) == AddKey(old(clientsData), c, key)
    {
      var k := RecordGet(c, key);
      if Truthy(k) {
        if !Hashable(k) {
          return false;
        }
        clientsData := OrderedMap.Put(clientsData, KeyOf(k), c);
      }
      return true;
    }

    /** The loop adding each record under its `id` and `client_id`; false
        when a key cannot be hashed, with the entries added so far kept. */
    method IndexById(records: seq<Value>) returns (ok: bool)
      requires forall i :: 0 <= i < |records| ==> records[i].Obj?
      modifies this`clientsData
      ensures (clientsData, ok) == IdIndex(old(clientsData), records)
    {
      for k := 0 to |records|
        invariant IdIndex(old(clientsData), records[..k]) == (clientsData, true)
      {
        assert records[..k + 1][..k] == records[..k];
        var idOk := AddRecordKey(records[k], "id");
        if !idOk {
          IdIndexStops(old(clientsData), records, k + 1);
          return false;
        }
        var clientIdOk := AddRecordKey(records[k], "client_id");
        if !clientIdOk {
          IdIndexStops(old(clientsData), records, k + 1);
          return false;
        }
      }
      assert records[..|records|] == records;
      return true;
    }

    /** The loop over the LIVE records. */
    static method BuildApiConfigs(records: seq<Value>, projectId: string, secretOf: string -> Option<string>)
      returns (configs: seq<ServerConfig>)
      requires forall i :: 0 <= i < |records| ==> records[i].Obj?
      ensures configs == ApiEntries(records, projectId, secretOf)
    {
      configs := [];
      for k := 0 to |records|
        invariant configs == ApiEntries(records[..k], projectId, secretOf)
      {
        ApiEntriesSnoc(records, projectId, secretOf, k);
        var e := ApiEntry(records[k], projectId, secretOf);
        configs := configs + (if e.Some? then [e.value] else []);
      }
      assert records[..|records|] == records;
    }

    /** `_load_config_from_api` on the registry's reply: rebuild
        `clients_data`, then keep the LIVE records with a readable secret. */
    method LoadConfigFromApi(reply: Value, secretOf: string -> Option<string>) returns (r: Result<seq<ServerConfig>, PyExc>)
      modifies this`clientsData
      ensures var load := ApiConfigs(reply, old(clientsData), projectId, secretOf);
              r == load.configs && clientsData == load.index
    {
      var records :- match Iterate(reply) case Some(xs) => Ok(xs) case None => Err(TypeError);
      var bySlug :- IndexBySlug(records);
      clientsData := bySlug;
      var ok := IndexById(records);
      if !ok {
        return Err(TypeError);
      }
      var configs := BuildApiConfigs(records, projectId, secretOf);
      return Ok(configs);
    }

    /** `_load_config` */
    method LoadConfig(file: ConfigFile, api: Option<Value>, secretOf: string -> Option<string>)
      returns (r: Result<seq<ServerConfig>, PyExc>)
      modifies this`clientsData
      ensures var choice := ChooseConfigs(file, api, old(clientsData), projectId, secretOf);
              r == choice.configs && clientsData == choice.index
    {
      if file.Json? {
        var fromFile := LoadConfigFromFile(file.data);
        if fromFile.Ok? && fromFile.value != [] {
          return fromFile;
        }
      }
      if api.Some? {
        var fromApi := LoadConfigFromApi(api.value, secretOf);
        if fromApi.Ok? && fromApi.value != [] {
          return fromApi;
        }
      }
      return Err(ValueError);
    }

    /** `initialize`: nothing when already initialized; otherwise load the
        configurations and assign a new, started server to `servers[name]`
        for each of them in order, so a later configuration replaces an
        earlier one with the same name. Start-up failures are ignored, as
        `gather(..., return_exceptions=True)` does. When no configuration
        loads, `cleanup` runs and `ValueError` is raised. */
    method Initialize(file: ConfigFile, api: Option<Value>, secretOf: string -> Option<string>,
                      children: Children, decode: Decoder) returns (r: Result<(), Failure>)
      requires Valid()
      modifies this, Processes()
      ensures Valid()
      ensures old(initialized) ==> r == Ok(()) && initialized && servers == old(servers) && clientsData == old(clientsData)
      ensures !old(initialized) ==>
                var choice := ChooseConfigs(file, api, old(clientsData), projectId, secretOf);
                && clientsData == choice.index
                && (choice.configs.Err? ==> r == Err(NoConfiguration) && servers == [] && !initialized)
                && (choice.configs.Ok? ==>
                      var cs := choice.configs.value;
                      && r == Ok(()) && initialized
                      && ConfigsOf(servers) == OrderedMap.PutAll([], Names(cs), cs)
                      && (forall i :: 0 <= i < |servers| ==> fresh(servers[i].1) && servers[i].1.running == (servers[i].0 in children)))
    {
      if initialized {
        return Ok(());
      }
      var configs := LoadConfig(file, api, secretOf);
      r := StartConfigs(configs, children, decode);
    }

    /** The rest of `initialize` once the configurations are loaded: start a
        server for each and mark the client initialized, or clean up and
        raise when there are none. */
    method StartConfigs(configs: Result<seq<ServerConfig>, PyExc>, children: Children, decode: Decoder)
      returns (r: Result<(), Failure>)
      requires Valid() && !initialized
      modifies this`servers, this`initialized, Processes()
      ensures Valid()
      ensures configs.Err? ==> r == Err(NoConfiguration) && servers == [] && !initialized
      ensures configs.Ok? ==>
                && r == Ok(()) && initialized
                && ConfigsOf(servers) == OrderedMap.PutAll([], Names(configs.value), configs.value)
                && (forall i :: 0 <= i < |servers| ==> fresh(servers[i].1) && servers[i].1.running == (servers[i].0 in children))
    {
      if configs.Err? {
        Cleanup();
        return Err(NoConfiguration);
      }
      StartAll(configs.value, children, decode);
      initialized := true;
      return Ok(());
    }

    /** The loop of `initialize`: `servers[c.name] = MCPServerProcess(c)` for
        each configuration `c`, each server started. */
    method StartAll(cs: seq<ServerConfig>, children: Children, decode: Decoder)
      requires Consistent() && servers == []
      modifies this`servers
      ensures Consistent()
      ensures ConfigsOf(servers) == OrderedMap.PutAll([], Names(cs), cs)
      ensures forall i :: 0 <= i < |servers| ==> fresh(servers[i].1) && servers[i].1.running == (servers[i].0 in children)
    {
      ghost var names := Names(cs);
      for k := 0 to |cs|
        invariant Consistent()
        invariant ConfigsOf(servers) == OrderedMap.PutAll([], names[..k], cs[..k])
        invariant forall i :: 0 <= i < |servers| ==> fresh(servers[i].1)
        invariant forall i :: 0 <= i < |servers| ==> servers[i].1.running == (servers[i].0 in children)
      {
        ghost var before := servers;
        var server := StartOne(cs[k], children, decode);
        ConfigsOfPut(before, names[k], server);
        OrderedMap.PutAllPrefix([], names, cs, k);
        forall i | 0 <= i < |servers|
          ensures fresh(servers[i].1)
        {
          if servers[i] != (cs[k].name, server) {
            assert servers[i] == before[i];
          }
        }
      }
      assert names[..|cs|] == names && cs[..|cs|] == cs;
    }

    /** One turn of the loop of `initialize`. */
    method StartOne(c: ServerConfig, children: Children, decode: Decoder) returns (server: ServerProcess)
      requires Consistent()
      requires forall i :: 0 <= i < |servers| ==> servers[i].1.running == (servers[i].0 in children)
      modifies this`servers
      ensures Consistent() && fresh(server) && server.config == c && server.running == (c.name in children)
      ensures forall i :: 0 <= i < |servers| ==> servers[i].1.running == (servers[i].0 in children)
      ensures servers == OrderedMap.Put(old(servers), c.name, server)
      ensures forall i :: 0 <= i < |servers| ==> servers[i] == (c.name, server) || (i < |old(servers)| && servers[i] == old(servers)[i])
    {
      server := NewStarted(c, children, decode);
      StoreServer(server);
    }

    /** `self.servers[server.config.name] = server` for a server the client
        does not hold yet. */
    method StoreServer(server: ServerProcess)
      requires Consistent() && server.Valid()
      requires forall i :: 0 <= i < |servers| ==> servers[i].1 != server
      modifies this`servers
      ensures Consistent()
      ensures servers == OrderedMap.Put(old(servers), server.config.name, server)
      ensures forall i :: 0 <= i < |servers| ==> servers[i] == (server.config.name, server) || (i < |old(servers)| && servers[i] == old(servers)[i])
    {
      OrderedMap.PutFresh(servers, server.config.name, server);
      servers := OrderedMap.Put(servers, server.config.name, server);
    }

    /** `MCPServerProcess(config)` followed by its `start()`, whose outcome
        `gather(..., return_exceptions=True)` drops. */
    static method NewStarted(c: ServerConfig, children: Children, decode: Decoder)
      returns (server: ServerProcess)
      ensures fresh(server) && server.Valid()
      ensures server.config == c && server.running == (c.name in children)
    {
      server := new ServerProcess(c);
      var _ := server.Start(Spawn(children, c.name), decode);
    }

    /** Working one server leaves the client valid as long as that server
        stays valid. */
    twostate lemma ValidAfterOne(p: ServerProcess)
      requires old(Valid()) && p in old(Processes())
      requires servers == old(servers) && initialized == old(initialized)
      requires p.Valid()
      requires forall q :: q in old(Processes()) && q != p ==> unchanged(q)
      ensures Valid()
    {
      forall i | 0 <= i < |servers|
        ensures servers[i].1.Valid()
      {
        if servers[i].1 != p {
          assert servers[i].1 in old(Processes());
        }
      }
    }

    /** `fetch_all_data` without the development cache: resolve the server,
        run the six fetches, classify their failures, inject the registry's
        segments and pass the result through the data gate. */
    method FetchAllData(client: string, start: Option<string>, end: Option<string>, decode: Decoder)
      returns (r: Result<Value, Failure>)
      requires Valid()
      modifies Touched(client)
      ensures Valid()
      ensures old(ServerFor(client)).None? ==> r == Err(NoServer(client))
      ensures old(ServerFor(client)).Some? ==>
                var p := old(ServerFor(client)).value;
                && r == Assemble(client, start, end, PlannedCalls(p.config.name, old(p.running), old(p.stdout), decode), clientsData)
                && p.running == old(p.running) && p.stopped == old(p.stopped)
    {
      var found := GetServerForClient(client);
      if found.None? {
        return Err(NoServer(client));
      }
      r := FetchFrom(found.value, client, start, end, decode);
    }

    /** `fetch_all_data` once `server` is found. */
    method FetchFrom(p: ServerProcess, client: string, start: Option<string>, end: Option<string>, decode: Decoder)
      returns (r: Result<Value, Failure>)
      requires Valid() && p in Processes()
      modifies p
      ensures Valid()
      ensures r == Assemble(client, start, end, PlannedCalls(p.config.name, old(p.running), old(p.stdout), decode), clientsData)
      ensures p.running == old(p.running) && p.stopped == old(p.stopped)
    {
      var calls := FetchSix(p, decode);
      ValidAfterOne(p);
      r := AssembleResult(client, start, end, calls);
    }

    /** The part of `fetch_all_data` after the six fetches. */
    method AssembleResult(client: string, start: Option<string>, end: Option<string>, calls: Calls)
      returns (r: Result<Value, Failure>)
      ensures r == Assemble(client, start, end, calls, clientsData)
    {
      var critical: seq<string> := [];
      if calls.segments.Err? {
        critical := critical + [CriticalLine("Segments", calls.segments.error)];
      }
      if calls.campaigns.Err? {
        critical := critical + [CriticalLine("Campaigns", calls.campaigns.error)];
      }
      if critical != [] {
        var message := AppendBullets(CriticalHeader(client), "  • ", critical);
        return Err(CriticalApiFailure(message + CriticalFooter));
      }
      var result := ResultDict(calls);
      result :- Py(Inject(result, client, clientsData));
      if Len(calls.segments.value).None? || Len(Recover(calls.flows)).None? {
        return Err(Raised(TypeError));
      }
      var warnings :- ValidateMcpData(result, client, start, end);
      return Ok(result);
    }

    /** `cleanup`: stop every server, forget them and reset the flag; nothing
        at all when there are no servers. */
    method Cleanup()
      requires Valid()
      modifies this`servers, this`initialized, Processes()
      ensures Valid()
      ensures old(servers) == [] ==> initialized == old(initialized)
      ensures old(servers) != [] ==> !initialized
      ensures servers == []
      ensures forall i :: 0 <= i < |old(servers)| ==>
                var p := old(servers)[i].1;
                p.stopped == (old(p.stopped) || old(p.running)) && p.running == old(p.running)
    {
      if servers == [] {
        return;
      }
      for i := 0 to |servers|
        invariant servers == old(servers)
        invariant forall j :: 0 <= j < |servers| ==>
                    servers[j].1.running == old(servers[j].1.running)
                    && servers[j].1.stopped == (if j < i then old(servers[j].1.stopped) || old(servers[j].1.running)
                                                else old(servers[j].1.stopped))
        invariant forall j :: 0 <= j < |servers| ==> servers[j].1.Valid()
      {
        servers[i].1.Stop();
      }
      servers := [];
      initialized := false;
    }
  }
}
