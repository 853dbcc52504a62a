/** The HTTP `MCPClient` of `data/mcp_client.py`: the account-name mapping,
    the checks `_call_mcp_tool` makes before it sends anything, the fetches
    built on it (the campaign date window and the conversion-metric choice
    among them) and the way `fetch_all_data` degrades failed fetches to
    empty values.

    Everything outside the process is a parameter (`Env`): the parsed
    `.mcp.json`, the `MCP_AUTH_TOKEN` variable, the HTTP round trip (a
    function from the request to the decoded reply or the failure) and
    `datetime.fromisoformat`. */
module McpClient {
  import opened Wrappers
  import opened JsonValue
  import Text
  import Dates
  import OrderedMap

  /** `mcp_mapping`: the accounts whose server name is not derived from the
      slug, each written here without its common " Klaviyo" suffix. */
  const Accounts: map<string, string> := map[
    "rogue-creamery" := "Rogue Creamery",
    "vlasic" := "Vlasic",
    "colorado-hemp-honey" := "Colorado Hemp Honey",
    "wheelchair-getaways" := "Wheelchair Getaways",
    "milagro" := "Milagro",
    "faso" := "FASO",
    "chris-bean" := "Chris Bean"
  ]

  /** `_get_mcp_account_name` */
  function AccountName(slug: string): string {
    if slug in Accounts then Accounts[slug] + " Klaviyo" else slug + "_Klaviyo"
  }

  /** A mapped slug gets its fixed name, ending in " Klaviyo"; any other
      slug gets itself followed by "_Klaviyo". */
  lemma AccountNameShape(slug: string)
    ensures slug in Accounts ==> Text.EndsWith(AccountName(slug), " Klaviyo")
    ensures slug !in Accounts ==> Text.EndsWith(AccountName(slug), "_Klaviyo")
    ensures slug !in Accounts ==> AccountName(slug)[..|AccountName(slug)| - 8] == slug
  {
    var name := AccountName(slug);
    if slug in Accounts {
      assert name[|name| - 8..] == " Klaviyo";
    } else {
      assert name[|name| - 8..] == "_Klaviyo";
      assert name[..|name| - 8] == slug;
    }
  }

  /** The seven mapped accounts have seven different names. */
  lemma AccountsDistinct(a: string, b: string)
    requires a in Accounts && b in Accounts && Accounts[a] == Accounts[b]
    ensures a == b
  {
  }

  /** No two slugs share an account: the mapped names are distinct and end
      in " Klaviyo", the derived ones end in "_Klaviyo". */
  lemma AccountNameInjective(a: string, b: string)
    requires AccountName(a) == AccountName(b)
    ensures a == b
  {
    AccountNameShape(a);
    AccountNameShape(b);
    if a in Accounts && b in Accounts {
      var n := AccountName(a);
      assert Accounts[a] == n[..|n| - 8] == Accounts[b];
      AccountsDistinct(a, b);
    }
  }

  /** The exceptions of this client. */
  datatype Failure =
    | NoHttpClient                       // RuntimeError: used outside `async with`
    | NoClientName                       // RuntimeError: `client_name` unset or empty
    | ConfigUnreadable                   // `.mcp.json` missing or not JSON
    | AccountNotFound(account: string)   // ValueError
    | NoPrivateKey(account: string)      // ValueError
    | NoAuthToken                        // RuntimeError
    | HttpFailure                        // the request, its status or its body
    | Raised(exc: PyExc)

  /** One POST to the MCP service. */
  datatype Request = Request(endpoint: string, body: Value, apiKey: Value, authorization: string)

  /** A `datetime` as seconds since the epoch of day number 0, and whether
      it carries a UTC offset. */
  datatype Instant = Instant(seconds: int, aware: bool)

  datatype Env = Env(
    config: Result<Value, Failure>,
    authToken: Option<string>,
    post: Request -> Result<Value, Failure>,
    fromIso: string -> Option<Instant>)

  /** `v.get(key, default)` */
  function DictGet(v: Value, key: string, default: Value): (r: Result<Value, Failure>)
    ensures r.Err? <==> !v.Obj?
    ensures r.Ok? ==> r.value == if HasField(v, key) then Field(v, key).value else default
  {
    match GetOr(v, key, default)
    case Ok(x) => Ok(x)
    case Err(e) => Err(Raised(e))
  }

  /** `_get_private_api_key`, from the parsed `.mcp.json`. */
  function PrivateApiKey(config: Result<Value, Failure>, slug: string): (r: Result<Value, Failure>)
    ensures r.Ok? ==> Truthy(r.value)
  {
    var cfg :- config;
    var account := AccountName(slug);
    var servers :- DictGet(cfg, "mcpServers", Obj([]));
    var entry :- DictGet(servers, account, Null);
    if !Truthy(entry) then Err(AccountNotFound(account))
    else
      var env :- DictGet(entry, "env", Obj([]));
      var key :- DictGet(env, "PRIVATE_API_KEY", Null);
      if !Truthy(key) then Err(NoPrivateKey(account)) else Ok(key)
  }

  /** The checks of `_call_mcp_tool` before the POST, in their order; the
      API key and the bearer token on success. */
  function Preflight(http: bool, clientName: Option<string>, env: Env): Result<(Value, string), Failure> {
    if !http then Err(NoHttpClient)
    else if clientName.None? || clientName.value == [] then Err(NoClientName)
    else
      var key :- PrivateApiKey(env.config, clientName.value);
      if env.authToken.None? || env.authToken.value == [] then Err(NoAuthToken)
      else Ok((key, env.authToken.value))
  }

  function ToolRequest(baseUrl: string, tool: string, params: Value, key: Value, token: string): Request {
    Request(baseUrl + "/mcp/tools/" + tool, Obj([("params", params)]), key, "Bearer " + token)
  }

  /** `_call_mcp_tool` */
  function CallTool(http: bool, clientName: Option<string>, baseUrl: string, env: Env,
                    tool: string, params: Value): Result<Value, Failure> {
    var auth :- Preflight(http, clientName, env);
    env.post(ToolRequest(baseUrl, tool, params, auth.0, auth.1))
  }

  /** The guards fire in order (no HTTP client, then no client name, then
      the key lookup, then no token), and only a call that passes them all
      is sent, carrying the account's key and the bearer token. */
  lemma CallToolGuards(http: bool, clientName: Option<string>, baseUrl: string, env: Env, tool: string, params: Value)
    ensures !http ==> CallTool(http, clientName, baseUrl, env, tool, params) == Err(NoHttpClient)
    ensures http && (clientName.None? || clientName.value == []) ==>
              CallTool(http, clientName, baseUrl, env, tool, params) == Err(NoClientName)
    ensures http && clientName.Some? && clientName.value != [] ==>
              var key := PrivateApiKey(env.config, clientName.value);
              && (key.Err? ==> CallTool(http, clientName, baseUrl, env, tool, params) == Err(key.error))
              && (key.Ok? && (env.authToken.None? || env.authToken.value == []) ==>
                    CallTool(http, clientName, baseUrl, env, tool, params) == Err(NoAuthToken))
              && (key.Ok? && env.authToken.Some? && env.authToken.value != [] ==>
                    CallTool(http, clientName, baseUrl, env, tool, params)
                    == env.post(ToolRequest(baseUrl, tool, params, key.value, env.authToken.value)))
  {
  }

  /** A call stopped by a guard never reaches the service: its outcome is
      the same whatever the service would have answered. */
  lemma GuardsSendNothing(http: bool, clientName: Option<string>, baseUrl: string, env: Env, env': Env,
                          tool: string, params: Value)
    requires env'.config == env.config && env'.authToken == env.authToken
    requires Preflight(http, clientName, env).Err?
    ensures CallTool(http, clientName, baseUrl, env, tool, params)
            == CallTool(http, clientName, baseUrl, env', tool, params)
            == Err(Preflight(http, clientName, env).error)
  {
  }

  /** A Python list of strings. */
  function Strs(ss: seq<string>): Value {
    Arr(StrItems(ss))
  }

  function StrItems(ss: seq<string>): seq<Value> {
    if ss == [] then [] else [Str(ss[0])] + StrItems(ss[1..])
  }

  const Claude := ("model", Str("claude"))

  /** `fetch_segments` with the default fields. */
  function Segments(http: bool, slug: string, baseUrl: string, env: Env): Result<Value, Failure> {
    var params := Obj([Claude, ("fields", Strs(["name", "created", "updated", "is_active"]))]);
    var result :- CallTool(http, Some(slug), baseUrl, env, "get_segments", params);
    DictGet(result, "data", Arr([]))
  }

  /** `fetch_flows` with the default fields. */
  function Flows(http: bool, slug: string, baseUrl: string, env: Env): Result<Value, Failure> {
    var params := Obj([Claude, ("fields", Strs(["name", "status", "trigger_type", "created", "updated"]))]);
    var result :- CallTool(http, Some(slug), baseUrl, env, "get_flows", params);
    DictGet(result, "data", Arr([]))
  }

  // ---------------------------------------------------------------------------
  // The campaign window

  const DaySeconds := 86400

  /** `datetime.strptime(s, "%Y-%m-%d")`: midnight of that day, without offset. */
  function Midnight(d: Dates.Date): Instant
    requires Dates.ValidDate(d)
  {
    Instant(Dates.DayNumber(d) * DaySeconds, false)
  }

  /** The campaign's `attributes.send_time` as an instant, `None` when it is
      missing or falsy, or the exception reading it raises. */
  function SendTime(c: Value, fromIso: string -> Option<Instant>): Result<Option<Instant>, Failure> {
    var attrs :- DictGet(c, "attributes", Obj([]));
    var sendTime :- DictGet(attrs, "send_time", Null);
    if !Truthy(sendTime) then Ok(None)
    else if !sendTime.Str? then Err(Raised(AttributeError))
    else
      match fromIso(Text.Replace(sendTime.s, "Z", "+00:00"))
      case None => Err(Raised(ValueError))
      case Some(t) => Ok(Some(t))
  }

  /** The loop body of `fetch_campaigns` as written: `start_dt <= campaign_dt`
      compares a datetime without offset with the parsed send time, which
      raises `TypeError` when the send time carries one. */
  function KeepAsWritten(c: Value, start: Instant, end: Instant, fromIso: string -> Option<Instant>): (r: Result<bool, Failure>)
    ensures SendTime(c, fromIso).Ok? && SendTime(c, fromIso).value.Some? && SendTime(c, fromIso).value.value.aware != start.aware
            ==> r == Err(Raised(TypeError))
    ensures r.Ok? ==> r == Keep(c, start, end, fromIso)
  {
    var t :- SendTime(c, fromIso);
    if t.None? then Ok(false)
    else if t.value.aware != start.aware then Err(Raised(TypeError))
    else Ok(start.seconds <= t.value.seconds <= end.seconds)
  }

  /** The loop body with the comparison done on the instants themselves. */
  function Keep(c: Value, start: Instant, end: Instant, fromIso: string -> Option<Instant>): (r: Result<bool, Failure>)
    ensures r == Ok(true) <==> SendTime(c, fromIso).Ok? && SendTime(c, fromIso).value.Some?
                               && start.seconds <= SendTime(c, fromIso).value.value.seconds <= end.seconds
    ensures r.Err? <==> SendTime(c, fromIso).Err?
  {
    var t :- SendTime(c, fromIso);
    if t.None? then Ok(false)
    else Ok(start.seconds <= t.value.seconds <= end.seconds)
  }

  /** A send time with a UTC offset inside the window: kept by the intended
      comparison, an exception as written. */
  lemma AwareSendTimeRaises()
    ensures var c := Obj([("attributes", Obj([("send_time", Str("2025-12-05T10:00:00Z"))]))]);
            var fromIso := (s: string) => Some(Instant(100, true));
            && KeepAsWritten(c, Instant(0, false), Instant(200, false), fromIso) == Err(Raised(TypeError))
            && Keep(c, Instant(0, false), Instant(200, false), fromIso) == Ok(true)
  {
    var c := Obj([("attributes", Obj([("send_time", Str("2025-12-05T10:00:00Z"))]))]);
    var fromIso := (s: string) => Some(Instant(100, true));
    assert DictGet(c, "attributes", Obj([])) == Ok(Obj([("send_time", Str("2025-12-05T10:00:00Z"))]));
  }

  /** The campaigns the loop keeps, in their order, or the first exception. */
  function Window(items: seq<Value>, start: Instant, end: Instant, fromIso: string -> Option<Instant>): (r: Result<seq<Value>, Failure>)
    ensures r.Ok? ==> |r.value| <= |items|
  {
    if items == [] then Ok([])
    else
      var kept :- Window(items[..|items| - 1], start, end, fromIso);
      var keep :- Keep(items[|items| - 1], start, end, fromIso);
      Ok(kept + if keep then [items[|items| - 1]] else [])
  }

  /** The window fails exactly when some campaign's send time cannot be read. */
  lemma {:induction false} WindowFails(items: seq<Value>, start: Instant, end: Instant, fromIso: string -> Option<Instant>)
    ensures Window(items, start, end, fromIso).Ok? <==>
            forall j :: 0 <= j < |items| ==> SendTime(items[j], fromIso).Ok?
  {
    if items != [] {
      var init := items[..|items| - 1];
      WindowFails(init, start, end, fromIso);
      OrderedMap.AllInit(items, init, c => SendTime(c, fromIso).Ok?);
    }
  }

  /** A campaign is in the window exactly when it is one of the input
      campaigns and its send time lies between the two bounds, both included. */
  lemma {:induction false} WindowMembers(items: seq<Value>, start: Instant, end: Instant, fromIso: string -> Option<Instant>, c: Value)
    requires Window(items, start, end, fromIso).Ok?
    ensures c in Window(items, start, end, fromIso).value <==> c in items && Keep(c, start, end, fromIso) == Ok(true)
  {
    if items != [] {
      var init := items[..|items| - 1];
      WindowMembers(init, start, end, fromIso, c);
      OrderedMap.InInit(items, c);
    }
  }

  /** The window of a sequence with one more campaign at its end. */
  lemma WindowSnoc(init: seq<Value>, x: Value, start: Instant, end: Instant, fromIso: string -> Option<Instant>)
    ensures Window(init + [x], start, end, fromIso)
            == (var kept :- Window(init, start, end, fromIso);
                var keep :- Keep(x, start, end, fromIso);
                Ok(kept + if keep then [x] else []))
  {
    assert (init + [x])[..|init|] == init;
  }

  /** Windows compose: the window of a concatenation is the concatenation
      of the windows, so the kept campaigns keep their order. */
  lemma {:induction false} WindowAppend(a: seq<Value>, b: seq<Value>, start: Instant, end: Instant, fromIso: string -> Option<Instant>)
    requires Window(a + b, start, end, fromIso).Ok?
    ensures Window(a, start, end, fromIso).Ok? && Window(b, start, end, fromIso).Ok?
    ensures Window(a + b, start, end, fromIso).value
            == Window(a, start, end, fromIso).value + Window(b, start, end, fromIso).value
  {
    if b == [] {
      assert a + b == a;
    } else {
      var binit, x := b[..|b| - 1], b[|b| - 1];
      assert b == binit + [x];
      OrderedMap.ConcatAssoc(a, binit, [x]);
      WindowSnoc(a + binit, x, start, end, fromIso);
      WindowAppend(a, binit, start, end, fromIso);
      WindowAppendStep(a, binit, x, start, end, fromIso);
    }
  }

  /** The step of `WindowAppend` for one more campaign at the end. */
  lemma WindowAppendStep(a: seq<Value>, b: seq<Value>, x: Value, start: Instant, end: Instant, fromIso: string -> Option<Instant>)
    requires Window((a + b) + [x], start, end, fromIso).Ok?
    requires Window(a, start, end, fromIso).Ok? && Window(b, start, end, fromIso).Ok?
    requires Window(a + b, start, end, fromIso) == Ok(Window(a, start, end, fromIso).value + Window(b, start, end, fromIso).value)
    ensures Window(b + [x], start, end, fromIso).Ok?
    ensures Window((a + b) + [x], start, end, fromIso).value
            == Window(a, start, end, fromIso).value + Window(b + [x], start, end, fromIso).value
  {
    WindowSnoc(a + b, x, start, end, fromIso);
    WindowSnoc(b, x, start, end, fromIso);
    var wa := Window(a, start, end, fromIso).value;
    var wb := Window(b, start, end, fromIso).value;
    var last := if Keep(x, start, end, fromIso).value then [x] else [];
    OrderedMap.ConcatAssoc(wa, wb, last);
  }

  /** The loop of `fetch_campaigns` over the returned campaigns. */
  method FilterCampaigns(items: seq<Value>, start: Instant, end: Instant, fromIso: string -> Option<Instant>)
    returns (r: Result<seq<Value>, Failure>)
    ensures r == Window(items, start, end, fromIso)
  {
    var filtered: seq<Value> := [];
    var i := 0;
    while i < |items|
      invariant 0 <= i <= |items|
      invariant Window(items[..i], start, end, fromIso) == Ok(filtered)
    {
      var keep := Keep(items[i], start, end, fromIso);
      if keep.Err? {
        WindowStep(items, i, filtered, keep, start, end, fromIso);
        WindowStops(items, i + 1, start, end, fromIso);
        return Err(keep.error);
      }
      WindowStep(items, i, filtered, keep, start, end, fromIso);
      filtered := filtered + if keep.value then [items[i]] else [];
      i := i + 1;
    }
    assert items[..i] == items;
    r := Ok(filtered);
  }

  /** The window of one more campaign. */
  lemma WindowStep(items: seq<Value>, i: int, kept: seq<Value>, keep: Result<bool, Failure>,
                   start: Instant, end: Instant, fromIso: string -> Option<Instant>)
    requires 0 <= i < |items|
    requires Window(items[..i], start, end, fromIso) == Ok(kept)
    requires Keep(items[i], start, end, fromIso) == keep
    ensures keep.Err? ==> Window(items[..i + 1], start, end, fromIso) == Err(keep.error)
    ensures keep.Ok? ==> Window(items[..i + 1], start, end, fromIso) == Ok(kept + if keep.value then [items[i]] else [])
  {
    assert items[..i + 1][..i] == items[..i];
  }

  /** Once a campaign fails, the window is that failure. */
  lemma {:induction false} WindowStops(items: seq<Value>, i: int, start: Instant, end: Instant, fromIso: string -> Option<Instant>)
    requires 0 < i <= |items|
    requires Window(items[..i], start, end, fromIso).Err?
    ensures Window(items, start, end, fromIso) == Window(items[..i], start, end, fromIso)
  {
    if i < |items| {
      var init := items[..|items| - 1];
      assert init[..i] == items[..i];
      WindowStops(init, i, start, end, fromIso);
    } else {
      assert items[..i] == items;
    }
  }

  /** `fetch_campaigns` for the email channel with the default fields. The
      window opens at midnight of `startDate` and closes at midnight of
      `endDate`. */
  function Campaigns(http: bool, slug: string, startDate: string, endDate: string, baseUrl: string, env: Env): Result<seq<Value>, Failure> {
    var start := Dates.ParseDate(startDate);
    var end := Dates.ParseDate(endDate);
    if start.None? || end.None? then Err(Raised(ValueError))
    else
      var result :- CallTool(http, Some(slug), baseUrl, env, "get_campaigns", CampaignParams(start.value));
      var data :- DictGet(result, "data", Arr([]));
      match Iterate(data)
      case None => Err(Raised(TypeError))
      case Some(items) => Window(items, Midnight(start.value), Midnight(end.value), env.fromIso)
  }

  function CampaignParams(start: Dates.Date): Value
    requires Dates.ValidDate(start)
  {
    Obj([Claude, ("channel", Str("email")),
         ("fields", Strs(["name", "status", "send_time", "audiences", "send_strategy", "created_at", "scheduled_at"])),
         ("filters", Arr([Obj([("field", Str("send_time")), ("operator", Str("greater-or-equal")),
                               ("value", Str(Dates.FormatDate(start) + "T00:00:00"))])]))])
  }

  // ---------------------------------------------------------------------------
  // The conversion metric

  /** `metric.get("attributes", {}).get("name")` */
  function MetricName(m: Value): Result<Value, Failure> {
    var attrs :- DictGet(m, "attributes", Obj([]));
    DictGet(attrs, "name", Null)
  }

  /** The search loop: the id of the first metric named "Placed Order", or
      `None` when no metric is named so. */
  function PlacedOrder(items: seq<Value>): Result<Option<Value>, Failure> {
    if items == [] then Ok(None)
    else
      var name :- MetricName(items[0]);
      if name == Str("Placed Order") then
        var id :- DictGet(items[0], "id", Null);
        Ok(Some(id))
      else PlacedOrder(items[1..])
  }

  /** A metric the search reads past: its name reads, and is not "Placed Order". */
  predicate PassedOver(m: Value) {
    MetricName(m).Ok? && MetricName(m).value != Str("Placed Order")
  }

  /** The search passes over a prefix of metrics that are all passed over. */
  lemma {:induction false} PlacedOrderSkip(items: seq<Value>, j: int)
    requires 0 <= j <= |items|
    requires forall k :: 0 <= k < j ==> PassedOver(items[k])
    ensures PlacedOrder(items) == PlacedOrder(items[j..])
  {
    if j > 0 {
      var rest := items[1..];
      assert forall k :: 0 <= k < j - 1 ==> rest[k] == items[k + 1];
      PlacedOrderSkip(rest, j - 1);
      assert rest[j - 1..] == items[j..];
    }
  }

  /** The first metric named "Placed Order" gives the search its answer:
      that metric's id. */
  lemma PlacedOrderFirst(items: seq<Value>, j: int)
    requires 0 <= j < |items|
    requires forall k :: 0 <= k < j ==> PassedOver(items[k])
    requires MetricName(items[j]) == Ok(Str("Placed Order"))
    ensures items[j].Obj?
    ensures PlacedOrder(items) == Ok(Some(DictGet(items[j], "id", Null).value))
  {
    PlacedOrderSkip(items, j);
  }

  /** The search answers `None` exactly when it passes over every metric. */
  lemma {:induction false} PlacedOrderNone(items: seq<Value>)
    ensures PlacedOrder(items) == Ok(None) <==> forall k :: 0 <= k < |items| ==> PassedOver(items[k])
  {
    if items != [] {
      var rest := items[1..];
      PlacedOrderNone(rest);
      assert forall k :: 0 < k < |items| ==> items[k] == rest[k - 1];
    }
  }

  /** `metrics["data"][0]` for a truthy `data`. */
  function First(v: Value): Result<Value, Failure>
    requires Truthy(v)
  {
    match v
    case Arr(items) => Ok(items[0])
    case Str(s) => Ok(Str([s[0]]))
    case Obj(_) => Err(Raised(KeyError))
    case _ => Err(Raised(TypeError))
  }

  /** The conversion metric of `fetch_campaign_report`/`fetch_flow_report`:
      the "Placed Order" metric's id, else (when that is falsy) the first
      metric's id; `None` when there are no metrics. */
  function ConversionMetric(metrics: Value): Result<Value, Failure> {
    var data :- DictGet(metrics, "data", Arr([]));
    match Iterate(data)
    case None => Err(Raised(TypeError))
    case Some(items) =>
      var found :- PlacedOrder(items);
      var id := if found.Some? then found.value else Null;
      if Truthy(id) then Ok(id)
      else
        var data' := match Field(metrics, "data") case Some(x) => x case None => Null;
        if !Truthy(data') then Ok(id)
        else
          var first :- First(data');
          DictGet(first, "id", Null)
  }

  /** A truthy "Placed Order" id is chosen; failing one, the first metric's
      id; with no metrics there is no conversion metric. */
  lemma ConversionMetricChoice(metrics: Value)
    requires metrics.Obj? && HasField(metrics, "data") && Field(metrics, "data").value.Arr?
    ensures var items := Field(metrics, "data").value.items;
            var found := PlacedOrder(items);
            && (found.Ok? && found.value.Some? && Truthy(found.value.value) ==>
                  ConversionMetric(metrics) == Ok(found.value.value))
            && (found.Ok? && !(found.value.Some? && Truthy(found.value.value)) && items != [] ==>
                  ConversionMetric(metrics) == DictGet(items[0], "id", Null))
            && (items == [] ==> ConversionMetric(metrics) == Ok(Null))
  {
  }

  /** The same choice, read from the method's own search loop. */
  method ChooseConversionMetric(metrics: Value) returns (r: Result<Value, Failure>)
    ensures r == ConversionMetric(metrics)
  {
    var data := DictGet(metrics, "data", Arr([]));
    if data.Err? {
      return Err(data.error);
    }
    var items := Iterate(data.value);
    if items.None? {
      return Err(Raised(TypeError));
    }
    var id := Null;
    var i := 0;
    while i < |items.value|
      invariant 0 <= i <= |items.value|
      invariant PlacedOrder(items.value) == PlacedOrder(items.value[i..])
    {
      var m := items.value[i];
      assert items.value[i..][1..] == items.value[i + 1..];
      var name := MetricName(m);
      if name.Err? {
        return Err(name.error);
      }
      if name.value == Str("Placed Order") {
        id := DictGet(m, "id", Null).value;
        break;
      }
      i := i + 1;
    }
    if !Truthy(id) {
      var data' := match Field(metrics, "data") case Some(x) => x case None => Null;
      if Truthy(data') {
        var first := First(data');
        if first.Err? {
          return Err(first.error);
        }
        return DictGet(first.value, "id", Null);
      }
    }
    r := Ok(id);
  }

  /** `value_statistics` */
  function ValueStatistics(id: Value): (r: seq<string>)
    ensures r == [] <==> !Truthy(id)
  {
    if Truthy(id) then ["average_order_value", "conversion_value"] else []
  }

  const CampaignStatistics := [
    "recipients", "opens", "opens_unique", "clicks", "clicks_unique",
    "open_rate", "click_rate", "click_to_open_rate",
    "bounced", "bounce_rate", "unsubscribes", "unsubscribe_rate",
    "conversions", "conversion_rate", "revenue_per_recipient"
  ]

  const MetricsParams := Obj([Claude, ("fields", Strs(["name"]))])

  function ReportParams(id: Value, startDate: string, endDate: string): Value {
    Obj([Claude, ("statistics", Strs(CampaignStatistics)), ("conversion_metric_id", id),
         ("value_statistics", Strs(ValueStatistics(id))),
         ("timeframe", Obj([("value", Obj([("start", Str(startDate)), ("end", Str(endDate))]))]))])
  }

  /** `fetch_campaign_report` with the default statistics. */
  function CampaignReport(http: bool, slug: string, startDate: string, endDate: string, baseUrl: string, env: Env): Result<Value, Failure> {
    var metrics :- CallTool(http, Some(slug), baseUrl, env, "get_metrics", MetricsParams);
    var id :- ConversionMetric(metrics);
    var result :- CallTool(http, Some(slug), baseUrl, env, "get_campaign_performance", ReportParams(id, startDate, endDate));
    DictGet(result, "data", Obj([]))
  }

  const EmptyReport := Obj([("data", Obj([]))])

  /** `fetch_flow_report`: it asks for the metrics and then returns an empty
      report whatever they are. */
  function FlowReport(http: bool, slug: string, baseUrl: string, env: Env): (r: Result<Value, Failure>)
    ensures r.Ok? ==> r.value == EmptyReport
  {
    var metrics :- CallTool(http, Some(slug), baseUrl, env, "get_metrics", MetricsParams);
    var id :- ConversionMetric(metrics);
    Ok(EmptyReport)
  }

  // ---------------------------------------------------------------------------
  // fetch_all_data

  function OrElse<T>(r: Result<T, Failure>, default: T): (v: T)
    ensures r.Ok? ==> v == r.value
    ensures r.Err? ==> v == default
  {
    if r.Ok? then r.value else default
  }

  /** The five results of the `gather`, each exception already replaced. */
  datatype Gathered = Gathered(segments: Value, campaigns: seq<Value>, campaignReport: Value, flows: Value, flowReport: Value)

  function Gather(http: bool, slug: string, startDate: string, endDate: string, baseUrl: string, env: Env): Gathered {
    Gathered(
      OrElse(Segments(http, slug, baseUrl, env), Arr([])),
      OrElse(Campaigns(http, slug, startDate, endDate, baseUrl, env), []),
      OrElse(CampaignReport(http, slug, startDate, endDate, baseUrl, env), Obj([])),
      OrElse(Flows(http, slug, baseUrl, env), Arr([])),
      OrElse(FlowReport(http, slug, baseUrl, env), Obj([])))
  }

  /** The dictionary `fetch_all_data` returns; `now` is `utcnow().isoformat()`.
      Its closing log line takes `len` of the segments and the flows, which
      raises `TypeError` when the service's "data" was not a sized value. */
  function AllData(http: bool, slug: string, startDate: string, endDate: string, baseUrl: string, env: Env, now: string): Result<Value, Failure> {
    var g := Gather(http, slug, startDate, endDate, baseUrl, env);
    if Len(g.segments).None? || Len(g.flows).None? then Err(Raised(TypeError))
    else
      Ok(Obj([("segments", g.segments), ("campaigns", Arr(g.campaigns)),
              ("campaign_report", g.campaignReport), ("flows", g.flows), ("flow_report", g.flowReport),
              ("metadata", Obj([("client_name", Str(slug)), ("start_date", Str(startDate)),
                                ("end_date", Str(endDate)), ("fetched_at", Str(now))]))]))
  }

  /** No sub-fetch failure escapes the gather: a failed list becomes `[]`,
      a failed report `{}`, and a flow report is never anything but an
      empty report or `{}`. */
  lemma GatherDegrades(http: bool, slug: string, startDate: string, endDate: string, baseUrl: string, env: Env)
    ensures var g := Gather(http, slug, startDate, endDate, baseUrl, env);
            && (Segments(http, slug, baseUrl, env).Err? ==> g.segments == Arr([]))
            && (Campaigns(http, slug, startDate, endDate, baseUrl, env).Err? ==> g.campaigns == [])
            && (CampaignReport(http, slug, startDate, endDate, baseUrl, env).Err? ==> g.campaignReport == Obj([]))
            && (Flows(http, slug, baseUrl, env).Err? ==> g.flows == Arr([]))
            && (g.flowReport == EmptyReport || g.flowReport == Obj([]))
  {
  }

  /** Outside `async with` every fetch fails before anything is sent. */
  lemma FetchesNeedHttp(slug: string, startDate: string, endDate: string, baseUrl: string, env: Env)
    ensures Segments(false, slug, baseUrl, env) == Err(NoHttpClient)
    ensures Flows(false, slug, baseUrl, env) == Err(NoHttpClient)
    ensures Campaigns(false, slug, startDate, endDate, baseUrl, env).Err?
    ensures CampaignReport(false, slug, startDate, endDate, baseUrl, env) == Err(NoHttpClient)
    ensures FlowReport(false, slug, baseUrl, env) == Err(NoHttpClient)
  {
  }

  /** So outside `async with` the result holds only empty sections and the
      metadata. */
  lemma AllDataWithoutHttp(slug: string, startDate: string, endDate: string, baseUrl: string, env: Env, now: string)
    ensures AllData(false, slug, startDate, endDate, baseUrl, env, now)
            == Ok(Obj([("segments", Arr([])), ("campaigns", Arr([])), ("campaign_report", Obj([])),
                       ("flows", Arr([])), ("flow_report", Obj([])),
                       ("metadata", Obj([("client_name", Str(slug)), ("start_date", Str(startDate)),
                                         ("end_date", Str(endDate)), ("fetched_at", Str(now))]))]))
  {
    FetchesNeedHttp(slug, startDate, endDate, baseUrl, env);
    assert Gather(false, slug, startDate, endDate, baseUrl, env) == Gathered(Arr([]), [], Obj([]), Arr([]), Obj([]));
  }

  /** `MCPClient` */
  class Client {
    const baseUrl: string
    const timeout: int
    var http: bool
    var clientName: Option<string>

    constructor (host: string, port: int, timeout: int)
      ensures baseUrl == "http://" + host + ":" + Text.IntToString(port) && this.timeout == timeout
      ensures !http && clientName.None?
    {
      baseUrl := "http://" + host + ":" + Text.IntToString(port);
      this.timeout := timeout;
      http := false;
      clientName := None;
    }

    /** `__aenter__`: opens the HTTP client. */
    method Enter()
      modifies this`http
      ensures http
    {
      http := true;
    }

    method FetchSegments(slug: string, env: Env) returns (r: Result<Value, Failure>)
      modifies this`clientName
      ensures clientName == Some(slug)
      ensures r == Segments(http, slug, baseUrl, env)
    {
      clientName := Some(slug);
      var result := CallTool(http, clientName, baseUrl, env, "get_segments",
                             Obj([Claude, ("fields", Strs(["name", "created", "updated", "is_active"]))]));
      if result.Err? {
        return Err(result.error);
      }
      r := DictGet(result.value, "data", Arr([]));
    }

    method FetchCampaigns(slug: string, startDate: string, endDate: string, env: Env)
      returns (r: Result<seq<Value>, Failure>)
      modifies this`clientName
      ensures clientName == Some(slug)
      ensures r == Campaigns(http, slug, startDate, endDate, baseUrl, env)
    {
      clientName := Some(slug);
      var s := Dates.ParseDate(startDate);
      var e := Dates.ParseDate(endDate);
      if s.None? || e.None? {
        return Err(Raised(ValueError));
      }
      var result := CallTool(http, clientName, baseUrl, env, "get_campaigns", CampaignParams(s.value));
      if result.Err? {
        return Err(result.error);
      }
      var data := DictGet(result.value, "data", Arr([]));
      if data.Err? {
        return Err(data.error);
      }
      var items := Iterate(data.value);
      if items.None? {
        return Err(Raised(TypeError));
      }
      r := FilterCampaigns(items.value, Midnight(s.value), Midnight(e.value), env.fromIso);
    }

    method FetchCampaignReport(slug: string, startDate: string, endDate: string, env: Env)
      returns (r: Result<Value, Failure>)
      modifies this`clientName
      ensures clientName == Some(slug)
      ensures r == CampaignReport(http, slug, startDate, endDate, baseUrl, env)
    {
      clientName := Some(slug);
      var metrics := CallTool(http, clientName, baseUrl, env, "get_metrics", MetricsParams);
      if metrics.Err? {
        return Err(metrics.error);
      }
      var id := ChooseConversionMetric(metrics.value);
      if id.Err? {
        return Err(id.error);
      }
      var result := CallTool(http, clientName, baseUrl, env, "get_campaign_performance",
                             ReportParams(id.value, startDate, endDate));
      if result.Err? {
        return Err(result.error);
      }
      r := DictGet(result.value, "data", Obj([]));
    }

    method FetchFlows(slug: string, env: Env) returns (r: Result<Value, Failure>)
      modifies this`clientName
      ensures clientName == Some(slug)
      ensures r == Flows(http, slug, baseUrl, env)
    {
      clientName := Some(slug);
      var result := CallTool(http, clientName, baseUrl, env, "get_flows",
                             Obj([Claude, ("fields", Strs(["name", "status", "trigger_type", "created", "updated"]))]));
      if result.Err? {
        return Err(result.error);
      }
      r := DictGet(result.value, "data", Arr([]));
    }

    method FetchFlowReport(slug: string, env: Env) returns (r: Result<Value, Failure>)
      modifies this`clientName
      ensures clientName == Some(slug)
      ensures r == FlowReport(http, slug, baseUrl, env)
    {
      clientName := Some(slug);
      var metrics := CallTool(http, clientName, baseUrl, env, "get_metrics", MetricsParams);
      if metrics.Err? {
        return Err(metrics.error);
      }
      var id := ChooseConversionMetric(metrics.value);
      if id.Err? {
        return Err(id.error);
      }
      r := Ok(EmptyReport);
    }

    /** `fetch_all_data`: the five fetches in `gather` order, each failure
        replaced by an empty value. */
    method FetchAllData(slug: string, startDate: string, endDate: string, env: Env, now: string)
      returns (r: Result<Value, Failure>)
      modifies this`clientName
      ensures clientName == Some(slug)
      ensures r == AllData(http, slug, startDate, endDate, baseUrl, env, now)
    {
      var segments := FetchSegments(slug, env);
      var campaigns := FetchCampaigns(slug, startDate, endDate, env);
      var report := FetchCampaignReport(slug, startDate, endDate, env);
      var flows := FetchFlows(slug, env);
      var flowReport := FetchFlowReport(slug, env);
      var g := Gathered(OrElse(segments, Arr([])), OrElse(campaigns, []), OrElse(report, Obj([])),
                        OrElse(flows, Arr([])), OrElse(flowReport, Obj([])));
      if Len(g.segments).None? || Len(g.flows).None? {
        return Err(Raised(TypeError));
      }
      r := Ok(Obj([("segments", g.segments), ("campaigns", Arr(g.campaigns)),
                   ("campaign_report", g.campaignReport), ("flows", g.flows), ("flow_report", g.flowReport),
                   ("metadata", Obj([("client_name", Str(slug)), ("start_date", Str(startDate)),
                                     ("end_date", Str(endDate)), ("fetched_at", Str(now))]))]));
    }
  }
}
