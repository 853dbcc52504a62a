# emailpilot-simple, modelled in Dafny

emailpilot-simple plans e-mail and SMS marketing calendars for the clients of
an agency. For one client and date range it fetches the client's Klaviyo
account data (segments, campaigns, flows, reports and the product catalog)
through MCP servers. It caches that data, runs a three-stage prompt workflow
(planning, structuring, briefs) and checks each output. It then converts the
resulting calendar into the import formats of the agency's calendar
application.

This project models the deterministic core of that system. Each source file
is one Dafny module:

- `native_mcp_client.dfy` covers the native MCP client. One child process
  per account speaks newline-delimited JSON-RPC 2.0. Classes
  `ServerProcess` and `Client` model the request counter, the
  request/response step and its failure modes, the server registry, config
  selection, account resolution, the catalog pagination loop, the
  fetch orchestrator and its "real data present" gate.
- `mcp_client.dfy` covers the HTTP MCP client: the account-name mapping,
  the preconditions of a tool call, the campaign date window, the
  conversion-metric choice and the way `fetch_all_data` degrades failures.
- `mcp_cache.dfy` is the TTL cache, a class whose clock is an argument.
  `client_registry.dfy` is the three-index client registry.
  `secret_manager.dfy` covers the secret names and resource paths.
- `format_adapter.dfy` is the calendar format adapter. It covers field
  extraction by priority, time normalisation, emoji prefixes, event ids,
  the two transformations and the app-format validator.
- `calendar_format_validator.dfy` covers the upload-format validator.
  `validator.dfy` covers the v4.0.0 calendar check and the planning and
  brief text checks.
- `calendar_tool.dfy` covers the workflow wrapper: input validation, the
  output checks with their success flag, and single-stage dispatch.
- `calendar_agent.dfy` covers the agent's text handling: prompt building,
  fence stripping, locating where the JSON starts, the stage-3 cache scan,
  the workflow gates and MCP data formatting.
- `import_calendar.dfy`, `push_calendar.dfy` and `fix_event_types.dfy`
  cover the three command-line scripts that push calendars to the app and
  repair event types.

A few shared modules support these:

- `wrappers.dfy` holds Option and Result.
- `text.dfy` holds the Python `str` operations the code uses.
- `ordered_map.dfy` models Python's insertion-ordered `dict`.
- `json_value.dfy` models decoded JSON and Python's truthiness, `len`,
  `get`, `in` and `str` on it.
- `dates.dfy` models `strptime` for the formats the code uses.

Python exceptions are modelled as `Err` values of a `PyExc` or module
error type, so a path that raises in the source is a result here. The one
exception is the campaign date window of `fetch_campaigns`: the source's
window test raises for a campaign with an offset-aware send time (see
"## Findings"), and the model uses the corrected window instead.
Where a function loops or updates state in the source, the model has a
method with loop invariants. That method is proved equal to a
specification function, and the properties are proved about the function.

## Model

| member | source | states |
|---|---|---|
| SecretManager.NewClient | data/secret_manager_client.py:23-35 | a client is built exactly when the explicit project id or the environment's one is non-empty; the explicit id wins, and a built client never has an empty project id |
| SecretManager.SecretNameShape | data/secret_manager_client.py:40-71 | every secret name starts with `klaviyo-api-`; the three aliased slugs get their fixed name, any other slug is the prefix followed by the slug unchanged |
| SecretManager.SecretNameInjective | data/secret_manager_client.py:63-71 | two slugs outside the alias table never map to the same secret |
| SecretManager.AliasShared | data/secret_manager_client.py:63-71 | the slug `vlasic` and the slug `vlasic-labs` read the same secret |
| SecretManager.SecretPath | data/secret_manager_client.py:90 | the path starts with `projects/<project>/secrets/`, ends with `/versions/<version>` and has exactly the length of its parts |
| SecretManager.SecretPathInjective | data/secret_manager_client.py:90 | with project and version fixed, different secret names give different paths |
| SecretManager.ApiKeyIsolated | data/secret_manager_client.py:73-109 | a client's key is never read from another client's secret: with only the secret of one non-aliased slug present, `get_api_key` succeeds for a non-aliased slug exactly when it is that slug |
| SecretManager.SecretIsolated | data/secret_manager_client.py:111-140 | each name reads its own secret version: with only one secret present, `get_secret` returns its payload for that name and fails with the requested path for every other name |
| ClientRegistry.SlugStep | data/client_registry.py:30-31 | filing by slug fails exactly for a record whose slug is unhashable or which cannot be tested for the key; otherwise it files the record under its slug |
| ClientRegistry.IdStep | data/client_registry.py:34-35 | filing by id fails exactly when the id test or subscript raises; otherwise it files the record under `str(id)` |
| ClientRegistry.NameStep | data/client_registry.py:38-39 | filing by name fails exactly when the name has no `lower`; otherwise it files the record under the lower-cased name |
| ClientRegistry.IndexRecordSpec | data/client_registry.py:28-39 | the loop body fails exactly on a record that is not indexable, and otherwise files it under each key it has in each of the three tables |
| ClientRegistry.IndexAllSucceeds | data/client_registry.py:28-41 | the loop completes exactly when every record is indexable |
| ClientRegistry.IndexAllTables | data/client_registry.py:28-39 | after a completed loop each table holds every record under its key, later records overwriting earlier ones |
| ClientRegistry.LastSlugWins | data/client_registry.py:28-31 | a slug finds the last record with that slug, or what was filed before the load |
| ClientRegistry.LastIdWins | data/client_registry.py:28-35 | the same for an id, filed as `str(id)` |
| ClientRegistry.LastNameWins | data/client_registry.py:28-39 | the same for a lower-cased name |
| ClientRegistry.IndexAllStops | data/client_registry.py:19-47 | once a record raises, the remaining records are not looked at |
| ClientRegistry.UninitializedIdentity | data/client_registry.py:54-56 | before a successful `initialize` every identifier resolves to itself |
| ClientRegistry.SlugFirst | data/client_registry.py:60-64 | a slug match wins over every other match |
| ClientRegistry.IdBeforeName | data/client_registry.py:66-70 | an id match wins over a name match |
| ClientRegistry.NameIgnoresCase | data/client_registry.py:58-76 | two identifiers that differ only in case resolve to the same name through the name table |
| ClientRegistry.LowerSlugScanRedundant | data/client_registry.py:78-85 | for a lower-case identifier that no table holds, the final slug scan finds nothing new and the identifier comes back unchanged |
| ClientRegistry.Registry.constructor | data/client_registry.py:12-17 | three empty tables and not yet initialized |
| ClientRegistry.Registry.Initialize | data/client_registry.py:19-47 | the tables become those of the load; the flag is set only when every record went through, and an exception keeps what was filed before it |
| ClientRegistry.Registry.IndexOne | data/client_registry.py:28-39 | one record is filed as the loop-body specification says, keeping every table's keys unique |
| ClientRegistry.Registry.ResolveClientName | data/client_registry.py:49-85 | the resolution follows slug, id, name and then the slug scan, or returns the identifier itself |
| McpCache.Stamp | data/mcp_cache.py:41-47 | the stored record holds the data and the creation time, and is live at its own creation time exactly when the effective TTL is not negative |
| McpCache.Live | data/mcp_cache.py:113-117 | the live pairs are no more than the stored ones |
| McpCache.ExpiredKeys | data/mcp_cache.py:134-137 | the expired keys are no more than the stored pairs |
| McpCache.Partition | data/mcp_cache.py:113-124 | every pair is counted once, as live or as expired |
| McpCache.LiveMembers | data/mcp_cache.py:113-117 | the live pairs are exactly the stored pairs that have not expired |
| McpCache.ExpiredMembers | data/mcp_cache.py:134-137 | the expired keys are exactly the keys of the expired pairs |
| McpCache.LiveUnique | data/mcp_cache.py:113-117 | the live pairs keep the store's keys distinct |
| McpCache.LiveOrder | data/mcp_cache.py:113-117 | the live pairs keep the store's insertion order |
| McpCache.LiveKeys | data/mcp_cache.py:59-69 | a key is live exactly when `get` would find it present and unexpired |
| McpCache.DropExpired | data/mcp_cache.py:134-140 | deleting the expired keys one by one leaves exactly the live pairs, in order |
| McpCache.LastNotExpiredBefore | data/mcp_cache.py:134-140 | the last key is not among the keys that expired before it |
| McpCache.CleanupInvisible | data/mcp_cache.py:126-142 | cleaning up changes nothing `get` can see |
| McpCache.SetThenGet | data/mcp_cache.py:32-69 | stored data reads back until its effective TTL has run out, expiry being strict |
| McpCache.SetThenExpire | data/mcp_cache.py:32-69 | after the effective TTL the key reads as absent and the read deletes it |
| McpCache.SetOthers | data/mcp_cache.py:43-47 | storing one key leaves every other key reading as before |
| McpCache.ReadOthers | data/mcp_cache.py:59-69 | a read deletes only an expired entry of its own key |
| McpCache.ReadTwice | data/mcp_cache.py:59-69 | reading twice gives the same answer and the same store as reading once |
| McpCache.DeleteOthers | data/mcp_cache.py:93-96 | deleting one key leaves every other key reading as before |
| McpCache.Cache.constructor | data/mcp_cache.py:22-30 | an empty cache with the given default TTL |
| McpCache.Cache.Set | data/mcp_cache.py:32-47 | the key's record is replaced in place or added last, stamped with `now` and the effective TTL |
| McpCache.Cache.Get | data/mcp_cache.py:49-69 | returns the data of a present, unexpired key and `None` otherwise; an expired key is deleted; a missing key reads as `None` |
| McpCache.Cache.Has | data/mcp_cache.py:71-81 | true exactly when `get` returns something other than `None`, with the same deletion |
| McpCache.Cache.Delete | data/mcp_cache.py:83-96 | true exactly when the key was present; afterwards it is gone and nothing else changes |
| McpCache.Cache.Clear | data/mcp_cache.py:98-100 | the cache is empty |
| McpCache.Cache.GetStats | data/mcp_cache.py:102-124 | total equals active plus expired, and the listed keys are the live keys in insertion order |
| McpCache.Cache.CleanupExpired | data/mcp_cache.py:126-142 | the store keeps exactly its live pairs in order, and the count returned is the number of pairs removed |
| McpClient.AccountNameShape | data/mcp_client.py:60-82 | a mapped slug gets its fixed account name ending in ` Klaviyo`; any other slug gets itself followed by `_Klaviyo` |
| McpClient.AccountsDistinct | data/mcp_client.py:72-80 | the seven mapped accounts have seven different names |
| McpClient.AccountNameInjective | data/mcp_client.py:60-82 | no two slugs share an account name |
| McpClient.DictGet | data/mcp_client.py:117-123 | `get` raises exactly on a non-dict and otherwise returns the stored value or the default |
| McpClient.PrivateApiKey | data/mcp_client.py:84-130 | a key that is returned is truthy (a missing file, account or key raises instead) |
| McpClient.CallToolGuards | data/mcp_client.py:132-187 | the call raises in order for a closed HTTP client, a missing client name, a key lookup failure and a missing auth token; otherwise exactly one POST is sent with the account's key and the bearer token, and its reply is the result |
| McpClient.GuardsSendNothing | data/mcp_client.py:151-164 | a call stopped by a guard never reaches the service: its outcome does not depend on the service's answer |
| McpClient.KeepAsWritten | data/mcp_client.py:273-279 | as written, a send time with a UTC offset makes the comparison with the offset-free window bounds raise `TypeError`; when it does not raise it agrees with the intended comparison |
| McpClient.Keep | data/mcp_client.py:273-279 | the corrected loop body keeps a campaign exactly when its send time reads and lies between the bounds, both included, and raises exactly when the send time cannot be read |
| McpClient.AwareSendTimeRaises | data/mcp_client.py:274-278 | a campaign sent at `2025-12-05T10:00:00Z`, inside the window, is kept by the intended comparison and raises as written |
| McpClient.Window | data/mcp_client.py:270-280 | the kept campaigns are no more than the returned ones |
| McpClient.WindowFails | data/mcp_client.py:273-276 | the filtering fails exactly when some campaign's send time cannot be read |
| McpClient.WindowMembers | data/mcp_client.py:270-280 | a campaign is kept exactly when it was returned and its send time lies in the window |
| McpClient.WindowSnoc | data/mcp_client.py:273-278 | one more campaign at the end is kept or not after the earlier ones |
| McpClient.WindowAppend | data/mcp_client.py:270-280 | the window of a concatenation is the concatenation of the windows, so kept campaigns keep their order |
| McpClient.WindowAppendStep | data/mcp_client.py:270-280 | the step of the concatenation property for one more campaign |
| McpClient.FilterCampaigns | data/mcp_client.py:270-280 | the loop of `fetch_campaigns` computes the window |
| McpClient.WindowStep | data/mcp_client.py:273-278 | the loop state after one more campaign |
| McpClient.WindowStops | data/mcp_client.py:273-278 | once a campaign raises, the loop's outcome is that failure |
| McpClient.PlacedOrderSkip | data/mcp_client.py:322-325 | the search reads past metrics that are not named `Placed Order` |
| McpClient.PlacedOrderFirst | data/mcp_client.py:322-325 | the first metric named `Placed Order` gives its id and ends the search |
| McpClient.PlacedOrderNone | data/mcp_client.py:321-325 | the search finds nothing exactly when it reads past every metric |
| McpClient.ConversionMetricChoice | data/mcp_client.py:320-328 | a truthy `Placed Order` id is chosen; failing one, the first metric's id; with no metrics there is none |
| McpClient.ChooseConversionMetric | data/mcp_client.py:320-328 | the search loop and its fallback compute that choice |
| McpClient.ValueStatistics | data/mcp_client.py:330-334 | value statistics are asked for exactly when there is a conversion metric |
| McpClient.FlowReport | data/mcp_client.py:385-441 | whatever the metrics are, a flow report that does not raise is the empty report |
| McpClient.GatherDegrades | data/mcp_client.py:486-514 | no fetch failure escapes the gather: a failed list becomes `[]`, a failed report `{}`, and the flow report is only ever an empty report or `{}` |
| McpClient.FetchesNeedHttp | data/mcp_client.py:151-152 | outside `async with` every fetch fails before anything is sent |
| McpClient.AllDataWithoutHttp | data/mcp_client.py:443-532 | outside `async with` the result holds only empty sections and the metadata of the request |
| McpClient.Client.constructor | data/mcp_client.py:28-48 | the base URL is `http://<host>:<port>`; no HTTP client and no client name yet |
| McpClient.Client.Enter | data/mcp_client.py:50-53 | the HTTP client is open |
| McpClient.Client.FetchSegments | data/mcp_client.py:189-217 | records the client name and returns the segments request's `data` |
| McpClient.Client.FetchCampaigns | data/mcp_client.py:219-280 | records the client name and returns the campaigns in the corrected window of "## Findings", in order |
| McpClient.Client.FetchCampaignReport | data/mcp_client.py:282-353 | records the client name and returns the report for the chosen conversion metric |
| McpClient.Client.FetchFlows | data/mcp_client.py:355-383 | records the client name and returns the flows request's `data` |
| McpClient.Client.FetchFlowReport | data/mcp_client.py:385-441 | records the client name and returns the empty report unless the metrics request raises |
| McpClient.Client.FetchAllData | data/mcp_client.py:443-532 | the five fetches in gather order, each failure replaced by an empty value, plus the metadata, the campaigns being those of the corrected window of "## Findings"; the closing log line raises `TypeError` for unsized segments or flows |
| NativeMcpClient.Reply | data/native_mcp_client.py:114-126 | a reply is returned exactly when the line parses to a value without an `error` member; a response with an error object raises the MCP error |
| NativeMcpClient.AfterRead | data/native_mcp_client.py:115 | reading a line consumes it |
| NativeMcpClient.Exchange | data/native_mcp_client.py:102-130 | a child that is not running raises before anything is written, end of output raises "closed connection", and a success is the reply to the first line |
| NativeMcpClient.ToolCall | data/native_mcp_client.py:132-150 | a tool call only succeeds against a running child that still has output |
| NativeMcpClient.ToolList | data/native_mcp_client.py:152-167 | a tool listing only succeeds against a running child that still has output |
| NativeMcpClient.IdsDistinct | data/native_mcp_client.py:97-100 | no two requests written to one child share an id |
| NativeMcpClient.ServerProcess.constructor | data/native_mcp_client.py:36-40 | a new process is not running, has sent nothing and its id counter is 0 |
| NativeMcpClient.ServerProcess.NextRequestId | data/native_mcp_client.py:97-100 | ids run 1, 2, 3, ...: the new id is one more than the last and above every id already sent |
| NativeMcpClient.ServerProcess.SendRequest | data/native_mcp_client.py:102-130 | the request is written only to a running child, one line is read, and the outcome is the exchange |
| NativeMcpClient.ServerProcess.CallTool | data/native_mcp_client.py:132-150 | the id is taken even when the child is not running; a `tools/call` request with that id is written to a running child and the result's `content` returned |
| NativeMcpClient.ServerProcess.ListTools | data/native_mcp_client.py:152-167 | the same with a `tools/list` request and the result's `tools` |
| NativeMcpClient.ServerProcess.Start | data/native_mcp_client.py:42-95 | a failed spawn raises and changes nothing; otherwise the child runs, the `initialize` request with the next id is written, and the start succeeds exactly when the handshake does |
| NativeMcpClient.ServerProcess.Stop | data/native_mcp_client.py:169-180 | a running child is terminated; nothing else changes |
| NativeMcpClient.TextPayload | data/native_mcp_client.py:625-629 | an empty tool result gives no payload; a payload comes only from a non-empty sized result |
| NativeMcpClient.ListData | data/native_mcp_client.py:612-634 | an empty tool result or one without text content gives `[]`; a decoded dict gives its `data` member, `[]` without one; a decoded non-dict raises, and so does any failure of reading the payload |
| NativeMcpClient.CampaignData | data/native_mcp_client.py:636-665 | the campaigns are a fresh list holding exactly the items of the payload's `data`, `[]` for an empty tool result; a `data` that cannot be iterated raises, as does any failure of reading it |
| NativeMcpClient.PageStep | data/native_mcp_client.py:763-793 | a failed page call or unreadable payload fails the fetch; a result without text content ends the loop with no items; otherwise a page's items are those of its `data`, and the loop continues exactly when `links.next` is truthy |
| NativeMcpClient.Cap | data/native_mcp_client.py:796 | the truncation keeps at most 100 items, as a prefix, and leaves a short list alone |
| NativeMcpClient.Catalog | data/native_mcp_client.py:745-809 | the catalog never exceeds 100 items |
| NativeMcpClient.CatalogIsPrefix | data/native_mcp_client.py:745-809 | the catalog is a prefix of the pages' items concatenated in order |
| NativeMcpClient.CatalogIsPrefixMore | data/native_mcp_client.py:786-790 | the same past a page that names a next one |
| NativeMcpClient.CatalogFailure | data/native_mcp_client.py:805-809 | a failing page discards every item collected before it |
| NativeMcpClient.FetchCatalogItems | data/native_mcp_client.py:736-809 | the pagination loop never raises, computes the catalog and returns at most 100 items |
| NativeMcpClient.Empty | data/native_mcp_client.py:411-418 | `not x or len(x) == 0` agrees with `len(x) == 0` on every value that has a length, is true for every other falsy value, and raises `TypeError` exactly for a truthy value without a length |
| NativeMcpClient.DataFindingsRules | data/native_mcp_client.py:408-419 | the data gate halts exactly when segments are empty, or campaigns and flows both are; empty flows alone only warn |
| NativeMcpClient.DataFindingsRaises | data/native_mcp_client.py:406-419 | the gate raises `TypeError` exactly when one of the three members is truthy but has no length |
| NativeMcpClient.BulletsContain | data/native_mcp_client.py:437-443 | every item gets its own bullet line |
| NativeMcpClient.CheckData | data/native_mcp_client.py:393-452 | when checking the members raises, the gate raises the same exception; otherwise it passes exactly when there are no errors, a pass returns the warnings, and a halt raises `ValueError` with the halt report of the findings |
| NativeMcpClient.GateRules | data/native_mcp_client.py:415-448 | on data whose members can be read, the gate passes exactly when segments are non-empty and campaigns or flows are; a pass warns exactly when flows are empty; a halt's report has a bullet line for every error |
| NativeMcpClient.HaltReportNamesErrors | data/native_mcp_client.py:430-448 | the halt report names every violated rule on its own bullet line |
| NativeMcpClient.ValidateMcpData | data/native_mcp_client.py:393-452 | the line-by-line report building computes the gate's outcome |
| NativeMcpClient.BuildHaltReport | data/native_mcp_client.py:431-446 | the report built line by line is the halt report |
| NativeMcpClient.AppendBullets | data/native_mcp_client.py:437-438 | the loop appends one bullet line per item |
| NativeMcpClient.FileEntry | data/native_mcp_client.py:357-370 | an entry is kept only when its name mentions `Klaviyo`, under that name, with the entry's command (default `/usr/local/bin/uvx`) and args (default `[]`) |
| NativeMcpClient.FileEntries | data/native_mcp_client.py:356-372 | every loaded configuration's name mentions `Klaviyo`, and there are no more than entries |
| NativeMcpClient.FileEntriesNames | data/native_mcp_client.py:356-372 | exactly the entries whose name mentions `Klaviyo` are kept, in file order |
| NativeMcpClient.FileEntriesSnoc | data/native_mcp_client.py:359-370 | one more entry appends its configuration, if any, or raises |
| NativeMcpClient.FileEntriesStops | data/native_mcp_client.py:343-377 | a failing entry ends the whole load with its exception |
| NativeMcpClient.KlaviyoConfig | data/native_mcp_client.py:315-324 | a registry client's server is named `<name> Klaviyo` and runs the `klaviyo-mcp-server` package read-only with the secret as its key |
| NativeMcpClient.Yields | data/native_mcp_client.py:295-332 | the kept values are no more than the inputs |
| NativeMcpClient.YieldsMembers | data/native_mcp_client.py:295-332 | a value is kept exactly when some input yields it |
| NativeMcpClient.ApiEntries | data/native_mcp_client.py:295-334 | no more configurations than registry records |
| NativeMcpClient.ApiEntriesSnoc | data/native_mcp_client.py:295-332 | one more record appends its configuration, if any |
| NativeMcpClient.ApiEntriesMembers | data/native_mcp_client.py:295-334 | a configuration is loaded exactly when some registry record yields it, a record yielding one when it is LIVE, names a secret and that secret can be read |
| NativeMcpClient.SlugIndex | data/native_mcp_client.py:284 | the slug index is built only when every record is a dict |
| NativeMcpClient.SlugIndexStops | data/native_mcp_client.py:284 | a record that raises ends the index with its exception |
| NativeMcpClient.IdIndexStops | data/native_mcp_client.py:286-290 | once a key cannot be hashed, later records are not indexed |
| NativeMcpClient.ChooseConfigs | data/native_mcp_client.py:247-272 | a configuration list that is returned is never empty |
| NativeMcpClient.NoConfigurationWithoutSources | data/native_mcp_client.py:247-272 | with no usable file and no reachable registry the load raises `ValueError` and the index is untouched |
| NativeMcpClient.Normalize | data/native_mcp_client.py:382-386 | normalising keeps the length, lower-cases, and turns `-` and `_` into spaces |
| NativeMcpClient.NameMatchesIsContainment | data/native_mcp_client.py:387 | the prefix test adds nothing: a server matches exactly when its normalised name contains the normalised request |
| NativeMcpClient.FirstMatch | data/native_mcp_client.py:385-391 | the position found matches and nothing before it does; -1 exactly when no name matches |
| NativeMcpClient.FirstMatchAt | data/native_mcp_client.py:385-391 | a matching name with no match before it is the one found |
| NativeMcpClient.PlannedCalls | data/native_mcp_client.py:502-518 | the six fetches run in gather order and the catalog has at most 100 items |
| NativeMcpClient.CriticalErrors | data/native_mcp_client.py:521-527 | there are no critical errors exactly when segments and campaigns both succeeded |
| NativeMcpClient.ResultKeysDistinct | data/native_mcp_client.py:552-559 | the six result keys are distinct, and none is one of the two injected keys |
| NativeMcpClient.ResultValues | data/native_mcp_client.py:552-559 | one value for each of the six result keys |
| NativeMcpClient.InjectKey | data/native_mcp_client.py:567-578 | copying one key changes no other key of the result |
| NativeMcpClient.Inject | data/native_mcp_client.py:562-578 | injection touches only the affinity and universal segments, and nothing happens for a client without a registry record |
| NativeMcpClient.CriticalReportNames | data/native_mcp_client.py:529-534 | the critical report names every failed call on its own bullet line |
| NativeMcpClient.AssembleCritical | data/native_mcp_client.py:521-534 | a failed segments or campaigns fetch halts with a report naming each failed critical call |
| NativeMcpClient.AssembleInjects | data/native_mcp_client.py:552-597 | a successful fetch is the injected result dictionary and passes the data gate |
| NativeMcpClient.AssembleSuccess | data/native_mcp_client.py:536-597 | a successful result holds both critical results, `[]` for each failed non-critical one and the capped catalog, and passes the data gate |
| NativeMcpClient.AssembleWithoutRecord | data/native_mcp_client.py:562 | without a registry record under the client's name nothing is injected |
| NativeMcpClient.FetchList | data/native_mcp_client.py:612-734 | one tool call on the server, then its `data` list; the request is written with the next id |
| NativeMcpClient.FetchCampaigns | data/native_mcp_client.py:636-665 | only the email campaigns are asked for, the date range is not passed, and the result is a list |
| NativeMcpClient.FetchSix | data/native_mcp_client.py:502-518 | the six fetches run against the one child in gather order |
| NativeMcpClient.ConfigsOfPut | data/native_mcp_client.py:233 | storing a server stores its configuration under its name |
| NativeMcpClient.Client.constructor | data/native_mcp_client.py:189-209 | no servers, no client index, not initialized |
| NativeMcpClient.Client.ServerFor | data/native_mcp_client.py:379-391 | the server of the first matching name, or none exactly when no name matches |
| NativeMcpClient.Client.GetServerForClient | data/native_mcp_client.py:379-391 | the loop finds that server |
| NativeMcpClient.Client.AddRecordKey | data/native_mcp_client.py:287-290 | one record is added under a truthy key, or the step reports an unhashable key |
| NativeMcpClient.Client.IndexById | data/native_mcp_client.py:286-290 | the loop adds each record under its `id` and `client_id`, stopping at an unhashable key with the entries added so far kept |
| NativeMcpClient.Client.LoadConfigFromApi | data/native_mcp_client.py:274-341 | `clients_data` is rebuilt and the configurations are those of the LIVE records with a readable secret |
| NativeMcpClient.Client.LoadConfig | data/native_mcp_client.py:247-272 | the local file wins when it loads some configuration; otherwise the registry; otherwise `ValueError` |
| NativeMcpClient.Client.Initialize | data/native_mcp_client.py:220-245 | a second call does nothing; otherwise one server per configuration name (the last configuration of a name wins), each freshly made and running exactly when its child could be spawned, or `ValueError` with no servers |
| NativeMcpClient.Client.StartConfigs | data/native_mcp_client.py:226-245 | the servers are started for the loaded configurations, or cleanup runs and the load's failure is raised |
| NativeMcpClient.Client.StartAll | data/native_mcp_client.py:229-237 | the loop stores one fresh server per configuration name |
| NativeMcpClient.Client.StartOne | data/native_mcp_client.py:230-233 | one configuration gets a fresh server, stored under its name in place or at the end |
| NativeMcpClient.Client.StoreServer | data/native_mcp_client.py:232 | `self.servers[name] = server` replaces in place or appends, and nothing else changes |
| NativeMcpClient.Client.FetchAllData | data/native_mcp_client.py:454-610 | no matching server raises; otherwise the six fetches against that server are assembled, halted on a critical failure and gated |
| NativeMcpClient.Client.FetchFrom | data/native_mcp_client.py:499-610 | the fetch against a found server is the assembly of its six fetches |
| NativeMcpClient.Client.AssembleResult | data/native_mcp_client.py:520-605 | the part after the six fetches computes the assembly |
| NativeMcpClient.Client.Cleanup | data/native_mcp_client.py:811-824 | with servers, every running child is stopped, the servers are forgotten and the flag is reset; with none, nothing changes |
| FormatAdapter.Take | tools/format_adapter.py:207-209 | a cut keeps a prefix of at most n characters and leaves a short string whole |
| FormatAdapter.FirstKey | tools/format_adapter.py:199-210 | the first key, in priority order, present with an acceptable value, or -1 exactly when there is none |
| FormatAdapter.ExtractDate | tools/format_adapter.py:199-210 | a date found comes from a dict and is at most ten characters; a dict never raises |
| FormatAdapter.DatePriority | tools/format_adapter.py:199-210 | the date is the first date key holding a string, cut to ten characters; keys holding other values are passed over |
| FormatAdapter.ExtractTitle | tools/format_adapter.py:212-241 | a title exists exactly when a title source does, and is a prefix of at most 100 characters of its `str` |
| FormatAdapter.TitlePriority | tools/format_adapter.py:212-241 | `variant_a` of the subject lines wins; otherwise the first present of `hero_h1`, `name`, `title`; no title exactly when none of them is there |
| FormatAdapter.ExtractChannel | tools/format_adapter.py:243-245 | the channel comes back lower-case |
| FormatAdapter.ChannelChoice | tools/format_adapter.py:243-245 | an event without `channel` is e-mail, a string channel comes back lower-cased, and the read raises `AttributeError` exactly when `channel` holds a non-string |
| FormatAdapter.AddEmojiPrefix | tools/format_adapter.py:247-256 | the result carries a channel emoji and ends with the title; it is the title exactly when the title already had one; otherwise the channel's emoji and a space go in front |
| FormatAdapter.EmojiIdempotent | tools/format_adapter.py:247-256 | prefixing twice, with any channels, is prefixing once |
| FormatAdapter.ExtractType | tools/format_adapter.py:258-269 | the type comes back lower-case |
| FormatAdapter.TypeChoice | tools/format_adapter.py:258-269 | `campaign_type` wins over `type`, which wins over the "email" default; the read raises `AttributeError` exactly when the chosen value is not a string, and a string is lower-cased and then mapped through `TYPE_MAPPING` |
| FormatAdapter.MapType | tools/format_adapter.py:30-39 | a type is mapped to promotional, content or engagement or left as it is, and a lower-case type stays lower-case |
| FormatAdapter.ExtractDescription | tools/format_adapter.py:271-287 | a description is at most 500 characters, and there is none exactly when none of the four keys is truthy |
| FormatAdapter.DescriptionPriority | tools/format_adapter.py:271-287 | the description is the `str` of the first truthy of `preview_text`, `sub_headline`, `description` and `content_theme`, cut to 500 characters |
| FormatAdapter.SegmentFound | tools/format_adapter.py:289-317 | a segment is found exactly when one of the places it is looked for is filled |
| FormatAdapter.SegmentPriority | tools/format_adapter.py:289-317 | the segment is `segments.primary`, else `segment`, else the audience dict's `segment_id`, else its `name`, else a string audience, each but the last through `str` |
| FormatAdapter.Clock | tools/format_adapter.py:319-346 | the time text is two digits, a colon and two digits |
| FormatAdapter.ClockFrom | tools/format_adapter.py:319-346 | a time built from read parts is a valid HH:MM clock |
| FormatAdapter.ClockOf | tools/format_adapter.py:319-346 | a time read from a string is a valid HH:MM clock |
| FormatAdapter.ExtractSendTime | tools/format_adapter.py:319-346 | a send time is always a valid HH:MM clock, and there is none when the event's send time is not truthy |
| FormatAdapter.ClockRoundTrip | tools/format_adapter.py:319-346 | an HH:MM clock reads back as itself |
| FormatAdapter.SendTimeKept | tools/format_adapter.py:319-346 | a send time already in HH:MM form comes back unchanged |
| FormatAdapter.AfternoonNotConverted | tools/format_adapter.py:331-342 | a time written with " PM" keeps its hour: the marker is dropped, not converted to 24-hour time |
| FormatAdapter.KeepAlnumSpace | tools/format_adapter.py:542 | only letters, digits and spaces of the string are kept |
| FormatAdapter.Slug | tools/format_adapter.py:539-543 | the slug is at most 50 characters of lower-case letters, digits and hyphens |
| FormatAdapter.GenerateEventId | tools/format_adapter.py:527-545 | the identifier starts with the client, the date and hyphens, is followed by the title's slug, and so is at most 52 characters longer than client and date, every one of those characters a lower-case letter, digit or hyphen |
| FormatAdapter.IsoReadsBack | tools/format_adapter.py:547-565 | a timestamp made from a formatted date and time reads back: its first ten characters parse as the date and the five after "T" as the time, 10:00 when there was none |
| FormatAdapter.FormatClientName | tools/format_adapter.py:567-579 | the display name has the identifier's length; each hyphen or underscore becomes a space, the first character and every character after a separator are upper-cased, and every other character is lower-cased |
| FormatAdapter.CallToAction | tools/format_adapter.py:581-618 | a call to action is a dict with one or two fields |
| FormatAdapter.BuildContent | tools/format_adapter.py:581-618 | the content object is a non-empty dict, and there is none exactly when there is no subject line, no preview text and no call to action |
| FormatAdapter.ContentIgnoresHero | tools/format_adapter.py:581-618 | with subject lines lacking `variant_a`, the title is read from `hero_h1` but the content object has no subject line |
| FormatAdapter.BuildAudienceSegments | tools/format_adapter.py:620-648 | no segment list exactly when the segment is missing or empty; otherwise one segment named by it with an integer size; raises only on an unreadable `audience_size` |
| FormatAdapter.DefaultSegmentSize | tools/format_adapter.py:620-648 | without `audience_size` the segment has the default size 10000 |
| FormatAdapter.BuildCustomFields | tools/format_adapter.py:650-685 | raises exactly on an unreadable `week_number`; otherwise the fields are non-empty and named from the five custom names, and absent exactly when no source key is there |
| FormatAdapter.CommaTags | tools/format_adapter.py:687-702 | the pieces kept are non-empty and no more than were split |
| FormatAdapter.ExtractTags | tools/format_adapter.py:687-702 | a list of tags keeps its length; a comma-separated string gives non-empty comma-free tags; it raises only when the type does |
| FormatAdapter.CommaTagsFrom | tools/format_adapter.py:687-702 | every tag is the stripped form of one of the pieces |
| FormatAdapter.TagsRoundTrip | tools/format_adapter.py:687-702 | clean tags written comma-separated are read back as the same list |
| FormatAdapter.EventsPriority | tools/format_adapter.py:114-137 | the first variant's events win, else `events`, else `campaigns`, else an empty list; reading raises only for a first variant that is not a container |
| FormatAdapter.AppEvent | tools/format_adapter.py:139-197 | a transformed event comes from a dict and is app-shaped |
| FormatAdapter.AppEventKept | tools/format_adapter.py:139-197 | an event is kept exactly when it is a dict with a non-empty date and title whose channel and type can be read |
| FormatAdapter.AppRecord | tools/format_adapter.py:180-197 | the record built from read fields is app-shaped |
| FormatAdapter.CollectOrder | tools/format_adapter.py:97-103 | the kept results come from the items in order, and no item that gives a result is skipped |
| FormatAdapter.AppEvents | tools/format_adapter.py:97-103 | the transformed events are no more than the inputs and all app-shaped |
| FormatAdapter.AppCalendar | tools/format_adapter.py:105-110 | the calendar starts with its events and has `client_id` exactly when a non-empty client is given |
| FormatAdapter.AppFormat | tools/format_adapter.py:45-112 | raises exactly when the event list cannot be read or iterated; otherwise starts with the events and has `client_id` exactly when a non-empty client is given |
| FormatAdapter.TransformToAppFormat | tools/format_adapter.py:45-112 | the loop over the events yields the specification function `AppFormat` |
| FormatAdapter.ImportMatchesApp | tools/format_adapter.py:435-525 | an event the import format keeps is kept by the app format too, with the same type, the emoji-prefixed name as its title and the ISO form of its date and send time |
| FormatAdapter.ImportSpec | tools/format_adapter.py:348-433 | raises exactly when the event list cannot be read or iterated; otherwise the metadata block then at most as many events as the input |
| FormatAdapter.TransformToImportSpec | tools/format_adapter.py:348-433 | the loop over the events yields the specification function `ImportSpec` |
| FormatAdapter.Missing | tools/format_adapter.py:734-761 | one error per missing required field; it raises exactly on a value that is not a container |
| FormatAdapter.ValidateAppEvent | tools/format_adapter.py:734-761 | the event's errors match the specification function `AppEventErrors` |
| FormatAdapter.AppEventClean | tools/format_adapter.py:734-761 | an event draws no error exactly when it is a dict with all three fields, a date of at least ten characters, a title of at most 100 and a lower-case type |
| FormatAdapter.EventsErrors | tools/format_adapter.py:704-732 | no error exactly when every event draws none |
| FormatAdapter.AppValidation | tools/format_adapter.py:704-732 | the verdict is true exactly when there are no errors |
| FormatAdapter.ValidateAppFormat | tools/format_adapter.py:704-732 | the loop over the events yields the specification function `AppValidation` |
| FormatAdapter.EventsErrorsStop | tools/format_adapter.py:704-732 | once an event raises, the whole validation raises with it |
| FormatAdapter.ValidationVerdict | tools/format_adapter.py:704-732 | a calendar without `events` or with a non-list draws its one error; it passes exactly when its events are a list of good events |
| FormatAdapter.ShapedErrors | tools/format_adapter.py:734-761 | an app-shaped event can only draw a short-date or a long-title error |
| FormatAdapter.ShapedEventsErrors | tools/format_adapter.py:704-761 | a list of app-shaped events never raises and draws only short-date or long-title errors |
| FormatAdapter.AppFormatValidation | tools/format_adapter.py:45-761 | the app format's own output never makes its validator raise, and draws only short-date or long-title errors |
| FormatAdapter.OverlongTitle | tools/format_adapter.py:212-256 | a title cut to 100 characters and then given an emoji is over 100 and draws the long-title error |
| CalendarFormatValidator.Messages | tools/calendar_format_validator.py:127-329 | one report line per issue |
| CalendarFormatValidator.ExtractEvents | tools/calendar_format_validator.py:139-179 | events are found exactly when no error is added, and at most one error is added |
| CalendarFormatValidator.ExtractShapes | tools/calendar_format_validator.py:139-179 | a list is its own events; a dict's `events` (else `calendar`) member must be a list; a dict with neither, or any other root, adds the matching error and yields nothing |
| CalendarFormatValidator.DateErrors | tools/calendar_format_validator.py:221-247 | the date check adds at most one error, about its own event |
| CalendarFormatValidator.DateRule | tools/calendar_format_validator.py:221-247 | the date passes exactly when `date` or `send_date` holds a string that parses as `YYYY-MM-DD` with a year from 2020 to 2030 |
| CalendarFormatValidator.TitleField | tools/calendar_format_validator.py:255-258 | the title field is the first alternative present in the set's order, and none exactly when no alternative is present |
| CalendarFormatValidator.TitleErrors | tools/calendar_format_validator.py:249-280 | the title check adds at most one error, about its own event |
| CalendarFormatValidator.TitleRule | tools/calendar_format_validator.py:249-280 | the title passes exactly when the first alternative present holds a non-blank string of at most 100 characters |
| CalendarFormatValidator.TitleOrderIrrelevant | tools/calendar_format_validator.py:255-258 | with at most one alternative present, the iteration order of the set does not matter |
| CalendarFormatValidator.TypeErrors | tools/calendar_format_validator.py:282-298 | the type check adds at most one error, about its own event |
| CalendarFormatValidator.TypeRule | tools/calendar_format_validator.py:282-298 | the type passes exactly when it is a string in one of the email, SMS or push type sets |
| CalendarFormatValidator.DescriptionWarnings | tools/calendar_format_validator.py:300-310 | no warning exactly for a string of at most 2000 characters; otherwise one warning about its own event: "should be a string" for a non-string, the length for a longer string |
| CalendarFormatValidator.WeekNumberWarnings | tools/calendar_format_validator.py:312-321 | no warning exactly for an integer from 1 to 53, a `bool` counting as an `int`; otherwise one warning about its own event: "should be an integer" for a non-integer, the value for one out of range |
| CalendarFormatValidator.SendTimeWarnings | tools/calendar_format_validator.py:323-335 | no warning exactly for a string `strptime` reads as `%H:%M`; otherwise one warning about its own event: "should be a string" for a non-string, the bad text for an unreadable string |
| CalendarFormatValidator.FormattedSendTimePasses | tools/calendar_format_validator.py:323-335 | every valid clock time written as `%H:%M` passes the send-time check |
| CalendarFormatValidator.TextWarnings | tools/calendar_format_validator.py:209-219 | at most one warning per text field, each a "should be a string" warning about a listed field of this event |
| CalendarFormatValidator.TextWarningsExact | tools/calendar_format_validator.py:215-219 | a text field is warned about exactly when it is present, truthy and not a string |
| CalendarFormatValidator.OptionalWarnings | tools/calendar_format_validator.py:200-207 | the optional-field checks add at most three warnings, about their own event |
| CalendarFormatValidator.EventErrors | tools/calendar_format_validator.py:181-198 | one event adds at most three errors, all about itself |
| CalendarFormatValidator.EventWarnings | tools/calendar_format_validator.py:181-219 | every warning of one event is about that event |
| CalendarFormatValidator.NonDictEvent | tools/calendar_format_validator.py:190-192 | a non-dict event adds exactly one error and nothing else |
| CalendarFormatValidator.FlattenSnoc | tools/calendar_format_validator.py:133-134 | the loop appends each event's issues after the earlier ones |
| CalendarFormatValidator.FlattenEmpty | tools/calendar_format_validator.py:133-136 | no issues overall exactly when no event has any |
| CalendarFormatValidator.AllErrorsEmpty | tools/calendar_format_validator.py:133-136 | the loop adds no error exactly when no event has an error |
| CalendarFormatValidator.ValidIffNoErrors | tools/calendar_format_validator.py:117-137 | a valid report has no errors; a report without errors is invalid only for an empty events list |
| CalendarFormatValidator.ValidityFromErrors | tools/calendar_format_validator.py:117-137 | validity depends on the error checks only: there are 1 to 1000 events and none has an error |
| CalendarFormatValidator.EmptyIsInvalid | tools/calendar_format_validator.py:121-123 | an empty list is invalid and reported without any message |
| CalendarFormatValidator.TooManyEvents | tools/calendar_format_validator.py:125-130 | over a thousand events give one count error and no per-event checks |
| CalendarFormatValidator.Validator.constructor | tools/calendar_format_validator.py:50-53 | both lists start empty |
| CalendarFormatValidator.Validator.AddError | tools/calendar_format_validator.py:127-128 | an error is appended |
| CalendarFormatValidator.Validator.AddWarning | tools/calendar_format_validator.py:217 | a warning is appended |
| CalendarFormatValidator.Validator.ExtractEventsOf | tools/calendar_format_validator.py:139-179 | returns the events and appends the extraction error, if any |
| CalendarFormatValidator.Validator.ValidateDate | tools/calendar_format_validator.py:221-247 | appends the date errors |
| CalendarFormatValidator.Validator.ValidateTitle | tools/calendar_format_validator.py:249-280 | the loop stops at the first alternative present and appends the title errors |
| CalendarFormatValidator.Validator.ValidateType | tools/calendar_format_validator.py:282-298 | appends the type errors |
| CalendarFormatValidator.Validator.ValidateDescription | tools/calendar_format_validator.py:300-310 | appends no warning exactly for a string of at most 2000 characters, else the one description warning of `DescriptionWarnings`, and changes nothing else |
| CalendarFormatValidator.Validator.ValidateWeekNumber | tools/calendar_format_validator.py:312-321 | appends no warning exactly for an integer from 1 to 53, else the one week-number warning of `WeekNumberWarnings`, and changes nothing else |
| CalendarFormatValidator.Validator.ValidateSendTime | tools/calendar_format_validator.py:323-335 | appends no warning exactly for a string readable as `%H:%M`, else the one send-time warning of `SendTimeWarnings`, and changes nothing else |
| CalendarFormatValidator.Validator.ValidateOptional | tools/calendar_format_validator.py:200-207 | appends the optional-field warnings |
| CalendarFormatValidator.Validator.ValidateTextFields | tools/calendar_format_validator.py:209-219 | the loop over the text fields appends their warnings |
| CalendarFormatValidator.Validator.ValidateRequired | tools/calendar_format_validator.py:194-197 | appends the date, title and type errors in that order |
| CalendarFormatValidator.Validator.ValidateEvent | tools/calendar_format_validator.py:181-219 | appends exactly the event's errors and warnings |
| CalendarFormatValidator.Validator.ValidateEvents | tools/calendar_format_validator.py:132-134 | the loop appends every event's errors and warnings, numbered from 1 |
| CalendarFormatValidator.Validator.ValidateJsonData | tools/calendar_format_validator.py:107-137 | the lists are reset first, so the report depends on the data alone, and the lines returned render the issues kept |
| CalendarFormatValidator.ValidateCalendarData | tools/calendar_format_validator.py:352-364 | a fresh validator returns the report of the data |
| CalendarValidator.Messages | tools/validator.py:80-169 | one error line per problem |
| CalendarValidator.FormattedTimeIsValid | tools/validator.py:189-211 | every time written as `HH:MM` is accepted |
| CalendarValidator.FormattedDateIsValid | tools/validator.py:173-187 | every real date written as `YYYY-MM-DD` is accepted, and a non-string date never is |
| CalendarValidator.MissingFields | tools/validator.py:132-134 | at most one problem per required field |
| CalendarValidator.MissingFieldsExact | tools/validator.py:77-134 | exactly the fields the dict lacks are reported, each as a missing field of this campaign (or of the calendar) |
| CalendarValidator.FieldChecks | tools/validator.py:136-169 | the checks after the required-field loop report only problems about this campaign and never a missing field |
| CalendarValidator.AudienceChecks | tools/validator.py:158-169 | a truthy audience passes exactly when it is a dict naming a segment or a list; at most one problem, "must be an object" exactly for a non-dict |
| CalendarValidator.CampaignProblems | tools/validator.py:117-171 | a campaign's check raises exactly when the campaign is not a dict |
| CalendarValidator.Sequence | tools/validator.py:104-106 | the loop runs to the end exactly when no campaign's check raises |
| CalendarValidator.SequenceStep | tools/validator.py:104-106 | one more campaign that does not raise appends its problems |
| CalendarValidator.SequenceFails | tools/validator.py:104-106 | the loop raises what the first raising campaign raises |
| CalendarValidator.SequenceStops | tools/validator.py:104-106 | once a prefix raises, the whole loop raises the same |
| CalendarValidator.AllCampaignProblems | tools/validator.py:100-106 | the campaign loop raises exactly when some campaign is not a dict |
| CalendarValidator.TopLevelRules | tools/validator.py:77-96 | each missing top-level field is reported once; a version other than `4.0.0`, a missing one included, is reported; top-level problems name no campaign |
| CalendarValidator.CampaignOrder | tools/validator.py:104-106 | campaign problems come in campaign order and each names a campaign of the list |
| CalendarValidator.CampaignChecksAt | tools/validator.py:127-171 | every problem of a campaign names that campaign |
| CalendarValidator.CalendarOrder | tools/validator.py:74-108 | top-level problems come first, then the campaigns' (or the one "must be an array" error) |
| CalendarValidator.ChannelAndTypeRules | tools/validator.py:136-144 | channel and type are reported exactly when truthy and outside their lists |
| CalendarValidator.ValidateCampaign | tools/validator.py:117-171 | the method computes the campaign's problems |
| CalendarValidator.ValidateCalendar | tools/validator.py:63-115 | the report of the calendar's problems; valid exactly when there are no error lines |
| CalendarValidator.NoteMessages | tools/validator.py:228-294 | one warning line per note |
| CalendarValidator.MissingWords | tools/validator.py:241-290 | exactly the keywords the text lacks each get one note, in order |
| CalendarValidator.PlanningRules | tools/validator.py:213-257 | one warning per missing section (case-insensitive), one for a text under 500 characters and one when neither `2024` nor `2025` occurs |
| CalendarValidator.BriefsRules | tools/validator.py:259-304 | the short warning fires exactly under 300 characters per campaign, and one warning per missing element (case-insensitive) |
| CalendarValidator.ValidatePlanningOutput | tools/validator.py:213-257 | always valid; the warnings are the planning notes |
| CalendarValidator.ValidateBriefsOutput | tools/validator.py:259-304 | always valid; the warnings are the briefs notes |
| CalendarTool.InputMessages | tools/calendar_tool.py:92-116 | one message line per input error, in order |
| CalendarTool.NameErrors | tools/calendar_tool.py:92-95 | the client-name check adds at most one error |
| CalendarTool.NameRule | tools/calendar_tool.py:92-95 | a client name passes exactly when it is a string made only of letters, digits, hyphens and underscores with at least one letter or digit |
| CalendarTool.SpanRules | tools/calendar_tool.py:110-116 | "end not after start" is reported exactly when the end day is not later than the start day; at most one span error; no span error exactly when the end is 1 to 90 days after the start |
| CalendarTool.FormatErrorsSuppressRange | tools/calendar_tool.py:105-119 | a range error is only reported when both dates are valid; the range check raises exactly when both dates are truthy and one is not a string (the start, or the end after a valid start) |
| CalendarTool.RangeOfValidDates | tools/calendar_tool.py:105-116 | two valid dates always reach the span checks, on their parsed values |
| CalendarTool.InputsValid | tools/calendar_tool.py:89-128 | the inputs pass exactly when the name is accepted and both dates are real dates with the end 1 to 90 days after the start |
| CalendarTool.CheckNameAndFormats | tools/calendar_tool.py:89-102 | the loop-free appends produce the name errors followed by the two format errors |
| CalendarTool.CheckSpan | tools/calendar_tool.py:110-116 | the appended span errors are those of the specification function |
| CalendarTool.CheckRange | tools/calendar_tool.py:105-119 | the range check's errors, or its escaping exception, match the specification function |
| CalendarTool.ValidateInputs | tools/calendar_tool.py:72-128 | returns the error report of the inputs, and the flag is true exactly when the error list is empty |
| CalendarTool.InvalidInputsAbort | tools/calendar_tool.py:166-183 | invalid inputs abort with their messages before the agent runs, whatever the agent would return |
| CalendarTool.StepsKeepFlags | tools/calendar_tool.py:198-232 | the planning and briefs checks never clear a flag and touch only their own flag; the calendar check changes nothing when disabled or when the calendar is empty |
| CalendarTool.SuccessRule | tools/calendar_tool.py:234-253 | a completed workflow succeeds exactly when output checking is off, the calendar is empty, or the calendar has no problems; with checking off nothing is recorded |
| CalendarTool.CheckPlanning | tools/calendar_tool.py:199-208 | the planning check's new validation matches its specification function |
| CalendarTool.CheckCalendar | tools/calendar_tool.py:210-218 | the calendar check's new validation matches its specification function |
| CalendarTool.CheckBriefs | tools/calendar_tool.py:221-232 | the briefs check's new validation matches its specification function |
| CalendarTool.RunWorkflow | tools/calendar_tool.py:130-278 | the workflow's result is that of the specification function `Workflow` |
| CalendarTool.RunStage | tools/calendar_tool.py:378-441 | a stage succeeds exactly when it is 1, 2 or 3, the agent returns, and stage 2 has a truthy planning output or stage 3 a truthy calendar; success carries the agent's output; any other stage number fails as an invalid stage |
| CalendarAgent.SystemPromptStored | agents/calendar_agent.py:96-106 | the system prompt is what the configuration stores under `system_prompt`: storing a value there makes it the prompt, and storing under any other key leaves the prompt unchanged |
| CalendarAgent.NoPlaceholders | agents/calendar_agent.py:123-134 | a template mentioning none of the variables' placeholders comes back unchanged |
| CalendarAgent.MissingUserPrompt | agents/calendar_agent.py:123 | a configuration without `user_prompt` gives the empty prompt, whatever the variables |
| CalendarAgent.TrailingPlaceholder | agents/calendar_agent.py:127-132 | a placeholder closing the template is replaced by the `str` of its value |
| CalendarAgent.BuildUserPrompt | agents/calendar_agent.py:108-134 | the loop over the variables produces the prompt of the specification function `UserPrompt` |
| CalendarAgent.OpeningLine | agents/calendar_agent.py:544 | in a fenced reply the first newline is the one ending the opening fence line |
| CalendarAgent.FencedBlock | agents/calendar_agent.py:539-549 | a reply that is one fenced block comes back as its stripped body |
| CalendarAgent.NoFenceLeft | agents/calendar_agent.py:567-568 | after the regex pass no triple-backtick fence is left in the text |
| CalendarAgent.JsonStartRule | agents/calendar_agent.py:575-591 | the search fails exactly when the reply has neither `{` nor `[`; otherwise the result is a non-empty suffix of the reply starting at the first `{` when there is one (no `{` in front of it) and at the first `[` otherwise (no `[` in front of it) |
| CalendarAgent.JsonTextHasNoFence | agents/calendar_agent.py:539-591 | the text handed to the JSON decoder never holds a code fence |
| CalendarAgent.StripOuterFence | agents/calendar_agent.py:539-556 | stripping the reply and then cutting the fence, reassigning the content, yields the specification function `OuterFence` |
| CalendarAgent.CutFence | agents/calendar_agent.py:541-556 | a stripped reply that does not open with a fence is kept; one that does becomes the stripped text after its opening line (after the backticks when there is no newline) and before the last fence that follows, or to the end when there is none |
| CalendarAgent.ExtractJsonText | agents/calendar_agent.py:539-591 | the reply handling yields the specification function `JsonText`, and its text holds no fence |
| CalendarAgent.Stage2Gate | agents/calendar_agent.py:925-943 | the workflow stops with "no calendar" exactly when stage 2 gives no detailed calendar, and any calendar passed on is that one and not `None` |
| CalendarAgent.ResumeGate | agents/calendar_agent.py:1137-1150 | resuming proceeds exactly when the review manager is available and the stored state is a non-empty dict whose status is "approved"; it then returns that state; with no manager it fails as unavailable |
| CalendarAgent.CacheKeyHasPrefix | agents/calendar_agent.py:288 | the key stage 1 caches under starts with the prefix stage 3 searches for |
| CalendarAgent.FirstWithPrefix | agents/calendar_agent.py:786-790 | the result is the first key with the prefix, or -1 exactly when no key has it |
| CalendarAgent.Stage1KeyIsFound | agents/calendar_agent.py:782-790 | when stage 1's entry for the client is live, stage 3 finds a key with the client's prefix |
| CalendarAgent.FindCachedData | agents/calendar_agent.py:782-790 | the scan returns the data of the first live key with the prefix, or `None`, and leaves the stored entries unchanged |
| CalendarAgent.ShownKinds | agents/calendar_agent.py:1228-1253 | a part is shown exactly when it is one of the five and its data is truthy |
| CalendarAgent.Sections | agents/calendar_agent.py:1225-1253 | the sections follow the shown parts in order, carry their data and, for counted parts, its length; formatting raises exactly when a counted part has no length |
| CalendarAgent.NoneShown | agents/calendar_agent.py:1225-1253 | with no part truthy there are no sections |
| CalendarAgent.McpDataEdges | agents/calendar_agent.py:1220-1257 | empty data reads "No MCP data available", other non-dict data raises, and a dict with none of the five parts gives the title alone |
| ImportCalendar.GreyForUnknown | import_calendar_to_app.py:20-26 | the default grey is given to exactly the types other than promotional, engagement, content and special, so the colour tells the four named types from every other |
| ImportCalendar.ColorInPalette | import_calendar_to_app.py:68 | every transformed event's colour is one of the five palette colours |
| ImportCalendar.TransformEvent | import_calendar_to_app.py:57-77 | a successful transformation is a dict |
| ImportCalendar.TransformEventFails | import_calendar_to_app.py:57-68 | a non-dict event raises `AttributeError`; a dict event transforms exactly when its type (default `"default"`) is hashable |
| ImportCalendar.TransformEventFields | import_calendar_to_app.py:59-77 | the output starts with client id, title (default empty), content taken from the description, date, type (default `"default"`) and, seventh, the colour of that type |
| ImportCalendar.TransformedClientId | import_calendar_to_app.py:62 | the output's `client_id` is the id passed in |
| ImportCalendar.TransformAll | import_calendar_to_app.py:93-96 | the comprehension succeeds exactly when every event transforms, and then yields one output per event, in order, each the event's own transformation |
| ImportCalendar.CreateBulkRequest | import_calendar_to_app.py:80-107 | a successful payload is a dict |
| ImportCalendar.TransformAllClientIds | import_calendar_to_app.py:90-96 | every transformed event carries the calendar's client id |
| ImportCalendar.BulkRequestEvents | import_calendar_to_app.py:90-102 | the payload's `client_id` is the calendar's and its `events` are exactly the transformed calendar events |
| ImportCalendar.BulkRequestSummary | import_calendar_to_app.py:104-105 | the payload has `strategy_summary` exactly when the summary is truthy, and then holds it unchanged |
| ImportCalendar.StrategyPathOfCalendar | import_calendar_to_app.py:43 | a calendar path `<stem>_calendar_app.json` maps to `<stem>_strategy_summary.json` |
| ImportCalendar.StrategyPathWithoutSuffix | import_calendar_to_app.py:43 | a path without the calendar suffix is left unchanged |
| PushCalendar.FixEventTypeIdempotent | push_to_calendar.py:18-32 | `content` becomes `educational`, `special` becomes `product_spotlight`; the repair changes a type exactly when it is one of those two, and repairing twice is repairing once |
| PushCalendar.SetKey | push_to_calendar.py:56-61 | assigning a string key succeeds exactly on a dict (a list raises) |
| PushCalendar.Metadata | push_to_calendar.py:53 | a successful metadata value is a dict or a list, since a truthy `custom_fields` list is copied as it is |
| PushCalendar.MetadataFields | push_to_calendar.py:52-61 | for dict (or falsy) custom fields the metadata is a dict that holds `tags` and `client_name` when they are truthy and otherwise exactly the custom fields' entries |
| PushCalendar.TransformEvent | push_to_calendar.py:35-76 | a transformation succeeds only for a dict holding `client_id`, `name` and `date` (the subscripts raise `KeyError` otherwise) |
| PushCalendar.TransformEventDefaults | push_to_calendar.py:50-74 | the output has eight keys: client id, title from `name`, date, description (default empty), the repaired type (default `campaign`) and the status (default `draft`) |
| PushCalendar.TransformedType | push_to_calendar.py:50-71 | the output's `event_type` is the repaired input type |
| PushCalendar.BulkRequest | push_to_calendar.py:79-84 | the payload holds the client id and the events unchanged |
| PushCalendar.Step | push_to_calendar.py:147-157 | one loop step yields exactly the event's transformation |
| PushCalendar.PushAll | push_to_calendar.py:143-157 | a completed loop has one transformed event per input event, in order, each that event's transformation |
| PushCalendar.FixRecorded | push_to_calendar.py:148-157 | a fix line is recorded exactly when the type is missing (it becomes `campaign`) or is `content` or `special` |
| PushCalendar.PushStep | push_to_calendar.py:147-157 | one more event that transforms appends its output and its fix lines to the loop state |
| PushCalendar.PushFails | push_to_calendar.py:147-150 | the loop raises what the first raising event raises |
| PushCalendar.PushFailsHere | push_to_calendar.py:147-150 | the prefix ending at the raising event raises that event's error |
| PushCalendar.PushStops | push_to_calendar.py:147-150 | once a prefix raises, the whole loop's outcome is that prefix's |
| PushCalendar.PrepareBulk | push_to_calendar.py:137-168 | the loop of `main` computes the bulk payload, with the client id from `metadata` (default `rogue-creamery`), and the fix lines |
| FixEventTypes.NewType | fix_event_types.py:16-96 | the lookup raises `TypeError` exactly for an unhashable type; the replacement is always one of the valid types: the mapped one for the four known invalid types, `promotional` otherwise |
| FixEventTypes.Flag | fix_event_types.py:89-97 | one turn succeeds exactly for a dict whose invalid type (if any) is hashable; it flags the event exactly when its type is truthy and not valid, and a flagged record has an invalid current type and a valid replacement |
| FixEventTypes.Collect | fix_event_types.py:88-97 | the collected records are no more than the turns |
| FixEventTypes.FlagAll | fix_event_types.py:88-97 | no more records than events, and every record is a valid flag |
| FixEventTypes.CollectValid | fix_event_types.py:88-97 | records collected from valid turns are valid |
| FixEventTypes.CollectOk | fix_event_types.py:88-97 | the loop runs to the end exactly when no turn raises |
| FixEventTypes.FlagAllOk | fix_event_types.py:89-91 | the classification succeeds exactly when every event is a dict and every invalid type is hashable |
| FixEventTypes.CollectPositions | fix_event_types.py:88-97 | the records are those of the flagging turns, in order and each once |
| FixEventTypes.FlagAllPositions | fix_event_types.py:88-97 | the records are exactly those of the events with an invalid type, in fetch order, each once |
| FixEventTypes.FindInvalid | fix_event_types.py:88-97 | the first loop of `main` computes the classification |
| FixEventTypes.CollectStep | fix_event_types.py:89-97 | one more non-raising turn appends its record, if any |
| FixEventTypes.CollectFails | fix_event_types.py:89-97 | the loop raises what the first raising turn raises |
| FixEventTypes.CollectFailsHere | fix_event_types.py:89-97 | the prefix ending at the raising turn raises its error |
| FixEventTypes.CollectStops | fix_event_types.py:89-97 | once a prefix raises, the whole loop's outcome is that prefix's |
| FixEventTypes.CountOfBump | fix_event_types.py:110 | one increment adds one to its own type's count and leaves the others alone |
| FixEventTypes.TotalBump | fix_event_types.py:110 | one increment adds one to the sum of the counts |
| FixEventTypes.TallyTotal | fix_event_types.py:107-110 | the counts add up to the number of flagged events |
| FixEventTypes.TallyCounts | fix_event_types.py:107-110 | each type's count is the number of flagged events with that type, `True` and `1` being one dict key |
| FixEventTypes.CountTypes | fix_event_types.py:107-110 | the second loop of `main` computes the tally |
| FixEventTypes.Title50 | fix_event_types.py:136 | the title slice succeeds exactly for a string or a list |
| FixEventTypes.UpdatesCount | fix_event_types.py:129-146 | every flagged event is counted once, as a success or a failure; nothing fails exactly when every update succeeds |
| FixEventTypes.UpdatesOk | fix_event_types.py:132-136 | the update loop runs to the end exactly when every title can be sliced |
| FixEventTypes.ApplyUpdates | fix_event_types.py:129-146 | the update loop computes the success and failure counts |
| FixEventTypes.UpdatesStop | fix_event_types.py:132-136 | once a title raises, the whole loop's outcome is that prefix's |
| FixEventTypes.ExitCode | fix_event_types.py:99-157 | exit 0 when nothing is flagged, 1 when the updates are not confirmed, and otherwise 0 exactly when every update succeeds |
| FixEventTypes.Run | fix_event_types.py:68-157 | `main` step by step ends as the specification says and tallies the flagged types |
| Dates.ParseDate | tools/validator.py:184 | a date that parses is a real calendar date |
| Dates.ParseTime24 | tools/validator.py:201 | a time that parses as 24-hour is a valid hour and minute |
| Dates.ParseTime12 | tools/validator.py:208 | a time that parses as 12-hour is a valid hour and minute, with 12 AM as hour 0 and 12 PM as hour 12 |
| Dates.ParseFormatDate | tools/validator.py:184 | every real date written as `YYYY-MM-DD` parses back to itself |
| Dates.ParseFormatTime | tools/validator.py:201 | every valid time written as `HH:MM` parses back to itself |
| Dates.DayNumberOrder | tools/calendar_tool.py:110-114 | the day count orders dates as the calendar does, and equal counts mean equal dates, so the day difference measures the span |

## Left out

- Child processes, pipes, `asyncio` locks and `gather`, and terminate/kill timing are not modelled. A process is the lines it will write on stdout. Every `gather` in the source runs its coroutines one after the other on an uncontended lock, in the order listed.
- `json.loads`, `json.dumps` and `JSONDecoder.raw_decode` are parameters of the functions that use them, because they are library codecs outside the core.
- The two regular-expression substitutions in the structuring stage are modelled directly as literal-fence removal. No general regex engine is modelled.
- HTTP, Secret Manager, Firestore, the review store and the model calls are parameters: the decoded reply, or the exception raised.
- Wall-clock time is not modelled: the cache's `now`, `datetime.utcnow()` and the `failed_at` timestamp of `run_workflow` are arguments or are omitted.
- Logging and every `print` are omitted; they do not change any result.
- Reading and writing files is not modelled, because it is operating-system I/O. This covers `validate_json_file`, `validate_calendar_json`, the file-size check, `_save_outputs`, `_load_config_from_file`'s read of the file, and the import and push scripts' file reads.
- The dev-mode file cache branch of the native `fetch_all_data` (`USE_MCP_CACHE`, md5 keys, cache files) and `data/mcp_file_cache.py` are not part of this model, because they are environment-dependent file I/O.
- The module-level `get_cache()` singleton is left out; it only holds one `MCPCache` in a global variable.
- The stage orchestration and `_call_claude` in `agents/calendar_agent.py` are left out. The agent's outcome is a parameter of `CalendarTool.Workflow`, and only the text handling and gates of the agent are modelled.
- Strings are sequences of characters. `lower`, `isalnum`, `strip`, `capitalize` and `int` are taken on ASCII only, because Python consults the Unicode database there.
- `strptime` is modelled with the field rules of its `%Y-%m-%d`, `%H:%M` and `%I:%M %p` patterns on ASCII digits. Locale-dependent `%p` spellings other than AM and PM are not modelled.
- Floating-point values in decoded JSON are not modelled, because no core decision depends on them.
- The iteration order of the title-alternative set in the upload validator is a parameter, because Python does not fix it.
- Error and warning lines are datatype values, each with a function giving the exact text the source builds.
- `FormatAdapter.AppEvent`: states the three leading fields of the app event (date, emoji-prefixed title, lower-case type). It does not state the optional description, segment and send-time fields that follow them.
- `CalendarAgent.McpDataText`: the section list is built by a function rather than an appending loop. Its properties are stated by `CalendarAgent.Sections` and `CalendarAgent.McpDataEdges`.
- `validate_app_format` has no caller in the source. It is modelled on its own, together with the fact that the app format's own output can fail it.
- McpClient.Client.FetchCampaigns: keeps the campaigns of the corrected window of "## Findings"; it does not model the `TypeError` the source's window test raises for an offset-aware send time.
- McpClient.Client.FetchAllData: uses that corrected campaign fetch, so where the source's campaign fetch raises and `fetch_all_data` degrades the campaigns to `[]`, the model returns the campaigns in the window.
- The HTTP round trip and console output of the import and push scripts' `main` are left out. Only their transformation and bookkeeping loops are modelled.

## Findings

| source | as written | input that shows it | evidently intended | confidence | as-written member | corrected member |
|---|---|---|---|---|---|---|
| data/mcp_client.py:273-279 | the window test compares the offset-free `start_dt`/`end_dt` with the `fromisoformat` result of the campaign's `send_time`, which is offset-aware for a `Z` timestamp, so the comparison raises `TypeError` | a campaign whose `attributes.send_time` is "2025-12-05T10:00:00Z" | keep the campaign when its send instant lies in the window | not executed | McpClient.KeepAsWritten (shown by McpClient.AwareSendTimeRaises) | McpClient.Keep |
