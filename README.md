# MCP tool registry and dispatcher, modelled in Dafny

`mcp_server.py` is a small MCP server. It loads a catalog of tool
descriptors into a dict keyed by tool name (`load_tools`). It lists that
dict's values for discovery (`get_tools`). It answers JSON-RPC 2.0 calls
(`mcp_endpoint`) by dispatching the requested tool (`_dispatch_tool`) to a
Python function named `tool_<name with dots replaced by underscores>`.
This project models that registry and dispatch engine as pure Dafny
functions over datatypes, with lemmas that state what the code guarantees.

Modules, one per component:

- `json.dfy` (`Json`): decoded JSON values, Python truthiness, and Python
  dict keys. `True`/`False` are the same keys as `1`/`0`, and lists and
  dicts are unhashable.
- `registry.dfy` (`ToolRegistry`): `load_tools` and `get_tools`. A Python
  dict is modelled as its keys in insertion order plus a key-to-value
  table. Assigning an existing key keeps its position and replaces its
  value.
- `handlers.dfy` (`Handlers`): the handler-name transform, handlers as
  declared parameter lists plus an opaque body, and Python's binding of
  `handler(**params)`, including the `TypeError` messages it produces.
- `dispatch.dfy` (`Dispatcher`): `_dispatch_tool`. Each exception it can end
  with is one `Failure` case.
- `endpoint.dfy` (`JsonRpc`): `JSONRPCRequest`, the version check, the two
  `except` clauses, and the response envelope as the dict it serialises
  to.
- `stubs.dfy` (`Stubs`): the server's seven `tool_*` functions as a handler
  table built from their declared signatures and defaults.
- `scenarios.dfy` (`Scenarios`): whole requests against small catalogs.

The error codes follow the code, not the usual JSON-RPC reading:

- An unknown tool raises `ValueError`, which the generic `except Exception`
  clause turns into `-32603`.
- Only `NotImplementedError` becomes `-32601`. That covers a catalogued
  tool with no handler, and also a handler that itself raises
  `NotImplementedError`.
- JSON-RPC 2.0 reserves `-32601` for "Method not found". This server raises
  `ValueError` for an unknown tool, so it answers `-32603` instead.
  `Scenarios.EchoPongUnknown` shows this on a concrete request.

## Model

| member | source | states |
|---|---|---|
| `Json.KeyOf` | mcp_server.py:54 | the dict key a tool's `"name"` becomes: a string stays itself, a boolean is the integer key 1 or 0, and a list or dict has no key (unhashable, so the comprehension raises) |
| `Json.KeyOfMatchesPyEq` | mcp_server.py:54 | a name has no key iff it is unhashable, and two hashable names give the same key iff Python's `==` holds between them (`True == 1`, `False == 0`), as an independent definition of Python equality states it |
| `ToolRegistry.Put` | mcp_server.py:54 | one dict assignment `d[name] = tool`; what it does is stated by `ToolRegistry.PutSpec` |
| `ToolRegistry.NameKey` | mcp_server.py:54 | the key `tool["name"]` gives, or none when the record is not a dict, has no `"name"`, or the name is unhashable; `ToolRegistry.BuildSucceedsIff` and `ToolRegistry.BoolAndIntNamesCollide` state its effect on loading |
| `ToolRegistry.BoolAndIntNamesCollide` | mcp_server.py:54 | a record named `true` (`false`) followed by one named `1` (`0`) loads as a single entry under the integer key, holding the second record |
| `ToolRegistry.BuildPrefix` | mcp_server.py:54 | the comprehension over the first n records; `ToolRegistry.BuildPrefixSucceedsIff`, `ToolRegistry.BuildPrefixValid`, `ToolRegistry.BuildPrefixFinds` and `ToolRegistry.BuildPrefixFindsLast` state what it yields |
| `ToolRegistry.Build` | mcp_server.py:54 | the comprehension over the whole catalog; `ToolRegistry.BuildSucceedsIff` and `ToolRegistry.BuildValid` state what it yields |
| `ToolRegistry.PutSpec` | mcp_server.py:54 | one step of the comprehension (`d[name] = tool`) keeps the dict well formed, makes the name map to the new record, leaves every other key alone, keeps an existing key's position and appends a new key |
| `ToolRegistry.BuildKeepsInvariant` | mcp_server.py:54 | every prefix of the comprehension yields a registry whose every key is the name of the record stored under it |
| `ToolRegistry.BuildPrefixSucceedsIff` | mcp_server.py:54 | the comprehension over the first n records succeeds iff each of them has a usable name |
| `ToolRegistry.BuildSucceedsIff` | mcp_server.py:54 | the comprehension over the whole catalog succeeds iff every record has a usable name; one bad record fails the whole load |
| `ToolRegistry.Load` | mcp_server.py:48-57 | `load_tools` always returns a valid registry and never fails |
| `ToolRegistry.LoadFailsSoft` | mcp_server.py:50-57 | an unreadable file, malformed JSON, a top-level value that is not a list, or any record without a usable name yields the empty registry and an empty discovery list |
| `ToolRegistry.LoadSucceeds` | mcp_server.py:50-54 | a list of records that all have usable names is loaded as the comprehension builds it |
| `ToolRegistry.BuildPrefixValid` | mcp_server.py:54 | a registry built from a prefix is valid and lists its keys in first-occurrence order of the names |
| `ToolRegistry.BuildValid` | mcp_server.py:54 | the built registry is valid and its key order is the first-occurrence order of the catalog's names |
| `ToolRegistry.BuildPrefixFinds` | mcp_server.py:54 | within a prefix, a name is in the registry iff some record in that prefix carries it |
| `ToolRegistry.BuildPrefixFindsLast` | mcp_server.py:54 | within a prefix, the record stored under a name is the last record in that prefix that carries it |
| `ToolRegistry.LoadLookup` | mcp_server.py:54 | after loading, lookup of a name succeeds iff some catalog record carries it, and it returns the last such record (last write wins) |
| `ToolRegistry.Tools` | mcp_server.py:63-66 | `list(d.values())` has one entry per key, in key order, each being the value stored under that key |
| `ToolRegistry.ToolsAreValues` | mcp_server.py:63-66 | discovery returns exactly the registry's values: as many as there are keys, and a value is listed iff some key maps to it |
| `ToolRegistry.DiscoveryOrder` | mcp_server.py:63-66 | after loading, the j-th listed tool is the last record carrying the j-th distinct name in first-occurrence order |
| `ToolRegistry.UniqueCatalogListedVerbatim` | mcp_server.py:63-66 | for a catalog with unique names, discovery returns the catalog exactly as given |
| `Handlers.HandlerName` | mcp_server.py:79-80 | `"tool_" + method.replace(".", "_")`; `Handlers.HandlerNameShape` and `Handlers.SameHandlerIff` state what it yields |
| `Handlers.HandlerNameShape` | mcp_server.py:79-80 | the handler identifier is `"tool_"` followed by the method with every `.` replaced by `_`: five characters longer, every `.` of the method is a `_` at the same place after the prefix, no dot left, every other character kept in place |
| `Handlers.SameHandlerIff` | mcp_server.py:79-80 | two tool names resolve to the same handler identifier iff they have the same length and differ only by `.` against `_` |
| `Handlers.Bind` | mcp_server.py:85 | the keyword binding `handler(**params)`; `Handlers.BindOkIff`, `Handlers.BindValues` and `Handlers.UnexpectedReportedFirst` state what it yields |
| `Handlers.FirstUnexpected` | mcp_server.py:85 | the keyword binding reports the first key of the parameter bag, in bag order, that names no parameter, and finds none iff every key names a parameter |
| `Handlers.MissingRequired` | mcp_server.py:85 | a name is reported missing iff it is a required parameter (no default) that the bag does not supply |
| `Handlers.NoneMissingIff` | mcp_server.py:85 | nothing is reported missing iff every required parameter is supplied |
| `Handlers.BindOkIff` | mcp_server.py:85 | `handler(**params)` binds iff every key names a parameter and every required parameter is supplied |
| `Handlers.BindValues` | mcp_server.py:85 | a successful binding binds every declared parameter and nothing else, each to the supplied value or else to its default |
| `Handlers.UnexpectedReportedFirst` | mcp_server.py:85 | an unexpected keyword is the error reported even when required parameters are missing too, and it is the first unexpected key of the bag |
| `Handlers.BindYields` | mcp_server.py:85 | a bag that binds produces exactly the argument map with every parameter at its supplied value or default |
| `Handlers.EmptyBagBindsDefaults` | mcp_server.py:83-85 | when every parameter has a default, the empty bag binds and gives each parameter its default |
| `Handlers.BindMessage` | mcp_server.py:85 | the `TypeError` text CPython gives for a binding failure; `Handlers.UnexpectedKeywordMessage` and `Handlers.MissingArgumentsMessage` state what it says |
| `Handlers.NatToStringRoundTrip` | mcp_server.py:85 | the count in a missing-arguments message is the decimal spelling of the number: reading the digits back gives that number |
| `Handlers.NameListMentions` | mcp_server.py:85 | the list of missing names in the message mentions every missing name, quoted |
| `Handlers.UnexpectedKeywordMessage` | mcp_server.py:85 | the unexpected-keyword message starts with `<handler>()` and ends with the offending key in quotes |
| `Handlers.MissingArgumentsMessage` | mcp_server.py:85 | the missing-arguments message starts with `<handler>() missing <count>` where the count reads back as the number of missing names, says "argument" for one name and "arguments" for more, and mentions every missing name in quotes |
| `Dispatcher.Message` | mcp_server.py:77-85 | `str(exc)` for each failure; the reply lemmas `JsonRpc.UnknownToolReply`, `JsonRpc.UnimplementedReply`, `JsonRpc.BindingFailureReply` and `JsonRpc.HandlerRaisedReply` state the text each one carries |
| `Dispatcher.KnownTool` | mcp_server.py:75-76 | `tool_def = TOOLS_LOOKUP.get(method)` followed by `if not tool_def`; `Dispatcher.KnownToolIsMembership` states what it means for a loaded registry |
| `Dispatcher.Normalize` | mcp_server.py:83-84 | `if params is None: params = {}`; `Dispatcher.AbsentParamsAsEmpty` states its effect |
| `Dispatcher.Dispatch` | mcp_server.py:69-85 | `_dispatch_tool` raises the unknown-tool error iff the name is not found in the registry; it raises the unimplemented error iff the tool is known but `tool_<name>` is absent; a binding failure names the derived handler and is exactly the binding error, and every binding error ends the call that way; an exception from the handler is passed on as raised; it succeeds iff the binding succeeds and the handler returns, and then the result is the handler's value |
| `Dispatcher.KnownToolIsMembership` | mcp_server.py:75-76 | for a registry `load_tools` built, the `if not tool_def` test is plain key membership, because every stored record is a non-empty dict |
| `Dispatcher.AbsentParamsAsEmpty` | mcp_server.py:83-84 | dispatching with `params` absent is the same as dispatching with `{}` |
| `JsonRpc.ErrorBody` | mcp_server.py:96-101 | a failure becomes an error with message `str(exc)`; the code is -32601 iff the failure is a `NotImplementedError`, and -32603 otherwise |
| `JsonRpc.Endpoint` | mcp_server.py:88-101 | the request is rejected with HTTP 400 iff `jsonrpc` is not `"2.0"`; every other request gets an envelope that echoes the request id |
| `JsonRpc.EnvelopeJson` | mcp_server.py:95-101 | the dict the endpoint returns; `JsonRpc.ExactlyOneOfResultOrError` states its shape |
| `JsonRpc.ExactlyOneOfResultOrError` | mcp_server.py:94-101 | every envelope serialises to `{"jsonrpc": "2.0", "id", ...}` with exactly one of `result` or `error`; a missing id is echoed as null and a result is carried verbatim |
| `JsonRpc.VersionCheckedFirst` | mcp_server.py:91-92 | a wrong version is refused the same way whatever the registry and handler table are, so it happens before any lookup or handler call |
| `JsonRpc.UnknownToolReply` | mcp_server.py:75-77 | a tool missing from the registry gets code -32603 with message `Unknown tool '<method>'` and the id echoed |
| `JsonRpc.UnknownAfterLoad` | mcp_server.py:75-77 | after loading a catalog, a tool that no record names gets code -32603 with the unknown-tool message |
| `JsonRpc.UnimplementedReply` | mcp_server.py:80-82 | a catalogued tool without a `tool_…` handler gets code -32601 with message `No handler implemented for tool '<method>'` and the id echoed |
| `JsonRpc.BindingFailureReply` | mcp_server.py:99-101 | a keyword-binding mismatch gets code -32603 with Python's `TypeError` message |
| `JsonRpc.HandlerRaisedReply` | mcp_server.py:93-101 | an exception inside a handler passes its message through, with code -32601 for a `NotImplementedError` and -32603 for any other exception |
| `JsonRpc.SuccessReply` | mcp_server.py:94-95 | a handler that returns gets the envelope `{jsonrpc: "2.0", id, result}`, whose `result` is the handler's value verbatim |
| `JsonRpc.MethodNotFoundIff` | mcp_server.py:96-101 | for a valid version, the reply is a success iff dispatch succeeds; it has code -32601 iff dispatch failed with a `NotImplementedError`, and -32603 iff it failed with anything else |
| `JsonRpc.AbsentParamsAsEmptyBag` | mcp_server.py:83-84 | a request without `params` gets the same answer as the same request with `params: {}` |
| `JsonRpc.UnknownAndUnimplementedDiffer` | mcp_server.py:77-82 | the unknown-tool and no-handler messages never coincide |
| `Stubs.SignaturesAreLegal` | mcp_server.py:109-175 | every declared handler signature is a legal Python signature: distinct names, and no required parameter after a defaulted one |
| `Stubs.DottedHandlerName` | mcp_server.py:79 | the handler of `a.b` (no dots in `a` or `b`) is `tool_a_b` |
| `Stubs.SlackPostHandler` | mcp_server.py:109 | `slack.post` resolves to `tool_slack_post(channel, text, thread_ts=None)` |
| `Stubs.MailDraftHandler` | mcp_server.py:119 | `mail.draft` resolves to `tool_mail_draft(to, subject, body_md)` |
| `Stubs.MailSendHandler` | mcp_server.py:130 | `mail.send` resolves to `tool_mail_send(draft_id, dry_run=False)` |
| `Stubs.GhaRunHandler` | mcp_server.py:142 | `gha.run` resolves to `tool_gha_run(owner, repo, workflow_id, ref, inputs=None, dry_run=False)` |
| `Stubs.GhaStatusHandler` | mcp_server.py:154 | `gha.status` resolves to `tool_gha_status(run_id)` |
| `Stubs.SqlQueryHandler` | mcp_server.py:164 | `sql.query` resolves to `tool_sql_query(name, text_sql, params=None)` |
| `Stubs.ChartBarHandler` | mcp_server.py:175 | `chart.bar` resolves to `tool_chart_bar(json_data)` |
| `Stubs.SlackPostMissingText` | mcp_server.py:109 | `slack.post` given only `channel` fails to bind, reporting `text` as missing |
| `Stubs.SlackPostBinds` | mcp_server.py:109 | `slack.post` given `channel` and `text` binds, with `thread_ts` set to null |
| `Stubs.ChartBarUnexpected` | mcp_server.py:175 | `chart.bar` given an unknown key reports that key as unexpected rather than `json_data` as missing |
| `Stubs.MailSendDefaultsDryRun` | mcp_server.py:130 | `mail.send` given only `draft_id` binds `dry_run` to false |
| `Scenarios.CatalogNamed` | mcp_server.py:54 | the example catalog's records all have usable names |
| `Scenarios.CatalogDiscovered` | mcp_server.py:66 | discovery lists the example catalog exactly as written |
| `Scenarios.SlackPostSucceeds` | mcp_server.py:94-95 | a full `slack.post` request returns the handler's value as `result`, with id 7 echoed |
| `Scenarios.SlackPostWithoutText` | mcp_server.py:99-101 | a `slack.post` request without `text` gets -32603 with the missing-argument message |
| `Scenarios.PdfRenderHasNoHandler` | mcp_server.py:80 | no server function is named `tool_pdf_render` |
| `Scenarios.PdfRenderUnimplemented` | mcp_server.py:96-98 | a catalogued tool with no handler gets -32601 with the not-implemented message |
| `Scenarios.MailSendNotCatalogued` | mcp_server.py:75-77 | a tool that has a handler but is missing from the catalog is unknown, and gets -32603 |
| `Scenarios.DuplicateKeepsFirstPlaceLastRecord` | mcp_server.py:54 | with `x` catalogued twice around `y`, discovery lists the second `x` record first and then `y` |
| `Scenarios.EchoPingResolves` | mcp_server.py:75-76 | `echo.ping` is known after loading its one-record catalog |
| `Scenarios.EchoPingHandlerName` | mcp_server.py:79 | the handler identifier of `echo.ping` is `tool_echo_ping` |
| `Scenarios.EchoPingBinds` | mcp_server.py:85 | `msg` binds to the value sent, or to `"pong"` when the bag is empty |
| `Scenarios.EchoPingReplies` | mcp_server.py:94-95 | `{jsonrpc: "2.0", id: 7, method: "echo.ping", params: {msg: m}}` gets `{jsonrpc: "2.0", id: 7, result: {msg: m}}` |
| `Scenarios.EchoPingDefault` | mcp_server.py:83-84 | `echo.ping` without `params` gets the result `{msg: "pong"}` |
| `Scenarios.EchoPongUnknown` | mcp_server.py:99-101 | `echo.pong` against that catalog gets -32603 `Unknown tool 'echo.pong'`, not -32601 |

## Left out

- HTTP transport: FastAPI routing, `async`, serialisation and pydantic
  validation of `JSONRPCRequest` (mcp_server.py:41-45) are not modelled.
  The request arrives already validated. The `HTTPException` becomes the
  value `Rejected(400, detail)`.
- File I/O and JSON decoding in `load_tools`: the catalog arrives as a
  `Source`, which is unreadable, malformed, or a decoded value. JSON
  floating-point numbers are not modelled. Duplicate keys inside one JSON
  object are resolved by the decoder before the model sees them.
- Python reflection: `globals().get(...)` is an explicit handler table.
  `handler(**params)` is a binding predicate over declared parameters.
  Every handler in this file has positional-or-keyword parameters only,
  so that is the only kind modelled.
- Binding error messages use CPython 3.10–3.12 wording. The "Did you mean"
  suffix of later versions is not modelled.
- The request's parameter bag is a sequence of key/value pairs in dict
  order. Like the dict it stands for, it is expected to have distinct keys;
  with a repeated key, the binding reads the first occurrence.
- Handler bodies (mcp_server.py:109-182) stand for third-party
  integrations. A handler's behaviour is an opaque function from its bound
  arguments to a returned value or a raised exception. Only the parameter
  names and defaults of the seven handlers are modelled.
- Exceptions are reduced to two kinds: `NotImplementedError` (or a
  subclass) and any other `Exception`. Exceptions outside `Exception`
  (`KeyboardInterrupt`, `SystemExit`) would escape the endpoint; they are
  not modelled.
- Logging (mcp_server.py:32-33, 56, 97, 100 and the handlers) is not
  modelled.
- The module-level `TOOLS_LOOKUP = load_tools()` (mcp_server.py:60) is not
  modelled as global state. The registry is passed to each operation as an
  immutable parameter.
- Discovery order is the dict's key order, not the order of the records in
  the catalog. A repeated name keeps the position of its first occurrence
  and takes the value of its last one. The two orders agree for catalogs
  with unique names (`ToolRegistry.UniqueCatalogListedVerbatim`).
