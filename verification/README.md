# refunc mcp-server: reconciliation engine and invocation bridge

This project models the core of the refunc MCP server (`pkg/mcpserver`). The
server watches two kinds of Kubernetes objects:

- **Credential secrets** labelled `mcp.refunc.io/secret-type=token`. Each one
  opens an HTTP endpoint `/namespace/name[/token]`, which is a *scope*.
- **Triggers** of type `mcp`. The arguments of each one carry a
  `{token, tools}` configuration. The token names the scope the tools belong
  to.

Inside a scope, the tools are grouped by the backend function they call. Each
*function group* gets its own protocol server, served under `basePath/fn`.
When a tool is called, the *invocation bridge* tags the arguments with the
call type and method, encodes them, and submits them to the function. It then
maps the way the task ends onto the tool result.

The model has these modules:

- `Kube`: objects, keys and label constants.
- `Mux`: routers.
  - A router under construction is a map from path prefix to handler. The
    first registration of a prefix wins.
  - The mutable router is swapped whole.
- `Configs`: the trigger → config derivation, and the grouping of tools by
  function. The grouping is given as a fold, `Collect`, and as an independent
  reference definition, `ToolsFor`.
- `Mapper`: the per-scope `EntryHandler` class and its recompute,
  `PopulateConfigs`. It is split into its four phases:
  1. group the tools;
  2. install the groups and build the routes;
  3. swap the router;
  4. cancel and drop unreferenced groups.
- `Endpoints`:
  - the endpoint record and its path;
  - the token read from a secret;
  - the secret-change decision (`PlanSecretChange`/`ApplyStep`);
  - the trigger replay of a new scope (`Replay`);
  - the routes of an endpoint rebuild (`EndpointRoutes`).
- `Server`: the `RefuncMCPServer` class, with its trigger handlers, the secret
  handler, the endpoint rebuild and the backfill of a new scope.
- `Events`: the label selector of the secret informer, the resource-version
  filter on updates, and the wiring of informer events to handlers.
- `Bridge`: the tool-call handler. The library calls are parameters.
- `ScopeTableAsWritten`: the scope table as the code writes it (see "## Findings").

Go's `sync.Map` fields become `map` fields that the methods reassign. A
`Range` over a `sync.Map` becomes a loop that picks an arbitrary remaining
key. The visiting order is returned as a ghost `order`, and the contracts
state results in terms of it, or independently of it where the result does
not depend on it. The listers' caches are maps: a lookup fails exactly when
the key (or, for triggers, the namespace) is absent.

## Model

| member | source | states |
|---|---|---|
| Kube.BytesToString | pkg/mcpserver/router.go:74-78 | Go's `string(bytes)`: one character per byte, same length, each character the byte's value |
| Kube.BytesToStringInjective | pkg/mcpserver/router.go:77 | distinct token bytes give distinct token strings, and back |
| Kube.ScopeKey | pkg/mcpserver/router.go:63-65 | the `ns/name` key of an endpoint and of a scope (the same format as the trigger path's `ns/token` scope key); its contract is Kube.ScopeKeyInjective |
| Kube.ScopeKeyInjective | pkg/mcpserver/router.go:63-65 | within one namespace, two `ns/name` keys are equal iff the names are |
| Kube.K8sKey | pkg/mcpserver/router.go:123-125 | the `namespace/name` key of a secret; Kube.ScopeKeyInjective states that it separates names, and Endpoints.HandlerOf that it is the key of the secret's endpoint |
| Configs.McpEntryKey | pkg/mcpserver/mapper.go:174-176 | the `namespace/name/funcName` key a trigger's config is stored under; its contract is Configs.McpEntryKeySeparates |
| Configs.McpEntryKeySeparates | pkg/mcpserver/mapper.go:174-176 | within one namespace and function, two triggers share an entry key iff they share a name |
| Configs.TriggerForToolConfig | pkg/mcpserver/mapper.go:163-175 | succeeds iff the arguments decode; the config is stored under `ns/name/funcName` and calls the trigger's function |
| Configs.TriggerTarget | pkg/mcpserver/mapper.go:115-126 | the filter a trigger event passes (a trigger, of type "mcp", whose arguments decode) and its scope key and config; its contract is Configs.TriggerTargetNone and Configs.TriggerTargetSome |
| Configs.TriggerTargetNone | pkg/mcpserver/mapper.go:115-126 | a trigger event is filtered out iff the object is not a trigger, its type is not "mcp", or its arguments do not decode |
| Configs.TriggerTargetSome | pkg/mcpserver/mapper.go:123-126 | a trigger that passes the filter targets scope `namespace/token`, with config `(ns/name/funcName, ns, funcName, token, tools)` |
| Configs.TriggerScopeNamesSecret | pkg/mcpserver/mapper.go:170 | a decoded trigger belongs to the scope of a secret in its namespace iff its token field is that secret's name |
| Configs.EnumeratesSnoc | pkg/mcpserver/mapper.go:53 | one more new key visited extends a map iteration by that key |
| Configs.ToolEntry | pkg/mcpserver/mapper.go:63-66 | the registered form of one tool: its name, description and schema, with a handler bound to call type "tool", method the tool's name, the config's namespace and function; Configs.ToolsForMembers states that exactly these entries are grouped |
| Configs.Registered | pkg/mcpserver/mapper.go:55-67 | the tools one config registers, in order: the entry of every tool with a non-empty name; its contract is Configs.RegisteredSkipsUnnamed and Configs.RegisteredSnoc |
| Configs.RegisteredSkipsUnnamed | pkg/mcpserver/mapper.go:55-68 | a tool is registered from a config iff it is the entry of some tool with a non-empty name |
| Configs.RegisteredSnoc | pkg/mcpserver/mapper.go:55-67 | one more tool entry adds its registered tool, or nothing when its name is empty |
| Configs.AppendTwice | pkg/mcpserver/mapper.go:60-67 | appending to a function's list in two steps equals appending the concatenation |
| Configs.AddToolStep | pkg/mcpserver/mapper.go:56-67 | one loop round (skip an unnamed tool; start the list if absent, then append) keeps "lists so far plus the registered prefix" |
| Configs.Collect | pkg/mcpserver/mapper.go:53-70 | the function → tools table of one pass over the configs, as a fold over the visiting order; its contract is Configs.CollectIsToolsFor, Configs.CollectKeys and Configs.ToolsForMembers, against the reference Configs.ToolsFor |
| Configs.CollectIsToolsFor | pkg/mcpserver/mapper.go:53-70 | after a pass, `fn` has a list iff its reference list is non-empty, and the list equals the reference list (in visiting order) |
| Configs.ToolsForNonEmpty | pkg/mcpserver/mapper.go:53-70 | `fn` has tools iff some visited config calling `fn` has a named tool |
| Configs.CollectKeys | pkg/mcpserver/mapper.go:53-70 | the functions that get a list do not depend on the iteration order: they are exactly those with a named tool |
| Configs.ToolsForMembers | pkg/mcpserver/mapper.go:55-68 | a tool is listed for `fn` iff some config of `fn` has it under a non-empty name; an unnamed entry hides no sibling in any config |
| Configs.ToolsForSound | pkg/mcpserver/mapper.go:55-68 | every listed tool comes from a named entry of a config of `fn` |
| Configs.ToolsForComplete | pkg/mcpserver/mapper.go:55-68 | every named entry of every config of `fn` is listed |
| Mux.AddRoute | pkg/mcpserver/router.go:60 | a route registered under a prefix that already has one is shadowed: the first registration wins; its contract is Endpoints.EndpointRoutesTarget and Endpoints.EndpointRoutesOrigin, and Mapper.RoutesForAdd for group paths, which never collide |
| Mux.MutableRouter.constructor | pkg/mcpserver/server.go:73 | a new router has no routes and no installs |
| Mux.MutableRouter.UpdateRouter | pkg/mcpserver/router.go:119 | installs the whole new route table in one step, counting one install |
| Mapper.FunctionServer.constructor | pkg/mcpserver/mapper.go:75-77 | a new group has its function's name, no tools and no open sessions, and belongs to the entry that creates it |
| Mapper.FunctionServer.SetTools | pkg/mcpserver/mapper.go:81 | replaces the tool list and nothing else |
| Mapper.SessionsOfAdd | pkg/mcpserver/mapper.go:100-108 | dropping one more function adds exactly its group's sessions to the cancelled ones |
| Mapper.SessionsOfMerge | pkg/mcpserver/mapper.go:71-111 | reinstalling groups does not change the sessions of the groups that are not reinstalled |
| Mapper.FnPathInjective | pkg/mcpserver/mapper.go:72 | distinct functions get distinct group paths, and back |
| Mapper.FnNameOfPath | pkg/mcpserver/mapper.go:72 | a group path gives its function back |
| Mapper.RoutesForAdd | pkg/mcpserver/mapper.go:82 | adding the route of a new function extends a one-route-per-group table by exactly that route |
| Mapper.FnPathsInjective | pkg/mcpserver/mapper.go:72 | no two functions share a group path |
| Mapper.RoutesForUnique | pkg/mcpserver/mapper.go:71-90 | the routes of a set of groups are determined by the groups |
| Mapper.AddConfigTools | pkg/mcpserver/mapper.go:55-68 | the loop over one config's tools appends exactly its registered tools, in order, to its function's list |
| Mapper.Restrict | pkg/mcpserver/mapper.go:92-111 | keeps exactly the entries whose keys are in the set, unchanged |
| Mapper.MergeUpdate | pkg/mcpserver/mapper.go:78 | storing one more group commutes with overriding the old groups by the installed ones |
| Mapper.ReuseStep | pkg/mcpserver/mapper.go:73-80 | installing one more group keeps "every installed group that existed is the old object" |
| Mapper.DropStep | pkg/mcpserver/mapper.go:100-109 | dropping functions one at a time equals dropping the set |
| Mapper.RestrictMerge | pkg/mcpserver/mapper.go:71-111 | after installing and collecting, the surviving groups are exactly the installed ones |
| Mapper.EntryHandler.constructor | pkg/mcpserver/mapper.go:20-27 | a new scope entry has no configs, no groups, an empty fresh router, and is in step with its configs, its groups carrying the grouped tools |
| Mapper.EntryHandler.GroupedToolsNonEmpty | pkg/mcpserver/mapper.go:55-81 | in a scope whose groups carry the grouped tools of its configs, every live group has at least one tool |
| Mapper.EntryHandler.CollectTools | pkg/mcpserver/mapper.go:52-70 | one pass over all configs; the result is the fold over the visiting order, and its functions are exactly those with a named tool |
| Mapper.EntryHandler.LoadOrCreateGroup | pkg/mcpserver/mapper.go:73-81 | an existing group is reused (same object), otherwise a fresh one is stored; either way it gets exactly the given tools |
| Mapper.EntryHandler.InstallGroup | pkg/mcpserver/mapper.go:71-89 | one round of the install loop keeps the install invariant with one more group |
| Mapper.EntryHandler.InstallGroups | pkg/mcpserver/mapper.go:71-89 | every function gets its group (reused or fresh) with exactly its tools, plus one route `basePath/fn` per group; the other groups keep their tool lists |
| Mapper.EntryHandler.CancelSessions | pkg/mcpserver/mapper.go:104-107 | invokes exactly the group's stored cancel functions |
| Mapper.EntryHandler.DropGroup | pkg/mcpserver/mapper.go:101-109 | cancels the sessions of a still-present group, then deletes it |
| Mapper.EntryHandler.DropGroups | pkg/mcpserver/mapper.go:100-111 | the listed groups are removed, their sessions cancelled, the others are untouched |
| Mapper.EntryHandler.CollectGarbage | pkg/mcpserver/mapper.go:92-111 | the groups left are exactly those in `tools`; every dropped group's sessions are cancelled |
| Mapper.EntryHandler.Rebuild | pkg/mcpserver/mapper.go:71-111 | groups equal the functions of `tools`, each with its tools; survivors are reused; one router install with one route per group; dropped groups' sessions cancelled and their tool lists untouched |
| Mapper.EntryHandler.PopulateConfigs | pkg/mcpserver/mapper.go:50-112 | the full recompute: groups are in step with the configs (one per function with a named tool, one route each), tools are the grouped tools, survivors reused, one router install, dropped sessions cancelled, dropped groups' tool lists untouched |
| Endpoints.Key | pkg/mcpserver/router.go:63-65 | an endpoint's `namespace/name` key; Endpoints.HandlerOf states it equals the secret's key and Endpoints.SecretChangeKeepsKeys that every endpoint is stored under it |
| Endpoints.EndpointPath | pkg/mcpserver/router.go:28-31 | the path an endpoint is served under; its contract is Endpoints.EndpointPathShape and Endpoints.EndpointPathTokens |
| Endpoints.EndpointPathShape | pkg/mcpserver/router.go:28-31 | the path is "/" + `ns/name`, followed by "/token" exactly when the token is non-empty |
| Endpoints.EndpointPathTokens | pkg/mcpserver/router.go:28-31 | within one scope, distinct non-empty tokens give distinct paths |
| Endpoints.TokenOf | pkg/mcpserver/router.go:74-78 | the token of a secret; its contract is Endpoints.TokenOfEmpty and Kube.BytesToString |
| Endpoints.TokenOfEmpty | pkg/mcpserver/router.go:74-78 | the token is empty iff there is no token data or it is empty |
| Endpoints.HandlerOf | pkg/mcpserver/router.go:90-95 | the stored endpoint record has the secret's key |
| Endpoints.PlanSecretChange | pkg/mcpserver/router.go:79-110 | the decision a secret event takes on the endpoint table; its contract is Endpoints.SecretChangeOutcome and Endpoints.SecretChangeRedelivery |
| Endpoints.ApplyStep | pkg/mcpserver/router.go:83-106 | the endpoint table after that decision; its contract is Endpoints.SecretChangeOutcome, Endpoints.SecretChangeKeepsKeys and Endpoints.UpsertStoresToken |
| Endpoints.SecretChangeOutcome | pkg/mcpserver/router.go:79-110 | case by case: deleting a known key removes it and rebuilds; deleting an unknown key does nothing; a new key is stored and rebuilds; a known key rebuilds iff the token changed, and then is replaced |
| Endpoints.SecretChangeRedelivery | pkg/mcpserver/router.go:90-110 | delivering the same secret event again is a no-op |
| Endpoints.SecretChangeKeepsKeys | pkg/mcpserver/router.go:79-109 | every endpoint stays stored under its own key |
| Endpoints.UpsertStoresToken | pkg/mcpserver/router.go:90-108 | after an upsert, the secret's key holds a record with the secret's token |
| Endpoints.Replay | pkg/mcpserver/router.go:45-54 | the configs a newly served scope is backfilled with; its contract is Endpoints.ReplayKeys and Endpoints.ReplayLastWins |
| Endpoints.ReplaySnoc | pkg/mcpserver/router.go:45-54 | replaying one more trigger stores its config iff it passes the filter and targets the scope |
| Endpoints.ReplayKeys | pkg/mcpserver/router.go:45-54 | a new scope holds a config under `k` iff some listed trigger replays into it with entry key `k` |
| Endpoints.ReplayLastWins | pkg/mcpserver/router.go:45-54 | the config under `k` is that of the last listed trigger replaying into it under `k` |
| Endpoints.EndpointRoutes | pkg/mcpserver/router.go:113-121 | the routes of one endpoint rebuild, in visiting order; its contract is Endpoints.EndpointRoutesServed, Endpoints.EndpointRoutesOrigin and Endpoints.EndpointRoutesTarget |
| Endpoints.EndpointRoutesServed | pkg/mcpserver/router.go:115-118 | every endpoint whose secret lookup succeeds and whose scope has an entry has its path routed, whatever the other endpoints do |
| Endpoints.EndpointRoutesOrigin | pkg/mcpserver/router.go:57-60 | every route is the path of such an endpoint, and leads to the entry of the first one with that path |
| Endpoints.EndpointRoutesFrame | pkg/mcpserver/router.go:115-118 | the routes depend only on the entries of the listed endpoints' scopes |
| Endpoints.EndpointRoutesTarget | pkg/mcpserver/router.go:57-60 | an endpoint with a path of its own routes to its own scope's entry |
| Endpoints.EndpointRoutesSnoc | pkg/mcpserver/router.go:115-118 | visiting one more endpoint adds at most its own route |
| Server.RefuncMCPServer.constructor | pkg/mcpserver/server.go:65-74 | a new server has no endpoints, no scopes and an empty router |
| Server.RefuncMCPServer.ScopesSeparate | pkg/mcpserver/mapper.go:20-27 | two scopes share no entry, router or function group |
| Server.RefuncMCPServer.UpdateScope | pkg/mcpserver/mapper.go:132-135 | the scope's configs become the given ones and the scope is recomputed (as Mapper.EntryHandler.PopulateConfigs states); the scope table is unchanged and every other scope's entry, router and groups are untouched |
| Server.RefuncMCPServer.TriggerMissChangesNothing | pkg/mcpserver/mapper.go:114-160 | a trigger event may change nothing iff the object is not a trigger, its type is not "mcp", it does not decode, or its scope `ns/token` has no entry |
| Server.RefuncMCPServer.HandleTriggerChange | pkg/mcpserver/mapper.go:114-136 | when the event reaches a scope: the config is stored under its entry key and the scope is recomputed (groups in step, tools grouped, every surviving group the same object, only new groups fresh, the sessions the dropped groups held before the event cancelled, every group's sessions left as they were, the dropped groups' tool lists untouched, one router install); the scope table is unchanged, every other scope's entry, router and groups are untouched, and when the event reaches no scope nothing may change |
| Server.RefuncMCPServer.HandleTriggerDelete | pkg/mcpserver/mapper.go:138-161 | when the event reaches a scope: exactly its entry key is removed and the scope is recomputed with the same guarantees as a change (every surviving group the same object, the dropped groups' sessions from before the event cancelled, every group's sessions left as they were, the dropped groups' tool lists untouched); the scope table is unchanged, every other scope's entry, router and groups are untouched, and when the event reaches no scope nothing may change |
| Server.RefuncMCPServer.ReplayTrigger | pkg/mcpserver/router.go:45-54 | one backfill round keeps the scope's configs equal to the replay of the triggers seen so far, its groups and routes in step with them and its groups carrying the grouped tools |
| Server.RefuncMCPServer.Backfill | pkg/mcpserver/router.go:45-54 | after the backfill, the new scope's configs are the replay of all listed triggers of its namespace, its groups and routes in step with them and its groups carrying the grouped tools |
| Server.RefuncMCPServer.StoreScope | pkg/mcpserver/router.go:33-56 | a first-time scope is stored fresh and backfilled iff its namespace can be listed (configs replayed, groups carrying the grouped tools); otherwise the scope table is unchanged |
| Server.RefuncMCPServer.SetupHTTPEndpoints | pkg/mcpserver/router.go:21-61 | a missing secret registers nothing; a first-time scope is added and backfilled iff its namespace can be listed; the path routes to the scope's entry iff it has one |
| Server.RefuncMCPServer.SetupNext | pkg/mcpserver/router.go:115-118 | one Range round over the endpoints keeps the rebuild invariant with one more endpoint |
| Server.RefuncMCPServer.SetupAll | pkg/mcpserver/router.go:114-118 | every endpoint is visited once; scopes are only added, each for an endpoint with a cached secret and a listable namespace; routes are those of the endpoints in visiting order |
| Server.RefuncMCPServer.PopulateEndpoints | pkg/mcpserver/router.go:113-121 | the new router, built from every endpoint, is installed with a single swap |
| Server.RefuncMCPServer.HandleSecretChange | pkg/mcpserver/router.go:67-111 | a non-secret changes nothing; otherwise the endpoint table takes the planned step, the router is rebuilt exactly when the step is not Ignore, a deleted key's scope entry is gone, and new scopes are backfilled |
| Server.PopulatingStep | pkg/mcpserver/router.go:115-118 | setting up one more endpoint extends the rebuild state by its key |
| Events.SecretLabelSelector | pkg/mcpserver/server.go:49 | the secret informer's selector `label=type`; its contract is Events.SecretSelectorSelectsWatched |
| Events.FirstEq | pkg/mcpserver/server.go:49 | the position of the first '=' in a selector, or none when there is no '=' |
| Events.SecretSelectorSelectsWatched | pkg/mcpserver/server.go:37-50 | the informer's selector admits a secret iff it has the secret-type label with value "token" |
| Events.UpdateFilter | pkg/mcpserver/server.go:84-93 | the resource-version filter on updates; its contract is Events.DispatchUpdate |
| Events.Wiring | pkg/mcpserver/server.go:95-105 | which handler each informer's events go to; its contract is Events.DispatchAddDelete and Events.DispatchStaysWithInformer |
| Events.Dispatch | pkg/mcpserver/server.go:84-105 | what delivering one event calls, and with which object; its contract is Events.DispatchUpdate, Events.DispatchAddDelete and Events.DispatchStaysWithInformer |
| Events.DispatchUpdate | pkg/mcpserver/server.go:84-93 | an update is dropped iff the resource versions are equal; otherwise the change handler gets the current object |
| Events.DispatchAddDelete | pkg/mcpserver/server.go:95-105 | adds go to the change handler and deletes to the delete handler of the informer's kind, with the object itself |
| Events.DispatchStaysWithInformer | pkg/mcpserver/server.go:95-105 | secret events reach only secret handlers and trigger events only trigger handlers |
| Bridge.Arguments.constructor | pkg/mcpserver/handler.go:18 | the arguments of one call |
| Bridge.WithCallMeta | pkg/mcpserver/handler.go:19-20 | adds `_call_type` and `_call_method`, overwriting earlier values; other keys are unchanged |
| Bridge.WithCallMetaIdempotent | pkg/mcpserver/handler.go:19-20 | tagging twice equals tagging once |
| Bridge.Endpoint | pkg/mcpserver/handler.go:33 | the `namespace/name` endpoint of a function definition; Bridge.CallTool states that the submission goes there |
| Bridge.TaskText | pkg/mcpserver/handler.go:49-54 | the text of a completed task: its output, or the error-action bytes of its error, one character per byte; Bridge.CallTool states that a completed task returns it |
| Bridge.CallTool | pkg/mcpserver/handler.go:17-58 | exactly one of a result and an error; an encoding failure fails before lookup; a lookup error is returned unchanged with nothing submitted; the submission goes to `namespace/name` with an ID from the payload and the function's timeout; a resolver error, a timeout and a completed task map as in the source |
| ScopeTableAsWritten.StoreOnServe | pkg/mcpserver/router.go:33-36 | the serving side's load-or-store: an unseen key gets a protocol server, a seen key keeps its value |
| ScopeTableAsWritten.AsWrittenPreserved | pkg/mcpserver/router.go:33-41 | the only writes to the scope table keep every value a protocol server |
| ScopeTableAsWritten.TriggerOnServedScopePanics | pkg/mcpserver/mapper.go:127-132 | in a table written that way, a trigger event that finds its scope fails the type assertion |
| ScopeTableAsWritten.FirstBackfillPanics | pkg/mcpserver/router.go:33-53 | the first backfill of scope "default/tok" fails the assertion |

## Left out

- The serving wrapper around each group (`pkg/mcpserver/mapper.go:82-88`) adds and removes cancel functions per request. That is concurrency. `conns` is a plain set of cancel identities that the model never adds to.
- Mapper.EntryHandler.PopulateConfigs: new groups start with no open sessions. Sessions are only added by that serving wrapper, so no contract promises anything about sessions of groups made by the recompute.
- `handleSecretDelete` is wired at `pkg/mcpserver/server.go:98`, but its definition is not part of this model. The wiring is modelled; its behaviour is not.
- Secret deletion does not cancel the sessions of the dropped scope. The code does not do it, so neither does the model.
- Process plumbing is not modelled: `NewRefuncMCPServer` beyond the router it creates, informer start and cache sync, the NATS connection, `listenAndServe`, `cmd/main.go`, `pkg/mcpserver/utils.go` and logging.
- Foreign libraries are modelled only through what they hand back:
  - gorilla/mux prefix matching: a router is a map from prefix to handler, and the first registration of a prefix wins;
  - mcp-go's MCP and SSE servers: a group is a `FunctionServer` holding its tool list;
  - `uuid`.
- JSON encoding and decoding, `GenID`, the definition lister, the task resolver and `GetErrActionBytes` are parameters: `Decoder` and `Bridge.Env`.
- `sync.Map` thread-safety is not modelled: every handler runs to completion alone.
- Bridge.CallTool: a nil arguments map makes the Go handler panic on its first write. The model's arguments are always a map.
- Bridge.CallTool: the timeout hint is kept in seconds, not as a `time.Duration` in nanoseconds.
- Bridge.CallTool: whether the context or the task finishes first is decided by the library, so it is the `signal` parameter. The handler ignores the caller's context, so that context is not a parameter.
- Events.FirstEq: the Kubernetes label-selector parser is a library; FirstEq and SelectorMatches stand in for it, for a selector of one `key=value` or `key` requirement only, which is the only form the server builds.
- Server.RefuncMCPServer.StoreScope: the code gives the scope entry no base path, so the model creates `EntryHandler(h.ns, "")`. Its group paths are "/fn".

## Findings

| source | as written | input that shows it | evidently intended | confidence | as-written member | corrected member |
|---|---|---|---|---|---|---|
| pkg/mcpserver/router.go:33-36 | the serving side stores a `*server.MCPServer` under the scope key, and nothing ever stores an `*entryHandler`. The trigger handlers (mapper.go lines 132 and 156) assert `c.(*entryHandler)` on the value they load, so every trigger event that finds its scope panics, including the first backfill at router.go:53 | a secret `default/tok` is served, and the namespace `default` lists an "mcp" trigger whose token is `tok` | the scope table holds the scope's entry handler, which the trigger path stores configs into and recomputes | high; not executed | ScopeTableAsWritten.FirstBackfillPanics | Server.RefuncMCPServer.HandleTriggerChange |
