# MCP gateway tool stores, in Dafny

This project models two components of the MCP gateway that manage tools:

- **The in-memory tool resource store** (`ToolResourceStore`, in
  `tool_resource_store.dfy`). It is the development-time table of tool
  resources, keyed by each resource's name. It supports get, upsert, delete
  and list. The class `InMemoryToolResourceStore` holds the dictionary as a
  `map<string, ToolResource>` field. Upsert and Delete reassign that field
  and state the new table in terms of the old one. TryGet and List only read
  it. The object invariant `Valid()` says every resource is filed under its
  own name. The value-level functions `Lookup`, `Upserted` and `Deleted` give
  the lemmas something to talk about: round trips, last write wins, frame
  properties and case-sensitive keys.
- **The JSON-file tool definition provider**. It is split across two files:
  - `ToolDefinitions` (in `tool_definitions.dfy`) holds the definition records
    and the two pure transforms over a loaded list. One is the
    case-insensitive, first-match lookup by name. The other is the projection
    to protocol tools that answers a list-tools request.
  - `ToolDefinitionProvider` (in `tool_definition_provider.dfy`) holds three
    things. First, the choice of the definitions file path at construction.
    Second, the five-minute cache as a state machine on its two fields:
    `CacheStep` is one request and `Run` is a sequence of requests. Third, the
    class `JsonFileToolDefinitionProvider`, whose methods are proved against
    `CacheStep`.

The provider has three kinds of outside input, and each is passed in:

- **Platform routines.** `Path.IsPathRooted`, `Path.Combine` and the
  per-character upper-casing behind `StringComparison.OrdinalIgnoreCase` are
  fields of a `Platform` value given to the constructor. Nothing is assumed
  about them.
- **The clock.** The clock is an integer count of 100-nanosecond ticks, the
  unit of the platform's date type. Five minutes is 3,000,000,000 ticks. Each
  request receives two clock readings. `now` is taken when the cache is
  checked. `loadedAt` is taken after a successful load. The source reads the
  clock at both points.
- **The file system.** It is a function from a path to a `LoadOutcome`:
  - `Missing`: the file does not exist.
  - `Failed`: reading or parsing it throws.
  - `Parsed(tools)`: parsing succeeded. `tools` is `None` when the root object
    is `null` or has no `tools` list.

A ghost field `fileReads` records each path the provider tries to read. This
is how the model states that a cache hit does not touch the file.

## Model

| member | source | states |
|---|---|---|
| `ToolResourceStore.Lookup` | dotnet/Microsoft.McpGateway.Management/src/Store/InMemoryToolResourceStore.cs:21 | A resource is found exactly when its name is a key. The result is the stored resource. Under the invariant, that resource carries the requested name. |
| `ToolResourceStore.Upserted` | dotnet/Microsoft.McpGateway.Management/src/Store/InMemoryToolResourceStore.cs:34 | After a write, the keys are the old keys plus the tool's name. That name maps to the tool. Every other key keeps its value. |
| `ToolResourceStore.Deleted` | dotnet/Microsoft.McpGateway.Management/src/Store/InMemoryToolResourceStore.cs:47 | After a delete, the keys are the old keys minus the name. Survivors keep their values. Deleting an absent name leaves the table equal to before. |
| `ToolResourceStore.LookupAfterUpsert` | dotnet/Microsoft.McpGateway.Management/src/Store/InMemoryToolResourceStore.cs:21-34 | Upsert of `t` followed by a get of `t.Name` returns `t`. |
| `ToolResourceStore.UpsertFramesOtherNames` | dotnet/Microsoft.McpGateway.Management/src/Store/InMemoryToolResourceStore.cs:34 | An upsert leaves the lookup of every other name unchanged. |
| `ToolResourceStore.UpsertLastWriteWins` | dotnet/Microsoft.McpGateway.Management/src/Store/InMemoryToolResourceStore.cs:34 | Two upserts under one name leave the same table as the second upsert alone: the last write wins. |
| `ToolResourceStore.UpsertsOfDistinctNamesCommute` | dotnet/Microsoft.McpGateway.Management/src/Store/InMemoryToolResourceStore.cs:34 | Upserts under different names give the same table in either order. |
| `ToolResourceStore.LookupAfterDelete` | dotnet/Microsoft.McpGateway.Management/src/Store/InMemoryToolResourceStore.cs:21-47 | Delete of `n` followed by a get of `n` returns nothing. |
| `ToolResourceStore.DeleteFramesOtherNames` | dotnet/Microsoft.McpGateway.Management/src/Store/InMemoryToolResourceStore.cs:47 | A delete leaves the lookup of every other name unchanged. |
| `ToolResourceStore.DeleteUndoesFreshUpsert` | dotnet/Microsoft.McpGateway.Management/src/Store/InMemoryToolResourceStore.cs:34-47 | Upserting a tool under an absent name and then deleting that name restores the table. |
| `ToolResourceStore.OperationsKeepKeyedByName` | dotnet/Microsoft.McpGateway.Management/src/Store/InMemoryToolResourceStore.cs:13-47 | Upsert and delete both keep every resource filed under its own name. |
| `ToolResourceStore.DistinctNamesAreSeparateEntries` | dotnet/Microsoft.McpGateway.Management/src/Store/InMemoryToolResourceStore.cs:13-34 | The dictionary uses the default ordinal comparer. Any two different names, even ones equal ignoring case, are two entries after both are written, each found under its own name. |
| `ToolResourceStore.NamesAreCaseSensitive` | dotnet/Microsoft.McpGateway.Management/src/Store/InMemoryToolResourceStore.cs:13 | `tool` and `Tool` match ignoring case under any fold that maps `t` and `T` alike, unlike in the provider's lookup. Yet in the store they are two entries, each found under its own spelling. |
| `ToolResourceStore.InMemoryToolResourceStore.constructor` | dotnet/Microsoft.McpGateway.Management/src/Store/InMemoryToolResourceStore.cs:13 | A new store is empty and satisfies the invariant. |
| `ToolResourceStore.InMemoryToolResourceStore.TryGet` | dotnet/Microsoft.McpGateway.Management/src/Store/InMemoryToolResourceStore.cs:16-27 | The result is present exactly when the name is a key. It is then the stored resource, whose name is the requested one. The table is not changed. |
| `ToolResourceStore.InMemoryToolResourceStore.Upsert` | dotnet/Microsoft.McpGateway.Management/src/Store/InMemoryToolResourceStore.cs:29-40 | The new table is the old one with the tool filed under its name. The invariant is kept. |
| `ToolResourceStore.InMemoryToolResourceStore.Delete` | dotnet/Microsoft.McpGateway.Management/src/Store/InMemoryToolResourceStore.cs:42-53 | The new table is the old one without the name. This is a no-op when the name is absent. The invariant is kept. |
| `ToolResourceStore.InMemoryToolResourceStore.List` | dotnet/Microsoft.McpGateway.Management/src/Store/InMemoryToolResourceStore.cs:55-66 | The list has as many elements as the table has keys. Each element is the resource stored under its name. No name occurs twice. Every key occurs. |
| `ToolDefinitions.EqualsIgnoreCase` | dotnet/Microsoft.McpGateway.Tools/src/Services/JsonFileToolDefinitionProvider.cs:108 | Two names match only when they have the same length. With a fold that changes nothing, matching is plain ordinal equality. |
| `ToolDefinitions.EqualsIgnoreCaseIsEquivalence` | dotnet/Microsoft.McpGateway.Tools/src/Services/JsonFileToolDefinitionProvider.cs:108 | The case-insensitive name comparison is reflexive, symmetric and transitive for any fold. |
| `ToolDefinitions.EqualsIgnoreCaseBounds` | dotnet/Microsoft.McpGateway.Tools/src/Services/JsonFileToolDefinitionProvider.cs:108 | Equal names always match. Names of different lengths never match. |
| `ToolDefinitions.FindByName` | dotnet/Microsoft.McpGateway.Tools/src/Services/JsonFileToolDefinitionProvider.cs:105-109 | Nothing is found exactly when no definition's name matches ignoring case. Otherwise the result is the definition at the first matching position: it matches, and no earlier one does. |
| `ToolDefinitions.FindByNameIgnoresCase` | dotnet/Microsoft.McpGateway.Tools/src/Services/JsonFileToolDefinitionProvider.cs:108 | Two spellings of a name that are equal ignoring case find the same definition. |
| `ToolDefinitions.ExactNameIsFound` | dotnet/Microsoft.McpGateway.Tools/src/Services/JsonFileToolDefinitionProvider.cs:108 | A lookup by the exact name of any listed definition finds a definition with a matching name. |
| `ToolDefinitions.ProtocolTools` | dotnet/Microsoft.McpGateway.Tools/src/Services/JsonFileToolDefinitionProvider.cs:119 | There is one protocol tool per definition. The count is the same, and the tool at each position is that definition's tool. |
| `ToolDefinitions.ProtocolToolsAppend` | dotnet/Microsoft.McpGateway.Tools/src/Services/JsonFileToolDefinitionProvider.cs:119 | The projection keeps order: projecting a concatenation concatenates the projections. |
| `ToolDefinitions.FoundToolIsListed` | dotnet/Microsoft.McpGateway.Tools/src/Services/JsonFileToolDefinitionProvider.cs:105-127 | The tool of a definition found by name is listed at that definition's own position. |
| `ToolDefinitions.ListToolsOf` | dotnet/Microsoft.McpGateway.Tools/src/Services/JsonFileToolDefinitionProvider.cs:119-127 | A list-tools answer holds one tool per definition, in order, and no next cursor. |
| `ToolDefinitionProvider.ConfigFilePath` | dotnet/Microsoft.McpGateway.Tools/src/Services/JsonFileToolDefinitionProvider.cs:37-56 | A non-empty rooted setting is used as given. A non-empty relative setting is joined to the content root. An unset or empty setting gives the content root joined with `mcp-tools.json`. |
| `ToolDefinitionProvider.UnsetAndEmptySettingAgree` | dotnet/Microsoft.McpGateway.Tools/src/Services/JsonFileToolDefinitionProvider.cs:39 | An unset setting and an empty one choose the same file. |
| `ToolDefinitionProvider.ContentRootMattersOnlyForRelativePaths` | dotnet/Microsoft.McpGateway.Tools/src/Services/JsonFileToolDefinitionProvider.cs:39-56 | A rooted setting gives the same path whatever the content root. Any other setting gives the content root joined with one leaf name that does not depend on the root. |
| `ToolDefinitionProvider.IsFresh` | dotnet/Microsoft.McpGateway.Tools/src/Services/JsonFileToolDefinitionProvider.cs:63-66 | The cache can be served only when a list is cached. It is served whenever the clock reads from the load time up to, but not including, five minutes later. It is never served at or after five minutes. |
| `ToolDefinitionProvider.LoadedTools` | dotnet/Microsoft.McpGateway.Tools/src/Services/JsonFileToolDefinitionProvider.cs:76-100 | A parsed tool list is used as it is. A root with no tool list gives an empty list, and so does a missing or unreadable file. |
| `ToolDefinitionProvider.CacheStep` | dotnet/Microsoft.McpGateway.Tools/src/Services/JsonFileToolDefinitionProvider.cs:63-101 | One request either leaves both cache fields unchanged, or it follows a miss and a successful parse. In that case the new cache is exactly the returned list, stamped with the load time. |
| `ToolDefinitionProvider.CacheHitServesCache` | dotnet/Microsoft.McpGateway.Tools/src/Services/JsonFileToolDefinitionProvider.cs:63-69 | When a list is cached and less than five minutes have passed since the load, the cached list is returned. The state is unchanged, whatever the file holds. |
| `ToolDefinitionProvider.FailedLoadKeepsState` | dotnet/Microsoft.McpGateway.Tools/src/Services/JsonFileToolDefinitionProvider.cs:73-77 | On a cache miss, a missing or unreadable file returns an empty list. Both cache fields stay as they were. |
| `ToolDefinitionProvider.SuccessfulLoadRefreshesCache` | dotnet/Microsoft.McpGateway.Tools/src/Services/JsonFileToolDefinitionProvider.cs:91-95 | On a cache miss, a parsed file becomes the cached list. That list is empty when the root has no tools. It is stamped with the load time, and it is what is returned. |
| `ToolDefinitionProvider.StaleCacheIsNeverServed` | dotnet/Microsoft.McpGateway.Tools/src/Services/JsonFileToolDefinitionProvider.cs:66-101 | When the cache is empty or five minutes old, the answer depends only on the file, never on the old cached list. |
| `ToolDefinitionProvider.CacheIsNeverCleared` | dotnet/Microsoft.McpGateway.Tools/src/Services/JsonFileToolDefinitionProvider.cs:73-101 | Once a list is cached, every request leaves some list cached. A failed load never clears it. |
| `ToolDefinitionProvider.Run` | dotnet/Microsoft.McpGateway.Tools/src/Services/JsonFileToolDefinitionProvider.cs:61-102 | A run of requests answers each request once and reads the file at most once per request. A run that never reads the file leaves the cache as it was. A cached list is never cleared. The final cache is either the initial one or the list of some successful load in the run, stamped with that load's time. |
| `ToolDefinitionProvider.RequestsWithinWindowAreServedFromCache` | dotnet/Microsoft.McpGateway.Tools/src/Services/JsonFileToolDefinitionProvider.cs:63-69 | After a successful load, every request within five minutes of it returns the same list. None of them reads the file, and the cache is left unchanged. |
| `ToolDefinitionProvider.RepeatedRequestReusesLoad` | dotnet/Microsoft.McpGateway.Tools/src/Services/JsonFileToolDefinitionProvider.cs:63-95 | A successful load followed by a request within five minutes returns the identical list twice. The file is read once. |
| `ToolDefinitionProvider.FailingFileNeverCaches` | dotnet/Microsoft.McpGateway.Tools/src/Services/JsonFileToolDefinitionProvider.cs:66-101 | With nothing cached and a file that never parses, every request reads the file and returns an empty list. Nothing is ever cached. |
| `ToolDefinitionProvider.JsonFileToolDefinitionProvider.constructor` | dotnet/Microsoft.McpGateway.Tools/src/Services/JsonFileToolDefinitionProvider.cs:28-59 | The path is chosen as `ConfigFilePath` says. Nothing is cached, the load time is the clock's zero, and no file has been read. |
| `ToolDefinitionProvider.JsonFileToolDefinitionProvider.GetToolDefinitions` | dotnet/Microsoft.McpGateway.Tools/src/Services/JsonFileToolDefinitionProvider.cs:61-102 | The new cache fields and the returned list are those of `CacheStep` on the old fields and the configured file. The configured path is read exactly when the cache was not fresh. |
| `ToolDefinitionProvider.JsonFileToolDefinitionProvider.GetToolDefinition` | dotnet/Microsoft.McpGateway.Tools/src/Services/JsonFileToolDefinitionProvider.cs:105-109 | The cache moves as for `GetToolDefinitions`. The result is the first definition of the returned list whose name matches ignoring case. |
| `ToolDefinitionProvider.JsonFileToolDefinitionProvider.ListTools` | dotnet/Microsoft.McpGateway.Tools/src/Services/JsonFileToolDefinitionProvider.cs:111-128 | The cache moves as for `GetToolDefinitions`. The result lists each returned definition's tool in order, with no next cursor. |

## Left out

- The one-slot semaphore, `async`/`await` and cancellation tokens of the
  store. Each operation is one atomic step here. Concurrent interleavings are
  not modelled.
- The provider has no lock. Concurrent requests that race on `cachedTools`
  and `lastLoadTime` are not modelled. Requests run one after another.
- Real file I/O and JSON deserialisation (`File.Exists`,
  `File.ReadAllTextAsync`, `JsonSerializer.Deserialize` and its options). Their
  combined outcome is the `LoadOutcome` input. A cancelled read throws inside
  the `try`, so it is one of the `Failed` cases.
- Logging. It has no effect on any result.
- The operating-system meaning of rooted paths and path joining, and the
  casing tables behind ordinal case-insensitive comparison. All three are
  uninterpreted `Platform` fields. The fold applies to one Unicode scalar
  value (a Dafny `char`), and lengths count scalar values.
- UTF-16 strings. The platform's strings are sequences of UTF-16 code units.
  A character outside the Basic Multilingual Plane counts as two units there
  and as one `char` here. A lone surrogate, which a platform string can hold,
  cannot occur in this model.
- `Upsert`, `TryGet`, `List` and `Valid`: resources are values that never
  change. The source stores the caller's `ToolResource` object itself, and
  `TryGet` and `List` hand back those same objects (`List` copies the list,
  not the resources). A caller that later changed a stored resource's `Name`
  would break the invariant that every key equals its resource's name, so
  in the source that invariant holds only while no caller mutates a stored
  resource. The definition of `ToolResource` is not part of this model.
- Object identity of lists. The source returns its cached `List` object itself
  on a hit, so a caller that mutated it would change the cache. Here lists are
  values, so that aliasing is not represented.
- The fields of `ToolResource` beyond its name, and those of `ToolDefinition`
  and the protocol `Tool` beyond what is shown. The first is the opaque
  `content`. The others are the few fields carried in the records. Their types
  are defined outside the modelled files.
- Null names. A `null` key makes the source's dictionary throw. A definition
  with a `null` name makes the lookup throw. Names here are always strings.
- Null entries in the definitions file. The JSON options do not reject nulls.
  So `{"tools": [null]}` parses into a list that holds a `null` entry, and
  that list is cached and returned. In the source, such an entry makes the
  lookup by name throw when it reaches `t.Name`, unless an earlier entry
  matches. It also makes the list-tools projection throw at `td.Tool`. A
  definition whose `Tool` is `null` puts a `null` tool into the list-tools
  answer. Here a list of definitions cannot hold `null`, and every definition
  has a tool, so `FindByName` and `ProtocolTools` always succeed.
- The dependency-injection wiring, authentication, Cosmos DB stores and
  listener setup in both `Program.cs` files. They hold no logic to state.
- Session routing, the session store, node information and deployment
  management. Their source is not part of this model.
