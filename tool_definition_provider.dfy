/**
  The provider that loads tool definitions from a JSON file and keeps them in
  a cache for five minutes.

  What lies outside the program is given to it: the platform's path and
  casing routines as a `Platform` value, the clock as tick counts (100 ns each,
  as the platform's date type counts them), and the file system as a
  function from a path to what reading and parsing that path yields.
*/
module ToolDefinitionProvider {

  import opened Wrappers
  import opened ToolDefinitions

  /** The library routines the provider relies on, left uninterpreted. */
  datatype Platform = Platform(
    isPathRooted: string -> bool,
    combine: (string, string) -> string,
    upperInvariant: char -> char)

  /** The file name used when no path is configured. */
  const DefaultFileName: string := "mcp-tools.json"

  /** Where the definitions are read from, given the configured
      `ToolDefinitionsPath` setting (none when unset) and the content root. */
  function ConfigFilePath(configured: Option<string>, contentRoot: string, platform: Platform): (path: string)
    ensures (configured.Some? && configured.value != "" && platform.isPathRooted(configured.value))
            ==> path == configured.value
    ensures (configured.Some? && configured.value != "" && !platform.isPathRooted(configured.value))
            ==> path == platform.combine(contentRoot, configured.value)
    ensures (configured.None? || configured.value == "")
            ==> path == platform.combine(contentRoot, DefaultFileName)
  {
    match configured
    case Some(p) =>
      if p == "" then platform.combine(contentRoot, DefaultFileName)
      else if platform.isPathRooted(p) then p
      else platform.combine(contentRoot, p)
    case None => platform.combine(contentRoot, DefaultFileName)
  }

  /** An unset setting and an empty one choose the same file. */
  lemma UnsetAndEmptySettingAgree(contentRoot: string, platform: Platform)
    ensures ConfigFilePath(None, contentRoot, platform) == ConfigFilePath(Some(""), contentRoot, platform)
  {
  }

  /** The content root matters unless the configured path is rooted; a rooted
      path is taken as it is, whatever the content root. */
  lemma ContentRootMattersOnlyForRelativePaths(configured: Option<string>, root1: string, root2: string, platform: Platform)
    ensures (configured.Some? && configured.value != "" && platform.isPathRooted(configured.value))
            ==> ConfigFilePath(configured, root1, platform) == ConfigFilePath(configured, root2, platform)
    ensures !(configured.Some? && configured.value != "" && platform.isPathRooted(configured.value))
            ==> exists leaf :: ConfigFilePath(configured, root1, platform) == platform.combine(root1, leaf)
                            && ConfigFilePath(configured, root2, platform) == platform.combine(root2, leaf)
  {
    if !(configured.Some? && configured.value != "" && platform.isPathRooted(configured.value)) {
      var leaf := if configured.Some? && configured.value != "" then configured.value else DefaultFileName;
      assert ConfigFilePath(configured, root1, platform) == platform.combine(root1, leaf);
    }
  }

  // ---------------------------------------------------------------------------
  // The cache

  const CacheExpirationMinutes: int := 5
  const TicksPerMinute: int := 600_000_000
  /** The cache's lifetime in clock ticks: five minutes. */
  const CacheWindow: int := CacheExpirationMinutes * TicksPerMinute

  /** What reading the definitions file yields: the file does not exist, reading
      or parsing it throws, or it parses to a root object whose tool list may be
      absent (a `null` root or a missing `tools` property). */
  datatype LoadOutcome = Missing | Failed | Parsed(tools: Option<seq<ToolDefinition>>)

  /** The two cache fields: the cached list (none before the first successful
      load) and the clock reading taken after that load. */
  datatype CacheState = CacheState(cachedTools: Option<seq<ToolDefinition>>, lastLoadTime: int)

  /** The state of a new provider: nothing cached, and the load time left at
      the clock's zero, the platform's default date. */
  const InitialCache: CacheState := CacheState(None, 0)

  /** The cache may be served at time `now`: a list is cached and the clock
      reads less than five minutes past its load. */
  function IsFresh(s: CacheState, now: int): (servable: bool)
    ensures servable ==> s.cachedTools.Some?
    ensures s.cachedTools.Some? && s.lastLoadTime <= now < s.lastLoadTime + CacheWindow ==> servable
    ensures now >= s.lastLoadTime + CacheWindow ==> !servable
  {
    s.cachedTools.Some? && now - s.lastLoadTime < CacheWindow
  }

  /** The outcome of one request for the definitions: the new cache state and
      the list handed back. */
  datatype Fetch = Fetch(state: CacheState, tools: seq<ToolDefinition>)

  /** The list a load yields: the parsed tools, empty when the file holds no
      tool list, and empty when the file is missing or cannot be read. */
  function LoadedTools(file: LoadOutcome): (tools: seq<ToolDefinition>)
    ensures file.Parsed? && file.tools.Some? ==> tools == file.tools.value
    ensures file == Parsed(None) ==> tools == []
    ensures !file.Parsed? ==> tools == []
  {
    match file
    case Parsed(Some(tools)) => tools
    case _ => []
  }

  /** One request for the definitions, checked at clock reading `now`; when a
      load happens and succeeds the clock reads `loadedAt`; `file` is what
      reading the configured path yields at that moment. */
  function CacheStep(s: CacheState, now: int, loadedAt: int, file: LoadOutcome): (f: Fetch)
    // the state changes only through a successful load after a miss, and then
    // to exactly the list handed back, stamped with the load time
    ensures f.state == s
            || (!IsFresh(s, now) && file.Parsed? && f.state == CacheState(Some(f.tools), loadedAt))
  {
    if IsFresh(s, now) then Fetch(s, s.cachedTools.value)
    else if file.Parsed? then Fetch(CacheState(Some(LoadedTools(file)), loadedAt), LoadedTools(file))
    else Fetch(s, [])
  }

  /** A fresh cache is served as it is, the state is untouched, and what the
      file holds does not matter. */
  lemma CacheHitServesCache(s: CacheState, now: int, loadedAt: int, file: LoadOutcome)
    requires IsFresh(s, now)
    ensures CacheStep(s, now, loadedAt, file) == Fetch(s, s.cachedTools.value)
  {
  }

  /** A missing or unreadable file yields an empty list and leaves both cache
      fields as they were. */
  lemma FailedLoadKeepsState(s: CacheState, now: int, loadedAt: int, file: LoadOutcome)
    requires !IsFresh(s, now) && !file.Parsed?
    ensures CacheStep(s, now, loadedAt, file) == Fetch(s, [])
  {
  }

  /** A successful load replaces the cache with the parsed list (empty when the
      file has none), stamps it with the load time and returns it. */
  lemma SuccessfulLoadRefreshesCache(s: CacheState, now: int, loadedAt: int, file: LoadOutcome)
    requires !IsFresh(s, now) && file.Parsed?
    ensures var f := CacheStep(s, now, loadedAt, file);
            f.state == CacheState(Some(f.tools), loadedAt)
            && f.tools == (if file.tools.Some? then file.tools.value else [])
  {
  }

  /** An expired or empty cache is never served: the answer depends only on the
      file, not on what was cached before. */
  lemma StaleCacheIsNeverServed(s1: CacheState, s2: CacheState, now: int, loadedAt: int, file: LoadOutcome)
    requires !IsFresh(s1, now) && !IsFresh(s2, now)
    ensures CacheStep(s1, now, loadedAt, file).tools == CacheStep(s2, now, loadedAt, file).tools == LoadedTools(file)
  {
  }

  /** Once a list has been cached, some list stays cached: failed loads never
      clear it. */
  lemma CacheIsNeverCleared(s: CacheState, now: int, loadedAt: int, file: LoadOutcome)
    requires s.cachedTools.Some?
    ensures CacheStep(s, now, loadedAt, file).state.cachedTools.Some?
  {
  }

  // ---------------------------------------------------------------------------
  // Sequences of requests

  /** One request: the clock when the cache is checked, the clock after a
      load, and what the file yields. */
  datatype Request = Request(now: int, loadedAt: int, file: LoadOutcome)

  /** The state after a sequence of requests, the list each one returned, and
      how many of them read the file. */
  datatype Trace = Trace(final: CacheState, served: seq<seq<ToolDefinition>>, loads: nat)

  function Run(s: CacheState, requests: seq<Request>): (t: Trace)
    ensures |t.served| == |requests|
    ensures t.loads <= |requests|
    // a run that never reads the file leaves the cache exactly as it was
    ensures t.loads == 0 ==> t.final == s
    // a cached list is never cleared, however many loads fail
    ensures s.cachedTools.Some? ==> t.final.cachedTools.Some?
    // the final cache is the initial one, or the result of a successful load
    // in the run, stamped with that load's time
    ensures t.final == s
            || exists i :: 0 <= i < |requests| && requests[i].file.Parsed?
                 && t.final == CacheState(Some(LoadedTools(requests[i].file)), requests[i].loadedAt)
    decreases |requests|
  {
    if requests == [] then Trace(s, [], 0)
    else
      var r := requests[0];
      var f := CacheStep(s, r.now, r.loadedAt, r.file);
      var rest := Run(f.state, requests[1..]);
      assert forall i :: 1 <= i < |requests| ==> requests[i] == requests[1..][i - 1];
      Trace(rest.final, [f.tools] + rest.served, rest.loads + if IsFresh(s, r.now) then 0 else 1)
  }

  /** Every request made within five minutes of a successful load is answered
      from the cache, with the same list, without reading the file, and leaves
      the cache as it was. */
  lemma {:induction false} RequestsWithinWindowAreServedFromCache(tools: seq<ToolDefinition>, loadedAt: int, requests: seq<Request>)
    requires forall i :: 0 <= i < |requests| ==> requests[i].now - loadedAt < CacheWindow
    ensures var t := Run(CacheState(Some(tools), loadedAt), requests);
            t.final == CacheState(Some(tools), loadedAt)
            && t.loads == 0
            && forall i :: 0 <= i < |requests| ==> t.served[i] == tools
  {
    if requests != [] {
      RequestsWithinWindowAreServedFromCache(tools, loadedAt, requests[1..]);
    }
  }

  /** Two requests: a load that succeeds, then a request within five minutes of
      it, which returns the identical list and does not read the file. */
  lemma RepeatedRequestReusesLoad(s: CacheState, first: Request, second: Request)
    requires !IsFresh(s, first.now) && first.file.Parsed?
    requires second.now - first.loadedAt < CacheWindow
    ensures var t := Run(s, [first, second]);
            t.served[1] == t.served[0] == LoadedTools(first.file) && t.loads == 1
  {
    RequestsWithinWindowAreServedFromCache(LoadedTools(first.file), first.loadedAt, [second]);
  }

  /** Without a successful load nothing is ever cached: from the initial state,
      a run in which every read fails returns only empty lists and reads the file
      on every request. */
  lemma {:induction false} FailingFileNeverCaches(s: CacheState, requests: seq<Request>)
    requires s.cachedTools.None?
    requires forall i :: 0 <= i < |requests| ==> !requests[i].file.Parsed?
    ensures var t := Run(s, requests);
            t.final == s && t.loads == |requests|
            && forall i :: 0 <= i < |requests| ==> t.served[i] == []
  {
    if requests != [] {
      FailingFileNeverCaches(s, requests[1..]);
    }
  }

  // ---------------------------------------------------------------------------
  // The provider object

  class JsonFileToolDefinitionProvider {
    /** The path chosen at construction. */
    const configFilePath: string
    const platform: Platform
    var cachedTools: Option<seq<ToolDefinition>>
    var lastLoadTime: int
    /** Every path the provider has tried to read, oldest first. */
    ghost var fileReads: seq<string>

    function State(): CacheState
      reads this
    {
      CacheState(cachedTools, lastLoadTime)
    }

    constructor (configured: Option<string>, contentRoot: string, platform: Platform)
      ensures configFilePath == ConfigFilePath(configured, contentRoot, platform)
      ensures this.platform == platform
      ensures State() == InitialCache && fileReads == []
    {
      if configured.Some? && configured.value != "" {
        if platform.isPathRooted(configured.value) {
          configFilePath := configured.value;
        } else {
          configFilePath := platform.combine(contentRoot, configured.value);
        }
      } else {
        configFilePath := platform.combine(contentRoot, DefaultFileName);
      }
      this.platform := platform;
      cachedTools := None;
      lastLoadTime := 0;
      fileReads := [];
    }

    /** The current definitions, from the cache while it is fresh and from the
        file otherwise. */
    method GetToolDefinitions(now: int, loadedAt: int, files: string -> LoadOutcome) returns (tools: seq<ToolDefinition>)
      modifies this
      ensures var f := CacheStep(old(State()), now, loadedAt, files(configFilePath));
              State() == f.state && tools == f.tools
      ensures fileReads == if IsFresh(old(State()), now) then old(fileReads) else old(fileReads) + [configFilePath]
    {
      if cachedTools.Some? && now - lastLoadTime < CacheWindow {
        return cachedTools.value;
      }
      var file := files(configFilePath);
      fileReads := fileReads + [configFilePath];
      match file {
        case Missing =>
          tools := [];
        case Failed =>
          tools := [];
        case Parsed(root) =>
          cachedTools := Some(if root.Some? then root.value else []);
          lastLoadTime := loadedAt;
          tools := cachedTools.value;
      }
    }

    /** The first current definition whose name equals `toolName` ignoring case. */
    method GetToolDefinition(toolName: string, now: int, loadedAt: int, files: string -> LoadOutcome)
      returns (r: Option<ToolDefinition>)
      modifies this
      ensures var f := CacheStep(old(State()), now, loadedAt, files(configFilePath));
              State() == f.state && r == FindByName(f.tools, toolName, platform.upperInvariant)
      ensures fileReads == if IsFresh(old(State()), now) then old(fileReads) else old(fileReads) + [configFilePath]
    {
      var tools := GetToolDefinitions(now, loadedAt, files);
      r := FindByName(tools, toolName, platform.upperInvariant);
    }

    /** Every current definition's protocol tool, in order, as a single page. */
    method ListTools(now: int, loadedAt: int, files: string -> LoadOutcome) returns (result: ListToolsResult)
      modifies this
      ensures var f := CacheStep(old(State()), now, loadedAt, files(configFilePath));
              State() == f.state && result == ListToolsOf(f.tools)
      ensures fileReads == if IsFresh(old(State()), now) then old(fileReads) else old(fileReads) + [configFilePath]
    {
      var definitions := GetToolDefinitions(now, loadedAt, files);
      result := ListToolsOf(definitions);
    }
  }
}
