/** Server configurations and the tool descriptors servers report (MCPServerConfig.ts, builtinServers.ts). */
module ServerConfigs {
  import opened Wrappers
  import opened Json

  /** `stdio` servers are child processes; `http` servers are network endpoints. */
  datatype Transport = Stdio(command: string, args: seq<string>) | Http(url: string)

  datatype Category = Search | Knowledge | Utility | Custom

  datatype ServerConfig = ServerConfig(
    id: string,
    name: string,
    description: string,
    transport: Transport,
    requiresApiKey: bool,
    apiKeyEnvVar: Option<string>,
    apiKeySettingKey: Option<string>,
    category: Category,
    defaultEnabled: bool,
    resolvedApiKey: Option<string>)

  /** A tool as a server's `listTools` reports it. */
  datatype ToolInfo = ToolInfo(name: string, description: Option<string>, inputSchema: Json)

  /** A tool in the aggregated catalog; `tool.name` is the namespaced name. */
  datatype ConnectedTool = ConnectedTool(serverId: string, serverName: string, tool: ToolInfo)

  function IdsOf(configs: seq<ServerConfig>): (ids: seq<string>)
    ensures |ids| == |configs| && forall i :: 0 <= i < |configs| ==> ids[i] == configs[i].id
  {
    if configs == [] then [] else [configs[0].id] + IdsOf(configs[1..])
  }

  /** No id is configured twice. */
  predicate DistinctIds(configs: seq<ServerConfig>) {
    forall i, j :: 0 <= i < j < |configs| ==> configs[i].id != configs[j].id
  }

  const DuckDuckGoId: string := "duckduckgo-search"
  const WebFetchId: string := "web-fetch"
  const BraveSearchId: string := "brave-search"

  /** The three built-in servers. Their command is the node binary found at run time and their
      script path depends on the install location; both are shown here by name only. */
  const BuiltinServers: seq<ServerConfig> := [
    ServerConfig(DuckDuckGoId, "DuckDuckGo Search",
      "Zoek op het web via DuckDuckGo. Geen API-sleutel nodig.",
      Stdio("node", ["search.mjs"]), false, None, None, Search, true, None),
    ServerConfig(WebFetchId, "Web Fetch",
      "Haal de inhoud van publieke URLs op. Geen API-sleutel nodig.",
      Stdio("node", ["fetch-web.mjs"]), false, None, None, Utility, true, None),
    ServerConfig(BraveSearchId, "Brave Search",
      "Hoogwaardige webzoekopdrachten via Brave. Vereist een Brave API-sleutel.",
      Stdio("node", ["-e", "require('@modelcontextprotocol/server-brave-search')"]),
      true, Some("BRAVE_API_KEY"), Some("braveApiKey"), Search, false, None)
  ]

  /** `BUILTIN_SERVERS.filter((s) => s.defaultEnabled).map((s) => s.id)`. */
  function DefaultEnabledIds(): seq<string> {
    IdsOf(Filter(BuiltinServers, (s: ServerConfig) => s.defaultEnabled))
  }

  /** The built-in defaults are DuckDuckGo and Web Fetch; Brave needs a key and starts disabled. */
  lemma DefaultEnabledIdsValue()
    ensures DefaultEnabledIds() == [DuckDuckGoId, WebFetchId]
  {
    var p := (s: ServerConfig) => s.defaultEnabled;
    var b := BuiltinServers;
    assert Filter(b[2..], p) == [] by {
      assert b[2..][1..] == [];
    }
    assert Filter(b[1..], p) == [b[1]] by {
      assert b[1..][1..] == b[2..];
    }
    assert Filter(b, p) == [b[0], b[1]];
  }
}
