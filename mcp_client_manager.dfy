/** The connection/session manager (MCPClientManager.ts): one lazily created session per configured
    server id, a per-server error record and tool count, and a namespaced tool catalog. The MCP SDK's
    connect, listTools, callTool and close are oracles passed in by the caller. */
module MCPClientManager {
  import opened Wrappers
  import opened Json
  import opened Strings
  import opened Namespacing
  import OM = OrderedMaps
  import opened ServerConfigs
  import Scans

  /** A live session handle for one server. */
  datatype Client = Client(serverId: string, session: nat)

  /** `connectServer`: a connection handshake that may fail with a message (both transports, and the
      HTTP-then-SSE fallback, count as one attempt). */
  type ConnectOracle = ServerConfig -> Result<Client, string>
  /** `client.listTools()`. */
  type ListToolsOracle = Client -> Result<seq<ToolInfo>, string>
  /** `client.callTool({name, arguments})`, giving `result.content`. */
  type CallToolOracle = (Client, string, Json) -> Result<Json, string>
  /** `client.close()`. */
  type CloseOracle = Client -> Result<(), string>

  /** The three maps the manager mutates; `errors` keeps JavaScript's insertion order. */
  datatype Books = Books(clients: map<string, Client>, errors: OM.Entries<string>, counts: map<string, int>)

  function UnknownServer(serverId: string): string {
    "Unknown server: " + serverId
  }

  function InvalidToolName(name: string): string {
    "Invalid namespaced tool name: " + name
  }

  /** `configs.find((c) => c.id === serverId)`: the first config with that id. */
  function FindConfig(configs: seq<ServerConfig>, serverId: string): (r: Option<ServerConfig>)
    ensures r.None? <==> forall i :: 0 <= i < |configs| ==> configs[i].id != serverId
    ensures r.Some? ==> r.value.id == serverId && r.value == configs[IndexOfId(configs, serverId)]
  {
    var k := IndexOfId(configs, serverId);
    if k < |configs| then Some(configs[k]) else None
  }

  /** Position of the first config with this id (|configs| if none). */
  function IndexOfId(configs: seq<ServerConfig>, serverId: string): (k: nat)
    ensures k <= |configs|
    ensures forall i :: 0 <= i < k ==> configs[i].id != serverId
    ensures k < |configs| ==> configs[k].id == serverId
  {
    if configs == [] then 0
    else if configs[0].id == serverId then 0
    else 1 + IndexOfId(configs[1..], serverId)
  }

  /** `getOrConnect`: the cached client if there is one; otherwise `Unknown server` for an id that is not
      configured, or a fresh handshake with the first config of that id. Returns the outcome and the
      new `clients` map. */
  function Connected(clients: map<string, Client>, configs: seq<ServerConfig>, serverId: string,
                     connect: ConnectOracle): (r: (Result<Client, string>, map<string, Client>))
    ensures r.1.Keys == if r.0.Ok? then clients.Keys + {serverId} else clients.Keys
    ensures forall id :: id in clients ==> r.1[id] == clients[id]
    ensures r.0.Ok? ==> r.1[serverId] == r.0.value
  {
    if serverId in clients then (Ok(clients[serverId]), clients)
    else match FindConfig(configs, serverId)
      case None => (Err(UnknownServer(serverId)), clients)
      case Some(config) =>
        match connect(config)
        case Err(e) => (Err(e), clients)
        case Ok(client) => (Ok(client), clients[serverId := client])
  }

  /** A session, once made, is reused: a second `getOrConnect` returns the same client without a
      handshake (whatever the connect oracle would answer) and changes nothing. Only the requested id
      ever gains an entry, and only on success. */
  lemma ConnectedCaches(clients: map<string, Client>, configs: seq<ServerConfig>, serverId: string,
                        connect: ConnectOracle, connect': ConnectOracle)
    ensures var (r, cl) := Connected(clients, configs, serverId, connect);
      && cl.Keys == (if r.Ok? then clients.Keys + {serverId} else clients.Keys)
      && (forall id :: id in clients ==> cl[id] == clients[id])
      && (r.Ok? ==> Connected(cl, configs, serverId, connect') == (r, cl))
      && (serverId in clients ==> r == Ok(clients[serverId]))
      && (serverId !in clients && FindConfig(configs, serverId).None? ==> r == Err(UnknownServer(serverId)))
  {
  }

  /** Records a failed discovery: message stored, tool count zero. */
  function RecordFailure(b: Books, serverId: string, msg: string): Books {
    b.(errors := OM.Put(b.errors, serverId, msg), counts := b.counts[serverId := 0])
  }

  function NamespaceTool(config: ServerConfig, t: ToolInfo): ConnectedTool {
    ConnectedTool(config.id, config.name, t.(name := Namespaced(config.id, t.name)))
  }

  /** One server's tools as they enter the catalog, in the server's order. */
  function NamespaceTools(config: ServerConfig, ts: seq<ToolInfo>): (r: seq<ConnectedTool>)
    ensures |r| == |ts|
    ensures forall i :: 0 <= i < |ts| ==> r[i] == NamespaceTool(config, ts[i])
  {
    if ts == [] then [] else NamespaceTools(config, ts[..|ts| - 1]) + [NamespaceTool(config, ts[|ts| - 1])]
  }

  /** One iteration of `getAllTools`'s loop: connect, list, then either count and clear the error or
      record the failure. It never fails itself. */
  function DiscoverOne(b: Books, configs: seq<ServerConfig>, config: ServerConfig,
                       connect: ConnectOracle, list: ListToolsOracle): (r: (seq<ConnectedTool>, Books))
    ensures r.1.counts == b.counts[config.id := |r.0|]
    ensures forall t :: t in r.0 ==> t.serverId == config.id
  {
    var c := Connected(b.clients, configs, config.id, connect);
    var b1 := b.(clients := c.1);
    match c.0
    case Err(e) => ([], RecordFailure(b1, config.id, e))
    case Ok(client) =>
      match list(client)
      case Err(e) => ([], RecordFailure(b1, config.id, e))
      case Ok(listed) =>
        (NamespaceTools(config, listed),
         b1.(counts := b1.counts[config.id := |listed|], errors := OM.Remove(b1.errors, config.id)))
  }

  /** One iteration of `getAllTools`'s loop as a step of the pass over the configs. */
  function Discover(configs: seq<ServerConfig>, connect: ConnectOracle, list: ListToolsOracle):
    (Books, ServerConfig) -> (seq<ConnectedTool>, Books)
  {
    (b: Books, config: ServerConfig) => DiscoverOne(b, configs, config, connect, list)
  }

  /** The state of `getAllTools` after its first `k` iterations: the catalog so far and the books. */
  function Sweep(b: Books, configs: seq<ServerConfig>, connect: ConnectOracle, list: ListToolsOracle,
                 k: nat): (r: (seq<ConnectedTool>, Books))
    requires k <= |configs|
    ensures forall id :: id in r.1.counts <==> id in b.counts || id in IdsUpTo(configs, k)
  {
    ScanCountKeys(b, configs, connect, list, k);
    Scans.Scan(configs, k, b, Discover(configs, connect, list))
  }

  /** The ids of the first `k` configs. */
  function IdsUpTo(configs: seq<ServerConfig>, k: nat): (r: set<string>)
    requires k <= |configs|
    ensures forall i :: 0 <= i < k ==> configs[i].id in r
  {
    if k == 0 then {} else IdsUpTo(configs, k - 1) + {configs[k - 1].id}
  }

  /** After the first `k` iterations exactly the ids processed so far have been given a count. */
  lemma {:induction false} ScanCountKeys(b: Books, configs: seq<ServerConfig>, connect: ConnectOracle,
                                         list: ListToolsOracle, k: nat)
    requires k <= |configs|
    ensures Scans.Scan(configs, k, b, Discover(configs, connect, list)).1.counts.Keys == b.counts.Keys + IdsUpTo(configs, k)
  {
    if k > 0 {
      ScanCountKeys(b, configs, connect, list, k - 1);
      var step := Discover(configs, connect, list);
      Scans.ScanLast(configs, k, b, step);
      var done := Scans.Scan(configs, k - 1, b, step);
      var next := DiscoverOne(done.1, configs, configs[k - 1], connect, list);
      assert Scans.Scan(configs, k, b, step).1 == next.1;
      assert next.1.counts.Keys == done.1.counts.Keys + {configs[k - 1].id};
    }
  }

  // ---- An independent account of discovery: what each server contributes on its own ----

  /** What discovery of `config` yields on its own, given the session map as it was before the sweep. */
  function Probe(clients: map<string, Client>, configs: seq<ServerConfig>, config: ServerConfig,
                 connect: ConnectOracle, list: ListToolsOracle): Result<seq<ToolInfo>, string>
  {
    match Connected(clients, configs, config.id, connect).0
    case Err(e) => Err(e)
    case Ok(client) => list(client)
  }

  /** A server's share of the catalog: its namespaced tools, or nothing when its discovery failed. */
  function Contribution(config: ServerConfig, r: Result<seq<ToolInfo>, string>): seq<ConnectedTool> {
    match r
    case Err(_) => []
    case Ok(contributed) => NamespaceTools(config, contributed)
  }

  /** The catalog as the concatenation, in config order, of every server's own contribution. */
  function ExpectedCatalog(clients: map<string, Client>, configs: seq<ServerConfig>, connect: ConnectOracle,
                           list: ListToolsOracle, k: nat): seq<ConnectedTool>
    requires k <= |configs|
  {
    if k == 0 then [] else
      ExpectedCatalog(clients, configs, connect, list, k - 1) +
      Contribution(configs[k - 1], Probe(clients, configs, configs[k - 1], connect, list))
  }

  /** Everything the books hold about one server id: its session, its tool count and its error
      message, each absent when there is none. */
  datatype Entry = Entry(session: Option<Client>, count: Option<int>, error: Option<string>)

  function EntryOf(b: Books, serverId: string): Entry {
    Entry(if serverId in b.clients then Some(b.clients[serverId]) else None,
          if serverId in b.counts then Some(b.counts[serverId]) else None,
          OM.Get(b.errors, serverId))
  }

  /** The count and error entry a discovery with outcome `r` leaves: the number of tools and no
      error after a success, zero and the message after a failure. */
  function Outcome(r: Result<seq<ToolInfo>, string>): (Option<int>, Option<string>) {
    match r
    case Ok(reported) => (Some(|reported|), None)
    case Err(e) => (Some(0), Some(e))
  }

  /** What the books say about `serverId` after a discovery with outcome `r`. */
  predicate Recorded(b: Books, serverId: string, r: Result<seq<ToolInfo>, string>) {
    (EntryOf(b, serverId).count, EntryOf(b, serverId).error) == Outcome(r)
  }

  /** `b` and `b'` agree on everything about `serverId`. */
  predicate SameEntry(b: Books, b': Books, serverId: string) {
    EntryOf(b, serverId) == EntryOf(b', serverId)
  }

  lemma ConnectedFrame(clients: map<string, Client>, configs: seq<ServerConfig>, serverId: string,
                       connect: ConnectOracle, other: string)
    requires other != serverId
    ensures var cl := Connected(clients, configs, serverId, connect).1;
      (other in cl <==> other in clients) && (other in clients ==> cl[other] == clients[other])
  {
  }

  lemma RecordFailureFrame(b: Books, serverId: string, msg: string, other: string)
    requires other != serverId
    ensures SameEntry(b, RecordFailure(b, serverId, msg), other)
  {
    OM.GetPut(b.errors, serverId, msg, other);
  }

  lemma RecordSuccessFrame(b: Books, serverId: string, n: int, other: string)
    requires other != serverId
    ensures SameEntry(b, b.(counts := b.counts[serverId := n], errors := OM.Remove(b.errors, serverId)), other)
  {
    OM.RemoveIsRemoveAll(b.errors, serverId);
    OM.GetRemoveAll(b.errors, {serverId}, other);
  }

  /** One iteration touches only its own server's entries. */
  lemma DiscoverOneFrame(b: Books, configs: seq<ServerConfig>, config: ServerConfig,
                         connect: ConnectOracle, list: ListToolsOracle, other: string)
    requires other != config.id
    ensures SameEntry(b, DiscoverOne(b, configs, config, connect, list).1, other)
  {
    var c := Connected(b.clients, configs, config.id, connect);
    var b1 := b.(clients := c.1);
    ConnectedFrame(b.clients, configs, config.id, connect, other);
    assert SameEntry(b, b1, other);
    if c.0.Err? {
      RecordFailureFrame(b1, config.id, c.0.error, other);
    } else {
      var listed := list(c.0.value);
      if listed.Err? {
        RecordFailureFrame(b1, config.id, listed.error, other);
      } else {
        RecordSuccessFrame(b1, config.id, |listed.value|, other);
      }
    }
  }

  /** One iteration records its own outcome, which depends only on its own server's entries. */
  lemma DiscoverOneRecords(b: Books, configs: seq<ServerConfig>, config: ServerConfig,
                           connect: ConnectOracle, list: ListToolsOracle, b0: Books)
    requires SameEntry(b0, b, config.id)
    ensures Recorded(DiscoverOne(b, configs, config, connect, list).1, config.id,
                     Probe(b0.clients, configs, config, connect, list))
  {
    var c := Connected(b.clients, configs, config.id, connect);
    assert c.0 == Connected(b0.clients, configs, config.id, connect).0;
    var b1 := b.(clients := c.1);
    if c.0.Err? {
      OM.GetPut(b1.errors, config.id, c.0.error, config.id);
    } else {
      var listed := list(c.0.value);
      if listed.Err? {
        OM.GetPut(b1.errors, config.id, listed.error, config.id);
      } else {
        OM.RemoveIsRemoveAll(b1.errors, config.id);
        OM.GetRemoveAll(b1.errors, {config.id}, config.id);
      }
    }
  }

  /** One iteration contributes what its own server yields on its own. */
  lemma DiscoverOneContributes(b: Books, configs: seq<ServerConfig>, config: ServerConfig,
                               connect: ConnectOracle, list: ListToolsOracle, b0: Books)
    requires SameEntry(b0, b, config.id)
    ensures DiscoverOne(b, configs, config, connect, list).0 ==
      Contribution(config, Probe(b0.clients, configs, config, connect, list))
  {
    assert Connected(b.clients, configs, config.id, connect).0 == Connected(b0.clients, configs, config.id, connect).0;
  }

  /** No config among the first `k` has this id. */
  predicate NotAmong(configs: seq<ServerConfig>, k: nat, serverId: string)
    requires k <= |configs|
  {
    forall i :: 0 <= i < k ==> configs[i].id != serverId
  }

  /** Before the first iteration nothing is found and the books are as given. */
  lemma SweepZero(b: Books, configs: seq<ServerConfig>, connect: ConnectOracle, list: ListToolsOracle)
    ensures Sweep(b, configs, connect, list, 0) == ([], b)
  {
  }

  /** `Sweep` unfolded by one step. */
  lemma SweepStep(b: Books, configs: seq<ServerConfig>, connect: ConnectOracle, list: ListToolsOracle, k: nat)
    requires k < |configs|
    ensures var sw := Sweep(b, configs, connect, list, k);
      var d := DiscoverOne(sw.1, configs, configs[k], connect, list);
      Sweep(b, configs, connect, list, k + 1) == (sw.0 + d.0, d.1)
  {
    Scans.ScanLast(configs, k + 1, b, Discover(configs, connect, list));
  }

  /** The books after one more iteration. */
  lemma SweepStepBooks(b: Books, configs: seq<ServerConfig>, connect: ConnectOracle, list: ListToolsOracle, k: nat)
    requires k < |configs|
    ensures Sweep(b, configs, connect, list, k + 1).1 ==
      DiscoverOne(Sweep(b, configs, connect, list, k).1, configs, configs[k], connect, list).1
  {
    SweepStep(b, configs, connect, list, k);
  }

  /** Iterations `j` to `k` of the sweep leave the entries of every id they do not process untouched. */
  lemma SweepFrame(b: Books, configs: seq<ServerConfig>, connect: ConnectOracle, list: ListToolsOracle,
                   j: nat, k: nat, other: string)
    requires j <= k <= |configs|
    requires forall i :: j <= i < k ==> configs[i].id != other
    ensures SameEntry(Sweep(b, configs, connect, list, j).1, Sweep(b, configs, connect, list, k).1, other)
  {
    var bj := Sweep(b, configs, connect, list, j).1;
    var step := Discover(configs, connect, list);
    var ok := (c: ServerConfig) => c.id != other;
    var inv := (s: Books) => SameEntry(bj, s, other);
    forall s: Books, c: ServerConfig | inv(s) && ok(c)
      ensures inv(step(s, c).1)
    {
      DiscoverOneFrame(s, configs, c, connect, list, other);
    }
    Scans.ScanKeeps(configs, j, k, b, step, ok, inv);
  }

  /** No other config has the id of config `j`. */
  predicate IdUnique(configs: seq<ServerConfig>, j: nat)
    requires j < |configs|
  {
    forall i :: 0 <= i < |configs| && i != j ==> configs[i].id != configs[j].id
  }

  lemma DistinctIdUnique(configs: seq<ServerConfig>, j: nat)
    requires j < |configs| && DistinctIds(configs)
    ensures IdUnique(configs, j)
  {
  }

  /** The catalog after one more iteration. */
  lemma SweepStepTools(b: Books, configs: seq<ServerConfig>, connect: ConnectOracle, list: ListToolsOracle, k: nat)
    requires k < |configs|
    ensures Sweep(b, configs, connect, list, k + 1).0 ==
      Sweep(b, configs, connect, list, k).0 + DiscoverOne(Sweep(b, configs, connect, list, k).1, configs, configs[k], connect, list).0
  {
    SweepStep(b, configs, connect, list, k);
  }

  /** Before iteration `k`, the books still hold the original entry of an id no earlier config has. */
  lemma SweepKeepsOwnEntry(b: Books, configs: seq<ServerConfig>, connect: ConnectOracle, list: ListToolsOracle, k: nat)
    requires k < |configs| && IdUnique(configs, k)
    ensures SameEntry(b, Sweep(b, configs, connect, list, k).1, configs[k].id)
  {
    SweepZero(b, configs, connect, list);
    SweepFrame(b, configs, connect, list, 0, k, configs[k].id);
  }

  /** Iteration `k` appends its own server's contribution to the catalog. */
  lemma SweepCatalogStep(b: Books, configs: seq<ServerConfig>, connect: ConnectOracle,
                         list: ListToolsOracle, k: nat)
    requires k < |configs| && IdUnique(configs, k)
    requires Sweep(b, configs, connect, list, k).0 == ExpectedCatalog(b.clients, configs, connect, list, k)
    ensures Sweep(b, configs, connect, list, k + 1).0 == ExpectedCatalog(b.clients, configs, connect, list, k + 1)
  {
    SweepKeepsOwnEntry(b, configs, connect, list, k);
    SweepStepTools(b, configs, connect, list, k);
    DiscoverOneContributes(Sweep(b, configs, connect, list, k).1, configs, configs[k], connect, list, b);
  }

  /** With distinct ids the sweep's catalog is the concatenation of every server's own contribution. */
  lemma {:induction false} SweepCatalog(b: Books, configs: seq<ServerConfig>, connect: ConnectOracle,
                                        list: ListToolsOracle, k: nat)
    requires k <= |configs| && DistinctIds(configs)
    ensures Sweep(b, configs, connect, list, k).0 == ExpectedCatalog(b.clients, configs, connect, list, k)
  {
    if k > 0 {
      SweepCatalog(b, configs, connect, list, k - 1);
      DistinctIdUnique(configs, k - 1);
      SweepCatalogStep(b, configs, connect, list, k - 1);
    }
  }

  /** After `k` iterations the count and error entry of server `j < k`, whose id no other config
      has, record its own outcome: iteration `j` wrote them and no later iteration touches them. */
  lemma SweepRecordsOne(b: Books, configs: seq<ServerConfig>, connect: ConnectOracle,
                        list: ListToolsOracle, j: nat, k: nat)
    requires j < k <= |configs| && IdUnique(configs, j)
    ensures Recorded(Sweep(b, configs, connect, list, k).1, configs[j].id,
                     Probe(b.clients, configs, configs[j], connect, list))
  {
    var c := configs[j];
    SweepKeepsOwnEntry(b, configs, connect, list, j);
    SweepStepBooks(b, configs, connect, list, j);
    DiscoverOneRecords(Sweep(b, configs, connect, list, j).1, configs, c, connect, list, b);
    SweepFrame(b, configs, connect, list, j + 1, k, c.id);
  }

  /** With distinct ids every processed server's count and error entry record its own outcome. */
  lemma SweepRecords(b: Books, configs: seq<ServerConfig>, connect: ConnectOracle,
                     list: ListToolsOracle, k: nat)
    requires k <= |configs| && DistinctIds(configs)
    ensures forall j :: 0 <= j < k ==>
      Recorded(Sweep(b, configs, connect, list, k).1, configs[j].id, Probe(b.clients, configs, configs[j], connect, list))
  {
    forall j | 0 <= j < k
      ensures Recorded(Sweep(b, configs, connect, list, k).1, configs[j].id,
                       Probe(b.clients, configs, configs[j], connect, list))
    {
      DistinctIdUnique(configs, j);
      SweepRecordsOne(b, configs, connect, list, j, k);
    }
  }

  /** Failure isolation. With distinct ids, the catalog of a full sweep is exactly the concatenation,
      in config order, of every server's own contribution (a failing server contributes nothing and
      hides nobody else's tools); every server's count and error entry record its own outcome; and
      ids that are not configured keep their entries. */
  lemma SweepIsolatesFailures(b: Books, configs: seq<ServerConfig>, connect: ConnectOracle, list: ListToolsOracle)
    requires DistinctIds(configs)
    ensures var (tools, b') := Sweep(b, configs, connect, list, |configs|);
      && tools == ExpectedCatalog(b.clients, configs, connect, list, |configs|)
      && (forall j :: 0 <= j < |configs| ==>
            Recorded(b', configs[j].id, Probe(b.clients, configs, configs[j], connect, list)))
      && (forall id :: NotAmong(configs, |configs|, id) ==> SameEntry(b, b', id))
  {
    SweepCatalog(b, configs, connect, list, |configs|);
    SweepRecords(b, configs, connect, list, |configs|);
    SweepZero(b, configs, connect, list);
    forall id | NotAmong(configs, |configs|, id)
      ensures SameEntry(b, Sweep(b, configs, connect, list, |configs|).1, id)
    {
      SweepFrame(b, configs, connect, list, 0, |configs|, id);
    }
  }

  /** A catalog entry's name starts with its own server's id and the separator. */
  predicate WellNamespaced(t: ConnectedTool) {
    StartsWith(t.tool.name, t.serverId + Separator)
  }

  lemma NamespaceToolWell(config: ServerConfig, t: ToolInfo)
    ensures NamespaceTool(config, t).serverId == config.id && WellNamespaced(NamespaceTool(config, t))
  {
    assert (config.id + Separator + t.name)[..|config.id + Separator|] == config.id + Separator;
  }

  /** One iteration contributes only tools of its own server, each well namespaced. */
  lemma DiscoverOneNamespaces(b: Books, configs: seq<ServerConfig>, config: ServerConfig,
                              connect: ConnectOracle, list: ListToolsOracle)
    ensures forall t :: t in DiscoverOne(b, configs, config, connect, list).0 ==>
      t.serverId == config.id && WellNamespaced(t)
  {
    var more := DiscoverOne(b, configs, config, connect, list).0;
    forall t | t in more
      ensures t.serverId == config.id && WellNamespaced(t)
    {
      var i :| 0 <= i < |more| && more[i] == t;
      var r := Connected(b.clients, configs, config.id, connect).0;
      assert r.Ok? && list(r.value).Ok?;
      NamespaceToolWell(config, list(r.value).value[i]);
    }
  }

  /** Whatever the ids, every catalog entry is well namespaced under its own server's id, and that
      server is configured. */
  lemma SweepNamespacesEveryTool(b: Books, configs: seq<ServerConfig>, connect: ConnectOracle,
                                 list: ListToolsOracle, k: nat)
    requires k <= |configs|
    ensures forall t :: t in Sweep(b, configs, connect, list, k).0 ==>
      t.serverId in IdsOf(configs) && WellNamespaced(t)
  {
    var step := Discover(configs, connect, list);
    var ok := (c: ServerConfig) => c.id in IdsOf(configs);
    var p := (t: ConnectedTool) => t.serverId in IdsOf(configs) && WellNamespaced(t);
    forall i | 0 <= i < k
      ensures ok(configs[i])
    {
      assert IdsOf(configs)[i] == configs[i].id;
    }
    forall s: Books, c: ServerConfig | ok(c)
      ensures forall t :: t in step(s, c).0 ==> p(t)
    {
      DiscoverOneNamespaces(s, configs, c, connect, list);
    }
    Scans.ScanEmits(configs, k, b, step, ok, p);
  }

  /** The sweep keeps error keys unique. */
  lemma SweepUniqueErrors(b: Books, configs: seq<ServerConfig>, connect: ConnectOracle,
                          list: ListToolsOracle, k: nat)
    requires k <= |configs| && OM.UniqueKeys(b.errors)
    ensures OM.UniqueKeys(Sweep(b, configs, connect, list, k).1.errors)
  {
    var step := Discover(configs, connect, list);
    var ok := (c: ServerConfig) => true;
    var inv := (s: Books) => OM.UniqueKeys(s.errors);
    forall s: Books, c: ServerConfig | inv(s) && ok(c)
      ensures inv(step(s, c).1)
    {
      DiscoverOneUnique(s, configs, c, connect, list);
    }
    Scans.ScanKeeps(configs, 0, k, b, step, ok, inv);
  }

  lemma DiscoverOneUnique(b: Books, configs: seq<ServerConfig>, config: ServerConfig,
                          connect: ConnectOracle, list: ListToolsOracle)
    requires OM.UniqueKeys(b.errors)
    ensures OM.UniqueKeys(DiscoverOne(b, configs, config, connect, list).1.errors)
  {
    var (r, cl) := Connected(b.clients, configs, config.id, connect);
    match r
    case Err(e) => OM.PutUnique(b.errors, config.id, e);
    case Ok(client) =>
      match list(client)
      case Err(e) => OM.PutUnique(b.errors, config.id, e);
      case Ok(_) =>
        OM.RemoveIsRemoveAll(b.errors, config.id);
        OM.RemoveAllUnique(b.errors, {config.id});
  }

  /** Removing keys one more at a time from a map. */
  lemma MapRemoveStep<V>(m: map<string, V>, dropped: set<string>, id: string)
    ensures (m - dropped) - {id} == m - (dropped + {id})
  {
  }

  class Manager {
    var clients: map<string, Client>
    var configs: seq<ServerConfig>
    var connectionErrors: OM.Entries<string>
    var toolCounts: map<string, int>

    ghost predicate Valid()
      reads this
    {
      OM.UniqueKeys(connectionErrors)
    }

    function State(): Books
      reads this
    {
      Books(clients, connectionErrors, toolCounts)
    }

    constructor()
      ensures Valid()
      ensures clients == map[] && configs == [] && connectionErrors == [] && toolCounts == map[]
    {
      clients := map[];
      configs := [];
      connectionErrors := [];
      toolCounts := map[];
    }

    /** `setConfigs`: drops every session whose id is no longer configured, with its tool count and
        error entry (closing it is best effort and not awaited); ids without a session keep their
        entries; no session is created. */
    method SetConfigs(newConfigs: seq<ServerConfig>)
      requires Valid()
      modifies this
      ensures Valid()
      ensures configs == newConfigs
      ensures var gone := old(clients).Keys - set i | 0 <= i < |newConfigs| :: newConfigs[i].id;
        && clients == old(clients) - gone
        && toolCounts == old(toolCounts) - gone
        && connectionErrors == OM.RemoveAll(old(connectionErrors), gone)
    {
      var newIds := set i | 0 <= i < |newConfigs| :: newConfigs[i].id;
      ghost var gone := old(clients).Keys - newIds;
      var pending := clients.Keys;
      ghost var dropped: set<string> := {};
      OM.RemoveAllNothing(connectionErrors);
      while pending != {}
        invariant pending <= old(clients).Keys
        invariant dropped == (old(clients).Keys - pending) - newIds
        invariant clients == old(clients) - dropped
        invariant toolCounts == old(toolCounts) - dropped
        invariant connectionErrors == OM.RemoveAll(old(connectionErrors), dropped)
        decreases pending
      {
        var id :| id in pending;
        if id !in newIds {
          MapRemoveStep(old(clients), dropped, id);
          MapRemoveStep(old(toolCounts), dropped, id);
          clients := clients - {id};
          toolCounts := toolCounts - {id};
          OM.RemoveAllStep(old(connectionErrors), dropped, id);
          connectionErrors := OM.Remove(connectionErrors, id);
          dropped := dropped + {id};
        }
        pending := pending - {id};
      }
      assert dropped == gone;
      OM.RemoveAllUnique(old(connectionErrors), gone);
      configs := newConfigs;
    }

    /** `getOrConnect`. */
    method GetOrConnect(serverId: string, connect: ConnectOracle) returns (r: Result<Client, string>)
      modifies this`clients
      ensures (r, clients) == Connected(old(clients), configs, serverId, connect)
    {
      if serverId in clients {
        return Ok(clients[serverId]);
      }
      var config := FindConfig(configs, serverId);
      if config.None? {
        return Err(UnknownServer(serverId));
      }
      var c := connect(config.value);
      if c.Err? {
        return Err(c.error);
      }
      clients := clients[serverId := c.value];
      r := Ok(c.value);
    }

    /** The body of `getAllTools`'s loop for one config: connect (if need be), list, then record
        the count and clear the error, or record the error and a zero count. */
    method DiscoverServer(config: ServerConfig, connect: ConnectOracle, list: ListToolsOracle)
      returns (found: seq<ConnectedTool>)
      modifies this`clients, this`connectionErrors, this`toolCounts
      ensures (found, State()) == DiscoverOne(old(State()), configs, config, connect, list)
    {
      found := [];
      var conn := GetOrConnect(config.id, connect);
      if conn.Err? {
        connectionErrors := OM.Put(connectionErrors, config.id, conn.error);
        toolCounts := toolCounts[config.id := 0];
        return;
      }
      var listed := list(conn.value);
      if listed.Err? {
        connectionErrors := OM.Put(connectionErrors, config.id, listed.error);
        toolCounts := toolCounts[config.id := 0];
        return;
      }
      var tools := listed.value;
      toolCounts := toolCounts[config.id := |tools|];
      connectionErrors := OM.Remove(connectionErrors, config.id);
      var j := 0;
      while j < |tools|
        invariant 0 <= j <= |tools|
        invariant found == NamespaceTools(config, tools[..j])
      {
        assert tools[..j + 1][..j] == tools[..j];
        found := found + [NamespaceTool(config, tools[j])];
        j := j + 1;
      }
      assert tools[..j] == tools;
    }

    /** `getAllTools`: discovers every configured server in order; a server's failure is recorded
        against its id and never propagates. */
    method GetAllTools(connect: ConnectOracle, list: ListToolsOracle) returns (allTools: seq<ConnectedTool>)
      requires Valid()
      modifies this`clients, this`connectionErrors, this`toolCounts
      ensures Valid()
      ensures (allTools, State()) == Sweep(old(State()), configs, connect, list, |configs|)
    {
      ghost var b0 := State();
      allTools := [];
      var i := 0;
      while i < |configs|
        invariant 0 <= i <= |configs|
        invariant (allTools, State()) == Sweep(b0, configs, connect, list, i)
      {
        SweepStep(b0, configs, connect, list, i);
        var found := DiscoverServer(configs[i], connect, list);
        allTools := allTools + found;
        i := i + 1;
      }
      SweepUniqueErrors(b0, configs, connect, list, |configs|);
    }

    /** `callTool`: splits on the first `__`, connects to the prefix (if need be) and calls the
        remainder there; provider errors reach the caller. */
    method CallTool(namespacedToolName: string, input: Json, connect: ConnectOracle, call: CallToolOracle)
      returns (r: Result<Json, string>)
      modifies this`clients
      ensures match SplitNamespaced(namespacedToolName)
        case None => r == Err(InvalidToolName(namespacedToolName)) && clients == old(clients)
        case Some(parts) =>
          var (c, cl) := Connected(old(clients), configs, parts.0, connect);
          && clients == cl
          && r == match c case Err(e) => Err(e) case Ok(client) => call(client, parts.1, input)
    {
      var separatorIndex := IndexOf(namespacedToolName, Separator, 0);
      if separatorIndex == -1 {
        return Err(InvalidToolName(namespacedToolName));
      }
      var serverId := namespacedToolName[..separatorIndex];
      var toolName := namespacedToolName[separatorIndex + 2..];
      var client := GetOrConnect(serverId, connect);
      if client.Err? {
        return Err(client.error);
      }
      r := call(client.value, toolName, input);
    }

    /** `getConnectionError`: the recorded message, or null. */
    function GetConnectionError(serverId: string): (r: Option<string>)
      reads this
      ensures r.Some? ==> (serverId, r.value) in connectionErrors
      ensures r.None? <==> serverId !in OM.Keys(connectionErrors)
    {
      OM.Get(connectionErrors, serverId)
    }

    /** `getAllConnectionErrors`: every recorded (id, message), in insertion order. */
    function GetAllConnectionErrors(): seq<(string, string)>
      reads this
    {
      connectionErrors
    }

    /** `getToolCount`: the recorded count, 0 for a server never discovered. */
    function GetToolCount(serverId: string): (n: int)
      reads this
      ensures serverId !in toolCounts ==> n == 0
      ensures serverId in toolCounts ==> n == toolCounts[serverId]
    {
      if serverId in toolCounts then toolCounts[serverId] else 0
    }

    /** `isConnected`: a session exists. */
    predicate IsConnected(serverId: string)
      reads this
    {
      serverId in clients
    }

    /** `disconnectAll`: asks every session to close, ignoring failures, then clears all state. */
    method DisconnectAll(close: CloseOracle) returns (attempted: set<string>)
      modifies this`clients, this`toolCounts, this`connectionErrors
      ensures attempted == old(clients).Keys
      ensures clients == map[] && toolCounts == map[] && connectionErrors == []
      ensures Valid()
    {
      var pending := clients.Keys;
      attempted := {};
      while pending != {}
        invariant pending + attempted == clients.Keys && pending !! attempted
        decreases pending
      {
        var id :| id in pending;
        var _ := close(clients[id]);
        attempted := attempted + {id};
        pending := pending - {id};
      }
      clients := map[];
      toolCounts := map[];
      connectionErrors := [];
    }
  }
}
