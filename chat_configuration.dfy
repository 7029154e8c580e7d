/**
 * `ChatConfiguration`: the MCP servers the chat client knows about, and the
 * bookkeeping of their health checks. Health outcomes are inputs.
 */
module ChatConfig {
  import opened Wrappers
  import opened JavaStrings
  import opened ProtocolTypes
  import opened Metrics
  import opened McpDiscovery
  import opened ModelDiscovery
  import Selection

  const UNKNOWN := "Unknown"

  /** The protocol-aware handle on one MCP server (its transport is not modelled). */
  datatype McpServerService = McpServerService(name: string, serverUrl: string, protocol: ProtocolType)

  /** The three collections the health checks fill: servers, healthy URLs, names by URL. */
  datatype HealthLedger = HealthLedger(servers: seq<McpServer>, healthy: seq<string>, names: map<string, string>)

  /** A pass's ledger and whether it ran to the end. */
  datatype PassOutcome = PassOutcome(ledger: HealthLedger, completed: bool)

  /**
   * What probing a legacy URL gives: its tools; its tools, after which closing
   * the client throws; or a failure to connect or to list the tools.
   */
  datatype LegacyOutcome = Reachable(tools: seq<Tool>) | ReachableCloseFailed(tools: seq<Tool>) | Unreachable

  function ServerServices(configs: seq<McpServiceConfiguration>): (r: seq<McpServerService>)
    ensures |r| == |configs|
  {
    seq(|configs|, i requires 0 <= i < |configs| =>
      McpServerService(configs[i].serviceName, configs[i].serverUrl, configs[i].protocol))
  }

  function ServerUrls(services: seq<McpServerService>): (r: seq<string>)
    ensures |r| == |services|
  {
    seq(|services|, i requires 0 <= i < |services| => services[i].serverUrl)
  }

  /** The URLs of `all` that are not in `aware`, in their order. */
  function LegacyUrls(all: seq<string>, aware: seq<string>): (r: seq<string>)
    ensures |r| <= |all|
    ensures forall u :: u in r <==> u in all && u !in aware
  {
    if all == [] then []
    else
      var rest := LegacyUrls(all[1..], aware);
      assert forall u :: u in all <==> u == all[0] || u in all[1..];
      if all[0] in aware then rest else [all[0]] + rest
  }

  /** Filtering a concatenation filters each part and keeps their order. */
  lemma {:induction false} LegacyUrlsAppend(a: seq<string>, b: seq<string>, aware: seq<string>)
    ensures LegacyUrls(a + b, aware) == LegacyUrls(a, aware) + LegacyUrls(b, aware)
  {
    if a == [] {
      assert a + b == b;
    } else {
      assert (a + b)[1..] == a[1..] + b;
      LegacyUrlsAppend(a[1..], b, aware);
    }
  }

  /** The first agent service name that occurs inside the URL. */
  function FirstContained(agents: seq<string>, url: string): (r: Option<string>)
    ensures r.Some? ==> exists i :: 0 <= i < |agents| && agents[i] == r.value && Contains(url, agents[i]) &&
                                    forall j :: 0 <= j < i ==> !Contains(url, agents[j])
    ensures r.None? <==> forall i :: 0 <= i < |agents| ==> !Contains(url, agents[i])
  {
    if agents == [] then None
    else if Contains(url, agents[0]) then Some(agents[0])
    else
      var r := FirstContained(agents[1..], url);
      assert forall i :: 1 <= i < |agents| ==> agents[i] == agents[1..][i - 1];
      assert r.Some? ==> exists i :: 0 <= i < |agents| && agents[i] == r.value && Contains(url, agents[i]) &&
                                     forall j :: 0 <= j < i ==> !Contains(url, agents[j]) by {
        if r.Some? {
          var k :| 0 <= k < |agents[1..]| && agents[1..][k] == r.value && Contains(url, agents[1..][k]) &&
                   forall j :: 0 <= j < k ==> !Contains(url, agents[1..][j]);
          assert agents[k + 1] == r.value && forall j :: 0 <= j < k + 1 ==> !Contains(url, agents[j]);
        }
      }
      r
  }

  /**
   * One protocol-aware check: the server is recorded; a null server name
   * stops the pass (ConcurrentHashMap rejects null values); otherwise its
   * name is stored and a healthy server's URL is listed.
   */
  function AwareStep(l: HealthLedger, s: McpServerService, m: McpServer): (r: PassOutcome)
    ensures r.ledger.servers == l.servers + [m]
    ensures r.completed <==> m.serverName.Some?
    ensures !r.completed ==> r.ledger.healthy == l.healthy && r.ledger.names == l.names
    ensures r.completed ==> r.ledger.names == l.names[s.serverUrl := m.serverName.value]
    ensures r.completed ==> r.ledger.healthy == l.healthy + (if m.healthy then [s.serverUrl] else [])
  {
    var servers := l.servers + [m];
    if m.serverName.None? then PassOutcome(HealthLedger(servers, l.healthy, l.names), false)
    else
      var healthy := if m.healthy then l.healthy + [s.serverUrl] else l.healthy;
      PassOutcome(HealthLedger(servers, healthy, l.names[s.serverUrl := m.serverName.value]), true)
  }

  /** The protocol-aware pass over the services with their reports, in order. */
  function AwarePass(start: HealthLedger, services: seq<McpServerService>, reports: seq<McpServer>): PassOutcome
    requires |services| == |reports|
    decreases |services|
  {
    if services == [] then PassOutcome(start, true)
    else
      var n := |services| - 1;
      var prev := AwarePass(start, services[..n], reports[..n]);
      if prev.completed then AwareStep(prev.ledger, services[n], reports[n]) else prev
  }

  /** Once stopped, the pass ignores the remaining services. */
  lemma {:induction false} AwarePassStaysStopped(start: HealthLedger, services: seq<McpServerService>, reports: seq<McpServer>, k: nat)
    requires |services| == |reports| && k <= |services|
    requires !AwarePass(start, services[..k], reports[..k]).completed
    ensures AwarePass(start, services, reports) == AwarePass(start, services[..k], reports[..k])
    decreases |services| - k
  {
    if k < |services| {
      var n := |services| - 1;
      assert services[..n][..k] == services[..k] && reports[..n][..k] == reports[..k];
      AwarePassStaysStopped(start, services[..n], reports[..n], k);
    } else {
      assert services[..k] == services && reports[..k] == reports;
    }
  }

  /**
   * The pass completes exactly when every report names its server; it then
   * records every report in order, otherwise those up to the first without a name.
   */
  lemma {:induction false} AwarePassServers(start: HealthLedger, services: seq<McpServerService>, reports: seq<McpServer>)
    requires |services| == |reports|
    ensures var r := AwarePass(start, services, reports);
            (r.completed <==> forall i :: 0 <= i < |reports| ==> reports[i].serverName.Some?) &&
            (r.completed ==> r.ledger.servers == start.servers + reports) &&
            (!r.completed ==> exists k :: 0 <= k < |reports| && reports[k].serverName.None? &&
                               (forall j :: 0 <= j < k ==> reports[j].serverName.Some?) &&
                               r.ledger.servers == start.servers + reports[..k + 1])
    decreases |services|
  {
    if services != [] {
      var n := |services| - 1;
      AwarePassServers(start, services[..n], reports[..n]);
      var prev := AwarePass(start, services[..n], reports[..n]);
      Selection.SplitLast(reports);
      if !prev.completed {
        var k :| 0 <= k < n && reports[..n][k].serverName.None? &&
                 (forall j :: 0 <= j < k ==> reports[..n][j].serverName.Some?) &&
                 prev.ledger.servers == start.servers + reports[..n][..k + 1];
        assert reports[..n][..k + 1] == reports[..k + 1];
      } else if reports[n].serverName.None? {
        assert reports[..n + 1] == reports;
      }
    }
  }

  /** The URLs of the healthy reports, in order: the reference the pass is compared with. */
  function HealthyUrls(services: seq<McpServerService>, reports: seq<McpServer>): seq<string>
    requires |services| == |reports|
  {
    if services == [] then []
    else (if reports[0].healthy then [services[0].serverUrl] else []) + HealthyUrls(services[1..], reports[1..])
  }

  lemma {:induction false} HealthyUrlsSnoc(services: seq<McpServerService>, reports: seq<McpServer>, s: McpServerService, m: McpServer)
    requires |services| == |reports|
    ensures HealthyUrls(services + [s], reports + [m]) == HealthyUrls(services, reports) + (if m.healthy then [s.serverUrl] else [])
  {
    if services != [] {
      assert (services + [s])[1..] == services[1..] + [s];
      assert (reports + [m])[1..] == reports[1..] + [m];
      HealthyUrlsSnoc(services[1..], reports[1..], s, m);
    }
  }

  lemma HealthyUrlsLast(services: seq<McpServerService>, reports: seq<McpServer>)
    requires |services| == |reports| && services != []
    ensures var n := |services| - 1;
            HealthyUrls(services, reports)
            == HealthyUrls(services[..n], reports[..n]) + (if reports[n].healthy then [services[n].serverUrl] else [])
  {
    var n := |services| - 1;
    Selection.SplitLast(services);
    Selection.SplitLast(reports);
    HealthyUrlsSnoc(services[..n], reports[..n], services[n], reports[n]);
  }

  /** A completed pass lists exactly the URLs of the healthy servers, in service order. */
  lemma {:induction false} AwarePassHealthy(start: HealthLedger, services: seq<McpServerService>, reports: seq<McpServer>)
    requires |services| == |reports|
    requires AwarePass(start, services, reports).completed
    ensures AwarePass(start, services, reports).ledger.healthy == start.healthy + HealthyUrls(services, reports)
    decreases |services|
  {
    if services != [] {
      var n := |services| - 1;
      var extra := if reports[n].healthy then [services[n].serverUrl] else [];
      AwarePassHealthy(start, services[..n], reports[..n]);
      HealthyUrlsLast(services, reports);
      assert (start.healthy + HealthyUrls(services[..n], reports[..n])) + extra
          == start.healthy + (HealthyUrls(services[..n], reports[..n]) + extra);
    }
  }

  /**
   * A completed pass maps each service's URL to the name in the report of the
   * last service with that URL.
   */
  lemma {:induction false} AwarePassLastNameWins(start: HealthLedger, services: seq<McpServerService>, reports: seq<McpServer>, i: nat)
    requires |services| == |reports| && i < |services|
    requires AwarePass(start, services, reports).completed
    requires forall j :: i < j < |services| ==> services[j].serverUrl != services[i].serverUrl
    ensures var names := AwarePass(start, services, reports).ledger.names;
            services[i].serverUrl in names && Some(names[services[i].serverUrl]) == reports[i].serverName
    decreases |services|
  {
    var n := |services| - 1;
    if i < n {
      AwarePassLastNameWins(start, services[..n], reports[..n], i);
      assert services[..n][i] == services[i] && reports[..n][i] == reports[i];
    }
  }

  /** A completed pass leaves the names of all URLs that are not the services' untouched. */
  lemma {:induction false} AwarePassOtherNamesUntouched(start: HealthLedger, services: seq<McpServerService>, reports: seq<McpServer>, u: string)
    requires |services| == |reports|
    requires AwarePass(start, services, reports).completed
    requires u !in ServerUrls(services)
    ensures var names := AwarePass(start, services, reports).ledger.names;
            (u in names <==> u in start.names) && (u in names ==> names[u] == start.names[u])
    decreases |services|
  {
    if services != [] {
      var n := |services| - 1;
      assert u != ServerUrls(services)[n];
      assert u !in ServerUrls(services[..n]) by {
        assert forall k :: 0 <= k < n ==> ServerUrls(services[..n])[k] == ServerUrls(services)[k];
      }
      AwarePassOtherNamesUntouched(start, services[..n], reports[..n], u);
    }
  }

  /**
   * The body of the try block: the name already mapped to the URL, else the
   * first agent service whose name occurs in the URL, else "Unknown"; a
   * healthy SSE record; the name mapped and the URL listed as healthy.
   */
  function TryBlock(l: HealthLedger, url: string, agents: seq<string>, tools: seq<Tool>): HealthLedger {
    var serverName := if url in l.names then l.names[url] else FirstContained(agents, url).GetOr(UNKNOWN);
    HealthLedger(l.servers + [McpServer(serverName, Some(serverName), true, tools, SSE)],
                 l.healthy + [url], l.names[url := serverName])
  }

  /** The catch block: an unhealthy SSE record under the mapped name, else "Unknown". */
  function CatchBlock(l: HealthLedger, url: string): HealthLedger {
    var serverName := if url in l.names then l.names[url] else UNKNOWN;
    HealthLedger(l.servers + [McpServer(serverName, Some(serverName), false, [], SSE)], l.healthy, l.names)
  }

  /**
   * The health flags of the records one probe appends: the try block's
   * healthy record, the catch block's unhealthy one, or both when closing
   * the client throws after the try block has finished.
   */
  function Records(outcome: LegacyOutcome): (r: seq<bool>)
    ensures 1 <= |r| <= 2
  {
    match outcome
    case Reachable(_) => [true]
    case ReachableCloseFailed(_) => [true, false]
    case Unreachable => [false]
  }

  /** One legacy check: the try block, the catch block, or the try block and then the catch block. */
  function LegacyStep(l: HealthLedger, url: string, agents: seq<string>, outcome: LegacyOutcome): HealthLedger {
    match outcome
    case Reachable(tools) => TryBlock(l, url, agents, tools)
    case ReachableCloseFailed(tools) => CatchBlock(TryBlock(l, url, agents, tools), url)
    case Unreachable => CatchBlock(l, url)
  }

  /**
   * The records one legacy check appends: SSE records after the earlier
   * ones, with the probe's health flags. The first is named by the mapped
   * name, else (when the try block ran) the first agent service whose name
   * occurs in the URL, else "Unknown", and carries the probe's tools; a
   * failed close adds an unhealthy record under the same name.
   */
  lemma LegacyStepRecords(l: HealthLedger, url: string, agents: seq<string>, outcome: LegacyOutcome)
    ensures var r := LegacyStep(l, url, agents, outcome);
            |r.servers| == |l.servers| + |Records(outcome)| && r.servers[..|l.servers|] == l.servers
    ensures var r := LegacyStep(l, url, agents, outcome);
            forall j :: |l.servers| <= j < |r.servers| ==>
              r.servers[j].protocol == SSE && r.servers[j].healthy == Records(outcome)[j - |l.servers|] &&
              r.servers[j].serverName == Some(r.servers[j].name)
    ensures var m := LegacyStep(l, url, agents, outcome).servers[|l.servers|];
            m.name == (if url in l.names then l.names[url]
                       else if outcome.Unreachable? then UNKNOWN
                       else FirstContained(agents, url).GetOr(UNKNOWN)) &&
            m.tools == (if outcome.Unreachable? then [] else outcome.tools)
    ensures var r := LegacyStep(l, url, agents, outcome);
            outcome.ReachableCloseFailed? ==>
              r.servers[|l.servers| + 1].name == r.servers[|l.servers|].name && r.servers[|l.servers| + 1].tools == []
  {
    var r := LegacyStep(l, url, agents, outcome);
    if outcome.ReachableCloseFailed? {
      var t := TryBlock(l, url, agents, outcome.tools);
      assert r.servers == l.servers + [t.servers[|l.servers|], r.servers[|l.servers| + 1]];
    }
  }

  /**
   * A check whose try block ran lists the URL as healthy and maps it to the
   * first record's name; a failed probe changes neither.
   */
  lemma LegacyStepLedger(l: HealthLedger, url: string, agents: seq<string>, outcome: LegacyOutcome)
    ensures var r := LegacyStep(l, url, agents, outcome);
            outcome.Unreachable? ==> r.healthy == l.healthy && r.names == l.names
    ensures var r := LegacyStep(l, url, agents, outcome);
            !outcome.Unreachable? ==>
              r.healthy == l.healthy + [url] && |r.servers| > |l.servers| &&
              r.names == l.names[url := r.servers[|l.servers|].name]
  {
  }

  /** The legacy pass over the URLs with their outcomes, in order. */
  function LegacyPass(start: HealthLedger, urls: seq<string>, agents: seq<string>, outcomes: seq<LegacyOutcome>): HealthLedger
    requires |urls| == |outcomes|
    decreases |urls|
  {
    if urls == [] then start
    else
      var n := |urls| - 1;
      LegacyStep(LegacyPass(start, urls[..n], agents, outcomes[..n]), urls[n], agents, outcomes[n])
  }

  /** The URLs whose try block ran to the end, in order. */
  function ReachableUrls(urls: seq<string>, outcomes: seq<LegacyOutcome>): seq<string>
    requires |urls| == |outcomes|
  {
    if urls == [] then []
    else (if outcomes[0].Unreachable? then [] else [urls[0]]) + ReachableUrls(urls[1..], outcomes[1..])
  }

  lemma {:induction false} ReachableUrlsSnoc(urls: seq<string>, outcomes: seq<LegacyOutcome>, u: string, o: LegacyOutcome)
    requires |urls| == |outcomes|
    ensures ReachableUrls(urls + [u], outcomes + [o]) == ReachableUrls(urls, outcomes) + (if o.Unreachable? then [] else [u])
  {
    if urls != [] {
      assert (urls + [u])[1..] == urls[1..] + [u];
      assert (outcomes + [o])[1..] == outcomes[1..] + [o];
      ReachableUrlsSnoc(urls[1..], outcomes[1..], u, o);
    }
  }

  lemma ReachableUrlsLast(urls: seq<string>, outcomes: seq<LegacyOutcome>)
    requires |urls| == |outcomes| && urls != []
    ensures var n := |urls| - 1;
            ReachableUrls(urls, outcomes)
            == ReachableUrls(urls[..n], outcomes[..n]) + (if outcomes[n].Unreachable? then [] else [urls[n]])
  {
    var n := |urls| - 1;
    Selection.SplitLast(urls);
    Selection.SplitLast(outcomes);
    ReachableUrlsSnoc(urls[..n], outcomes[..n], urls[n], outcomes[n]);
  }

  /** The health flags of every record a pass appends, probe after probe. */
  function Healthiness(outcomes: seq<LegacyOutcome>): seq<bool> {
    if outcomes == [] then [] else Records(outcomes[0]) + Healthiness(outcomes[1..])
  }

  lemma {:induction false} HealthinessSnoc(outcomes: seq<LegacyOutcome>, o: LegacyOutcome)
    ensures Healthiness(outcomes + [o]) == Healthiness(outcomes) + Records(o)
  {
    if outcomes != [] {
      assert (outcomes + [o])[1..] == outcomes[1..] + [o];
      HealthinessSnoc(outcomes[1..], o);
    }
  }

  /**
   * The legacy pass appends SSE records only, after the earlier ones, with
   * the health flags the probes give, in URL order.
   */
  lemma {:induction false} LegacyPassServers(start: HealthLedger, urls: seq<string>, agents: seq<string>, outcomes: seq<LegacyOutcome>)
    requires |urls| == |outcomes|
    ensures |LegacyPass(start, urls, agents, outcomes).servers| == |start.servers| + |Healthiness(outcomes)|
    ensures LegacyPass(start, urls, agents, outcomes).servers[..|start.servers|] == start.servers
    ensures var servers := LegacyPass(start, urls, agents, outcomes).servers;
            forall j :: |start.servers| <= j < |servers| ==>
              servers[j].protocol == SSE && servers[j].healthy == Healthiness(outcomes)[j - |start.servers|]
    decreases |urls|
  {
    if urls != [] {
      var n := |urls| - 1;
      LegacyPassServers(start, urls[..n], agents, outcomes[..n]);
      HealthinessSnoc(outcomes[..n], outcomes[n]);
      Selection.SplitLast(outcomes);
      var before := Healthiness(outcomes[..n]);
      var prev := LegacyPass(start, urls[..n], agents, outcomes[..n]);
      var r := LegacyPass(start, urls, agents, outcomes);
      assert r == LegacyStep(prev, urls[n], agents, outcomes[n]);
      LegacyStepRecords(prev, urls[n], agents, outcomes[n]);
      assert r.servers[..|start.servers|] == prev.servers[..|start.servers|];
      forall j | |start.servers| <= j < |r.servers|
        ensures r.servers[j].protocol == SSE && r.servers[j].healthy == Healthiness(outcomes)[j - |start.servers|]
      {
        if j < |prev.servers| {
          assert r.servers[j] == prev.servers[j];
          assert Healthiness(outcomes)[j - |start.servers|] == before[j - |start.servers|];
        } else {
          assert Healthiness(outcomes)[j - |start.servers|] == Records(outcomes[n])[j - |prev.servers|];
        }
      }
    }
  }

  /** The last check of a legacy pass adds its URL to the healthy list when its try block ran. */
  lemma LegacyPassHealthyLast(start: HealthLedger, urls: seq<string>, agents: seq<string>, outcomes: seq<LegacyOutcome>)
    requires |urls| == |outcomes| && urls != []
    ensures var n := |urls| - 1;
            LegacyPass(start, urls, agents, outcomes).healthy
            == LegacyPass(start, urls[..n], agents, outcomes[..n]).healthy
               + (if outcomes[n].Unreachable? then [] else [urls[n]])
  {
    var n := |urls| - 1;
    LegacyStepLedger(LegacyPass(start, urls[..n], agents, outcomes[..n]), urls[n], agents, outcomes[n]);
  }

  /** The legacy pass lists exactly the reachable URLs, in order. */
  lemma {:induction false} LegacyPassHealthy(start: HealthLedger, urls: seq<string>, agents: seq<string>, outcomes: seq<LegacyOutcome>)
    requires |urls| == |outcomes|
    ensures LegacyPass(start, urls, agents, outcomes).healthy == start.healthy + ReachableUrls(urls, outcomes)
    decreases |urls|
  {
    if urls != [] {
      var n := |urls| - 1;
      var extra := if outcomes[n].Unreachable? then [] else [urls[n]];
      LegacyPassHealthy(start, urls[..n], agents, outcomes[..n]);
      LegacyPassHealthyLast(start, urls, agents, outcomes);
      ReachableUrlsLast(urls, outcomes);
      assert (start.healthy + ReachableUrls(urls[..n], outcomes[..n])) + extra
          == start.healthy + (ReachableUrls(urls[..n], outcomes[..n]) + extra);
    }
  }

  /** The legacy pass leaves the name of every URL it does not probe untouched. */
  lemma {:induction false} LegacyPassNames(start: HealthLedger, urls: seq<string>, agents: seq<string>, outcomes: seq<LegacyOutcome>)
    requires |urls| == |outcomes|
    ensures var names := LegacyPass(start, urls, agents, outcomes).names;
            forall u :: u !in urls ==> (u in names <==> u in start.names) && (u in names ==> names[u] == start.names[u])
    decreases |urls|
  {
    if urls != [] {
      var n := |urls| - 1;
      LegacyPassNames(start, urls[..n], agents, outcomes[..n]);
      LegacyStepLedger(LegacyPass(start, urls[..n], agents, outcomes[..n]), urls[n], agents, outcomes[n]);
      assert forall u :: u in urls[..n] ==> u in urls;
    }
  }

  class ChatConfiguration {
    const chatModel: string
    /** Names of the Cloud Foundry services with a legacy MCP URL. */
    const agentServices: seq<string>
    const allMcpServiceURLs: seq<string>
    const mcpServerServices: seq<McpServerService>
    var mcpServersWithHealth: seq<McpServer>
    var healthyMcpServiceURLs: seq<string>
    var serverNamesByUrl: map<string, string>

    function Ledger(): HealthLedger
      reads this
    {
      HealthLedger(mcpServersWithHealth, healthyMcpServiceURLs, serverNamesByUrl)
    }

    /** The configured URLs that no protocol-aware service covers. */
    function Legacy(): seq<string> {
      LegacyUrls(allMcpServiceURLs, ServerUrls(mcpServerServices))
    }

    /**
     * Takes the chat model name and the MCP endpoints from discovery, one
     * protocol-aware service per discovered configuration, and starts with
     * nothing checked.
     */
    constructor (modelDiscovery: ModelDiscoveryService, mcpDiscovery: McpDiscoveryService)
      ensures chatModel == ModelName(modelDiscovery, Chat)
      ensures agentServices == McpServiceNames(mcpDiscovery)
      ensures allMcpServiceURLs == AllMcpServiceUrls(mcpDiscovery)
      ensures var configs := McpServicesWithProtocol(mcpDiscovery);
              |mcpServerServices| == |configs| &&
              forall i :: 0 <= i < |configs| ==>
                mcpServerServices[i] == McpServerService(configs[i].serviceName, configs[i].serverUrl, configs[i].protocol)
      ensures Ledger() == HealthLedger([], [], map[])
    {
      chatModel := ModelName(modelDiscovery, Chat);
      agentServices := McpServiceNames(mcpDiscovery);
      allMcpServiceURLs := AllMcpServiceUrls(mcpDiscovery);
      mcpServersWithHealth := [];
      healthyMcpServiceURLs := [];
      serverNamesByUrl := map[];
      mcpServerServices := ServerServices(McpServicesWithProtocol(mcpDiscovery));
    }

    /**
     * `testProtocolAwareMcpServerHealth`, with `reports[i]` the health record
     * of the i-th service; returns false when a null server name stopped it.
     */
    method TestProtocolAwareMcpServerHealth(reports: seq<McpServer>) returns (completed: bool)
      requires |reports| == |mcpServerServices|
      modifies this
      ensures PassOutcome(Ledger(), completed) == AwarePass(old(Ledger()), mcpServerServices, reports)
    {
      for i := 0 to |mcpServerServices|
        invariant PassOutcome(Ledger(), true) == AwarePass(old(Ledger()), mcpServerServices[..i], reports[..i])
      {
        var serverService, mcpServer := mcpServerServices[i], reports[i];
        assert mcpServerServices[..i + 1][..i] == mcpServerServices[..i] && reports[..i + 1][..i] == reports[..i];
        mcpServersWithHealth := mcpServersWithHealth + [mcpServer];
        if mcpServer.serverName.None? {
          AwarePassStaysStopped(old(Ledger()), mcpServerServices, reports, i + 1);
          return false;
        }
        serverNamesByUrl := serverNamesByUrl[serverService.serverUrl := mcpServer.serverName.value];
        if mcpServer.healthy {
          healthyMcpServiceURLs := healthyMcpServiceURLs + [serverService.serverUrl];
        }
      }
      assert mcpServerServices[..|mcpServerServices|] == mcpServerServices && reports[..|reports|] == reports;
      return true;
    }

    /** `testLegacyMcpServerHealth`, with `outcomes[i]` the probe of the i-th legacy URL. */
    method TestLegacyMcpServerHealth(outcomes: seq<LegacyOutcome>)
      requires |outcomes| == |Legacy()|
      modifies this
      ensures Ledger() == LegacyPass(old(Ledger()), Legacy(), agentServices, outcomes)
    {
      var legacyUrls := LegacyUrls(allMcpServiceURLs, ServerUrls(mcpServerServices));
      for i := 0 to |legacyUrls|
        invariant Ledger() == LegacyPass(old(Ledger()), legacyUrls[..i], agentServices, outcomes[..i])
      {
        var mcpServiceUrl := legacyUrls[i];
        ghost var before := Ledger();
        assert legacyUrls[..i + 1][..i] == legacyUrls[..i] && outcomes[..i + 1][..i] == outcomes[..i];
        assert LegacyPass(old(Ledger()), legacyUrls[..i + 1], agentServices, outcomes[..i + 1])
            == LegacyStep(before, mcpServiceUrl, agentServices, outcomes[i]);
        var outcome := outcomes[i];
        if !outcome.Unreachable? {
          // the try block ran to the end
          var serverName := if mcpServiceUrl in serverNamesByUrl then serverNamesByUrl[mcpServiceUrl]
                            else FirstContained(agentServices, mcpServiceUrl).GetOr(UNKNOWN);
          mcpServersWithHealth := mcpServersWithHealth + [McpServer(serverName, Some(serverName), true, outcome.tools, SSE)];
          serverNamesByUrl := serverNamesByUrl[mcpServiceUrl := serverName];
          healthyMcpServiceURLs := healthyMcpServiceURLs + [mcpServiceUrl];
        }
        if !outcome.Reachable? {
          // the catch block: the probe failed, or closing the client threw
          var serverName := if mcpServiceUrl in serverNamesByUrl then serverNamesByUrl[mcpServiceUrl] else UNKNOWN;
          mcpServersWithHealth := mcpServersWithHealth + [McpServer(serverName, Some(serverName), false, [], SSE)];
        }
      }
      assert legacyUrls[..|legacyUrls|] == legacyUrls && outcomes[..|outcomes|] == outcomes;
    }

    /**
     * `testMcpServerHealth`: the protocol-aware pass, then the legacy pass;
     * a pass stopped by a null server name ends the whole check.
     */
    method TestMcpServerHealth(reports: seq<McpServer>, outcomes: seq<LegacyOutcome>) returns (completed: bool)
      requires |reports| == |mcpServerServices| && |outcomes| == |Legacy()|
      modifies this
      ensures var aware := AwarePass(old(Ledger()), mcpServerServices, reports);
              completed == aware.completed &&
              Ledger() == if aware.completed then LegacyPass(aware.ledger, Legacy(), agentServices, outcomes) else aware.ledger
    {
      completed := TestProtocolAwareMcpServerHealth(reports);
      if completed {
        TestLegacyMcpServerHealth(outcomes);
      }
    }
  }

  /**
   * After a full health check, every protocol-aware URL still maps to the name
   * its last service reported: the legacy pass only touches the other URLs.
   */
  lemma HealthCheckKeepsProtocolAwareNames(start: HealthLedger, services: seq<McpServerService>, reports: seq<McpServer>,
                                           all: seq<string>, agents: seq<string>, outcomes: seq<LegacyOutcome>, i: nat)
    requires |services| == |reports| && i < |services|
    requires |outcomes| == |LegacyUrls(all, ServerUrls(services))|
    requires AwarePass(start, services, reports).completed
    requires forall j :: i < j < |services| ==> services[j].serverUrl != services[i].serverUrl
    ensures var names := LegacyPass(AwarePass(start, services, reports).ledger, LegacyUrls(all, ServerUrls(services)), agents, outcomes).names;
            services[i].serverUrl in names && Some(names[services[i].serverUrl]) == reports[i].serverName
  {
    var aware := AwarePass(start, services, reports).ledger;
    AwarePassLastNameWins(start, services, reports, i);
    LegacyPassNames(aware, LegacyUrls(all, ServerUrls(services)), agents, outcomes);
    assert ServerUrls(services)[i] == services[i].serverUrl;
  }
}
