/**
 * `McpDiscoveryService`: finds MCP server URLs through the GenAI locator or
 * through Cloud Foundry service bindings, and detects each binding's protocol.
 */
module McpDiscovery {
  import opened Wrappers
  import opened JavaStrings
  import opened Selection
  import opened CfEnv
  import opened ProtocolTypes

  datatype McpServiceConfiguration = McpServiceConfiguration(serviceName: string, serverUrl: string, protocol: ProtocolType)

  /** `ClassCastException` from casting a non-string credential to String. */
  datatype ClassCast = ClassCast(key: string)

  /**
   * The service's inputs: what `CfEnv.findAllServices()` answers (or that it
   * throws), and the optional locator's MCP server URLs (or that it throws).
   */
  datatype McpDiscoveryService = McpDiscoveryService(cfServices: Reply<seq<CfService>>,
                                                     genaiLocator: Option<Reply<seq<string>>>)

  /** A key whose value is a non-blank string. */
  predicate Usable(credentials: Credentials, key: string) {
    key in credentials && credentials[key].Text? && !IsBlank(credentials[key].text)
  }

  /** A key the search passes over: absent, null, or a blank string. */
  predicate Skipped(credentials: Credentials, key: string) {
    key !in credentials || credentials[key].NullValue? || (credentials[key].Text? && IsBlank(credentials[key].text))
  }

  /** One step of the search: the key's URL if usable, nothing if skipped, or the failed cast. */
  function UrlAt(credentials: Credentials, key: string): (r: Result<Option<string>, ClassCast>)
    ensures r == Ok(None) <==> Skipped(credentials, key)
    ensures r.Ok? && r.value.Some? <==> Usable(credentials, key)
    ensures r.Ok? && r.value.Some? ==> credentials[key] == Text(r.value.value)
    ensures r.Err? <==> key in credentials && credentials[key].OtherValue?
  {
    if key !in credentials then Ok(None)
    else match credentials[key]
      case Text(url) => if IsBlank(url) then Ok(None) else Ok(Some(url))
      case NullValue => Ok(None)
      case OtherValue => Err(ClassCast(key))
  }

  /**
   * `extractMcpServiceConfiguration`: the first usable key in the order
   * streamable, SSE, legacy decides the protocol; the URL is kept untrimmed.
   */
  function ExtractMcpServiceConfiguration(service: CfService): (r: Result<Option<McpServiceConfiguration>, ClassCast>)
    ensures service.credentials.None? ==> r == Ok(None)
    ensures r.Ok? && r.value.Some? ==> (service.credentials.Some? && r.value.value.serviceName == service.name &&
      Usable(service.credentials.value, BindingKey(r.value.value.protocol)) &&
      service.credentials.value[BindingKey(r.value.value.protocol)] == Text(r.value.value.serverUrl))
  {
    if service.credentials.None? then Ok(None)
    else
      var credentials := service.credentials.value;
      match UrlAt(credentials, MCP_STREAMABLE_URL)
      case Err(e) => Err(e)
      case Ok(Some(url)) => Ok(Some(McpServiceConfiguration(service.name, url, StreamableHttp)))
      case Ok(None) =>
        match UrlAt(credentials, MCP_SSE_URL)
        case Err(e) => Err(e)
        case Ok(Some(url)) => Ok(Some(McpServiceConfiguration(service.name, url, SSE)))
        case Ok(None) =>
          match UrlAt(credentials, MCP_SERVICE_URL)
          case Err(e) => Err(e)
          case Ok(Some(url)) => Ok(Some(McpServiceConfiguration(service.name, url, Legacy)))
          case Ok(None) => Ok(None)
  }

  /** A key the search reaches whose value is not a string, so the cast throws. */
  predicate NotAString(credentials: Credentials, key: string) {
    key in credentials && credentials[key].OtherValue?
  }

  /** Skipping every protocol's key means skipping the three binding keys. */
  lemma SkippedEveryKey(credentials: Credentials)
    ensures (forall q :: Skipped(credentials, BindingKey(q))) <==>
            Skipped(credentials, MCP_STREAMABLE_URL) && Skipped(credentials, MCP_SSE_URL) && Skipped(credentials, MCP_SERVICE_URL)
  {
    assert BindingKey(StreamableHttp) == MCP_STREAMABLE_URL && BindingKey(SSE) == MCP_SSE_URL && BindingKey(Legacy) == MCP_SERVICE_URL;
  }

  /** Nothing is found exactly when every binding key is absent, null or blank. */
  lemma NothingFoundIffAllSkipped(service: CfService)
    requires service.credentials.Some?
    ensures ExtractMcpServiceConfiguration(service) == Ok(None) <==> forall q :: Skipped(service.credentials.value, BindingKey(q))
  {
    SkippedEveryKey(service.credentials.value);
  }

  /** The chosen protocol's key is usable and every higher-priority key was skipped. */
  lemma FoundKeyHasPriority(service: CfService, q: ProtocolType)
    requires ExtractMcpServiceConfiguration(service).Ok? && ExtractMcpServiceConfiguration(service).value.Some?
    requires Rank(q) < Rank(ExtractMcpServiceConfiguration(service).value.value.protocol)
    ensures Skipped(service.credentials.value, BindingKey(q))
  {
  }

  /** A cast fails only on a non-string value under a key the search reached. */
  lemma CastFailsOnlyWhenReached(service: CfService)
    requires ExtractMcpServiceConfiguration(service).Err?
    ensures service.credentials.Some?
    ensures exists q :: NotAString(service.credentials.value, BindingKey(q)) &&
                        forall q' :: Rank(q') < Rank(q) ==> Skipped(service.credentials.value, BindingKey(q'))
  {
    var credentials := service.credentials.value;
    var streamable, sse := UrlAt(credentials, MCP_STREAMABLE_URL), UrlAt(credentials, MCP_SSE_URL);
    var q := if streamable.Err? then StreamableHttp else if sse.Err? then SSE else Legacy;
    assert NotAString(credentials, BindingKey(q));
    forall q' | Rank(q') < Rank(q) ensures Skipped(credentials, BindingKey(q')) {
      if q' == StreamableHttp {
        assert streamable == Ok(None);
      } else {
        assert sse == Ok(None);
      }
    }
  }

  /** The configuration a service yields when its extraction does not throw. */
  function Extracted(services: seq<CfService>): (r: seq<Option<McpServiceConfiguration>>)
    ensures |r| == |services|
  {
    seq(|services|, i requires 0 <= i < |services| =>
      var e := ExtractMcpServiceConfiguration(services[i]); if e.Ok? then e.value else None)
  }

  /** Every extraction of the list succeeds (no ClassCastException). */
  predicate AllCastsSucceed(services: seq<CfService>) {
    forall i :: 0 <= i < |services| ==> ExtractMcpServiceConfiguration(services[i]).Ok?
  }

  /**
   * `getMcpServicesWithProtocol`: the configurations of the services that
   * yield one, in service order; empty when the lookup or any cast throws.
   */
  function McpServicesWithProtocol(svc: McpDiscoveryService): (r: seq<McpServiceConfiguration>)
    ensures svc.cfServices.Threw? ==> r == []
    ensures svc.cfServices.Returned? && !AllCastsSucceed(svc.cfServices.value) ==> r == []
    ensures svc.cfServices.Returned? ==> |r| <= |svc.cfServices.value|
  {
    match svc.cfServices
    case Threw => []
    case Returned(services) => if AllCastsSucceed(services) then Somes(Extracted(services)) else []
  }

  /**
   * A configuration is listed exactly when some service extracts it, provided
   * no cast throws.
   */
  lemma ServicesWithProtocolMembership(services: seq<CfService>, c: McpServiceConfiguration)
    requires AllCastsSucceed(services)
    ensures c in McpServicesWithProtocol(McpDiscoveryService(Returned(services), None)) <==>
            exists i :: 0 <= i < |services| && ExtractMcpServiceConfiguration(services[i]) == Ok(Some(c))
  {
    var r := Somes(Extracted(services));
    if c in r {
      var k :| 0 <= k < |r| && r[k] == c;
      var i :| 0 <= i < |services| && Extracted(services)[i] == Some(c);
    }
    if exists i :: 0 <= i < |services| && ExtractMcpServiceConfiguration(services[i]) == Ok(Some(c)) {
      var i :| 0 <= i < |services| && ExtractMcpServiceConfiguration(services[i]) == Ok(Some(c));
      assert Extracted(services)[i] == Some(c);
    }
  }

  /** Adding a service appends its configuration, if any, after those of the earlier services. */
  lemma ServicesWithProtocolKeepOrder(services: seq<CfService>, s: CfService)
    requires AllCastsSucceed(services)
    requires ExtractMcpServiceConfiguration(s).Ok?
    ensures McpServicesWithProtocol(McpDiscoveryService(Returned(services + [s]), None))
         == McpServicesWithProtocol(McpDiscoveryService(Returned(services), None))
            + (var e := ExtractMcpServiceConfiguration(s).value; if e.Some? then [e.value] else [])
  {
    var all := services + [s];
    assert AllCastsSucceed(all) by {
      forall i | 0 <= i < |all| ensures ExtractMcpServiceConfiguration(all[i]).Ok? {
        if i < |services| { assert all[i] == services[i]; }
      }
    }
    assert Extracted(all) == Extracted(services) + [ExtractMcpServiceConfiguration(s).value];
    SomesSnoc(Extracted(services), ExtractMcpServiceConfiguration(s).value);
  }

  /** One non-string binding value anywhere empties the whole list. */
  lemma OneBadCastEmptiesAll(svc: McpDiscoveryService, k: nat)
    requires svc.cfServices.Returned? && k < |svc.cfServices.value|
    requires ExtractMcpServiceConfiguration(svc.cfServices.value[k]).Err?
    ensures McpServicesWithProtocol(svc) == []
  {
  }

  /**
   * Where every binding key present holds a non-blank string, extraction
   * agrees with `ProtocolType.fromCredentials`.
   */
  lemma ExtractAgreesWithFromCredentials(service: CfService)
    requires service.credentials.Some?
    requires forall q :: BindingKey(q) in service.credentials.value ==> Usable(service.credentials.value, BindingKey(q))
    ensures var e := ExtractMcpServiceConfiguration(service);
            var p := FromCredentials(service.credentials.value);
            e.Ok? && (e.value.Some? <==> p.Ok?) && (p.Ok? ==> e.value.value.protocol == p.value)
  {
    var credentials := service.credentials.value;
    assert BindingKey(StreamableHttp) == MCP_STREAMABLE_URL && BindingKey(SSE) == MCP_SSE_URL && BindingKey(Legacy) == MCP_SERVICE_URL;
  }

  /**
   * The two priority rules differ on a blank streamable URL: fromCredentials
   * picks Streamable HTTP from the key alone, extraction moves on to SSE.
   */
  lemma BlankKeyDivergence()
    ensures var credentials := map[MCP_STREAMABLE_URL := Text(" "), MCP_SSE_URL := Text("http://mcp")];
            FromCredentials(credentials) == Ok(StreamableHttp) &&
            ExtractMcpServiceConfiguration(CfService("tools", Some(credentials)))
              == Ok(Some(McpServiceConfiguration("tools", "http://mcp", SSE)))
  {
    var credentials := map[MCP_STREAMABLE_URL := Text(" "), MCP_SSE_URL := Text("http://mcp")];
    assert IsBlank(" ") by { BlankIffWhitespace(" "); }
    assert !IsBlank("http://mcp") by { BlankIffWhitespace("http://mcp"); assert "http://mcp"[0] > ' '; }
  }

  /** `hasMcpServiceUrl`: credentials present and a string under the legacy key; blank counts. */
  function HasMcpServiceUrl(service: CfService): (r: bool)
    ensures r <==> service.credentials.Some? && MCP_SERVICE_URL in service.credentials.value &&
                   service.credentials.value[MCP_SERVICE_URL].Text?
  {
    service.credentials.Some? && GetString(service.credentials.value, MCP_SERVICE_URL).Some?
  }

  /** The services that pass `hasMcpServiceUrl`, in order. */
  function LegacyServices(services: seq<CfService>): (r: seq<CfService>)
    ensures |r| <= |services|
    ensures forall i :: 0 <= i < |r| ==> HasMcpServiceUrl(r[i]) && r[i] in services
    ensures forall s :: s in services && HasMcpServiceUrl(s) ==> s in r
  {
    if services == [] then []
    else
      var rest := LegacyServices(services[1..]);
      assert forall s :: s in services[1..] ==> s in services;
      assert forall s :: s in services ==> s == services[0] || s in services[1..];
      if HasMcpServiceUrl(services[0]) then [services[0]] + rest else rest
  }

  /** Filtering a split list filters each part, so the kept services stay in their binding order. */
  lemma {:induction false} LegacyServicesAppend(a: seq<CfService>, b: seq<CfService>)
    ensures LegacyServices(a + b) == LegacyServices(a) + LegacyServices(b)
  {
    if a == [] {
      assert a + b == b;
    } else {
      assert (a + b)[1..] == a[1..] + b;
      LegacyServicesAppend(a[1..], b);
    }
  }

  /** Each service with a legacy URL is kept as often as it is bound; every other service is dropped. */
  lemma {:induction false} LegacyServicesCount(services: seq<CfService>, s: CfService)
    ensures multiset(LegacyServices(services))[s] == if HasMcpServiceUrl(s) then multiset(services)[s] else 0
  {
    if services != [] {
      LegacyServicesCount(services[1..], s);
      assert services == [services[0]] + services[1..];
    }
  }

  /** `getMcpServiceNames`: names of the services with a legacy URL; empty when the lookup throws. */
  function McpServiceNames(svc: McpDiscoveryService): (r: seq<string>)
    ensures svc.cfServices.Threw? ==> r == []
    ensures svc.cfServices.Returned? ==>
              var legacy := LegacyServices(svc.cfServices.value);
              |r| == |legacy| && forall i :: 0 <= i < |r| ==> r[i] == legacy[i].name
    ensures svc.cfServices.Returned? ==> forall s :: s in svc.cfServices.value && HasMcpServiceUrl(s) ==> s.name in r
    ensures forall n :: n in r ==> (svc.cfServices.Returned? &&
      exists s :: s in svc.cfServices.value && HasMcpServiceUrl(s) && s.name == n)
  {
    match svc.cfServices
    case Threw => []
    case Returned(services) =>
      var legacy := LegacyServices(services);
      var r := seq(|legacy|, i requires 0 <= i < |legacy| => legacy[i].name);
      assert forall s :: s in legacy ==> s.name in r by {
        forall s | s in legacy ensures s.name in r {
          var i :| 0 <= i < |legacy| && legacy[i] == s;
          assert r[i] == s.name;
        }
      }
      r
  }

  function LegacyUrl(service: CfService): string
    requires HasMcpServiceUrl(service)
  {
    GetString(service.credentials.value, MCP_SERVICE_URL).value
  }

  /** `getMcpServiceUrls`: the legacy URLs, blank ones included; empty when the lookup throws. */
  function McpServiceUrls(svc: McpDiscoveryService): (r: seq<string>)
    ensures svc.cfServices.Threw? ==> r == []
    ensures svc.cfServices.Returned? ==>
              var legacy := LegacyServices(svc.cfServices.value);
              |r| == |legacy| && forall i :: 0 <= i < |r| ==> r[i] == LegacyUrl(legacy[i])
    ensures forall u :: u in r ==> (svc.cfServices.Returned? &&
      exists s :: s in svc.cfServices.value && s.credentials.Some? && GetString(s.credentials.value, MCP_SERVICE_URL) == Some(u))
  {
    match svc.cfServices
    case Threw => []
    case Returned(services) =>
      var legacy := LegacyServices(services);
      seq(|legacy|, i requires 0 <= i < |legacy| => LegacyUrl(legacy[i]))
  }

  /** `getMcpServiceUrlsFromLocator`: the locator's URLs; empty without a locator or when it throws. */
  function McpServiceUrlsFromLocator(svc: McpDiscoveryService): (r: seq<string>)
    ensures svc.genaiLocator.None? ==> r == []
    ensures svc.genaiLocator.Some? && svc.genaiLocator.value.Threw? ==> r == []
    ensures svc.genaiLocator.Some? && svc.genaiLocator.value.Returned? ==> r == svc.genaiLocator.value.value
  {
    match svc.genaiLocator
    case None => []
    case Some(Threw) => []
    case Some(Returned(urls)) => urls
  }

  /** The legacy names and URLs line up: the i-th URL belongs to the service with the i-th name. */
  lemma NamesAndUrlsAlign(svc: McpDiscoveryService)
    requires svc.cfServices.Returned?
    ensures |McpServiceNames(svc)| == |McpServiceUrls(svc)|
    ensures forall i :: 0 <= i < |McpServiceUrls(svc)| ==>
      exists s :: s in svc.cfServices.value && s.name == McpServiceNames(svc)[i] && HasMcpServiceUrl(s) && LegacyUrl(s) == McpServiceUrls(svc)[i]
  {
    var legacy := LegacyServices(svc.cfServices.value);
    var names, urls := McpServiceNames(svc), McpServiceUrls(svc);
    assert names == seq(|legacy|, i requires 0 <= i < |legacy| => legacy[i].name);
    assert urls == seq(|legacy|, i requires 0 <= i < |legacy| => LegacyUrl(legacy[i]));
    forall i | 0 <= i < |McpServiceUrls(svc)|
      ensures exists s :: s in svc.cfServices.value && s.name == McpServiceNames(svc)[i] && HasMcpServiceUrl(s) && LegacyUrl(s) == McpServiceUrls(svc)[i]
    {
      var s := legacy[i];
      assert s in svc.cfServices.value && s.name == McpServiceNames(svc)[i] && HasMcpServiceUrl(s) && LegacyUrl(s) == McpServiceUrls(svc)[i];
    }
  }

  /**
   * `getAllMcpServiceUrls`: the locator's URLs when there are any, otherwise
   * the legacy Cloud Foundry URLs; the two sources are never merged.
   */
  function AllMcpServiceUrls(svc: McpDiscoveryService): (r: seq<string>)
    ensures McpServiceUrlsFromLocator(svc) != [] ==> r == McpServiceUrlsFromLocator(svc)
    ensures McpServiceUrlsFromLocator(svc) == [] ==> r == McpServiceUrls(svc)
  {
    var locatorUrls := McpServiceUrlsFromLocator(svc);
    var cfUrls := McpServiceUrls(svc);
    if locatorUrls != [] then locatorUrls
    else if cfUrls != [] then cfUrls
    else []
  }

  /** Every URL comes from one source only, and nothing is found exactly when both sources are empty. */
  lemma AllUrlsFromOneSource(svc: McpDiscoveryService)
    ensures AllMcpServiceUrls(svc) == McpServiceUrlsFromLocator(svc) || AllMcpServiceUrls(svc) == McpServiceUrls(svc)
    ensures AllMcpServiceUrls(svc) == [] <==> McpServiceUrlsFromLocator(svc) == [] && McpServiceUrls(svc) == []
  {
  }
}
