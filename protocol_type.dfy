/** The three MCP transport protocols and how a binding's credentials select one. */
module ProtocolTypes {
  import opened Wrappers
  import opened CfEnv

  const MCP_SERVICE_URL := "mcpServiceURL"
  const MCP_SSE_URL := "mcpSseURL"
  const MCP_STREAMABLE_URL := "mcpStreamableURL"
  const NO_BINDING_KEY := "No valid MCP binding key found in credentials"

  /** The sealed interface has exactly these three variants. */
  datatype ProtocolType = SSE | StreamableHttp | Legacy

  /** `IllegalArgumentException` with its message. */
  datatype IllegalArgument = IllegalArgument(message: string)

  /** The legacy protocol is shown as SSE, the transport it uses. */
  function DisplayName(p: ProtocolType): (name: string)
    ensures name != ""
    ensures name == "SSE" <==> p != StreamableHttp
    ensures name == "Streamable HTTP" <==> p == StreamableHttp
  {
    match p
    case SSE => "SSE"
    case StreamableHttp => "Streamable HTTP"
    case Legacy => "SSE"
  }

  function BindingKey(p: ProtocolType): (key: string)
    ensures key == MCP_SERVICE_URL || key == MCP_SSE_URL || key == MCP_STREAMABLE_URL
  {
    match p
    case SSE => MCP_SSE_URL
    case StreamableHttp => MCP_STREAMABLE_URL
    case Legacy => MCP_SERVICE_URL
  }

  /** Position in the lookup order: streamable first, then SSE, then legacy. */
  function Rank(p: ProtocolType): nat {
    match p
    case StreamableHttp => 0
    case SSE => 1
    case Legacy => 2
  }

  /** Each binding key names exactly one protocol. */
  lemma BindingKeyIdentifiesProtocol(p: ProtocolType, q: ProtocolType)
    ensures BindingKey(p) == BindingKey(q) <==> p == q
  {
  }

  /** The display name cannot tell SSE from Legacy, and tells every other pair apart. */
  lemma DisplayNameMergesLegacyIntoSse(p: ProtocolType, q: ProtocolType)
    ensures DisplayName(p) == DisplayName(q) <==> p == q || (p != StreamableHttp && q != StreamableHttp)
  {
    assert DisplayName(StreamableHttp) != DisplayName(SSE) by {
      assert DisplayName(StreamableHttp)[1] != DisplayName(SSE)[1];
    }
  }

  /**
   * `fromCredentials`: the highest-priority binding key that is present,
   * whatever its value; IllegalArgumentException when none is.
   */
  function FromCredentials(credentials: Credentials): (r: Result<ProtocolType, IllegalArgument>)
    ensures r.Ok? <==> MCP_STREAMABLE_URL in credentials || MCP_SSE_URL in credentials || MCP_SERVICE_URL in credentials
    ensures r.Ok? ==> BindingKey(r.value) in credentials
    ensures r.Ok? ==> forall q :: BindingKey(q) in credentials ==> Rank(r.value) <= Rank(q)
    ensures r.Err? ==> r.error == IllegalArgument(NO_BINDING_KEY)
  {
    if MCP_STREAMABLE_URL in credentials then Ok(StreamableHttp)
    else if MCP_SSE_URL in credentials then Ok(SSE)
    else if MCP_SERVICE_URL in credentials then Ok(Legacy)
    else Err(IllegalArgument(NO_BINDING_KEY))
  }

  /** A binding that carries one protocol's key and no higher-priority key yields that protocol. */
  lemma FromCredentialsRecoversProtocol(p: ProtocolType, credentials: Credentials)
    requires BindingKey(p) in credentials
    requires forall q :: Rank(q) < Rank(p) ==> BindingKey(q) !in credentials
    ensures FromCredentials(credentials) == Ok(p)
  {
    assert FromCredentials(credentials).Ok?;
  }
}
