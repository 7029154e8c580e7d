/** The health record of one MCP server, as published in the metrics. */
module Metrics {
  import opened Wrappers
  import opened JavaStrings
  import opened ProtocolTypes

  datatype Tool = Tool(name: string, description: string)

  /** `serverName` is None where the Java field is null. */
  datatype McpServer = McpServer(name: string, serverName: Option<string>, healthy: bool,
                                 tools: seq<Tool>, protocol: ProtocolType)

  /** `getDisplayName()`: the server name when it is non-blank, otherwise the name; never trimmed. */
  function DisplayName(m: McpServer): (r: string)
    ensures r == m.name || m.serverName == Some(r)
    ensures m.serverName.Some? && !IsBlank(m.serverName.value) ==> r == m.serverName.value
    ensures (m.serverName.None? || IsBlank(m.serverName.value)) ==> r == m.name
  {
    if m.serverName.Some? && !IsBlank(m.serverName.value) then m.serverName.value else m.name
  }

  /** The display name is blank only when the server name is missing or blank and the name is blank too. */
  lemma DisplayNameBlankOnlyIfBothBlank(m: McpServer)
    ensures IsBlank(DisplayName(m)) <==> (m.serverName.None? || IsBlank(m.serverName.value)) && IsBlank(m.name)
  {
  }
}
