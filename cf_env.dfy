/**
 * The slice of Cloud Foundry's service bindings (cfenv) that MCP discovery
 * reads: a service name and an optional credentials map.
 */
module CfEnv {
  import opened Wrappers

  /** A credential value as Java sees it: a string, an explicit null, or some other object. */
  datatype CredentialValue = Text(text: string) | NullValue | OtherValue

  type Credentials = map<string, CredentialValue>

  /** A bound service; `credentials` is None where `getCredentials()` is null. */
  datatype CfService = CfService(name: string, credentials: Option<Credentials>)

  /** `CfCredentials.getString(key)`: the value when it is a string, otherwise null. */
  function GetString(credentials: Credentials, key: string): Option<string> {
    if key in credentials && credentials[key].Text? then Some(credentials[key].text) else None
  }
}
