/**
 * `ModelDiscoveryService`: which chat and embedding model, API key and base
 * URL the client uses. GenAI locators come first, then Spring properties,
 * then fixed defaults.
 */
module ModelDiscovery {
  import opened Wrappers
  import opened JavaStrings
  import opened Selection
  import opened GenaiModels
  import opened LocatorAggregation

  const CHAT_MODEL := "spring.ai.openai.chat.options.model"
  const EMBEDDING_MODEL := "spring.ai.openai.embedding.options.model"
  const MANAGED_BY_GENAI_LOCATOR := "managed-by-genai-locator"

  /** Property keys searched for the API key, in order of precedence. */
  const API_KEY_PROPERTIES := ["spring.ai.openai.chat.api-key", "spring.ai.openai.embedding.api-key", "spring.ai.openai.api-key"]
  /** Property keys searched for the base URL, in order of precedence. */
  const BASE_URL_PROPERTIES := ["spring.ai.openai.chat.base-url", "spring.ai.openai.embedding.base-url", "spring.ai.openai.base-url"]

  /** The Spring `Environment`, as the properties it resolves. */
  type Environment = map<string, string>

  /** The service resolves chat and embedding models by the same rules. */
  datatype ModelKind = Chat | Embedding

  datatype ModelDiscoveryService = ModelDiscoveryService(environment: Environment, aggregator: MultiGenaiLocatorAggregator)

  /** `environment.getProperty(key)`: null when the property is not set. */
  function GetProperty(env: Environment, key: string): Option<string> {
    if key in env then Some(env[key]) else None
  }

  /** The property that names the model of a kind. */
  function ModelProperty(kind: ModelKind): string {
    match kind
    case Chat => CHAT_MODEL
    case Embedding => EMBEDDING_MODEL
  }

  /** The capability the locators are asked about for a kind. */
  function Capability(kind: ModelKind): string {
    match kind
    case Chat => "CHAT"
    case Embedding => "EMBEDDING"
  }

  function PropertyModel(svc: ModelDiscoveryService, kind: ModelKind): Option<string> {
    GetProperty(svc.environment, ModelProperty(kind))
  }

  /** The model names every locator reports for the kind's capability. */
  function LocatorModelNames(svc: ModelDiscoveryService, kind: ModelKind): seq<string> {
    AggregatedNames(svc.aggregator.genaiLocators, Capability(kind))
  }

  /**
   * `is{Chat,Embedding}ModelAvailableFromLocators()`: some locator exists and the
   * aggregated names are non-empty.
   */
  function IsModelAvailableFromLocators(svc: ModelDiscoveryService, kind: ModelKind): (r: bool)
    ensures r <==> exists i :: 0 <= i < |svc.aggregator.genaiLocators| &&
                     NamesFrom(svc.aggregator.genaiLocators[i].modelNamesByCapability(Capability(kind))) != []
  {
    var locators := svc.aggregator.genaiLocators;
    var lists := NameLists(locators, Capability(kind));
    ConcatEmpty(lists);
    assert forall i :: 0 <= i < |locators| ==> lists[i] == NamesFrom(locators[i].modelNamesByCapability(Capability(kind)));
    svc.aggregator.HasAnyLocators() && LocatorModelNames(svc, kind) != []
  }

  /** `is{Chat,Embedding}ModelExplicitlyConfigured()`: the model property is set and non-empty. */
  function IsModelExplicitlyConfigured(svc: ModelDiscoveryService, kind: ModelKind): (r: bool)
    ensures r <==> ModelProperty(kind) in svc.environment && svc.environment[ModelProperty(kind)] != ""
  {
    NonEmpty(PropertyModel(svc, kind))
  }

  /** `is{Chat,Embedding}ModelAvailable()`: from the locators, else from the property. */
  function IsModelAvailable(svc: ModelDiscoveryService, kind: ModelKind): (r: bool)
    ensures r <==> (exists i :: 0 <= i < |svc.aggregator.genaiLocators| &&
                      NamesFrom(svc.aggregator.genaiLocators[i].modelNamesByCapability(Capability(kind))) != [])
                   || (ModelProperty(kind) in svc.environment && svc.environment[ModelProperty(kind)] != "")
  {
    IsModelAvailableFromLocators(svc, kind) || IsModelExplicitlyConfigured(svc, kind)
  }

  /**
   * `get{Chat,Embedding}ModelName()`: the first locator name when the locators
   * report any, else the non-empty property, else "".
   */
  function ModelName(svc: ModelDiscoveryService, kind: ModelKind): (name: string)
    ensures IsModelAvailableFromLocators(svc, kind) ==> name == LocatorModelNames(svc, kind)[0]
    ensures !IsModelAvailableFromLocators(svc, kind) && IsModelExplicitlyConfigured(svc, kind)
            ==> Some(name) == PropertyModel(svc, kind)
    ensures !IsModelAvailable(svc, kind) ==> name == ""
  {
    if svc.aggregator.HasAnyLocators() && LocatorModelNames(svc, kind) != [] then
      LocatorModelNames(svc, kind)[0]
    else if NonEmpty(PropertyModel(svc, kind)) then
      PropertyModel(svc, kind).value
    else
      ""
  }

  /** The value of the first property among `keys` that is set and non-empty. */
  function FirstNonEmpty(env: Environment, keys: seq<string>): (r: Option<string>)
    ensures r.Some? ==> r.value != ""
    ensures r.Some? ==> exists i :: 0 <= i < |keys| && GetProperty(env, keys[i]) == r
                          && forall j :: 0 <= j < i ==> !NonEmpty(GetProperty(env, keys[j]))
    ensures r.None? <==> forall i :: 0 <= i < |keys| ==> !NonEmpty(GetProperty(env, keys[i]))
  {
    if keys == [] then None
    else if NonEmpty(GetProperty(env, keys[0])) then GetProperty(env, keys[0])
    else
      var r := FirstNonEmpty(env, keys[1..]);
      assert forall i :: 1 <= i < |keys| ==> keys[i] == keys[1..][i - 1];
      assert r.Some? ==> exists i :: 0 <= i < |keys| && GetProperty(env, keys[i]) == r
                          && forall j :: 0 <= j < i ==> !NonEmpty(GetProperty(env, keys[j])) by {
        if r.Some? {
          var k :| 0 <= k < |keys[1..]| && GetProperty(env, keys[1..][k]) == r
                   && forall j :: 0 <= j < k ==> !NonEmpty(GetProperty(env, keys[1..][j]));
          assert GetProperty(env, keys[k + 1]) == r;
        }
      }
      r
  }

  /** `getApiKey()`: the chat key, else the embedding key, else the shared key, else null. */
  function ApiKey(svc: ModelDiscoveryService): (key: Option<string>)
    ensures key.Some? ==> key.value != ""
  {
    FirstNonEmpty(svc.environment, API_KEY_PROPERTIES)
  }

  /** `getBaseUrl()`: the chat URL, else the embedding URL, else the shared URL, else the OpenAI endpoint. */
  function BaseUrl(svc: ModelDiscoveryService): (url: string)
    ensures url != ""
    ensures FirstNonEmpty(svc.environment, BASE_URL_PROPERTIES).None? ==> url == DEFAULT_BASE_URL
  {
    FirstNonEmpty(svc.environment, BASE_URL_PROPERTIES).GetOr(DEFAULT_BASE_URL)
  }

  /** `hasApiKey()`: true exactly when some key property is set and non-empty. */
  function HasApiKey(svc: ModelDiscoveryService): (r: bool)
    ensures r <==> exists i :: 0 <= i < |API_KEY_PROPERTIES| && NonEmpty(GetProperty(svc.environment, API_KEY_PROPERTIES[i]))
  {
    NonEmpty(ApiKey(svc))
  }

  /**
   * `get{Chat,Embedding}ModelConfig()`: a locator-managed configuration when the
   * locators report the kind; otherwise the property model with the resolved
   * key and URL, or the placeholder configuration when no property model is set.
   */
  function ModelConfig(svc: ModelDiscoveryService, kind: ModelKind): (config: GenaiModel)
    ensures IsModelAvailableFromLocators(svc, kind) ==>
              config == GenaiModel(Some(ModelName(svc, kind)), Some(MANAGED_BY_GENAI_LOCATOR),
                                   Some(MANAGED_BY_GENAI_LOCATOR), Some(ModelSource.GenaiLocator))
    ensures !IsModelAvailableFromLocators(svc, kind) && !IsModelExplicitlyConfigured(svc, kind) ==>
              config == CreateDefault(Properties)
    ensures !IsModelAvailableFromLocators(svc, kind) && IsModelExplicitlyConfigured(svc, kind) ==>
              config == GenaiModel(PropertyModel(svc, kind), ApiKey(svc), Some(BaseUrl(svc)), Some(Properties))
  {
    if IsModelAvailableFromLocators(svc, kind) then
      GenaiModel(Some(ModelName(svc, kind)), Some(MANAGED_BY_GENAI_LOCATOR), Some(MANAGED_BY_GENAI_LOCATOR), Some(ModelSource.GenaiLocator))
    else
      var modelName := PropertyModel(svc, kind);
      var apiKey := ApiKey(svc);
      var baseUrl := BaseUrl(svc);
      if !NonEmpty(modelName) then CreateDefault(Properties)
      else GenaiModel(modelName, apiKey, Some(baseUrl), Some(Properties))
  }

  /** The chat key wins over the others whenever it is set. */
  lemma ChatApiKeyTakesPrecedence(svc: ModelDiscoveryService)
    requires NonEmpty(GetProperty(svc.environment, "spring.ai.openai.chat.api-key"))
    ensures ApiKey(svc) == GetProperty(svc.environment, "spring.ai.openai.chat.api-key")
  {
  }

  /** Whether a model is explicitly configured depends on the environment only, never on the locators. */
  lemma ExplicitConfigurationIgnoresLocators(env: Environment, a: MultiGenaiLocatorAggregator, b: MultiGenaiLocatorAggregator, kind: ModelKind)
    ensures IsModelExplicitlyConfigured(ModelDiscoveryService(env, a), kind)
        == IsModelExplicitlyConfigured(ModelDiscoveryService(env, b), kind)
  {
  }

  /**
   * The configuration's source tells where the model came from, and its model
   * name agrees with ModelName whenever any model is available.
   */
  lemma ConfigAgreesWithModelName(svc: ModelDiscoveryService, kind: ModelKind)
    ensures IsFromGenaiLocator(ModelConfig(svc, kind)) <==> IsModelAvailableFromLocators(svc, kind)
    ensures IsFromProperties(ModelConfig(svc, kind)) <==> !IsModelAvailableFromLocators(svc, kind)
    ensures IsModelAvailable(svc, kind) ==> ModelConfig(svc, kind).modelName == Some(ModelName(svc, kind))
    ensures !IsModelAvailable(svc, kind) ==> ModelName(svc, kind) == "" && ModelConfig(svc, kind) == CreateDefault(Properties)
  {
  }

  /**
   * A non-empty model name means a model is available; the converse fails only
   * when the first locator name is itself empty.
   */
  lemma NamedIffAvailable(svc: ModelDiscoveryService, kind: ModelKind)
    ensures ModelName(svc, kind) != "" ==> IsModelAvailable(svc, kind)
    ensures IsModelAvailable(svc, kind) && ModelName(svc, kind) == "" ==>
              IsModelAvailableFromLocators(svc, kind) && LocatorModelNames(svc, kind)[0] == ""
  {
  }

  /**
   * A locator whose name query throws changes nothing: the model name and the
   * availability are those computed from the remaining names.
   */
  lemma ThrowingLocatorDoesNotChangeModelName(svc: ModelDiscoveryService, kind: ModelKind, i: nat)
    requires i < |svc.aggregator.genaiLocators|
    requires svc.aggregator.genaiLocators[i].modelNamesByCapability(Capability(kind)) == Threw
    ensures LocatorModelNames(svc, kind)
         == AggregatedNames(svc.aggregator.genaiLocators[..i] + svc.aggregator.genaiLocators[i + 1..], Capability(kind))
  {
    FailingLocatorIsSkipped(svc.aggregator.genaiLocators, i, Capability(kind));
  }
}
