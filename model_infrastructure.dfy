/** `ModelInfrastructureConfiguration`: the OpenAI API clients behind property-based models. */
module ModelInfrastructure {
  import opened Wrappers
  import opened JavaStrings
  import opened SpringAi
  import opened GenaiModels
  import opened ModelDiscovery

  /**
   * `createOpenAiApi(config, modelType)`: a locator-managed configuration gets
   * placeholder credentials; a property configuration keeps its base URL and
   * its key, a missing or empty key being replaced.
   */
  function CreateOpenAiApi(config: GenaiModel): (api: OpenAiApi)
    ensures api.apiKey != ""
    ensures IsFromGenaiLocator(config) ==>
              api == OpenAiApi(MANAGED_BY_GENAI_LOCATOR, Some(MANAGED_BY_GENAI_LOCATOR))
    ensures !IsFromGenaiLocator(config) ==> api.baseUrl == config.baseUrl
    ensures !IsFromGenaiLocator(config) && NonEmpty(config.apiKey) ==> api.apiKey == config.apiKey.value
    ensures !IsFromGenaiLocator(config) && !NonEmpty(config.apiKey) ==> api.apiKey == NO_API_KEY_CONFIGURED
  {
    var apiKey := config.apiKey;
    var baseUrl := config.baseUrl;
    if IsFromGenaiLocator(config) then
      OpenAiApi(MANAGED_BY_GENAI_LOCATOR, Some(MANAGED_BY_GENAI_LOCATOR))
    else
      var key := if !NonEmpty(apiKey) then NO_API_KEY_CONFIGURED else apiKey.value;
      OpenAiApi(key, baseUrl)
  }

  /** The `chatOpenAiApi` and `embeddingOpenAiApi` beans: each built from its own kind's configuration. */
  function OpenAiApiBean(svc: ModelDiscoveryService, kind: ModelKind): (api: OpenAiApi)
    ensures api.apiKey != ""
    ensures api.baseUrl.Some? && api.baseUrl.value != ""
  {
    CreateOpenAiApi(ModelConfig(svc, kind))
  }

  /**
   * End to end: the client of a property-configured model carries the
   * discovered key (or the placeholder) and the discovered base URL; with no
   * model configured at all it carries the default placeholders.
   */
  lemma PropertyClientUsesDiscoveredCredentials(svc: ModelDiscoveryService, kind: ModelKind)
    requires !IsModelAvailableFromLocators(svc, kind)
    ensures IsModelExplicitlyConfigured(svc, kind) ==>
              OpenAiApiBean(svc, kind) == OpenAiApi(ApiKey(svc).GetOr(NO_API_KEY_CONFIGURED), Some(BaseUrl(svc)))
    ensures !IsModelExplicitlyConfigured(svc, kind) ==>
              OpenAiApiBean(svc, kind) == OpenAiApi(NO_API_KEY_CONFIGURED, Some(DEFAULT_BASE_URL))
  {
  }

  /** A locator-managed model gets a client with placeholder credentials whatever the properties say. */
  lemma ManagedClientIgnoresProperties(svc: ModelDiscoveryService, kind: ModelKind)
    requires IsModelAvailableFromLocators(svc, kind)
    ensures OpenAiApiBean(svc, kind) == OpenAiApi(MANAGED_BY_GENAI_LOCATOR, Some(MANAGED_BY_GENAI_LOCATOR))
  {
  }
}
