/** `PropertyBasedModelProvider`: OpenAI models built from Spring properties, as a fallback. */
module PropertyBasedProvider {
  import opened Wrappers
  import opened JavaStrings
  import opened SpringAi
  import opened GenaiModels
  import opened ModelDiscovery
  import opened Providers

  const PRIORITY := 10
  const PROVIDER_NAME := "PropertyBased"

  /**
   * The provider's collaborators. Whether building the OpenAI model throws is
   * decided by library code outside the model, so it is given per kind.
   */
  datatype PropertyBasedModelProvider = PropertyBasedModelProvider(
    discovery: ModelDiscoveryService,
    chatOpenAiApi: OpenAiApi,
    embeddingOpenAiApi: OpenAiApi,
    chatModelBuildThrows: bool,
    embeddingModelBuildThrows: bool)

  /** The model name used to build a model: a missing or empty name becomes the placeholder. */
  function EffectiveModelName(name: Option<string>): (model: string)
    ensures model != ""
    ensures NonEmpty(name) ==> model == name.value
    ensures !NonEmpty(name) ==> model == NO_MODEL_CONFIGURED
  {
    if name.None? || name.value == "" then NO_MODEL_CONFIGURED else name.value
  }

  /**
   * `getChatModel()`: nothing for a locator-managed configuration or when
   * building throws; otherwise an OpenAI chat model over the chat client.
   */
  function ChatModelOf(p: PropertyBasedModelProvider): (model: Option<ChatModel>)
    ensures model.None? <==> IsFromGenaiLocator(ModelConfig(p.discovery, Chat)) || p.chatModelBuildThrows
    ensures model.Some? ==>
              model.value == OpenAiChatModel(p.chatOpenAiApi, EffectiveModelName(ModelConfig(p.discovery, Chat).modelName))
  {
    var config := ModelConfig(p.discovery, Chat);
    if IsFromGenaiLocator(config) then None
    else if p.chatModelBuildThrows then None
    else Some(OpenAiChatModel(p.chatOpenAiApi, EffectiveModelName(config.modelName)))
  }

  /** `getEmbeddingModel()`: as ChatModelOf, from the embedding configuration and client. */
  function EmbeddingModelOf(p: PropertyBasedModelProvider): (model: Option<EmbeddingModel>)
    ensures model.None? <==> IsFromGenaiLocator(ModelConfig(p.discovery, Embedding)) || p.embeddingModelBuildThrows
    ensures model.Some? ==>
              model.value == OpenAiEmbeddingModel(p.embeddingOpenAiApi, EffectiveModelName(ModelConfig(p.discovery, Embedding).modelName))
  {
    var config := ModelConfig(p.discovery, Embedding);
    if IsFromGenaiLocator(config) then None
    else if p.embeddingModelBuildThrows then None
    else Some(OpenAiEmbeddingModel(p.embeddingOpenAiApi, EffectiveModelName(config.modelName)))
  }

  /** The provider with its fixed name and priority, as the composite sees it. */
  function AsModelProvider(p: PropertyBasedModelProvider): (mp: ModelProvider)
    ensures mp.priority == PRIORITY && mp.providerName == PROVIDER_NAME
    ensures mp.chatModel == ChatModelOf(p) && mp.embeddingModel == EmbeddingModelOf(p)
  {
    ModelProvider(PROVIDER_NAME, PRIORITY, ChatModelOf(p), EmbeddingModelOf(p))
  }

  /**
   * The property provider steps aside exactly when the locators report the
   * kind; otherwise the model it builds is named after ModelName, or after the
   * placeholder when nothing is configured.
   */
  lemma ChatModelFollowsDiscovery(p: PropertyBasedModelProvider)
    requires !p.chatModelBuildThrows
    ensures ChatModelOf(p).None? <==> IsModelAvailableFromLocators(p.discovery, Chat)
    ensures IsModelExplicitlyConfigured(p.discovery, Chat) && !IsModelAvailableFromLocators(p.discovery, Chat) ==>
              ChatModelOf(p) == Some(OpenAiChatModel(p.chatOpenAiApi, ModelName(p.discovery, Chat)))
    ensures !IsModelAvailable(p.discovery, Chat) ==>
              ChatModelOf(p) == Some(OpenAiChatModel(p.chatOpenAiApi, NO_MODEL_CONFIGURED))
  {
    ConfigAgreesWithModelName(p.discovery, Chat);
  }
}
