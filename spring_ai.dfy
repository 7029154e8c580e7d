/**
 * Values of the Spring AI library that the configuration rules create or pass
 * along. Their behaviour is outside the model; only what identifies them is kept.
 */
module SpringAi {
  import opened Wrappers

  /** What `OpenAiApi.builder().apiKey(k).baseUrl(u).build()` was given. */
  datatype OpenAiApi = OpenAiApi(apiKey: string, baseUrl: Option<string>)

  /** A chat model handed out by a GenAI locator (opaque), or one built from properties. */
  datatype ChatModel =
    | ManagedChatModel(id: nat)
    | OpenAiChatModel(api: OpenAiApi, model: string)

  /** An embedding model handed out by a GenAI locator (opaque), or one built from properties. */
  datatype EmbeddingModel =
    | ManagedEmbeddingModel(id: nat)
    | OpenAiEmbeddingModel(api: OpenAiApi, model: string)
}
