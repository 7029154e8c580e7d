/**
 * The `ModelProvider` interface, as the answers a provider gives. Providers
 * are deterministic: asking twice gives the same answer.
 */
module Providers {
  import opened Wrappers
  import opened SpringAi

  datatype ModelProvider = ModelProvider(
    providerName: string,
    priority: int,
    chatModel: Option<ChatModel>,
    embeddingModel: Option<EmbeddingModel>)
}
