# cf-mcp-client configuration resolution, in Dafny

This project models how the Cloud Foundry MCP chat client (`misc/cf-mcp-client`)
decides what to talk to. It covers four parts:

- **Model resolution.** `ModelDiscoveryService` finds the chat and embedding
  model names, the API key and the base URL. It tries the GenAI locators first,
  then Spring properties, then fixed defaults.
- **Aggregation and providers.** `MultiGenaiLocatorAggregator` combines every
  bound locator and skips any locator that fails. `GenaiLocatorModelProvider`
  (priority 0) and `PropertyBasedModelProvider` (priority 10) offer models.
  `CompositeModelProvider` sorts the providers by priority and takes the first
  model offered. `ModelInfrastructureConfiguration` picks the credentials of
  the OpenAI client.
- **MCP discovery.** `McpDiscoveryService` and `ProtocolType` turn Cloud
  Foundry service bindings and locator answers into MCP server URLs, each with
  a transport protocol.
- **Chat configuration.** `ChatConfiguration` records the health of every
  server. `ChatController.determineDocumentIds` chooses the documents of a
  request. `McpServer.getDisplayName` chooses a display name.

Java `null` is `Option`. A call into library code that may throw is
`Reply` (`Returned(v)` or `Threw`). An exception the code raises itself is
the `Err` case of a `Result`. Locators, providers and health probes are
deterministic answers supplied as inputs.

Three parts change state in place, so they are classes:

- `MultiGenaiLocatorAggregator`: its aggregation methods are loops proved
  against specification functions.
- `CompositeModelProvider`: its constructor sorts the caller's array in place.
- `ChatConfiguration`: its health passes append to fields. Each pass is proved
  against a snoc-recursive ledger function (`AwarePass`, `LegacyPass`). Lemmas
  then relate that function to independent front-recursive definitions.

Everything else is functions and lemmas.

## Model

| member | source | states |
|---|---|---|
| `LocatorAggregation.MultiGenaiLocatorAggregator.constructor` | misc/cf-mcp-client/src/main/java/org/tanzu/mcpclient/model/MultiGenaiLocatorAggregator.java:32-44 | The stored locators are a copy of the injected list. A null list becomes the empty list. |
| `LocatorAggregation.MultiGenaiLocatorAggregator.LocatorCount` | misc/cf-mcp-client/src/main/java/org/tanzu/mcpclient/model/MultiGenaiLocatorAggregator.java:191-193 | The count is the number of stored locators. |
| `LocatorAggregation.MultiGenaiLocatorAggregator.HasAnyLocators` | misc/cf-mcp-client/src/main/java/org/tanzu/mcpclient/model/MultiGenaiLocatorAggregator.java:182-193 | True exactly when `LocatorCount() > 0`. |
| `LocatorAggregation.MultiGenaiLocatorAggregator.AggregateChatModels` | misc/cf-mcp-client/src/main/java/org/tanzu/mcpclient/model/MultiGenaiLocatorAggregator.java:52-70 | The result is, in locator order, the non-null chat models of the locators that did not throw. It holds at most one model per locator, is empty without locators, and contains every model returned. |
| `LocatorAggregation.MultiGenaiLocatorAggregator.AggregateEmbeddingModels` | misc/cf-mcp-client/src/main/java/org/tanzu/mcpclient/model/MultiGenaiLocatorAggregator.java:78-96 | The same, for embedding models. |
| `LocatorAggregation.MultiGenaiLocatorAggregator.GetFirstAvailableChatModel` | misc/cf-mcp-client/src/main/java/org/tanzu/mcpclient/model/MultiGenaiLocatorAggregator.java:104-121 | The result is the model of the lowest-index locator that returns one without throwing. It equals the head of `AggregateChatModels`, and is empty exactly when that list is empty. |
| `LocatorAggregation.MultiGenaiLocatorAggregator.GetFirstAvailableEmbeddingModel` | misc/cf-mcp-client/src/main/java/org/tanzu/mcpclient/model/MultiGenaiLocatorAggregator.java:129-146 | The same, for embedding models. |
| `LocatorAggregation.MultiGenaiLocatorAggregator.AggregateModelNamesByCapability` | misc/cf-mcp-client/src/main/java/org/tanzu/mcpclient/model/MultiGenaiLocatorAggregator.java:154-175 | The result is the in-order concatenation of every locator's names. It is empty without locators. |
| `LocatorAggregation.FailingLocatorIsSkipped` | misc/cf-mcp-client/src/main/java/org/tanzu/mcpclient/model/MultiGenaiLocatorAggregator.java:159-169 | A locator that throws or answers null contributes nothing: the aggregate equals the one computed without it. |
| `LocatorAggregation.AggregatedNameHasOrigin` | misc/cf-mcp-client/src/main/java/org/tanzu/mcpclient/model/MultiGenaiLocatorAggregator.java:154-175 | Every aggregated name was returned by some locator that did not throw. |
| `Selection.Absorb` | misc/cf-mcp-client/src/main/java/org/tanzu/mcpclient/model/MultiGenaiLocatorAggregator.java:56-66 | A throwing call is treated like one that returned null. It yields a value exactly when the call returned one. |
| `Selection.FirstSomeIsHeadOfSomes` | misc/cf-mcp-client/src/main/java/org/tanzu/mcpclient/model/MultiGenaiLocatorAggregator.java:104-121 | For any answers, taking the first present answer is the same as taking the head of the present answers in order. |
| `Selection.FirstSomeAt` | misc/cf-mcp-client/src/main/java/org/tanzu/mcpclient/model/CompositeModelProvider.java:48-59 | An early-return search that stops at index i returns the first present answer. |
| `Selection.SomesSnoc` | misc/cf-mcp-client/src/main/java/org/tanzu/mcpclient/model/MultiGenaiLocatorAggregator.java:55-67 | Adding one answer appends its value, if any, after the earlier ones. This is the loop's step. |
| `Selection.ConcatAppend` | misc/cf-mcp-client/src/main/java/org/tanzu/mcpclient/model/MultiGenaiLocatorAggregator.java:157-170 | Concatenation distributes over appending lists of lists. |
| `ModelDiscovery.IsModelAvailableFromLocators` | misc/cf-mcp-client/src/main/java/org/tanzu/mcpclient/model/ModelDiscoveryService.java:145-172 | True exactly when some bound locator names at least one model for the kind's capability without throwing. |
| `ModelDiscovery.IsModelExplicitlyConfigured` | misc/cf-mcp-client/src/main/java/org/tanzu/mcpclient/model/ModelDiscoveryService.java:127-139 | True exactly when the kind's model property is set to a non-empty value. |
| `ModelDiscovery.IsModelAvailable` | misc/cf-mcp-client/src/main/java/org/tanzu/mcpclient/model/ModelDiscoveryService.java:46-69 | True exactly when some locator names a model for the kind, or the kind's model property is set and non-empty. |
| `ModelDiscovery.ModelName` | misc/cf-mcp-client/src/main/java/org/tanzu/mcpclient/model/ModelDiscoveryService.java:71-121 | The first aggregated locator name when locators exist and report names. Otherwise the non-empty model property. Otherwise `""`. |
| `ModelDiscovery.FirstNonEmpty` | misc/cf-mcp-client/src/main/java/org/tanzu/mcpclient/model/ModelDiscoveryService.java:280-298 | The result is the value of the first key whose property is set and non-empty, with every earlier key unset or empty. It is absent exactly when no key qualifies. |
| `ModelDiscovery.ApiKey` | misc/cf-mcp-client/src/main/java/org/tanzu/mcpclient/model/ModelDiscoveryService.java:280-298 | The chat key, else the embedding key, else the shared key, else null. A key that is returned is never empty. |
| `ModelDiscovery.BaseUrl` | misc/cf-mcp-client/src/main/java/org/tanzu/mcpclient/model/ModelDiscoveryService.java:303-321 | Uses the same three-level order and falls back to `https://api.openai.com`. It is never empty. |
| `ModelDiscovery.ModelConfig` | misc/cf-mcp-client/src/main/java/org/tanzu/mcpclient/model/ModelDiscoveryService.java:223-275 | When locators report the kind: the name plus `managed-by-genai-locator` as both key and URL, with source GENAI_LOCATOR. When no property model is set: `createDefault(PROPERTIES)`. Otherwise: the property model with `getApiKey()`, which may be null, and `getBaseUrl()`. |
| `ModelDiscovery.HasApiKey` | misc/cf-mcp-client/src/main/java/org/tanzu/mcpclient/model/ModelDiscoveryService.java:214-217 | `hasApiKey()` holds exactly when one of the three key properties is set and non-empty. |
| `ModelDiscovery.ChatApiKeyTakesPrecedence` | misc/cf-mcp-client/src/main/java/org/tanzu/mcpclient/model/ModelDiscoveryService.java:280-298 | A set chat key wins over the embedding and shared keys. |
| `ModelDiscovery.ExplicitConfigurationIgnoresLocators` | misc/cf-mcp-client/src/main/java/org/tanzu/mcpclient/model/ModelDiscoveryService.java:127-139 | `is*ExplicitlyConfigured` does not depend on the locators. |
| `ModelDiscovery.ConfigAgreesWithModelName` | misc/cf-mcp-client/src/main/java/org/tanzu/mcpclient/model/ModelDiscoveryService.java:223-275 | The configuration's source is GENAI_LOCATOR exactly when the locators report the kind, and PROPERTIES otherwise. Its model name equals `get*ModelName()` whenever a model is available. With no model available it is the default placeholder configuration. |
| `ModelDiscovery.NamedIffAvailable` | misc/cf-mcp-client/src/main/java/org/tanzu/mcpclient/model/ModelDiscoveryService.java:46-121 | A non-empty model name implies the model is available. Available with an empty name happens only when the first locator name is itself empty. |
| `ModelDiscovery.ThrowingLocatorDoesNotChangeModelName` | misc/cf-mcp-client/src/main/java/org/tanzu/mcpclient/model/ModelDiscoveryService.java:97-121 | A locator whose name query throws leaves the names, and so the model name and availability, as if it were absent. |
| `GenaiModels.CreateDefault` | misc/cf-mcp-client/src/main/java/org/tanzu/mcpclient/model/GenaiModel.java:38-45 | Has the fixed placeholder name, key and URL, with the given source. The result is valid. |
| `GenaiModels.ExactlyOneSource` | misc/cf-mcp-client/src/main/java/org/tanzu/mcpclient/model/GenaiModel.java:24-33 | With a source, exactly one of `isFromGenaiLocator` and `isFromProperties` holds. Without one, neither holds. |
| `GenaiModels.ValidityIgnoresBaseUrlAndSource` | misc/cf-mcp-client/src/main/java/org/tanzu/mcpclient/model/GenaiModel.java:16-19 | `isValid` does not look at the base URL or the source. |
| `ModelInfrastructure.CreateOpenAiApi` | misc/cf-mcp-client/src/main/java/org/tanzu/mcpclient/model/ModelInfrastructureConfiguration.java:64-90 | A locator configuration gets `managed-by-genai-locator` as both key and URL. A property configuration keeps its base URL. Its key passes through, or becomes `no-api-key-configured` when null or empty. The key is never empty. |
| `ModelInfrastructure.OpenAiApiBean` | misc/cf-mcp-client/src/main/java/org/tanzu/mcpclient/model/ModelInfrastructureConfiguration.java:40-58 | The chat and embedding clients always carry a non-empty key and a non-empty base URL. |
| `ModelInfrastructure.PropertyClientUsesDiscoveredCredentials` | misc/cf-mcp-client/src/main/java/org/tanzu/mcpclient/model/ModelInfrastructureConfiguration.java:42-58 | Each bean uses its own kind's configuration. A property-configured client carries the discovered key, or the placeholder, and the discovered base URL. |
| `ModelInfrastructure.ManagedClientIgnoresProperties` | misc/cf-mcp-client/src/main/java/org/tanzu/mcpclient/model/ModelInfrastructureConfiguration.java:69-75 | A locator-managed kind gets the placeholder credentials whatever the properties say. |
| `GenaiLocatorProvider.ChatModelOf` | misc/cf-mcp-client/src/main/java/org/tanzu/mcpclient/model/GenaiLocatorModelProvider.java:40-60 | Empty without locators. Otherwise exactly the aggregator's first available chat model. |
| `GenaiLocatorProvider.EmbeddingModelOf` | misc/cf-mcp-client/src/main/java/org/tanzu/mcpclient/model/GenaiLocatorModelProvider.java:63-83 | The same, for embedding models. |
| `GenaiLocatorProvider.AsModelProvider` | misc/cf-mcp-client/src/main/java/org/tanzu/mcpclient/model/GenaiLocatorModelProvider.java:86-93 | Priority 0, the `MultiGenaiLocator(n locators)` name, and the two models above. |
| `GenaiLocatorProvider.OffersHeadOfAggregate` | misc/cf-mcp-client/src/main/java/org/tanzu/mcpclient/model/GenaiLocatorModelProvider.java:40-83 | The provider offers a model exactly when the aggregate is non-empty, and it offers the aggregate's head. |
| `GenaiLocatorProvider.ProviderNameRecordsCount` | misc/cf-mcp-client/src/main/java/org/tanzu/mcpclient/model/GenaiLocatorModelProvider.java:91-93 | The name is `MultiGenaiLocator(` + count + ` locators)`. The count can be read back from it. |
| `JavaStrings.IntToStringRoundTrip` | misc/cf-mcp-client/src/main/java/org/tanzu/mcpclient/model/GenaiLocatorModelProvider.java:92 | The decimal rendering of an int, as string concatenation writes it, parses back to the same int. |
| `JavaStrings.BlankIffTrimEmpty` | misc/cf-mcp-client/src/main/java/org/tanzu/mcpclient/metrics/McpServer.java:22 | The blankness test used for every `s.trim().isEmpty()` check holds exactly when `String.trim()` leaves nothing. |
| `JavaStrings.BlankIffWhitespace` | misc/cf-mcp-client/src/main/java/org/tanzu/mcpclient/chat/ChatController.java:124 | A string is blank exactly when every character is at or below U+0020. |
| `JavaStrings.ContainsIffSubstring` | misc/cf-mcp-client/src/main/java/org/tanzu/mcpclient/chat/ChatConfiguration.java:158-162 | `url.contains(name)` holds exactly when the name occurs at some position of the URL. |
| `PropertyBasedProvider.EffectiveModelName` | misc/cf-mcp-client/src/main/java/org/tanzu/mcpclient/model/PropertyBasedModelProvider.java:104-142 | A null or empty model name becomes `no-model-configured`. Any other name is kept. |
| `PropertyBasedProvider.ChatModelOf` | misc/cf-mcp-client/src/main/java/org/tanzu/mcpclient/model/PropertyBasedModelProvider.java:52-69 | Empty exactly when the chat configuration comes from the locator or building the model throws. Otherwise an OpenAI chat model over the chat client, named by `EffectiveModelName`. |
| `PropertyBasedProvider.EmbeddingModelOf` | misc/cf-mcp-client/src/main/java/org/tanzu/mcpclient/model/PropertyBasedModelProvider.java:72-89 | The same, using the embedding configuration and client. |
| `PropertyBasedProvider.AsModelProvider` | misc/cf-mcp-client/src/main/java/org/tanzu/mcpclient/model/PropertyBasedModelProvider.java:91-99 | Priority 10, the name `PropertyBased`, and the two models above. |
| `PropertyBasedProvider.ChatModelFollowsDiscovery` | misc/cf-mcp-client/src/main/java/org/tanzu/mcpclient/model/PropertyBasedModelProvider.java:52-69 | When building does not throw, the provider steps aside exactly when the locators report chat models. Otherwise its model is named after `getChatModelName()`, or after the placeholder when nothing is configured. |
| `CompositeProvider.SortByPriority` | misc/cf-mcp-client/src/main/java/org/tanzu/mcpclient/model/CompositeModelProvider.java:33 | The sort keeps every provider: the result has the same length and is a permutation (multiset) of the input. |
| `CompositeProvider.SortIsSorted` | misc/cf-mcp-client/src/main/java/org/tanzu/mcpclient/model/CompositeModelProvider.java:33 | After sorting, priorities are non-decreasing. |
| `CompositeProvider.SortIsStable` | misc/cf-mcp-client/src/main/java/org/tanzu/mcpclient/model/CompositeModelProvider.java:33 | Providers of equal priority keep their injection order, as `List.sort` guarantees. |
| `CompositeProvider.CompositeModelProvider.constructor` | misc/cf-mcp-client/src/main/java/org/tanzu/mcpclient/model/CompositeModelProvider.java:29-38 | Keeps the caller's list object (no copy), and the list now holds the sorted providers. |
| `CompositeProvider.CompositeModelProvider.GetChatModel` | misc/cf-mcp-client/src/main/java/org/tanzu/mcpclient/model/CompositeModelProvider.java:45-63 | Returns the chat model of the first provider, in sorted order, that offers one. Raises IllegalStateException with the source's message exactly when none does. |
| `CompositeProvider.CompositeModelProvider.GetEmbeddingModel` | misc/cf-mcp-client/src/main/java/org/tanzu/mcpclient/model/CompositeModelProvider.java:70-88 | The same, for embedding models. |
| `CompositeProvider.CompositeModelProvider.IsChatModelAvailable` | misc/cf-mcp-client/src/main/java/org/tanzu/mcpclient/model/CompositeModelProvider.java:94-101 | True exactly when some provider offers a chat model, which is exactly when `GetChatModel` succeeds. |
| `CompositeProvider.CompositeModelProvider.IsEmbeddingModelAvailable` | misc/cf-mcp-client/src/main/java/org/tanzu/mcpclient/model/CompositeModelProvider.java:107-114 | The same, for embedding models. |
| `CompositeProvider.CompositeModelProvider.ProviderInfo` | misc/cf-mcp-client/src/main/java/org/tanzu/mcpclient/model/CompositeModelProvider.java:120-124 | One `name (priority: n)` line per provider, in sorted order. |
| `CompositeProvider.ResolveTwo` | misc/cf-mcp-client/src/main/java/org/tanzu/mcpclient/model/CompositeModelProvider.java:29-63 | With two providers of different priority, injected in either order, the lower number's chat model wins when it offers one. |
| `CompositeProvider.StandardChatResolution` | misc/cf-mcp-client/src/main/java/org/tanzu/mcpclient/model/CompositeModelProvider.java:45-63 | With the locator and property providers, in either injection order, the locators' model wins. Otherwise the property model is used. |
| `CompositeProvider.NamesWithoutLocatorModelResolveNothing` | misc/cf-mcp-client/src/main/java/org/tanzu/mcpclient/model/CompositeModelProvider.java:45-63 | Suppose the locators report chat model names but hand out no chat model. Then the property provider steps aside too, no chat model resolves, and `getChatModel` throws. |
| `ProtocolTypes.BindingKey` | misc/cf-mcp-client/src/main/java/org/tanzu/mcpclient/mcp/ProtocolType.java:23-39 | Each variant's key is one of `mcpSseURL`, `mcpStreamableURL` and `mcpServiceURL`. |
| `ProtocolTypes.BindingKeyIdentifiesProtocol` | misc/cf-mcp-client/src/main/java/org/tanzu/mcpclient/mcp/ProtocolType.java:15-39 | The three variants have three distinct binding keys. |
| `ProtocolTypes.DisplayName` | misc/cf-mcp-client/src/main/java/org/tanzu/mcpclient/mcp/ProtocolType.java:18-36 | The display name is never empty. It is `SSE` exactly for SSE and Legacy, and `Streamable HTTP` exactly for Streamable HTTP. |
| `ProtocolTypes.DisplayNameMergesLegacyIntoSse` | misc/cf-mcp-client/src/main/java/org/tanzu/mcpclient/mcp/ProtocolType.java:20-36 | SSE and Legacy share the display name `SSE`. Streamable HTTP's display name differs from both. |
| `ProtocolTypes.FromCredentials` | misc/cf-mcp-client/src/main/java/org/tanzu/mcpclient/mcp/ProtocolType.java:49-58 | Succeeds exactly when one of the three keys is present, and then picks the highest-priority key present, whatever its value. Otherwise raises IllegalArgumentException with the source's message. |
| `ProtocolTypes.FromCredentialsRecoversProtocol` | misc/cf-mcp-client/src/main/java/org/tanzu/mcpclient/mcp/ProtocolType.java:49-58 | Credentials holding a protocol's key and no higher-priority key give back that protocol. |
| `McpDiscovery.UrlAt` | misc/cf-mcp-client/src/main/java/org/tanzu/mcpclient/mcp/McpDiscoveryService.java:157-162 | For one key: a URL when the value is a non-blank string; nothing when the key is absent, null or blank; ClassCastException when the value is not a string. |
| `McpDiscovery.ExtractMcpServiceConfiguration` | misc/cf-mcp-client/src/main/java/org/tanzu/mcpclient/mcp/McpDiscoveryService.java:148-180 | Null credentials give nothing. A configuration carries the service name, the protocol whose key held it, and that key's untrimmed non-blank URL. |
| `McpDiscovery.NothingFoundIffAllSkipped` | misc/cf-mcp-client/src/main/java/org/tanzu/mcpclient/mcp/McpDiscoveryService.java:148-180 | Nothing is found exactly when every binding key is absent, null or blank. |
| `McpDiscovery.FoundKeyHasPriority` | misc/cf-mcp-client/src/main/java/org/tanzu/mcpclient/mcp/McpDiscoveryService.java:156-177 | Every key of higher priority than the chosen one was absent, null or blank. |
| `McpDiscovery.CastFailsOnlyWhenReached` | misc/cf-mcp-client/src/main/java/org/tanzu/mcpclient/mcp/McpDiscoveryService.java:156-177 | A ClassCastException comes from a non-string value under a key the search reached. |
| `McpDiscovery.McpServicesWithProtocol` | misc/cf-mcp-client/src/main/java/org/tanzu/mcpclient/mcp/McpDiscoveryService.java:132-142 | Empty when the service lookup or any cast throws. Never longer than the service list. |
| `McpDiscovery.ServicesWithProtocolMembership` | misc/cf-mcp-client/src/main/java/org/tanzu/mcpclient/mcp/McpDiscoveryService.java:132-142 | When no cast throws, a configuration is listed exactly when some service extracts it. |
| `McpDiscovery.ServicesWithProtocolKeepOrder` | misc/cf-mcp-client/src/main/java/org/tanzu/mcpclient/mcp/McpDiscoveryService.java:132-142 | A later service's configuration comes after those of the earlier services. Services without one are dropped. |
| `McpDiscovery.OneBadCastEmptiesAll` | misc/cf-mcp-client/src/main/java/org/tanzu/mcpclient/mcp/McpDiscoveryService.java:132-142 | One non-string binding value anywhere empties the whole list. |
| `McpDiscovery.ExtractAgreesWithFromCredentials` | misc/cf-mcp-client/src/main/java/org/tanzu/mcpclient/mcp/McpDiscoveryService.java:148-180 | When every present key holds a non-blank string, extraction picks the same protocol as `ProtocolType.fromCredentials`. It finds something exactly when that call succeeds. |
| `McpDiscovery.BlankKeyDivergence` | misc/cf-mcp-client/src/main/java/org/tanzu/mcpclient/mcp/McpDiscoveryService.java:157-168 | A blank `mcpStreamableURL` next to an SSE URL makes the two rules disagree. `fromCredentials` says Streamable HTTP; extraction says SSE. |
| `McpDiscovery.HasMcpServiceUrl` | misc/cf-mcp-client/src/main/java/org/tanzu/mcpclient/mcp/McpDiscoveryService.java:123-126 | True exactly when the credentials are non-null and hold a string under `mcpServiceURL`. A blank string counts; a null or a non-string value does not. |
| `McpDiscovery.LegacyServices` | misc/cf-mcp-client/src/main/java/org/tanzu/mcpclient/mcp/McpDiscoveryService.java:73-74 | Keeps only services that pass `hasMcpServiceUrl`, each taken from the input, and every service that passes. |
| `McpDiscovery.LegacyServicesAppend` | misc/cf-mcp-client/src/main/java/org/tanzu/mcpclient/mcp/McpDiscoveryService.java:73-74 | The filter keeps the binding order: filtering a concatenation concatenates the filtered parts. |
| `McpDiscovery.LegacyServicesCount` | misc/cf-mcp-client/src/main/java/org/tanzu/mcpclient/mcp/McpDiscoveryService.java:73-74 | A service that passes is kept as many times as it is bound. Any other service is dropped. |
| `McpDiscovery.McpServiceNames` | misc/cf-mcp-client/src/main/java/org/tanzu/mcpclient/mcp/McpDiscoveryService.java:71-81 | The i-th name is the name of the i-th service that passes `hasMcpServiceUrl`, so order and repeats are kept. Every such name is listed and no other. Empty when the service lookup throws. |
| `McpDiscovery.McpServiceUrls` | misc/cf-mcp-client/src/main/java/org/tanzu/mcpclient/mcp/McpDiscoveryService.java:87-97 | The i-th URL is the `mcpServiceURL` string of the i-th service that passes, blank ones included, so order and repeats are kept. Each is taken from a binding. Empty when the service lookup throws. |
| `McpDiscovery.McpServiceUrlsFromLocator` | misc/cf-mcp-client/src/main/java/org/tanzu/mcpclient/mcp/McpDiscoveryService.java:53-65 | The locator's URLs. Empty without a locator or when it throws. |
| `McpDiscovery.NamesAndUrlsAlign` | misc/cf-mcp-client/src/main/java/org/tanzu/mcpclient/mcp/McpDiscoveryService.java:71-97 | The i-th legacy URL and the i-th agent name belong to the same service. |
| `McpDiscovery.AllMcpServiceUrls` | misc/cf-mcp-client/src/main/java/org/tanzu/mcpclient/mcp/McpDiscoveryService.java:103-118 | The locator URLs if there are any, else the Cloud Foundry URLs. |
| `McpDiscovery.AllUrlsFromOneSource` | misc/cf-mcp-client/src/main/java/org/tanzu/mcpclient/mcp/McpDiscoveryService.java:103-118 | The two sources are never merged. The result is empty exactly when both are. |
| `Metrics.DisplayName` | misc/cf-mcp-client/src/main/java/org/tanzu/mcpclient/metrics/McpServer.java:21-22 | The server name when it is non-null and non-blank, untrimmed. Otherwise the name. Always one of the two fields. |
| `Metrics.DisplayNameBlankOnlyIfBothBlank` | misc/cf-mcp-client/src/main/java/org/tanzu/mcpclient/metrics/McpServer.java:21-22 | The display name is blank exactly when the server name is missing or blank and the name is blank too. |
| `ChatDocuments.NonBlankIds` | misc/cf-mcp-client/src/main/java/org/tanzu/mcpclient/chat/ChatController.java:122-125 | Never longer than the input, and every kept ID is non-blank. |
| `ChatDocuments.NonBlankIdsMembership` | misc/cf-mcp-client/src/main/java/org/tanzu/mcpclient/chat/ChatController.java:122-125 | An ID is kept exactly when it occurs in the list and is not blank. |
| `ChatDocuments.NonBlankIdsAppend` | misc/cf-mcp-client/src/main/java/org/tanzu/mcpclient/chat/ChatController.java:122-125 | The filter keeps the order of the list. |
| `ChatDocuments.NonBlankIdsCount` | misc/cf-mcp-client/src/main/java/org/tanzu/mcpclient/chat/ChatController.java:122-125 | A usable ID is kept as many times as it occurs. |
| `ChatDocuments.DetermineDocumentIds` | misc/cf-mcp-client/src/main/java/org/tanzu/mcpclient/chat/ChatController.java:120-134 | A non-empty list wins, even when every entry is blank, and is filtered. Otherwise a non-blank single ID, untrimmed. Otherwise nothing. Every returned ID is non-blank. |
| `ChatConfig.ChatConfiguration.constructor` | misc/cf-mcp-client/src/main/java/org/tanzu/mcpclient/chat/ChatConfiguration.java:46-66 | The chat model name, agent names and URLs are taken from discovery. There is one protocol-aware service per discovered configuration, in order, with the same name, URL and protocol. Nothing has been checked yet. |
| `ChatConfig.LegacyUrls` | misc/cf-mcp-client/src/main/java/org/tanzu/mcpclient/chat/ChatConfiguration.java:142-148 | A URL is legacy exactly when it is configured and no protocol-aware service has it. |
| `ChatConfig.LegacyUrlsAppend` | misc/cf-mcp-client/src/main/java/org/tanzu/mcpclient/chat/ChatConfiguration.java:146-148 | The legacy URLs keep their original order. |
| `ChatConfig.FirstContained` | misc/cf-mcp-client/src/main/java/org/tanzu/mcpclient/chat/ChatConfiguration.java:159-163 | Returns the first agent service name that occurs in the URL. It is absent exactly when none does. |
| `ChatConfig.AwareStep` | misc/cf-mcp-client/src/main/java/org/tanzu/mcpclient/chat/ChatConfiguration.java:124-131 | The report is appended. A null server name stops the pass, since ConcurrentHashMap rejects null values. Otherwise the URL maps to the server name, and the URL is listed when the server is healthy. |
| `ChatConfig.AwarePassStaysStopped` | misc/cf-mcp-client/src/main/java/org/tanzu/mcpclient/chat/ChatConfiguration.java:120-132 | Once stopped, the pass ignores the remaining services. |
| `ChatConfig.AwarePassServers` | misc/cf-mcp-client/src/main/java/org/tanzu/mcpclient/chat/ChatConfiguration.java:120-132 | The pass completes exactly when every report names its server. It then appends every report in service order. Otherwise it appends those up to the first report without a name. |
| `ChatConfig.HealthyUrlsSnoc` | misc/cf-mcp-client/src/main/java/org/tanzu/mcpclient/chat/ChatConfiguration.java:129-131 | The front-recursive list of healthy URLs grows at the end as services are added. |
| `ChatConfig.AwarePassHealthy` | misc/cf-mcp-client/src/main/java/org/tanzu/mcpclient/chat/ChatConfiguration.java:120-132 | A completed pass lists exactly the URLs of the healthy servers, in service order. |
| `ChatConfig.AwarePassLastNameWins` | misc/cf-mcp-client/src/main/java/org/tanzu/mcpclient/chat/ChatConfiguration.java:128 | Each protocol-aware URL maps to the name reported by the last service with that URL. |
| `ChatConfig.AwarePassOtherNamesUntouched` | misc/cf-mcp-client/src/main/java/org/tanzu/mcpclient/chat/ChatConfiguration.java:128 | URLs of no service keep their earlier mapping. |
| `ChatConfig.LegacyStepRecords` | misc/cf-mcp-client/src/main/java/org/tanzu/mcpclient/chat/ChatConfiguration.java:153-187 | One check appends SSE records after the earlier ones: one healthy record when the try block finishes, one unhealthy record when the probe fails, and both when the try block finishes but closing the client throws. The first record takes the name already mapped to the URL. Failing that, when the try block ran, it takes the first agent name contained in the URL, else `Unknown`. It carries the listed tools, or none after a failed probe. The extra record after a failed close has the same name and no tools. |
| `ChatConfig.LegacyStepLedger` | misc/cf-mcp-client/src/main/java/org/tanzu/mcpclient/chat/ChatConfiguration.java:174-176 | A check whose try block finished lists the URL as healthy and maps it to the first record's name, even when closing the client then throws. A failed probe changes neither. |
| `ChatConfig.ReachableUrlsSnoc` | misc/cf-mcp-client/src/main/java/org/tanzu/mcpclient/chat/ChatConfiguration.java:174-176 | The front-recursive list of URLs whose try block finished grows at the end. |
| `ChatConfig.HealthinessSnoc` | misc/cf-mcp-client/src/main/java/org/tanzu/mcpclient/chat/ChatConfiguration.java:173-186 | The front-recursive list of health flags grows at the end by the flags of one more check. |
| `ChatConfig.LegacyPassServers` | misc/cf-mcp-client/src/main/java/org/tanzu/mcpclient/chat/ChatConfiguration.java:150-189 | The pass appends SSE records only, after the earlier ones and in URL order. Each URL contributes one or two records, whose health flags are those of its check: healthy, unhealthy, or healthy then unhealthy after a failed close. |
| `ChatConfig.LegacyPassHealthy` | misc/cf-mcp-client/src/main/java/org/tanzu/mcpclient/chat/ChatConfiguration.java:150-189 | The healthy list grows by exactly the legacy URLs whose try block finished, in order. |
| `ChatConfig.LegacyPassNames` | misc/cf-mcp-client/src/main/java/org/tanzu/mcpclient/chat/ChatConfiguration.java:150-189 | Names of URLs outside the legacy list are untouched. |
| `ChatConfig.ChatConfiguration.TestProtocolAwareMcpServerHealth` | misc/cf-mcp-client/src/main/java/org/tanzu/mcpclient/chat/ChatConfiguration.java:117-133 | The new ledger and the completion flag are those of `AwarePass` over the services and their reports. |
| `ChatConfig.ChatConfiguration.TestLegacyMcpServerHealth` | misc/cf-mcp-client/src/main/java/org/tanzu/mcpclient/chat/ChatConfiguration.java:138-190 | The new ledger is that of `LegacyPass` over the legacy URLs and their probe outcomes. |
| `ChatConfig.ChatConfiguration.TestMcpServerHealth` | misc/cf-mcp-client/src/main/java/org/tanzu/mcpclient/chat/ChatConfiguration.java:104-112 | The protocol-aware pass runs, then the legacy pass. A stopped protocol-aware pass ends the check. |
| `ChatConfig.HealthCheckKeepsProtocolAwareNames` | misc/cf-mcp-client/src/main/java/org/tanzu/mcpclient/chat/ChatConfiguration.java:104-190 | After both passes, every protocol-aware URL still maps to the name its last service reported. |

## Left out

- Logging, Spring wiring and bean annotations: they have no logic of their own.
- Network and MCP transport. Building clients, `initialize` and `listTools`
  are replaced by input health reports (`McpServer` per protocol-aware
  service) and probe outcomes (`LegacyOutcome` per legacy URL). A legacy
  probe can succeed, fail, or succeed and then fail when the
  try-with-resources block closes the client. `ChatService`,
  `McpClientFactory` and `McpServerService`'s transport are not part of this
  model.
- The OpenAI models themselves. `OpenAiChatModel` and `OpenAiEmbeddingModel`
  are values recording their client and model name. Whether building one throws
  is an input flag (`chatModelBuildThrows`, `embeddingModelBuildThrows`).
- Locale-dependent number formatting. `String.format("%d", ...)` is taken
  to write ASCII digits without grouping, as string concatenation does.
- The chat temperature 0.8 in `PropertyBasedModelProvider`: it is a
  floating-point option and is not modelled.
- `ChatConfiguration.handleApplicationReady` and the event it publishes. Only
  the health test it starts is modelled.
- The `ChatConfiguration` getters. They return copies. In the model every
  field is an immutable `seq` or `map` value, so callers cannot change the
  state through a returned value whatever the getter does. No getter is written
  out.
- `ChatConfiguration.chatService`: a bean factory with no logic.
- `ModelDiscoveryService.getAllChatModelNames`, `getAllEmbeddingModelNames`
  and `getLocatorCount`. They delegate to the aggregator and are modelled by
  `AggregatedNames` and `LocatorCount`.
- The `catch` blocks of `ModelDiscoveryService` and
  `GenaiLocatorModelProvider` around aggregator calls. The aggregator catches
  every locator exception itself, so those blocks cannot run in the model.
- Null entries inside a locator's name list, null CF service names and null
  locator URLs: all names and URLs are strings.
- cfenv's `CfCredentials.getString` is not part of this model. It is taken to
  return the value when it is a string and null otherwise.
- Concurrency: the executor and `SseEmitter` streaming of `ChatController`,
  and the thread-safety of `ConcurrentHashMap`. The map's refusal of null
  values is kept.
- `MultiGenaiLocatorConfiguration`: its service filter depends on cfenv tag
  and label matching, which is not part of this model.
- The demo applications in `adoptions`, `assistant`, `service`,
  `scheduler` and `original-arcofai-code`. They are LLM, JDBC and
  wall-clock code.
- `CompositeProvider.CompositeModelProvider.constructor`: it sorts by
  writing back a stable insertion sort of the array's contents, as the default
  `List.sort` does (copy out, sort, write back). The order of writes and
  any aliasing between providers are not modelled.
