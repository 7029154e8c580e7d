/** `GenaiLocatorModelProvider`: models handed out by the GenAI locators, at the highest priority. */
module GenaiLocatorProvider {
  import opened Wrappers
  import opened JavaStrings
  import opened Selection
  import opened SpringAi
  import opened LocatorAggregation
  import opened Providers

  const PRIORITY := 0

  /** `getChatModel()`: nothing without locators, else the aggregator's first available chat model. */
  function ChatModelOf(agg: MultiGenaiLocatorAggregator): (model: Option<ChatModel>)
    ensures !agg.HasAnyLocators() ==> model.None?
    ensures model == FirstSome(ChatAnswers(agg.genaiLocators))
  {
    if !agg.HasAnyLocators() then None
    else FirstSome(ChatAnswers(agg.genaiLocators))
  }

  /** `getEmbeddingModel()`: nothing without locators, else the aggregator's first available embedding model. */
  function EmbeddingModelOf(agg: MultiGenaiLocatorAggregator): (model: Option<EmbeddingModel>)
    ensures !agg.HasAnyLocators() ==> model.None?
    ensures model == FirstSome(EmbeddingAnswers(agg.genaiLocators))
  {
    if !agg.HasAnyLocators() then None
    else FirstSome(EmbeddingAnswers(agg.genaiLocators))
  }

  /** `getProviderName()` */
  function ProviderName(agg: MultiGenaiLocatorAggregator): string {
    "MultiGenaiLocator(" + IntToString(agg.LocatorCount()) + " locators)"
  }

  /** The provider with its fixed priority, as the composite sees it. */
  function AsModelProvider(agg: MultiGenaiLocatorAggregator): (p: ModelProvider)
    ensures p.priority == PRIORITY && p.providerName == ProviderName(agg)
    ensures p.chatModel == ChatModelOf(agg) && p.embeddingModel == EmbeddingModelOf(agg)
  {
    ModelProvider(ProviderName(agg), PRIORITY, ChatModelOf(agg), EmbeddingModelOf(agg))
  }

  /** The provider offers a chat model exactly when the aggregate is non-empty, and offers its head. */
  lemma OffersHeadOfAggregate(agg: MultiGenaiLocatorAggregator)
    ensures ChatModelOf(agg).Some? <==> Somes(ChatAnswers(agg.genaiLocators)) != []
    ensures ChatModelOf(agg).Some? ==> ChatModelOf(agg).value == Somes(ChatAnswers(agg.genaiLocators))[0]
    ensures EmbeddingModelOf(agg).Some? <==> Somes(EmbeddingAnswers(agg.genaiLocators)) != []
    ensures EmbeddingModelOf(agg).Some? ==> EmbeddingModelOf(agg).value == Somes(EmbeddingAnswers(agg.genaiLocators))[0]
  {
    FirstSomeIsHeadOfSomes(ChatAnswers(agg.genaiLocators));
    FirstSomeIsHeadOfSomes(EmbeddingAnswers(agg.genaiLocators));
  }

  /** The provider's name records how many locators it aggregates. */
  lemma ProviderNameRecordsCount(agg: MultiGenaiLocatorAggregator)
    ensures var name := ProviderName(agg);
            |name| > 28 && name[..18] == "MultiGenaiLocator(" && name[|name| - 10..] == " locators)"
            && ParseInt(name[18..|name| - 10]) == agg.LocatorCount()
  {
    var digits := IntToString(agg.LocatorCount());
    var name := ProviderName(agg);
    assert name[18..|name| - 10] == digits;
    IntToStringRoundTrip(agg.LocatorCount());
  }
}
