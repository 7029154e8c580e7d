/** `MultiGenaiLocatorAggregator`: one view over every GenAI locator bound to the application. */
module LocatorAggregation {
  import opened Wrappers
  import opened Selection
  import opened SpringAi

  /**
   * A GenAI locator, reduced to its answers. Each query either returns a
   * (nullable) value or throws; the answers are fixed, so asking twice gives
   * the same answer.
   */
  datatype GenaiLocator = GenaiLocator(
    firstAvailableChatModel: Reply<Option<ChatModel>>,
    firstAvailableEmbeddingModel: Reply<Option<EmbeddingModel>>,
    modelNamesByCapability: string -> Reply<Option<seq<string>>>)

  /** What each locator contributes to the chat aggregate, a throw counting as null. */
  function ChatAnswers(locators: seq<GenaiLocator>): (r: seq<Option<ChatModel>>)
    ensures |r| == |locators|
  {
    seq(|locators|, i requires 0 <= i < |locators| => Absorb(locators[i].firstAvailableChatModel))
  }

  /** What each locator contributes to the embedding aggregate, a throw counting as null. */
  function EmbeddingAnswers(locators: seq<GenaiLocator>): (r: seq<Option<EmbeddingModel>>)
    ensures |r| == |locators|
  {
    seq(|locators|, i requires 0 <= i < |locators| => Absorb(locators[i].firstAvailableEmbeddingModel))
  }

  /** A locator's name list, or nothing when it threw or returned null. */
  function NamesFrom(r: Reply<Option<seq<string>>>): seq<string> {
    match r
    case Returned(Some(names)) => names
    case _ => []
  }

  function NameLists(locators: seq<GenaiLocator>, capability: string): (r: seq<seq<string>>)
    ensures |r| == |locators|
  {
    seq(|locators|, i requires 0 <= i < |locators| => NamesFrom(locators[i].modelNamesByCapability(capability)))
  }

  /** Every locator's model names for a capability, locator after locator. */
  function AggregatedNames(locators: seq<GenaiLocator>, capability: string): seq<string> {
    Concat(NameLists(locators, capability))
  }

  /**
   * A locator that throws (or answers null) contributes nothing: the
   * aggregate is the one computed without it.
   */
  lemma FailingLocatorIsSkipped(locators: seq<GenaiLocator>, i: nat, capability: string)
    requires i < |locators|
    requires NamesFrom(locators[i].modelNamesByCapability(capability)) == []
    ensures AggregatedNames(locators, capability)
         == AggregatedNames(locators[..i] + locators[i + 1..], capability)
  {
    var lists := NameLists(locators, capability);
    assert lists == NameLists(locators[..i], capability) + [[]] + NameLists(locators[i + 1..], capability);
    assert NameLists(locators[..i] + locators[i + 1..], capability)
        == NameLists(locators[..i], capability) + NameLists(locators[i + 1..], capability);
    ConcatAppend(NameLists(locators[..i], capability) + [[]], NameLists(locators[i + 1..], capability));
    ConcatSnoc(NameLists(locators[..i], capability), []);
    ConcatAppend(NameLists(locators[..i], capability), NameLists(locators[i + 1..], capability));
  }

  /** Each model name in the aggregate comes from some locator that returned it. */
  lemma {:induction false} AggregatedNameHasOrigin(locators: seq<GenaiLocator>, capability: string, k: nat)
    requires k < |AggregatedNames(locators, capability)|
    ensures exists i :: 0 <= i < |locators| && locators[i].modelNamesByCapability(capability).Returned? &&
              AggregatedNames(locators, capability)[k] in NamesFrom(locators[i].modelNamesByCapability(capability))
  {
    var lists := NameLists(locators, capability);
    var head := lists[0];
    assert lists[1..] == NameLists(locators[1..], capability);
    if k < |head| {
      assert AggregatedNames(locators, capability)[k] == head[k];
    } else {
      AggregatedNameHasOrigin(locators[1..], capability, k - |head|);
      var i :| 0 <= i < |locators[1..]| && locators[1..][i].modelNamesByCapability(capability).Returned?
        && AggregatedNames(locators[1..], capability)[k - |head|] in NamesFrom(locators[1..][i].modelNamesByCapability(capability));
      assert locators[i + 1] == locators[1..][i];
    }
  }

  class MultiGenaiLocatorAggregator {
    /** A private copy of the injected locators, never changed afterwards. */
    const genaiLocators: seq<GenaiLocator>

    /** Keeps a copy of the injected list; a null list becomes the empty list. */
    constructor (injected: array?<GenaiLocator>)
      ensures genaiLocators == if injected == null then [] else injected[..]
    {
      genaiLocators := if injected == null then [] else injected[..];
    }

    /** `getLocatorCount()` */
    function LocatorCount(): (n: nat)
      ensures n == |genaiLocators|
    {
      |genaiLocators|
    }

    /** `hasAnyLocators()`: true exactly when the count is positive. */
    function HasAnyLocators(): (b: bool)
      ensures b <==> LocatorCount() > 0
    {
      genaiLocators != []
    }

    /**
     * `aggregateChatModels()`: the non-null first chat model of every locator
     * that did not throw, in locator order.
     */
    method AggregateChatModels() returns (models: seq<ChatModel>)
      ensures models == Somes(ChatAnswers(genaiLocators))
      ensures |models| <= LocatorCount()
      ensures genaiLocators == [] ==> models == []
      ensures forall i :: 0 <= i < |genaiLocators| && genaiLocators[i].firstAvailableChatModel.Returned?
                && genaiLocators[i].firstAvailableChatModel.value.Some?
                ==> genaiLocators[i].firstAvailableChatModel.value.value in models
    {
      var answers := ChatAnswers(genaiLocators);
      models := [];
      for i := 0 to |genaiLocators|
        invariant models == Somes(answers[..i])
      {
        assert answers[..i + 1] == answers[..i] + [answers[i]];
        SomesSnoc(answers[..i], answers[i]);
        match genaiLocators[i].firstAvailableChatModel
        case Returned(Some(model)) =>
          models := models + [model];
        case _ =>
      }
      assert answers[..|genaiLocators|] == answers;
      forall i | 0 <= i < |genaiLocators| && genaiLocators[i].firstAvailableChatModel.Returned? && genaiLocators[i].firstAvailableChatModel.value.Some?
        ensures genaiLocators[i].firstAvailableChatModel.value.value in models
      {
        assert answers[i] == genaiLocators[i].firstAvailableChatModel.value;
      }
    }

    /** `aggregateEmbeddingModels()`: as AggregateChatModels, for embedding models. */
    method AggregateEmbeddingModels() returns (models: seq<EmbeddingModel>)
      ensures models == Somes(EmbeddingAnswers(genaiLocators))
      ensures |models| <= LocatorCount()
      ensures genaiLocators == [] ==> models == []
      ensures forall i :: 0 <= i < |genaiLocators| && genaiLocators[i].firstAvailableEmbeddingModel.Returned?
                && genaiLocators[i].firstAvailableEmbeddingModel.value.Some?
                ==> genaiLocators[i].firstAvailableEmbeddingModel.value.value in models
    {
      var answers := EmbeddingAnswers(genaiLocators);
      models := [];
      for i := 0 to |genaiLocators|
        invariant models == Somes(answers[..i])
      {
        assert answers[..i + 1] == answers[..i] + [answers[i]];
        SomesSnoc(answers[..i], answers[i]);
        match genaiLocators[i].firstAvailableEmbeddingModel
        case Returned(Some(model)) =>
          models := models + [model];
        case _ =>
      }
      assert answers[..|genaiLocators|] == answers;
      forall i | 0 <= i < |genaiLocators| && genaiLocators[i].firstAvailableEmbeddingModel.Returned? && genaiLocators[i].firstAvailableEmbeddingModel.value.Some?
        ensures genaiLocators[i].firstAvailableEmbeddingModel.value.value in models
      {
        assert answers[i] == genaiLocators[i].firstAvailableEmbeddingModel.value;
      }
    }

    /**
     * `getFirstAvailableChatModel()`: the chat model of the first locator that
     * returns one without throwing; it is the head of AggregateChatModels.
     */
    method GetFirstAvailableChatModel() returns (model: Option<ChatModel>)
      ensures model == FirstSome(ChatAnswers(genaiLocators))
      ensures model == if Somes(ChatAnswers(genaiLocators)) == [] then None
                       else Some(Somes(ChatAnswers(genaiLocators))[0])
    {
      var answers := ChatAnswers(genaiLocators);
      for i := 0 to |genaiLocators|
        invariant forall j :: 0 <= j < i ==> answers[j].None?
      {
        var answer := genaiLocators[i].firstAvailableChatModel;
        assert answers[i] == Absorb(answer);
        if answer.Returned? && answer.value.Some? {
          FirstSomeAt(answers, i);
          FirstSomeIsHeadOfSomes(answers);
          return answer.value;
        }
      }
      FirstSomeIsHeadOfSomes(answers);
      return None;
    }

    /** `getFirstAvailableEmbeddingModel()`: as GetFirstAvailableChatModel, for embedding models. */
    method GetFirstAvailableEmbeddingModel() returns (model: Option<EmbeddingModel>)
      ensures model == FirstSome(EmbeddingAnswers(genaiLocators))
      ensures model == if Somes(EmbeddingAnswers(genaiLocators)) == [] then None
                       else Some(Somes(EmbeddingAnswers(genaiLocators))[0])
    {
      var answers := EmbeddingAnswers(genaiLocators);
      for i := 0 to |genaiLocators|
        invariant forall j :: 0 <= j < i ==> answers[j].None?
      {
        var answer := genaiLocators[i].firstAvailableEmbeddingModel;
        assert answers[i] == Absorb(answer);
        if answer.Returned? && answer.value.Some? {
          FirstSomeAt(answers, i);
          FirstSomeIsHeadOfSomes(answers);
          return answer.value;
        }
      }
      FirstSomeIsHeadOfSomes(answers);
      return None;
    }

    /**
     * `aggregateModelNamesByCapability(capability)`: every locator's names
     * for the capability, in locator order; failing locators add nothing.
     */
    method AggregateModelNamesByCapability(capability: string) returns (names: seq<string>)
      ensures names == AggregatedNames(genaiLocators, capability)
      ensures genaiLocators == [] ==> names == []
    {
      var lists := NameLists(genaiLocators, capability);
      names := [];
      for i := 0 to |genaiLocators|
        invariant names == Concat(lists[..i])
      {
        assert lists[..i + 1] == lists[..i] + [lists[i]];
        ConcatSnoc(lists[..i], lists[i]);
        var reply := genaiLocators[i].modelNamesByCapability(capability);
        if reply.Returned? && reply.value.Some? && reply.value.value != [] {
          names := names + reply.value.value;
        } else {
          assert lists[i] == [];
        }
      }
      assert lists[..|genaiLocators|] == lists;
    }
  }

}
