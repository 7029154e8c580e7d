/** `CompositeModelProvider`: asks the providers in priority order (lower number first). */
module CompositeProvider {
  import opened Wrappers
  import opened JavaStrings
  import opened Selection
  import opened SpringAi
  import opened LocatorAggregation
  import opened ModelDiscovery
  import opened Providers
  import GenaiLocatorProvider
  import PropertyBasedProvider

  const NO_CHAT_MODEL := "No ChatModel available from any provider. Check that at least one provider is properly configured."
  const NO_EMBEDDING_MODEL := "No EmbeddingModel available from any provider. Check that at least one provider is properly configured."

  /** `IllegalStateException` with its message. */
  datatype IllegalState = IllegalState(message: string)

  /** Inserts a provider before the first one whose priority is not lower. */
  function Insert(p: ModelProvider, sorted: seq<ModelProvider>): (r: seq<ModelProvider>)
    ensures |r| == |sorted| + 1
    ensures multiset(r) == multiset(sorted) + multiset{p}
  {
    if sorted == [] || p.priority <= sorted[0].priority then [p] + sorted
    else
      assert sorted == [sorted[0]] + sorted[1..];
      [sorted[0]] + Insert(p, sorted[1..])
  }

  /**
   * `providers.sort(Comparator.comparing(ModelProvider::getPriority))`: a
   * stable sort, here as an insertion sort.
   */
  function SortByPriority(ps: seq<ModelProvider>): (r: seq<ModelProvider>)
    ensures |r| == |ps|
    ensures multiset(r) == multiset(ps)
  {
    if ps == [] then []
    else
      assert ps == [ps[0]] + ps[1..];
      Insert(ps[0], SortByPriority(ps[1..]))
  }

  ghost predicate SortedByPriority(ps: seq<ModelProvider>) {
    forall i, j :: 0 <= i < j < |ps| ==> ps[i].priority <= ps[j].priority
  }

  /** A provider as a one-element list when it has priority k, else the empty list. */
  function Own(p: ModelProvider, k: int): seq<ModelProvider> {
    if p.priority == k then [p] else []
  }

  /** The providers of one priority, in their order. */
  function WithPriority(ps: seq<ModelProvider>, k: int): seq<ModelProvider> {
    if ps == [] then [] else Own(ps[0], k) + WithPriority(ps[1..], k)
  }

  /** Putting a provider in front of a sorted list it does not outrank keeps it sorted. */
  lemma ConsKeepsSorted(x: ModelProvider, tail: seq<ModelProvider>)
    requires SortedByPriority(tail)
    requires forall q :: q in tail ==> x.priority <= q.priority
    ensures SortedByPriority([x] + tail)
  {
    var r := [x] + tail;
    assert forall j :: 1 <= j < |r| ==> r[j] == tail[j - 1];
  }

  lemma {:induction false} InsertKeepsSorted(p: ModelProvider, sorted: seq<ModelProvider>)
    requires SortedByPriority(sorted)
    ensures SortedByPriority(Insert(p, sorted))
  {
    if sorted != [] && p.priority > sorted[0].priority {
      var rest := sorted[1..];
      InsertKeepsSorted(p, rest);
      var tail := Insert(p, rest);
      forall q | q in tail
        ensures sorted[0].priority <= q.priority
      {
        assert q in multiset(tail);
        if q != p {
          assert q in multiset(rest);
          var i :| 0 <= i < |rest| && rest[i] == q;
          assert sorted[i + 1] == q;
        }
      }
      ConsKeepsSorted(sorted[0], tail);
    }
  }

  lemma WithPriorityCons(x: ModelProvider, ps: seq<ModelProvider>, k: int)
    ensures WithPriority([x] + ps, k) == Own(x, k) + WithPriority(ps, k)
  {
    assert ([x] + ps)[1..] == ps;
  }

  /** Moving a provider of priority k past a head of another priority keeps it first within k. */
  lemma StableStepSame(p: ModelProvider, sorted: seq<ModelProvider>, tail: seq<ModelProvider>, k: int)
    requires sorted != [] && p.priority == k != sorted[0].priority
    requires WithPriority(tail, k) == Own(p, k) + WithPriority(sorted[1..], k)
    ensures WithPriority([sorted[0]] + tail, k) == Own(p, k) + WithPriority(sorted, k)
  {
    WithPriorityCons(sorted[0], tail, k);
    HeadOfOtherPriority(sorted, k);
  }

  /** A provider of another priority than k leaves the order within k alone. */
  lemma StableStepOther(p: ModelProvider, sorted: seq<ModelProvider>, tail: seq<ModelProvider>, k: int)
    requires sorted != [] && p.priority != k
    requires WithPriority(tail, k) == Own(p, k) + WithPriority(sorted[1..], k)
    ensures WithPriority([sorted[0]] + tail, k) == Own(p, k) + WithPriority(sorted, k)
  {
    WithPriorityCons(sorted[0], tail, k);
    assert Own(p, k) == [];
  }

  /** A head of another priority contributes nothing. */
  lemma HeadOfOtherPriority(ps: seq<ModelProvider>, k: int)
    requires ps != [] && ps[0].priority != k
    ensures WithPriority(ps, k) == WithPriority(ps[1..], k)
    ensures Own(ps[0], k) == []
  {
  }

  /** The insertion puts the new provider ahead of every provider of its own priority. */
  lemma {:induction false} InsertIsStable(p: ModelProvider, sorted: seq<ModelProvider>, k: int)
    ensures WithPriority(Insert(p, sorted), k) == Own(p, k) + WithPriority(sorted, k)
  {
    if sorted == [] || p.priority <= sorted[0].priority {
      WithPriorityCons(p, sorted, k);
    } else {
      InsertIsStable(p, sorted[1..], k);
      if p.priority == k {
        StableStepSame(p, sorted, Insert(p, sorted[1..]), k);
      } else {
        StableStepOther(p, sorted, Insert(p, sorted[1..]), k);
      }
    }
  }

  /** After sorting, the priorities are non-decreasing. */
  lemma {:induction false} SortIsSorted(ps: seq<ModelProvider>)
    ensures SortedByPriority(SortByPriority(ps))
  {
    if ps != [] {
      SortIsSorted(ps[1..]);
      InsertKeepsSorted(ps[0], SortByPriority(ps[1..]));
    }
  }

  /** Sorting is stable: providers of equal priority keep their injection order. */
  lemma {:induction false} SortIsStable(ps: seq<ModelProvider>, k: int)
    ensures WithPriority(SortByPriority(ps), k) == WithPriority(ps, k)
  {
    if ps != [] {
      SortIsStable(ps[1..], k);
      InsertIsStable(ps[0], SortByPriority(ps[1..]), k);
    }
  }

  function ChatOffers(ps: seq<ModelProvider>): (r: seq<Option<ChatModel>>)
    ensures |r| == |ps|
  {
    seq(|ps|, i requires 0 <= i < |ps| => ps[i].chatModel)
  }

  function EmbeddingOffers(ps: seq<ModelProvider>): (r: seq<Option<EmbeddingModel>>)
    ensures |r| == |ps|
  {
    seq(|ps|, i requires 0 <= i < |ps| => ps[i].embeddingModel)
  }

  /** `"%s (priority: %d)"` for one provider. */
  function InfoLine(p: ModelProvider): string {
    p.providerName + " (priority: " + IntToString(p.priority) + ")"
  }

  class CompositeModelProvider {
    /** The injected list itself, sorted in place. */
    const providers: array<ModelProvider>

    /** Keeps the caller's list and sorts it in place by priority; no copy is made. */
    constructor (providers: array<ModelProvider>)
      modifies providers
      ensures this.providers == providers
      ensures providers[..] == SortByPriority(old(providers[..]))
    {
      this.providers := providers;
      new;
      var sorted := SortByPriority(providers[..]);
      for i := 0 to providers.Length
        invariant providers[..i] == sorted[..i]
      {
        providers[i] := sorted[i];
      }
      assert providers[..] == providers[..providers.Length];
    }

    /**
     * `getChatModel()`: the chat model of the first provider, in priority
     * order, that offers one; IllegalStateException when none does.
     */
    method GetChatModel() returns (r: Result<ChatModel, IllegalState>)
      ensures r.Ok? <==> exists i :: 0 <= i < providers.Length && providers[i].chatModel.Some?
      ensures r.Ok? ==> exists i :: 0 <= i < providers.Length && providers[i].chatModel == Some(r.value)
                          && forall j :: 0 <= j < i ==> providers[j].chatModel.None?
      ensures r.Err? ==> r.error == IllegalState(NO_CHAT_MODEL)
      ensures r.Ok? ==> FirstSome(ChatOffers(providers[..])) == Some(r.value)
      ensures r.Err? ==> FirstSome(ChatOffers(providers[..])).None?
    {
      for i := 0 to providers.Length
        invariant forall j :: 0 <= j < i ==> providers[j].chatModel.None?
      {
        var chatModel := providers[i].chatModel;
        if chatModel.Some? {
          FirstSomeAt(ChatOffers(providers[..]), i);
          return Ok(chatModel.value);
        }
      }
      return Err(IllegalState(NO_CHAT_MODEL));
    }

    /** `getEmbeddingModel()`: as GetChatModel, for embedding models. */
    method GetEmbeddingModel() returns (r: Result<EmbeddingModel, IllegalState>)
      ensures r.Ok? <==> exists i :: 0 <= i < providers.Length && providers[i].embeddingModel.Some?
      ensures r.Ok? ==> exists i :: 0 <= i < providers.Length && providers[i].embeddingModel == Some(r.value)
                          && forall j :: 0 <= j < i ==> providers[j].embeddingModel.None?
      ensures r.Err? ==> r.error == IllegalState(NO_EMBEDDING_MODEL)
      ensures r.Ok? ==> FirstSome(EmbeddingOffers(providers[..])) == Some(r.value)
      ensures r.Err? ==> FirstSome(EmbeddingOffers(providers[..])).None?
    {
      for i := 0 to providers.Length
        invariant forall j :: 0 <= j < i ==> providers[j].embeddingModel.None?
      {
        var embeddingModel := providers[i].embeddingModel;
        if embeddingModel.Some? {
          FirstSomeAt(EmbeddingOffers(providers[..]), i);
          return Ok(embeddingModel.value);
        }
      }
      return Err(IllegalState(NO_EMBEDDING_MODEL));
    }

    /** `isChatModelAvailable()`: true exactly when GetChatModel succeeds. */
    method IsChatModelAvailable() returns (available: bool)
      ensures available <==> exists i :: 0 <= i < providers.Length && providers[i].chatModel.Some?
      ensures available <==> FirstSome(ChatOffers(providers[..])).Some?
    {
      for i := 0 to providers.Length
        invariant forall j :: 0 <= j < i ==> providers[j].chatModel.None?
      {
        if providers[i].chatModel.Some? {
          assert ChatOffers(providers[..])[i].Some?;
          return true;
        }
      }
      return false;
    }

    /** `isEmbeddingModelAvailable()`: true exactly when GetEmbeddingModel succeeds. */
    method IsEmbeddingModelAvailable() returns (available: bool)
      ensures available <==> exists i :: 0 <= i < providers.Length && providers[i].embeddingModel.Some?
      ensures available <==> FirstSome(EmbeddingOffers(providers[..])).Some?
    {
      for i := 0 to providers.Length
        invariant forall j :: 0 <= j < i ==> providers[j].embeddingModel.None?
      {
        if providers[i].embeddingModel.Some? {
          assert EmbeddingOffers(providers[..])[i].Some?;
          return true;
        }
      }
      return false;
    }

    /** `getProviderInfo()`: one "name (priority: n)" line per provider, in the sorted order. */
    function ProviderInfo(): (info: seq<string>)
      reads providers
      ensures |info| == providers.Length
      ensures forall i :: 0 <= i < |info| ==> info[i] == InfoLine(providers[i])
    {
      seq(providers.Length, i reads providers requires 0 <= i < providers.Length => InfoLine(providers[i]))
    }
  }

  /** Two providers of different priorities end up lower number first, whatever their order. */
  lemma SortTwo(lo: ModelProvider, hi: ModelProvider, loFirst: bool)
    requires lo.priority < hi.priority
    ensures SortByPriority(if loFirst then [lo, hi] else [hi, lo]) == [lo, hi]
  {
    var ps := if loFirst then [lo, hi] else [hi, lo];
    assert ps[1..][1..] == [];
    assert SortByPriority(ps[1..]) == Insert(ps[1], []) == [ps[1]];
  }

  lemma FirstOfTwo<M>(a: Option<M>, b: Option<M>)
    ensures FirstSome([a, b]) == if a.Some? then a else b
  {
    if a.Some? {
      FirstSomeAt([a, b], 0);
    } else if b.Some? {
      FirstSomeAt([a, b], 1);
    }
  }

  /** With two providers of different priorities, the lower number's chat model wins when it has one. */
  lemma ResolveTwo(lo: ModelProvider, hi: ModelProvider, loFirst: bool)
    requires lo.priority < hi.priority
    ensures FirstSome(ChatOffers(SortByPriority(if loFirst then [lo, hi] else [hi, lo])))
              == if lo.chatModel.Some? then lo.chatModel else hi.chatModel
  {
    SortTwo(lo, hi, loFirst);
    assert ChatOffers([lo, hi]) == [lo.chatModel, hi.chatModel];
    FirstOfTwo(lo.chatModel, hi.chatModel);
  }

  /**
   * Chat resolution with the two standard providers, in whichever order they
   * were injected: the locators' model wins; otherwise the property-based one.
   */
  lemma StandardChatResolution(agg: MultiGenaiLocatorAggregator, pb: PropertyBasedProvider.PropertyBasedModelProvider, locatorFirst: bool)
    ensures var gl := GenaiLocatorProvider.AsModelProvider(agg);
            var pp := PropertyBasedProvider.AsModelProvider(pb);
            var injected := if locatorFirst then [gl, pp] else [pp, gl];
            FirstSome(ChatOffers(SortByPriority(injected)))
              == if GenaiLocatorProvider.ChatModelOf(agg).Some? then GenaiLocatorProvider.ChatModelOf(agg)
                 else PropertyBasedProvider.ChatModelOf(pb)
  {
    ResolveTwo(GenaiLocatorProvider.AsModelProvider(agg), PropertyBasedProvider.AsModelProvider(pb), locatorFirst);
  }

  /**
   * When the locators report chat model names but none hands out a chat model
   * object, the property-based provider steps aside too, so no chat model is
   * resolved and getChatModel throws.
   */
  lemma NamesWithoutLocatorModelResolveNothing(pb: PropertyBasedProvider.PropertyBasedModelProvider, locatorFirst: bool)
    requires IsModelAvailableFromLocators(pb.discovery, Chat)
    requires GenaiLocatorProvider.ChatModelOf(pb.discovery.aggregator).None?
    ensures var gl := GenaiLocatorProvider.AsModelProvider(pb.discovery.aggregator);
            var pp := PropertyBasedProvider.AsModelProvider(pb);
            FirstSome(ChatOffers(SortByPriority(if locatorFirst then [gl, pp] else [pp, gl]))).None?
  {
    StandardChatResolution(pb.discovery.aggregator, pb, locatorFirst);
  }
}
