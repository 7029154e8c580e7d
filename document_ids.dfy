/** `ChatController.determineDocumentIds`: which documents a chat request draws on. */
module ChatDocuments {
  import opened Wrappers
  import opened JavaStrings

  /** A usable document ID: non-null and not blank. */
  predicate Usable(id: Option<string>) {
    id.Some? && !IsBlank(id.value)
  }

  /** What one entry contributes: its value when usable, nothing otherwise. */
  function Kept(id: Option<string>): seq<string> {
    if Usable(id) then [id.value] else []
  }

  /** The usable entries of a list, in order; null entries are None. */
  function NonBlankIds(ids: seq<Option<string>>): (r: seq<string>)
    ensures |r| <= |ids|
    ensures forall id :: id in r ==> !IsBlank(id)
  {
    if ids == [] then [] else Kept(ids[0]) + NonBlankIds(ids[1..])
  }

  /** An ID is kept exactly when it occurs in the input and is not blank. */
  lemma {:induction false} NonBlankIdsMembership(ids: seq<Option<string>>, id: string)
    ensures id in NonBlankIds(ids) <==> Some(id) in ids && !IsBlank(id)
  {
    if ids != [] {
      NonBlankIdsMembership(ids[1..], id);
      assert ids == [ids[0]] + ids[1..];
    }
  }

  /** Filtering a concatenation filters each part and keeps their order. */
  lemma {:induction false} NonBlankIdsAppend(a: seq<Option<string>>, b: seq<Option<string>>)
    ensures NonBlankIds(a + b) == NonBlankIds(a) + NonBlankIds(b)
  {
    if a == [] {
      assert a + b == b;
    } else {
      var ab := a + b;
      assert ab[0] == a[0];
      assert ab[1..] == a[1..] + b;
      NonBlankIdsAppend(a[1..], b);
      var k := Kept(a[0]);
      assert NonBlankIds(ab) == k + (NonBlankIds(a[1..]) + NonBlankIds(b));
      assert k + (NonBlankIds(a[1..]) + NonBlankIds(b)) == (k + NonBlankIds(a[1..])) + NonBlankIds(b);
    }
  }

  /** One entry contributes the ID once exactly when it is that ID. */
  lemma KeptCount(x: Option<string>, id: string)
    requires !IsBlank(id)
    ensures multiset(Kept(x))[id] == multiset([x])[Some(id)]
  {
    if x == Some(id) {
      assert Kept(x) == [id];
    } else if Usable(x) {
      assert x.value != id;
    }
  }

  /** An ID is kept as often as it occurs usable in the input. */
  lemma {:induction false} NonBlankIdsCount(ids: seq<Option<string>>, id: string)
    requires !IsBlank(id)
    ensures multiset(NonBlankIds(ids))[id] == multiset(ids)[Some(id)]
  {
    if ids != [] {
      var rest := ids[1..];
      NonBlankIdsCount(rest, id);
      KeptCount(ids[0], id);
      assert multiset(ids) == multiset([ids[0]]) + multiset(rest) by {
        assert ids == [ids[0]] + rest;
      }
      assert multiset(NonBlankIds(ids)) == multiset(Kept(ids[0])) + multiset(NonBlankIds(rest));
    }
  }

  /**
   * A non-empty list wins, even when every entry is blank; otherwise a
   * non-blank single ID, untrimmed; otherwise nothing.
   */
  function DetermineDocumentIds(documentId: Option<string>, documentIds: Option<seq<Option<string>>>): (r: seq<string>)
    ensures documentIds.Some? && documentIds.value != [] ==> r == NonBlankIds(documentIds.value) && |r| <= |documentIds.value|
    ensures (documentIds.None? || documentIds.value == []) && Usable(documentId) ==> r == [documentId.value]
    ensures (documentIds.None? || documentIds.value == []) && !Usable(documentId) ==> r == []
    ensures forall id :: id in r ==> !IsBlank(id)
  {
    if documentIds.Some? && documentIds.value != [] then NonBlankIds(documentIds.value)
    else if documentId.Some? && !IsBlank(documentId.value) then [documentId.value]
    else []
  }
}
