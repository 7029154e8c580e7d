/**
 * The selection shapes the configuration rules are built from: keep the
 * present answers in order, take the first present answer, concatenate lists.
 */
module Selection {
  import opened Wrappers

  /** A call that threw is treated like one that returned null, as every `catch` in the core does. */
  function Absorb<M>(r: Reply<Option<M>>): (o: Option<M>)
    ensures o.Some? <==> r.Returned? && r.value.Some?
    ensures o.Some? ==> r == Returned(o)
  {
    match r
    case Returned(v) => v
    case Threw => None
  }

  /** The present answers, in order (a `for` loop that `add`s every non-null value). */
  function Somes<M>(xs: seq<Option<M>>): (r: seq<M>)
    ensures |r| <= |xs|
    ensures forall i :: 0 <= i < |r| ==> Some(r[i]) in xs
    ensures forall i :: 0 <= i < |xs| && xs[i].Some? ==> xs[i].value in r
  {
    if xs == [] then []
    else
      assert forall i :: 1 <= i < |xs| ==> xs[i] == xs[1..][i - 1];
      (if xs[0].Some? then [xs[0].value] else []) + Somes(xs[1..])
  }

  /** The first present answer (a `for` loop that returns on the first non-null value). */
  function FirstSome<M>(xs: seq<Option<M>>): (r: Option<M>)
    ensures r.Some? ==> exists i :: 0 <= i < |xs| && xs[i] == r && forall j :: 0 <= j < i ==> xs[j].None?
    ensures r.None? <==> forall i :: 0 <= i < |xs| ==> xs[i].None?
  {
    if xs == [] then None
    else if xs[0].Some? then xs[0]
    else
      var r := FirstSome(xs[1..]);
      assert forall i :: 1 <= i < |xs| ==> xs[i] == xs[1..][i - 1];
      assert r.Some? ==> exists i :: 0 <= i < |xs| && xs[i] == r && forall j :: 0 <= j < i ==> xs[j].None? by {
        if r.Some? {
          var k :| 0 <= k < |xs[1..]| && xs[1..][k] == r && forall j :: 0 <= j < k ==> xs[1..][j].None?;
          assert xs[k + 1] == r && forall j :: 0 <= j < k + 1 ==> xs[j].None?;
        }
      }
      r
  }

  /** `flatMap` / repeated `addAll`: the lists one after the other. */
  function Concat<T>(xss: seq<seq<T>>): (r: seq<T>)
    ensures xss == [] ==> r == []
  {
    if xss == [] then [] else xss[0] + Concat(xss[1..])
  }

  /** A non-empty sequence is its prefix followed by its last element. */
  lemma SplitLast<T>(s: seq<T>)
    requires s != []
    ensures s[..|s| - 1] + [s[|s| - 1]] == s
  {
  }

  /** Appending one more answer to the loop's input appends its value, if any, to the kept answers. */
  lemma {:induction false} SomesSnoc<M>(xs: seq<Option<M>>, x: Option<M>)
    ensures Somes(xs + [x]) == Somes(xs) + (if x.Some? then [x.value] else [])
  {
    if xs != [] {
      assert (xs + [x])[1..] == xs[1..] + [x];
      SomesSnoc(xs[1..], x);
    } else {
      assert xs + [x] == [x];
    }
  }

  /** The first present answer is exactly the head of the present answers. */
  lemma {:induction false} FirstSomeIsHeadOfSomes<M>(xs: seq<Option<M>>)
    ensures FirstSome(xs) == if Somes(xs) == [] then None else Some(Somes(xs)[0])
  {
    if xs != [] && xs[0].None? {
      FirstSomeIsHeadOfSomes(xs[1..]);
    }
  }

  /** Appending one more list to the loop's input appends it to the concatenation. */
  lemma {:induction false} ConcatSnoc<T>(xss: seq<seq<T>>, xs: seq<T>)
    ensures Concat(xss + [xs]) == Concat(xss) + xs
  {
    if xss == [] {
      assert xss + [xs] == [xs];
    } else {
      assert (xss + [xs])[1..] == xss[1..] + [xs];
      ConcatSnoc(xss[1..], xs);
    }
  }

  /** Concatenation distributes over splitting its input. */
  lemma {:induction false} ConcatAppend<T>(a: seq<seq<T>>, b: seq<seq<T>>)
    ensures Concat(a + b) == Concat(a) + Concat(b)
  {
    if a == [] {
      assert a + b == b;
    } else {
      assert (a + b)[1..] == a[1..] + b;
      ConcatAppend(a[1..], b);
    }
  }

  /** The concatenation is empty exactly when every list is. */
  lemma {:induction false} ConcatEmpty<T>(xss: seq<seq<T>>)
    ensures Concat(xss) == [] <==> forall i :: 0 <= i < |xss| ==> xss[i] == []
  {
    if xss != [] {
      ConcatEmpty(xss[1..]);
      assert forall i :: 1 <= i < |xss| ==> xss[i] == xss[1..][i - 1];
    }
  }

  /** The first present answer is the one at the lowest index that has one. */
  lemma FirstSomeAt<M>(xs: seq<Option<M>>, i: nat)
    requires i < |xs| && xs[i].Some?
    requires forall j :: 0 <= j < i ==> xs[j].None?
    ensures FirstSome(xs) == xs[i]
  {
  }
}
