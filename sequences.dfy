/** `Array.prototype.filter` over a sequence, with the facts the table code
    relies on: it keeps exactly the elements that pass, in their order. */
module Sequences {

  function Keep<T>(xs: seq<T>, p: T -> bool): (r: seq<T>)
    ensures |r| <= |xs|
  {
    if xs == [] then [] else Keep(xs[..|xs| - 1], p) + (if p(xs[|xs| - 1]) then [xs[|xs| - 1]] else [])
  }

  /** Filtering a concatenation filters each part, so relative order is kept. */
  lemma {:induction false} KeepAppend<T>(xs: seq<T>, ys: seq<T>, p: T -> bool)
    ensures Keep(xs + ys, p) == Keep(xs, p) + Keep(ys, p)
    decreases |ys|
  {
    if ys == [] {
      assert xs + ys == xs;
    } else {
      var ys' := ys[..|ys| - 1];
      assert (xs + ys)[..|xs + ys| - 1] == xs + ys';
      KeepAppend(xs, ys', p);
    }
  }

  /** An element is kept exactly when it is in the input and passes. */
  lemma {:induction false} KeepMembers<T>(xs: seq<T>, p: T -> bool)
    ensures forall x :: x in Keep(xs, p) <==> x in xs && p(x)
  {
    if xs != [] {
      var init := xs[..|xs| - 1];
      KeepMembers(init, p);
      assert xs == init + [xs[|xs| - 1]];
    }
  }

  /** Filtering never adds copies: the result is a sub-multiset of the input. */
  lemma {:induction false} KeepSubMultiset<T>(xs: seq<T>, p: T -> bool)
    ensures multiset(Keep(xs, p)) <= multiset(xs)
  {
    if xs != [] {
      var init := xs[..|xs| - 1];
      KeepSubMultiset(init, p);
      assert xs == init + [xs[|xs| - 1]];
    }
  }

  /** A filter that every element passes keeps everything. */
  lemma {:induction false} KeepAll<T>(xs: seq<T>, p: T -> bool)
    requires forall k :: 0 <= k < |xs| ==> p(xs[k])
    ensures Keep(xs, p) == xs
  {
    if xs != [] {
      KeepAll(xs[..|xs| - 1], p);
    }
  }

  /** Nothing is kept when no element passes the test. */
  lemma {:induction false} KeepNone<T>(xs: seq<T>, p: T -> bool)
    requires forall k :: 0 <= k < |xs| ==> !p(xs[k])
    ensures Keep(xs, p) == []
  {
    if xs != [] {
      KeepNone(xs[..|xs| - 1], p);
    }
  }

  /** Number of elements that pass. */
  function Count<T>(xs: seq<T>, p: T -> bool): (n: nat)
    ensures n == |Keep(xs, p)|
  {
    if xs == [] then 0 else Count(xs[..|xs| - 1], p) + (if p(xs[|xs| - 1]) then 1 else 0)
  }

  /** Counting one more element of a prefix adds one exactly when it passes. */
  lemma CountSnoc<T>(xs: seq<T>, i: nat, p: T -> bool)
    requires i < |xs|
    ensures Count(xs[..i + 1], p) == Count(xs[..i], p) + (if p(xs[i]) then 1 else 0)
  {
    assert xs[..i + 1][..i] == xs[..i];
  }

  /** A prefix never has more passing elements than the whole sequence. */
  lemma {:induction false} CountPrefixBound<T>(xs: seq<T>, i: nat, p: T -> bool)
    requires i <= |xs|
    ensures Count(xs[..i], p) <= Count(xs, p)
    decreases |xs| - i
  {
    if i < |xs| {
      CountPrefixBound(xs, i + 1, p);
      CountSnoc(xs, i, p);
    } else {
      assert xs[..i] == xs;
    }
  }
}
