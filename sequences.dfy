/**
 * Sequence helpers shared by the catalog filters: JavaScript's `Array.filter`,
 * dropping `null` entries, and `slice(0, end)`.
 */
module Sequences {
  import opened Wrappers

  /** `xs` is an order-preserving subsequence of `ys`. */
  predicate IsSubsequence<T(==)>(xs: seq<T>, ys: seq<T>)
    decreases |ys|
  {
    if xs == [] then true
    else if ys == [] then false
    else if xs[0] == ys[0] then IsSubsequence(xs[1..], ys[1..])
    else IsSubsequence(xs, ys[1..])
  }

  lemma ConcatAssociative<T>(a: seq<T>, b: seq<T>, c: seq<T>, d: seq<T>)
    ensures a + b + c + d == a + (b + c + d)
  {
  }

  /** `Array.prototype.filter`: the elements satisfying `p`, in their original order. */
  function Filter<T>(p: T -> bool, xs: seq<T>): (r: seq<T>)
    ensures |r| <= |xs|
    ensures forall x :: x in r ==> x in xs && p(x)
    decreases |xs|
  {
    if xs == [] then [] else (if p(xs[0]) then [xs[0]] else []) + Filter(p, xs[1..])
  }

  lemma {:induction false} FilterMembership<T>(p: T -> bool, xs: seq<T>, x: T)
    ensures x in Filter(p, xs) <==> x in xs && p(x)
    decreases |xs|
  {
    if xs != [] {
      FilterMembership(p, xs[1..], x);
      assert xs == [xs[0]] + xs[1..];
    }
  }

  lemma {:induction false} FilterIsSubsequence<T>(p: T -> bool, xs: seq<T>)
    ensures IsSubsequence(Filter(p, xs), xs)
    decreases |xs|
  {
    if xs != [] {
      FilterIsSubsequence(p, xs[1..]);
      var r := Filter(p, xs);
      if p(xs[0]) {
        assert r[0] == xs[0] && r[1..] == Filter(p, xs[1..]);
      } else {
        assert r == Filter(p, xs[1..]);
      }
    }
  }

  /** Filtering distributes over concatenation: the filter looks at each element on its own. */
  lemma {:induction false} FilterConcat<T>(p: T -> bool, xs: seq<T>, ys: seq<T>)
    ensures Filter(p, xs + ys) == Filter(p, xs) + Filter(p, ys)
    decreases |xs|
  {
    if xs == [] {
      assert xs + ys == ys;
    } else {
      var head := if p(xs[0]) then [xs[0]] else [];
      FilterConcat(p, xs[1..], ys);
      assert (xs + ys)[0] == xs[0];
      assert (xs + ys)[1..] == xs[1..] + ys;
      assert Filter(p, xs + ys) == head + Filter(p, xs[1..] + ys);
      assert Filter(p, xs) == head + Filter(p, xs[1..]);
    }
  }

  /** Keeping everything is the identity; keeping nothing gives the empty list. */
  lemma {:induction false} FilterAllOrNone<T>(p: T -> bool, xs: seq<T>)
    ensures (forall x :: x in xs ==> p(x)) ==> Filter(p, xs) == xs
    ensures (forall x :: x in xs ==> !p(x)) ==> Filter(p, xs) == []
    decreases |xs|
  {
    if xs != [] {
      FilterAllOrNone(p, xs[1..]);
      assert forall x :: x in xs[1..] ==> x in xs;
      assert xs == [xs[0]] + xs[1..];
    }
  }

  /** The values of the non-null entries, in order (`if (item)` in a `for ... of` loop). */
  function Present<T>(xs: seq<Option<T>>): (r: seq<T>)
    ensures |r| <= |xs|
    decreases |xs|
  {
    if xs == [] then []
    else Present(xs[..|xs| - 1]) + (if xs[|xs| - 1].Some? then [xs[|xs| - 1].value] else [])
  }

  /** One more step of a loop over `xs` that skips `null` entries. */
  lemma PresentStep<T>(xs: seq<Option<T>>, i: nat)
    requires i < |xs|
    ensures Present(xs[..i + 1]) == Present(xs[..i]) + if xs[i].Some? then [xs[i].value] else []
  {
    assert xs[..i + 1][..i] == xs[..i];
  }

  lemma {:induction false} PresentMembership<T>(xs: seq<Option<T>>, x: T)
    ensures x in Present(xs) <==> Some(x) in xs
    decreases |xs|
  {
    if xs != [] {
      var init := xs[..|xs| - 1];
      PresentMembership(init, x);
      assert xs == init + [xs[|xs| - 1]];
    }
  }

  /** With no `null` entry, nothing is dropped. */
  lemma {:induction false} PresentAllSome<T>(xs: seq<Option<T>>)
    requires forall i :: 0 <= i < |xs| ==> xs[i].Some?
    ensures |Present(xs)| == |xs|
    decreases |xs|
  {
    if xs != [] {
      PresentAllSome(xs[..|xs| - 1]);
    }
  }

  /** The end index `Array.prototype.slice(0, limit)` stops at (a negative limit counts from the end). */
  function SliceEnd(len: nat, limit: int): (e: nat)
    ensures e <= len
    ensures 0 <= limit ==> e == if limit < len then limit else len
    ensures limit < 0 ==> e + (-limit) == len || (e == 0 && len <= -limit)
  {
    if limit < 0 then (if len + limit < 0 then 0 else len + limit)
    else if limit < len then limit else len
  }

  /** `xs.slice(0, limit)`. */
  function Truncate<T>(xs: seq<T>, limit: int): (r: seq<T>)
    ensures 0 <= limit ==> |r| == if |xs| < limit then |xs| else limit
    ensures limit < 0 ==> |r| == if |xs| + limit < 0 then 0 else |xs| + limit
    ensures |r| <= |xs| && r == xs[..|r|]
    ensures 0 <= limit && |xs| <= limit ==> r == xs
  {
    xs[..SliceEnd(|xs|, limit)]
  }
}
