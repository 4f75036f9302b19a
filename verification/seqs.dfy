/** Order-preserving filtering (JavaScript's Array.prototype.filter) and the
    subsequence relation used to say that filtering keeps the original order. */
module Seqs {

  /** `sub` can be obtained from `xs` by deleting elements, keeping the order. */
  predicate IsSubsequence<T(==)>(sub: seq<T>, xs: seq<T>)
    decreases |xs|
  {
    if sub == [] then true
    else if xs == [] then false
    else if sub[0] == xs[0] then IsSubsequence(sub[1..], xs[1..])
    else IsSubsequence(sub, xs[1..])
  }

  /** The elements of `xs` that satisfy `keep`, in their original order. */
  function Filter<T(==)>(xs: seq<T>, keep: T -> bool): (r: seq<T>)
    ensures |r| <= |xs|
    ensures forall i | 0 <= i < |r| :: r[i] in xs && keep(r[i])
    ensures forall i | 0 <= i < |xs| && keep(xs[i]) :: xs[i] in r
    ensures IsSubsequence(r, xs)
    decreases |xs|
  {
    if xs == [] then []
    else if keep(xs[0]) then [xs[0]] + Filter(xs[1..], keep)
    else Filter(xs[1..], keep)
  }

  /** A filter every element passes returns the list unchanged. */
  lemma {:induction false} FilterKeepsAll<T>(xs: seq<T>, keep: T -> bool)
    requires forall x | x in xs :: keep(x)
    ensures Filter(xs, keep) == xs
    decreases |xs|
  {
    if xs != [] {
      assert xs[0] in xs;
      forall x | x in xs[1..] ensures keep(x) {
        assert x in xs;
      }
      FilterKeepsAll(xs[1..], keep);
      assert [xs[0]] + xs[1..] == xs;
    }
  }

  /** A filter no element passes returns the empty list. */
  lemma {:induction false} FilterKeepsNone<T>(xs: seq<T>, keep: T -> bool)
    requires forall x | x in xs :: !keep(x)
    ensures Filter(xs, keep) == []
    decreases |xs|
  {
    if xs != [] {
      assert xs[0] in xs;
      forall x | x in xs[1..] ensures !keep(x) {
        assert x in xs;
      }
      FilterKeepsNone(xs[1..], keep);
    }
  }

  /** Filtering a concatenation filters each part. */
  lemma {:induction false} FilterAppend<T>(xs: seq<T>, ys: seq<T>, keep: T -> bool)
    ensures Filter(xs + ys, keep) == Filter(xs, keep) + Filter(ys, keep)
    decreases |xs|
  {
    if xs == [] {
      assert xs + ys == ys;
    } else {
      assert (xs + ys)[0] == xs[0];
      assert (xs + ys)[1..] == xs[1..] + ys;
      FilterAppend(xs[1..], ys, keep);
    }
  }

  /** Every element's key is above `low`. */
  predicate KeysAbove<T>(xs: seq<T>, key: T -> int, low: int) {
    forall i | 0 <= i < |xs| :: low < key(xs[i])
  }

  /** The keys strictly increase along the list. */
  predicate KeysIncreasing<T>(xs: seq<T>, key: T -> int) {
    forall i, j | 0 <= i < j < |xs| :: key(xs[i]) < key(xs[j])
  }

  /** Filtering keeps a lower bound on a key. */
  lemma {:induction false} FilterKeepsLowerBound<T>(xs: seq<T>, keep: T -> bool, key: T -> int, low: int)
    requires KeysAbove(xs, key, low)
    ensures KeysAbove(Filter(xs, keep), key, low)
    decreases |xs|
  {
    if xs != [] {
      var tail := xs[1..];
      assert KeysAbove(tail, key, low) by {
        forall i | 0 <= i < |tail| ensures low < key(tail[i]) {
          assert tail[i] == xs[i + 1];
        }
      }
      FilterKeepsLowerBound(tail, keep, key, low);
      var rest := Filter(tail, keep);
      if keep(xs[0]) {
        var r := [xs[0]] + rest;
        assert Filter(xs, keep) == r;
        forall i | 0 <= i < |r| ensures low < key(r[i]) {
          if i > 0 {
            assert r[i] == rest[i - 1];
          }
        }
      }
    }
  }

  /** Filtering keeps a list whose keys strictly increase in that order. */
  lemma {:induction false} FilterKeepsIncreasing<T>(xs: seq<T>, keep: T -> bool, key: T -> int)
    requires KeysIncreasing(xs, key)
    ensures KeysIncreasing(Filter(xs, keep), key)
    decreases |xs|
  {
    if xs != [] {
      var tail := xs[1..];
      assert KeysIncreasing(tail, key) by {
        forall i, j | 0 <= i < j < |tail| ensures key(tail[i]) < key(tail[j]) {
          assert tail[i] == xs[i + 1] && tail[j] == xs[j + 1];
        }
      }
      assert KeysAbove(tail, key, key(xs[0])) by {
        forall i | 0 <= i < |tail| ensures key(xs[0]) < key(tail[i]) {
          assert tail[i] == xs[i + 1];
        }
      }
      FilterKeepsIncreasing(tail, keep, key);
      FilterKeepsLowerBound(tail, keep, key, key(xs[0]));
      var rest := Filter(tail, keep);
      if keep(xs[0]) {
        var r := [xs[0]] + rest;
        assert Filter(xs, keep) == r;
        forall i, j | 0 <= i < j < |r| ensures key(r[i]) < key(r[j]) {
          assert r[j] == rest[j - 1];
          if i > 0 {
            assert r[i] == rest[i - 1];
          }
        }
      }
    }
  }

  /** Dropping position k shifts every later element down by one. */
  lemma RemoveAt<T>(xs: seq<T>, k: int)
    requires 0 <= k < |xs|
    ensures |xs[..k] + xs[k + 1..]| == |xs| - 1
    ensures forall i | 0 <= i < k :: (xs[..k] + xs[k + 1..])[i] == xs[i]
    ensures forall i | k < i < |xs| :: (xs[..k] + xs[k + 1..])[i - 1] == xs[i]
  {
  }

  /** The list in reverse order. */
  function Reverse<T>(xs: seq<T>): (r: seq<T>)
    ensures |r| == |xs|
    ensures forall i | 0 <= i < |xs| :: r[i] == xs[|xs| - 1 - i]
    decreases |xs|
  {
    if xs == [] then [] else Reverse(xs[1..]) + [xs[0]]
  }

  /** Reversing keeps exactly the same elements. */
  lemma ReverseSameElements<T>(xs: seq<T>)
    ensures forall i | 0 <= i < |xs| :: xs[i] in Reverse(xs)
    ensures forall i | 0 <= i < |xs| :: Reverse(xs)[i] in xs
  {
    var r := Reverse(xs);
    forall i | 0 <= i < |xs| ensures xs[i] in r {
      assert r[|xs| - 1 - i] == xs[i];
    }
  }
}
