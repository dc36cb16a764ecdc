/** JavaScript's `Array.prototype.filter` on immutable sequences, and the facts the stores rely on. */
module Lists {

  /** The elements of `s` that satisfy `keep`, in their original order. */
  function Filter<T(!new)>(s: seq<T>, keep: T -> bool): (r: seq<T>)
    ensures |r| <= |s|
    ensures forall x :: x in r <==> x in s && keep(x)
    ensures forall i :: 0 <= i < |r| ==> keep(r[i])
    decreases |s|
  {
    if s == [] then []
    else if keep(s[0]) then [s[0]] + Filter(s[1..], keep)
    else Filter(s[1..], keep)
  }

  /** Filtering distributes over concatenation: the relative order of the kept elements is the original one. */
  lemma {:induction false} FilterConcat<T(!new)>(a: seq<T>, b: seq<T>, keep: T -> bool)
    ensures Filter(a + b, keep) == Filter(a, keep) + Filter(b, keep)
    decreases |a|
  {
    if a == [] {
      assert a + b == b;
    } else {
      assert (a + b)[0] == a[0];
      assert (a + b)[1..] == a[1..] + b;
      FilterConcat(a[1..], b, keep);
    }
  }

  /** A filter that rejects nothing returns its input unchanged. */
  lemma {:induction false} FilterKeepsAll<T(!new)>(s: seq<T>, keep: T -> bool)
    requires forall i :: 0 <= i < |s| ==> keep(s[i])
    ensures Filter(s, keep) == s
    decreases |s|
  {
    if s != [] {
      FilterKeepsAll(s[1..], keep);
    }
  }

  /** A filter that rejects something strictly shortens its input. */
  lemma {:induction false} FilterDropsSome<T(!new)>(s: seq<T>, keep: T -> bool, k: nat)
    requires k < |s| && !keep(s[k])
    ensures |Filter(s, keep)| < |s|
    decreases |s|
  {
    if k > 0 {
      FilterDropsSome(s[1..], keep, k - 1);
    }
  }

  /** `a` is `b` with some elements deleted: every element of `a` occurs in `b`, in the same relative order. */
  predicate Subsequence<T(==)>(a: seq<T>, b: seq<T>)
    decreases |b|
  {
    if a == [] then true
    else if b == [] then false
    else (a[0] == b[0] && Subsequence(a[1..], b[1..])) || Subsequence(a, b[1..])
  }

  /** Every sequence is a subsequence of itself. */
  lemma {:induction false} SubsequenceOfItself<T>(s: seq<T>)
    ensures Subsequence(s, s)
    decreases |s|
  {
    if s != [] {
      SubsequenceOfItself(s[1..]);
    }
  }

  /** A filter keeps its survivors in their original order. */
  lemma {:induction false} FilterIsSubsequence<T(!new)>(s: seq<T>, keep: T -> bool)
    ensures Subsequence(Filter(s, keep), s)
    decreases |s|
  {
    if s != [] {
      FilterIsSubsequence(s[1..], keep);
      if keep(s[0]) {
        var r := Filter(s, keep);
        assert r[0] == s[0] && r[1..] == Filter(s[1..], keep);
      }
    }
  }

  /** The number of elements of `s` that satisfy `p`, counted one at a time. */
  function CountWhere<T>(s: seq<T>, p: T -> bool): nat
    decreases |s|
  {
    if s == [] then 0 else (if p(s[0]) then 1 else 0) + CountWhere(s[1..], p)
  }

  /** A filter keeps exactly the elements that satisfy its predicate, duplicates included. */
  lemma {:induction false} FilterLength<T(!new)>(s: seq<T>, keep: T -> bool)
    ensures |Filter(s, keep)| == CountWhere(s, keep)
    decreases |s|
  {
    if s != [] {
      FilterLength(s[1..], keep);
    }
  }

  /** `Array.prototype.findIndex` as a natural number: the first index satisfying `p`, or `|s|` when none does. */
  function FindFirst<T>(s: seq<T>, p: T -> bool): (k: nat)
    ensures k <= |s|
    ensures k < |s| ==> p(s[k])
    ensures forall j :: 0 <= j < k ==> !p(s[j])
    decreases |s|
  {
    if s == [] then 0 else if p(s[0]) then 0 else 1 + FindFirst(s[1..], p)
  }
}
