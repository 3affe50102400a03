/** Order-preserving filtering, subsequences and counting, the shapes of Rust's
    `iter().filter().collect()` and `Vec::retain`. */
module Seqs {

  /** The elements of `xs` that satisfy `keep`, in their original order. */
  function Filter<T(==,!new)>(keep: T -> bool, xs: seq<T>): (ys: seq<T>)
    ensures |ys| <= |xs|
    ensures forall y :: y in ys <==> y in xs && keep(y)
  {
    if xs == [] then []
    else if keep(xs[0]) then [xs[0]] + Filter(keep, xs[1..])
    else Filter(keep, xs[1..])
  }

  /** `xs` is `ys` with some elements removed, the rest kept in order. */
  predicate IsSubsequence<T(==)>(xs: seq<T>, ys: seq<T>)
    decreases |ys|
  {
    if xs == [] then true
    else if ys == [] then false
    else (xs[0] == ys[0] && IsSubsequence(xs[1..], ys[1..])) || IsSubsequence(xs, ys[1..])
  }

  lemma {:induction false} SubsequenceOfItself<T>(xs: seq<T>)
    ensures IsSubsequence(xs, xs)
  {
    if xs != [] {
      SubsequenceOfItself(xs[1..]);
    }
  }

  lemma {:induction false} SubsequenceTransitive<T>(xs: seq<T>, ys: seq<T>, zs: seq<T>)
    requires IsSubsequence(xs, ys) && IsSubsequence(ys, zs)
    ensures IsSubsequence(xs, zs)
    decreases |zs|
  {
    if xs != [] {
      if ys[0] == zs[0] && IsSubsequence(ys[1..], zs[1..]) {
        if xs[0] == ys[0] && IsSubsequence(xs[1..], ys[1..]) {
          SubsequenceTransitive(xs[1..], ys[1..], zs[1..]);
        } else {
          SubsequenceTransitive(xs, ys[1..], zs[1..]);
        }
      } else {
        SubsequenceTransitive(xs, ys, zs[1..]);
      }
    }
  }

  lemma {:induction false} FilterIsSubsequence<T(!new)>(keep: T -> bool, xs: seq<T>)
    ensures IsSubsequence(Filter(keep, xs), xs)
  {
    if xs != [] {
      FilterIsSubsequence(keep, xs[1..]);
    }
  }

  /** Filtering twice is filtering once by both tests. */
  lemma {:induction false} FilterFilter<T(!new)>(first: T -> bool, second: T -> bool, xs: seq<T>)
    ensures Filter(second, Filter(first, xs)) == Filter(x => first(x) && second(x), xs)
  {
    if xs != [] {
      FilterFilter(first, second, xs[1..]);
    }
  }

  lemma {:induction false} FilterAppend<T(!new)>(keep: T -> bool, xs: seq<T>, ys: seq<T>)
    ensures Filter(keep, xs + ys) == Filter(keep, xs) + Filter(keep, ys)
  {
    if xs == [] {
      assert xs + ys == ys;
    } else {
      assert (xs + ys)[1..] == xs[1..] + ys;
      FilterAppend(keep, xs[1..], ys);
    }
  }

  /** Two tests that agree on every element filter alike. */
  lemma {:induction false} FilterCongruent<T(!new)>(f: T -> bool, g: T -> bool, xs: seq<T>)
    requires forall i :: 0 <= i < |xs| ==> f(xs[i]) == g(xs[i])
    ensures Filter(f, xs) == Filter(g, xs)
  {
    if xs != [] {
      FilterCongruent(f, g, xs[1..]);
    }
  }

  /** The number of elements of `xs` that satisfy `p`. */
  function Count<T(==,!new)>(p: T -> bool, xs: seq<T>): (n: nat)
    ensures n <= |xs|
    ensures n == |Filter(p, xs)|
  {
    if xs == [] then 0 else (if p(xs[0]) then 1 else 0) + Count(p, xs[1..])
  }

  lemma {:induction false} CountComplement<T(!new)>(p: T -> bool, xs: seq<T>)
    ensures Count(p, xs) + Count(x => !p(x), xs) == |xs|
  {
    if xs != [] {
      CountComplement(p, xs[1..]);
    }
  }

  lemma {:induction false} CountAppend<T(!new)>(p: T -> bool, xs: seq<T>, ys: seq<T>)
    ensures Count(p, xs + ys) == Count(p, xs) + Count(p, ys)
  {
    if xs == [] {
      assert xs + ys == ys;
    } else {
      assert (xs + ys)[1..] == xs[1..] + ys;
      CountAppend(p, xs[1..], ys);
    }
  }

  /** Counting one more element of a prefix. */
  lemma CountPrefixSnoc<T(!new)>(p: T -> bool, xs: seq<T>, i: nat)
    requires i < |xs|
    ensures Count(p, xs[..i + 1]) == Count(p, xs[..i]) + (if p(xs[i]) then 1 else 0)
  {
    PrefixSnoc(xs, i);
    CountAppend(p, xs[..i], [xs[i]]);
    assert [xs[i]][1..] == [];
  }

  /** Extending a prefix by one element. */
  lemma PrefixSnoc<T>(xs: seq<T>, i: nat)
    requires i < |xs|
    ensures xs[..i + 1] == xs[..i] + [xs[i]]
  {
  }

  /** Slicing a suffix is slicing the whole. */
  lemma SliceOfSuffix<T>(s: seq<T>, a: nat, n: nat)
    requires a + n <= |s|
    ensures s[a..][..n] == s[a..a + n] && s[a..][n..] == s[a + n..]
  {
  }

  /** A sequence is its three slices around two cut points. */
  lemma ThreeParts<T>(s: seq<T>, a: nat, b: nat)
    requires a <= b <= |s|
    ensures s == s[..a] + (s[a..b] + s[b..])
  {
  }

  /** Dropping a prefix of the left operand of a concatenation. */
  lemma DropAppend<T>(a: seq<T>, b: seq<T>, k: nat)
    requires k <= |a|
    ensures (a + b)[k..] == a[k..] + b
  {
  }

  lemma ConcatAssoc<T>(x: seq<T>, y: seq<T>, z: seq<T>)
    ensures x + (y + z) == (x + y) + z
  {
  }
}
