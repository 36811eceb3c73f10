/** Sequence operations that stand for JavaScript's Array.prototype.filter and reduce. */
module Seqs {

  /** `s.filter(p)`: the elements of `s` that satisfy `p`, in their original order. */
  function Filter<T>(p: T -> bool, s: seq<T>): (r: seq<T>)
    ensures |r| <= |s|
  {
    if s == [] then [] else (if p(s[0]) then [s[0]] else []) + Filter(p, s[1..])
  }

  /** An element is kept exactly when it occurs in `s` and passes; when none passes, nothing is kept. */
  lemma {:induction false} FilterMembers<T>(p: T -> bool, s: seq<T>)
    ensures forall x :: x in Filter(p, s) <==> x in s && p(x)
    ensures (forall x :: x in s ==> !p(x)) ==> Filter(p, s) == []
  {
    if s != [] {
      FilterMembers(p, s[1..]);
      assert forall x :: x in s <==> x == s[0] || x in s[1..];
    }
  }

  /** One step of the filter: the head is kept exactly when it passes. */
  lemma FilterCons<T>(p: T -> bool, x: T, s: seq<T>)
    ensures Filter(p, [x] + s) == (if p(x) then [x] else []) + Filter(p, s)
  {
    assert ([x] + s)[1..] == s;
  }

  /** `idx` lists, in strictly increasing order, the positions in `s` that `r` was taken from. */
  ghost predicate Embeds<T>(r: seq<T>, s: seq<T>, idx: seq<int>) {
    && |idx| == |r|
    && (forall i :: 0 <= i < |idx| ==> 0 <= idx[i] < |s| && r[i] == s[idx[i]])
    && (forall i, j :: 0 <= i < j < |idx| ==> idx[i] < idx[j])
  }

  /** No element occurs twice. */
  predicate Distinct<T(==)>(s: seq<T>) {
    forall i, j :: 0 <= i < j < |s| ==> s[i] != s[j]
  }

  /** Positions in `s[1..]` move one place up in `s`. */
  lemma EmbedsInTail<T>(r: seq<T>, s: seq<T>, idx: seq<int>) returns (shifted: seq<int>)
    requires |s| > 0 && Embeds(r, s[1..], idx)
    ensures Embeds(r, s, shifted)
    ensures forall i :: 0 <= i < |shifted| ==> shifted[i] > 0
  {
    shifted := seq(|idx|, i requires 0 <= i < |idx| => idx[i] + 1);
    forall i | 0 <= i < |shifted| ensures r[i] == s[shifted[i]] {
      assert s[1..][idx[i]] == s[idx[i] + 1];
    }
  }

  /** Taking the first element as well puts position 0 in front. */
  lemma EmbedsWithHead<T>(r: seq<T>, s: seq<T>, idx: seq<int>)
    requires |s| > 0 && Embeds(r, s, idx)
    requires forall i :: 0 <= i < |idx| ==> idx[i] > 0
    ensures Embeds([s[0]] + r, s, [0] + idx)
  {
  }

  /** Filtering only drops elements: what is left keeps the order of `s`. */
  lemma {:induction false} FilterEmbeds<T>(p: T -> bool, s: seq<T>) returns (idx: seq<int>)
    ensures Embeds(Filter(p, s), s, idx)
  {
    if s == [] {
      idx := [];
    } else {
      var rest := FilterEmbeds(p, s[1..]);
      var tail := Filter(p, s[1..]);
      var shifted := EmbedsInTail(tail, s, rest);
      if p(s[0]) {
        EmbedsWithHead(tail, s, shifted);
        idx := [0] + shifted;
      } else {
        idx := shifted;
      }
    }
  }

  /** A subsequence of a sequence without repetitions has none either. */
  lemma SubsequenceDistinct<T>(r: seq<T>, s: seq<T>, idx: seq<int>)
    requires Embeds(r, s, idx) && Distinct(s)
    ensures Distinct(r)
  {
    forall i, j | 0 <= i < j < |r| ensures r[i] != r[j] {
      assert idx[i] < idx[j];
    }
  }

  lemma {:induction false} FilterConcat<T>(p: T -> bool, a: seq<T>, b: seq<T>)
    ensures Filter(p, a + b) == Filter(p, a) + Filter(p, b)
  {
    if a == [] {
      assert a + b == b;
    } else {
      var head := if p(a[0]) then [a[0]] else [];
      assert (a + b)[0] == a[0];
      assert (a + b)[1..] == a[1..] + b;
      calc {
        Filter(p, a + b);
        head + Filter(p, a[1..] + b);
        { FilterConcat(p, a[1..], b); }
        head + (Filter(p, a[1..]) + Filter(p, b));
        (head + Filter(p, a[1..])) + Filter(p, b);
      }
    }
  }

  /** Filtering twice with the same predicate changes nothing the second time. */
  lemma {:induction false} FilterIdempotent<T>(p: T -> bool, s: seq<T>)
    ensures Filter(p, Filter(p, s)) == Filter(p, s)
  {
    if s != [] {
      FilterIdempotent(p, s[1..]);
      var head := if p(s[0]) then [s[0]] else [];
      FilterConcat(p, head, Filter(p, s[1..]));
      if p(s[0]) {
        assert Filter(p, head) == [s[0]] + Filter(p, []);
      } else {
        assert Filter(p, head) == [];
      }
    }
  }

  /** When every element passes, nothing is dropped. */
  lemma {:induction false} FilterKeepsAll<T>(p: T -> bool, s: seq<T>)
    requires forall x :: x in s ==> p(x)
    ensures Filter(p, s) == s
  {
    if s != [] {
      FilterKeepsAll(p, s[1..]);
      assert [s[0]] + s[1..] == s;
    }
  }

  /** Two tests that agree on every element of `s` keep the same elements. */
  lemma {:induction false} FilterAgree<T>(p: T -> bool, q: T -> bool, s: seq<T>)
    requires forall x :: x in s ==> p(x) == q(x)
    ensures Filter(p, s) == Filter(q, s)
  {
    if s != [] {
      assert forall x :: x in s[1..] ==> x in s;
      FilterAgree(p, q, s[1..]);
    }
  }

  /** Taking the element at `j` out of a sequence takes one occurrence of it out of its multiset. */
  lemma MultisetWithout<T>(xs: seq<T>, j: int)
    requires 0 <= j < |xs|
    ensures multiset(xs) == multiset(xs[..j] + xs[j + 1..]) + multiset{xs[j]}
  {
    assert xs == xs[..j] + [xs[j]] + xs[j + 1..];
  }

  /**
    A permutation of a non-empty `a` holds its last element at some position `j`; without those
    two occurrences, the rest is still a permutation.
  */
  lemma PermutationSplit<T>(a: seq<T>, b: seq<T>) returns (j: int)
    requires a != [] && multiset(a) == multiset(b)
    ensures 0 <= j < |b| && b[j] == a[|a| - 1]
    ensures multiset(a[..|a| - 1]) == multiset(b[..j] + b[j + 1..])
  {
    var x := a[|a| - 1];
    MultisetWithout(a, |a| - 1);
    assert a[..|a| - 1] + a[|a|..] == a[..|a| - 1];
    assert x in multiset(b);
    j :| 0 <= j < |b| && b[j] == x;
    MultisetWithout(b, j);
    MultisetCancel(multiset(a[..|a| - 1]), multiset(b[..j] + b[j + 1..]), x);
  }

  /** One occurrence of the same element can be cancelled from both sides. */
  lemma MultisetCancel<T>(m: multiset<T>, n: multiset<T>, x: T)
    requires m + multiset{x} == n + multiset{x}
    ensures m == n
  {
    forall y ensures m[y] == n[y] {
      assert (m + multiset{x})[y] == (n + multiset{x})[y];
    }
  }

  /** Filtering a permutation gives a permutation of the filtered sequence. */
  lemma {:induction false} FilterPermutation<T>(p: T -> bool, a: seq<T>, b: seq<T>)
    requires multiset(a) == multiset(b)
    ensures multiset(Filter(p, a)) == multiset(Filter(p, b))
    decreases |a|
  {
    if a == [] {
      assert |b| == |multiset(b)| == 0;
    } else {
      var n := |a| - 1;
      var j := PermutationSplit(a, b);
      FilterPermutation(p, a[..n], b[..j] + b[j + 1..]);
      assert a == a[..n] + [a[n]];
      FilterConcat(p, a[..n], [a[n]]);
      assert b == b[..j] + [b[j]] + b[j + 1..];
      FilterConcat(p, b[..j] + [b[j]], b[j + 1..]);
      FilterConcat(p, b[..j], [b[j]]);
      FilterConcat(p, b[..j], b[j + 1..]);
    }
  }

  /** The sum `reduce` computes from 0. */
  function Sum(xs: seq<real>): real {
    if xs == [] then 0.0 else xs[0] + Sum(xs[1..])
  }

  lemma {:induction false} SumConcat(a: seq<real>, b: seq<real>)
    ensures Sum(a + b) == Sum(a) + Sum(b)
  {
    if a == [] {
      assert a + b == b;
    } else {
      assert (a + b)[1..] == a[1..] + b;
      SumConcat(a[1..], b);
    }
  }

  /** A sum of readings that all lie in [lo, hi] lies between |xs|*lo and |xs|*hi. */
  lemma {:induction false} SumBounds(xs: seq<real>, lo: real, hi: real)
    requires forall i :: 0 <= i < |xs| ==> lo <= xs[i] <= hi
    ensures |xs| as real * lo <= Sum(xs) <= |xs| as real * hi
  {
    if xs != [] {
      SumBounds(xs[1..], lo, hi);
      assert (|xs| as real) * lo == lo + (|xs| - 1) as real * lo;
      assert (|xs| as real) * hi == hi + (|xs| - 1) as real * hi;
    }
  }

  /** A sum of non-negative readings is non-negative. */
  lemma {:induction false} SumNonNegative(xs: seq<real>)
    requires forall i :: 0 <= i < |xs| ==> 0.0 <= xs[i]
    ensures 0.0 <= Sum(xs)
  {
    if xs != [] {
      SumNonNegative(xs[1..]);
    }
  }

  /** The sum does not depend on the order of the summands. */
  lemma {:induction false} SumPermutation(xs: seq<real>, ys: seq<real>)
    requires multiset(xs) == multiset(ys)
    ensures Sum(xs) == Sum(ys)
    decreases |xs|
  {
    if xs == [] {
      assert |ys| == |multiset(ys)| == 0;
    } else {
      var n := |xs| - 1;
      var j := PermutationSplit(xs, ys);
      SumPermutation(xs[..n], ys[..j] + ys[j + 1..]);
      assert xs == xs[..n] + [xs[n]];
      SumConcat(xs[..n], [xs[n]]);
      assert ys == ys[..j] + [ys[j]] + ys[j + 1..];
      SumConcat(ys[..j] + [ys[j]], ys[j + 1..]);
      SumConcat(ys[..j], [ys[j]]);
      SumConcat(ys[..j], ys[j + 1..]);
      assert Sum([xs[n]]) == xs[n] + Sum([]);
    }
  }

  /** Smallest element. */
  function Min(xs: seq<real>): (m: real)
    requires xs != []
    ensures m in xs
    ensures forall i :: 0 <= i < |xs| ==> m <= xs[i]
  {
    if |xs| == 1 then xs[0]
    else var rest := Min(xs[1..]); if xs[0] <= rest then xs[0] else rest
  }

  /** Largest element. */
  function Max(xs: seq<real>): (m: real)
    requires xs != []
    ensures m in xs
    ensures forall i :: 0 <= i < |xs| ==> xs[i] <= m
  {
    if |xs| == 1 then xs[0]
    else var rest := Max(xs[1..]); if xs[0] >= rest then xs[0] else rest
  }

  /** The arithmetic mean, `sum / length`, of a non-empty sequence; `MeanBounds` bounds it. */
  function Mean(xs: seq<real>): real
    requires xs != []
  {
    Sum(xs) / |xs| as real
  }

  /** The mean of readings that all lie in [lo, hi] lies in [lo, hi]. */
  lemma MeanBounds(xs: seq<real>, lo: real, hi: real)
    requires xs != []
    requires forall i :: 0 <= i < |xs| ==> lo <= xs[i] <= hi
    ensures lo <= Mean(xs) <= hi
  {
    SumBounds(xs, lo, hi);
    MeanBetween(Sum(xs), |xs| as real, lo, hi);
  }

  lemma MeanBetween(total: real, n: real, lo: real, hi: real)
    requires n > 0.0 && n * lo <= total <= n * hi
    ensures lo <= total / n <= hi
  {
    assert total / n * n == total;
  }
}
