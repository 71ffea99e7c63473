/**
 Folds and subsequences over finite sequences: the two list primitives the
 dashboard's aggregation is built from. `Reduce` is the left fold of
 JavaScript's `Array.prototype.reduce` with an explicit initial accumulator;
 `Sum` is an independent, right-recursive reference definition of the same
 total, and the lemmas here relate the two and state the algebra of `Sum`.
 */
module Sequences {

  /** Left fold: `s.reduce((acc, curr) => acc + f(curr), acc)`. */
  function Reduce<T>(s: seq<T>, f: T -> int, acc: int): int
    decreases |s|
  {
    if s == [] then acc else Reduce(s[1..], f, acc + f(s[0]))
  }

  /** Reference total of `f` over `s`, folded from the right. */
  function Sum<T>(s: seq<T>, f: T -> int): int
    decreases |s|
  {
    if s == [] then 0 else f(s[0]) + Sum(s[1..], f)
  }

  /** `r` can be obtained from `s` by deleting elements, keeping the order. */
  predicate IsSubsequence<T(==)>(r: seq<T>, s: seq<T>)
    decreases |s|
  {
    if r == [] then true
    else if s == [] then false
    else if r[0] == s[0] then IsSubsequence(r[1..], s[1..])
    else IsSubsequence(r, s[1..])
  }

  /** Every element of `s` maps to a non-negative value under `f`. */
  predicate AllNonNegative<T>(s: seq<T>, f: T -> int) {
    forall i :: 0 <= i < |s| ==> f(s[i]) >= 0
  }

  /** The left fold from `acc` is `acc` plus the reference total. */
  lemma {:induction false} ReduceIsSum<T>(s: seq<T>, f: T -> int, acc: int)
    ensures Reduce(s, f, acc) == acc + Sum(s, f)
    decreases |s|
  {
    if s != [] {
      ReduceIsSum(s[1..], f, acc + f(s[0]));
    }
  }

  /** The total over a concatenation is the sum of the totals. */
  lemma {:induction false} SumAppend<T>(a: seq<T>, b: seq<T>, f: T -> int)
    ensures Sum(a + b, f) == Sum(a, f) + Sum(b, f)
    decreases |a|
  {
    if a == [] {
      assert a + b == b;
    } else {
      assert (a + b)[1..] == a[1..] + b;
      SumAppend(a[1..], b, f);
    }
  }

  /** Folding a concatenation is folding the second part from the first's result. */
  lemma ReduceAppend<T>(a: seq<T>, b: seq<T>, f: T -> int, acc: int)
    ensures Reduce(a + b, f, acc) == Reduce(b, f, Reduce(a, f, acc))
  {
    ReduceIsSum(a + b, f, acc);
    ReduceIsSum(a, f, acc);
    ReduceIsSum(b, f, Reduce(a, f, acc));
    SumAppend(a, b, f);
  }

  /** The total does not depend on the order of the elements. */
  lemma {:induction false} SumPermutation<T>(a: seq<T>, b: seq<T>, f: T -> int)
    requires multiset(a) == multiset(b)
    ensures Sum(a, f) == Sum(b, f)
    decreases |a|
  {
    if a == [] {
      assert |b| == |multiset(b)| == 0;
    } else {
      assert a[0] in multiset(b);
      var i :| 0 <= i < |b| && b[i] == a[0];
      var rest := b[..i] + b[i + 1..];
      assert b == b[..i] + [b[i]] + b[i + 1..];
      assert a == [a[0]] + a[1..];
      assert multiset(a[1..]) == multiset(rest) by {
        assert multiset(b) == multiset(b[..i]) + multiset{b[i]} + multiset(b[i + 1..]);
        assert multiset(a) == multiset{a[0]} + multiset(a[1..]);
        assert multiset(rest) == multiset(b[..i]) + multiset(b[i + 1..]);
        assert multiset(a[1..]) == multiset(a) - multiset{a[0]};
        assert multiset(rest) == multiset(b) - multiset{b[i]};
      }
      SumPermutation(a[1..], rest, f);
      SumAppend(b[..i] + [b[i]], b[i + 1..], f);
      SumAppend(b[..i], [b[i]], f);
      SumAppend(b[..i], b[i + 1..], f);
      assert Sum([b[i]], f) == f(b[i]) by {
        assert [b[i]][1..] == [];
      }
    }
  }

  /** A total of non-negative values is non-negative. */
  lemma {:induction false} SumNonNegative<T>(s: seq<T>, f: T -> int)
    requires AllNonNegative(s, f)
    ensures Sum(s, f) >= 0
    decreases |s|
  {
    if s != [] {
      assert f(s[0]) >= 0;
      assert AllNonNegative(s[1..], f) by {
        forall i | 0 <= i < |s[1..]| ensures f(s[1..][i]) >= 0 {
          assert s[1..][i] == s[i + 1];
        }
      }
      SumNonNegative(s[1..], f);
    }
  }

  /** Dropping non-negative elements cannot increase the total. */
  lemma {:induction false} SumSubsequenceLe<T>(r: seq<T>, s: seq<T>, f: T -> int)
    requires IsSubsequence(r, s)
    requires AllNonNegative(s, f)
    ensures Sum(r, f) <= Sum(s, f)
    decreases |s|
  {
    if r == [] {
      SumNonNegative(s, f);
    } else {
      assert s != [];
      assert f(s[0]) >= 0;
      assert AllNonNegative(s[1..], f) by {
        forall i | 0 <= i < |s[1..]| ensures f(s[1..][i]) >= 0 {
          assert s[1..][i] == s[i + 1];
        }
      }
      if r[0] == s[0] {
        SumSubsequenceLe(r[1..], s[1..], f);
      } else {
        SumSubsequenceLe(r, s[1..], f);
      }
    }
  }

  /** Every sequence is a subsequence of itself. */
  lemma {:induction false} SubsequenceReflexive<T>(s: seq<T>)
    ensures IsSubsequence(s, s)
    decreases |s|
  {
    if s != [] {
      SubsequenceReflexive(s[1..]);
    }
  }

  /** Elements of a subsequence are elements of the sequence. */
  lemma {:induction false} SubsequenceMembers<T>(r: seq<T>, s: seq<T>, x: T)
    requires IsSubsequence(r, s)
    requires x in r
    ensures x in s
    decreases |s|
  {
    if r[0] == s[0] {
      if x != r[0] {
        assert x in r[1..];
        SubsequenceMembers(r[1..], s[1..], x);
      }
    } else {
      SubsequenceMembers(r, s[1..], x);
    }
  }

  /** A subsequence of the tail is a subsequence of the whole. */
  lemma {:induction false} SubsequenceSkip<T>(r: seq<T>, s: seq<T>)
    requires s != []
    requires IsSubsequence(r, s[1..])
    ensures IsSubsequence(r, s)
    decreases |s|, 0
  {
    if r != [] && r[0] == s[0] {
      SubsequenceTail(r, s[1..]);
    }
  }

  /** Dropping the first element of a subsequence keeps it a subsequence. */
  lemma {:induction false} SubsequenceTail<T>(r: seq<T>, t: seq<T>)
    requires r != []
    requires IsSubsequence(r, t)
    ensures IsSubsequence(r[1..], t)
    decreases |t|, 1
  {
    if r[0] == t[0] {
      SubsequenceSkip(r[1..], t);
    } else {
      SubsequenceTail(r, t[1..]);
      SubsequenceSkip(r[1..], t);
    }
  }
}
