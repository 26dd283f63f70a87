/** Sequence helpers shared by the catalog, the generator and the swap engine:
    an order-preserving filter (Array.prototype.filter), a prefix take
    (Array.prototype.slice(0, n)), a left-fold sum (reduce with 0) and the
    subsequence relation used to say "catalog order is kept". */
module Seqs {

  /** `a` can be obtained from `b` by deleting elements; order is kept. */
  ghost predicate IsSubsequence<T>(a: seq<T>, b: seq<T>)
    decreases |b|
  {
    if |a| == 0 then true
    else if |b| == 0 then false
    else (a[0] == b[0] && IsSubsequence(a[1..], b[1..])) || IsSubsequence(a, b[1..])
  }

  /** The elements of `s` that satisfy `p`, in their order in `s`. */
  function Filter<T(!new)>(s: seq<T>, p: T -> bool): (r: seq<T>)
    ensures |r| <= |s|
    ensures forall x :: x in r <==> x in s && p(x)
  {
    if |s| == 0 then []
    else if p(s[0]) then [s[0]] + Filter(s[1..], p)
    else Filter(s[1..], p)
  }

  lemma {:induction false} FilterIsSubsequence<T(!new)>(s: seq<T>, p: T -> bool)
    ensures IsSubsequence(Filter(s, p), s)
    decreases |s|
  {
    if |s| > 0 {
      FilterIsSubsequence(s[1..], p);
      if !p(s[0]) {
        var f := Filter(s[1..], p);
        if |f| > 0 {
          assert Filter(s, p) == f;
        }
      }
    }
  }

  /** Nothing passes a filter that rejects every element. */
  lemma {:induction false} FilterNoneAccepted<T(!new)>(s: seq<T>, p: T -> bool)
    requires forall i :: 0 <= i < |s| ==> !p(s[i])
    ensures Filter(s, p) == []
    decreases |s|
  {
    if |s| > 0 {
      FilterNoneAccepted(s[1..], p);
    }
  }

  /** When exactly one element passes, the filter yields just that element. */
  lemma {:induction false} FilterUnique<T(!new)>(s: seq<T>, p: T -> bool, k: nat)
    requires k < |s| && p(s[k])
    requires forall i :: 0 <= i < |s| && i != k ==> !p(s[i])
    ensures Filter(s, p) == [s[k]]
    decreases |s|
  {
    if k == 0 {
      FilterNoneAccepted(s[1..], p);
    } else {
      FilterUnique(s[1..], p, k - 1);
    }
  }

  /** An accepted `s[k]` sits in the filter right after the accepted
      elements that precede it. */
  lemma {:induction false} FilterPosition<T(!new)>(s: seq<T>, p: T -> bool, k: nat)
    requires k < |s| && p(s[k])
    ensures |Filter(s[..k], p)| < |Filter(s, p)|
    ensures Filter(s, p)[|Filter(s[..k], p)|] == s[k]
    decreases k
  {
    if k > 0 {
      FilterPosition(s[1..], p, k - 1);
      assert s[..k][0] == s[0];
      assert s[..k][1..] == s[1..][..k - 1];
    }
  }

  /** The first `n` elements of `s`, or all of `s` when it is shorter. */
  function Take<T>(s: seq<T>, n: nat): (r: seq<T>)
    ensures |r| == if |s| < n then |s| else n
    ensures forall i :: 0 <= i < |r| ==> r[i] == s[i]
  {
    if |s| <= n then s else s[..n]
  }

  lemma {:induction false} PrefixOfSubsequence<T>(a: seq<T>, b: seq<T>, n: nat)
    requires IsSubsequence(a, b)
    requires n <= |a|
    ensures IsSubsequence(a[..n], b)
    decreases |b|
  {
    if n > 0 && |b| > 0 {
      if a[0] == b[0] && IsSubsequence(a[1..], b[1..]) {
        PrefixOfSubsequence(a[1..], b[1..], n - 1);
        assert a[..n][1..] == a[1..][..n - 1];
      } else {
        PrefixOfSubsequence(a, b[1..], n);
      }
    }
  }

  lemma SubsequenceMembers<T>(a: seq<T>, b: seq<T>)
    requires IsSubsequence(a, b)
    ensures forall x :: x in a ==> x in b
    decreases |b|
  {
    if |a| > 0 && |b| > 0 {
      if a[0] == b[0] && IsSubsequence(a[1..], b[1..]) {
        SubsequenceMembers(a[1..], b[1..]);
        forall x | x in a ensures x in b {
          if x != a[0] {
            assert x in a[1..];
          }
        }
      } else {
        SubsequenceMembers(a, b[1..]);
      }
    }
  }

  /** Left-to-right sum, as `xs.reduce((sum, x) => sum + x, 0)`. */
  function Sum(xs: seq<real>): real
  {
    if |xs| == 0 then 0.0 else Sum(xs[..|xs| - 1]) + xs[|xs| - 1]
  }

  lemma {:induction false} SumAppend(xs: seq<real>, x: real)
    ensures Sum(xs + [x]) == Sum(xs) + x
  {
    assert (xs + [x])[..|xs|] == xs;
  }

  /** Two sequences whose terms differ by at most a half have sums that
      differ by at most a half per term. */
  lemma {:induction false} SumsWithinHalf(xs: seq<real>, ys: seq<real>)
    requires |xs| == |ys|
    requires forall i :: 0 <= i < |xs| ==> -0.5 <= xs[i] - ys[i] <= 0.5
    ensures -(|xs| as real / 2.0) <= Sum(xs) - Sum(ys) <= |xs| as real / 2.0
  {
    if |xs| > 0 {
      var n := |xs| - 1;
      SumsWithinHalf(xs[..n], ys[..n]);
    }
  }

  function Scale(xs: seq<real>, factor: real): (r: seq<real>)
    ensures |r| == |xs| && forall i :: 0 <= i < |xs| ==> r[i] == factor * xs[i]
  {
    seq(|xs|, i requires 0 <= i < |xs| => factor * xs[i])
  }

  /** Multiplication distributes over a sum. */
  lemma {:induction false} SumScale(xs: seq<real>, factor: real)
    ensures Sum(Scale(xs, factor)) == factor * Sum(xs)
  {
    if |xs| > 0 {
      var n := |xs| - 1;
      SumScale(xs[..n], factor);
      forall i | 0 <= i < n ensures Scale(xs, factor)[..n][i] == Scale(xs[..n], factor)[i] {
      }
      assert Scale(xs, factor)[..n] == Scale(xs[..n], factor);
      assert factor * (Sum(xs[..n]) + xs[n]) == factor * Sum(xs[..n]) + factor * xs[n];
    }
  }

  /** Summing two sequences that agree everywhere but at index `k`. */
  lemma {:induction false} SumUpdate(xs: seq<real>, k: nat, v: real)
    requires k < |xs|
    ensures Sum(xs[k := v]) == Sum(xs) - xs[k] + v
  {
    var n := |xs| - 1;
    if k == n {
      assert xs[k := v][..n] == xs[..n];
    } else {
      SumUpdate(xs[..n], k, v);
      assert xs[k := v][..n] == xs[..n][k := v];
    }
  }

  /** A sum of `n` equal terms is `n` times the term. */
  lemma {:induction false} SumConstant(xs: seq<real>, c: real)
    requires forall i :: 0 <= i < |xs| ==> xs[i] == c
    ensures Sum(xs) == |xs| as real * c
  {
    if |xs| > 0 {
      SumConstant(xs[..|xs| - 1], c);
    }
  }

  /** A negative sum has a negative term. */
  lemma {:induction false} NegativeSumHasNegative(xs: seq<real>)
    requires Sum(xs) < 0.0
    ensures exists j :: 0 <= j < |xs| && xs[j] < 0.0
  {
    var n := |xs| - 1;
    if xs[n] >= 0.0 {
      NegativeSumHasNegative(xs[..n]);
      var j :| 0 <= j < n && xs[..n][j] < 0.0;
      assert xs[j] < 0.0;
    }
  }

  /** A positive sum has a positive term. */
  lemma {:induction false} PositiveSumHasPositive(xs: seq<real>)
    requires Sum(xs) > 0.0
    ensures exists j :: 0 <= j < |xs| && xs[j] > 0.0
  {
    var n := |xs| - 1;
    if xs[n] <= 0.0 {
      PositiveSumHasPositive(xs[..n]);
      var j :| 0 <= j < n && xs[..n][j] > 0.0;
      assert xs[j] > 0.0;
    }
  }

  /** A zero sum with a non-zero term has terms of both signs. */
  lemma ZeroSumSigns(xs: seq<real>, k: nat)
    requires k < |xs| && xs[k] != 0.0 && Sum(xs) == 0.0
    ensures exists j :: 0 <= j < |xs| && xs[j] > 0.0
    ensures exists j :: 0 <= j < |xs| && xs[j] < 0.0
  {
    var u := xs[k := 0.0];
    SumUpdate(xs, k, 0.0);
    if xs[k] > 0.0 {
      NegativeSumHasNegative(u);
      var j :| 0 <= j < |u| && u[j] < 0.0;
      assert xs[j] < 0.0;
    } else {
      PositiveSumHasPositive(u);
      var j :| 0 <= j < |u| && u[j] > 0.0;
      assert xs[j] > 0.0;
    }
  }
}
