/**
 * The numeric primitives the risk and metrics code takes from numpy and
 * pandas: sum, mean, minimum, maximum and an ascending sort, over exact reals.
 */
module SeqStats {
  import opened Wrappers

  function Sum(s: seq<real>): real
  {
    if |s| == 0 then 0.0 else s[0] + Sum(s[1..])
  }

  /** Mean of a series; None (NaN) for an empty one, as numpy reports it. */
  function Mean(s: seq<real>): Option<real>
  {
    if |s| == 0 then None else Some(Sum(s) / (|s| as real))
  }

  function Minimum(s: seq<real>): (m: real)
    requires |s| > 0
    ensures m in s
    ensures forall i :: 0 <= i < |s| ==> m <= s[i]
  {
    if |s| == 1 then s[0]
    else
      var rest := Minimum(s[1..]);
      if s[0] <= rest then s[0] else rest
  }

  function Maximum(s: seq<real>): (m: real)
    requires |s| > 0
    ensures m in s
    ensures forall i :: 0 <= i < |s| ==> s[i] <= m
  {
    if |s| == 1 then s[0]
    else
      var rest := Maximum(s[1..]);
      if s[0] >= rest then s[0] else rest
  }

  predicate Ascending(s: seq<real>)
  {
    forall i, j :: 0 <= i < j < |s| ==> s[i] <= s[j]
  }

  /** Inserts x into an ascending sequence, keeping it ascending. */
  function Insert(x: real, s: seq<real>): (r: seq<real>)
    requires Ascending(s)
    ensures |r| == |s| + 1
    ensures Ascending(r)
    ensures multiset(r) == multiset(s) + multiset{x}
    ensures Sum(r) == x + Sum(s)
  {
    if |s| == 0 || x <= s[0] then
      ConsAscending(x, s);
      ConsSum(x, s);
      [x] + s
    else
      var tail := Insert(x, s[1..]);
      assert s == [s[0]] + s[1..];
      HeadBelowAll(s[0], x, s[1..], tail);
      ConsAscending(s[0], tail);
      ConsSum(s[0], tail);
      ConsSum(s[0], s[1..]);
      [s[0]] + tail
  }

  /** Putting a value no larger than any element in front keeps a sequence ascending. */
  lemma ConsAscending(h: real, t: seq<real>)
    requires Ascending(t)
    requires forall i :: 0 <= i < |t| ==> h <= t[i]
    ensures Ascending([h] + t)
  {
    var r := [h] + t;
    forall i, j | 0 <= i < j < |r| ensures r[i] <= r[j] {
      assert r[j] == t[j - 1];
      if i > 0 {
        assert r[i] == t[i - 1];
      }
    }
  }

  lemma ConsSum(h: real, t: seq<real>)
    ensures Sum([h] + t) == h + Sum(t)
  {
    assert ([h] + t)[1..] == t;
  }

  /** A lower bound of x and of an ascending rest bounds every element of their merge. */
  lemma HeadBelowAll(h: real, x: real, rest: seq<real>, merged: seq<real>)
    requires h < x
    requires forall i :: 0 <= i < |rest| ==> h <= rest[i]
    requires multiset(merged) == multiset(rest) + multiset{x}
    ensures forall i :: 0 <= i < |merged| ==> h <= merged[i]
  {
    forall i | 0 <= i < |merged| ensures h <= merged[i] {
      assert merged[i] in multiset(merged);
      if merged[i] != x {
        assert merged[i] in multiset(rest);
        var j :| 0 <= j < |rest| && rest[j] == merged[i];
      }
    }
  }

  /** np.sort: an ascending permutation of the input. */
  function Sort(s: seq<real>): (r: seq<real>)
    ensures |r| == |s|
    ensures Ascending(r)
    ensures multiset(r) == multiset(s)
    ensures Sum(r) == Sum(s)
  {
    if |s| == 0 then []
    else
      assert s == [s[0]] + s[1..];
      Insert(s[0], Sort(s[1..]))
  }

  lemma {:induction false} SumAppend(a: seq<real>, b: seq<real>)
    ensures Sum(a + b) == Sum(a) + Sum(b)
  {
    if |a| == 0 {
      assert a + b == b;
    } else {
      assert (a + b)[1..] == a[1..] + b;
      SumAppend(a[1..], b);
    }
  }

  lemma {:induction false} SumLowerBound(s: seq<real>, b: real)
    requires forall i :: 0 <= i < |s| ==> b <= s[i]
    ensures (|s| as real) * b <= Sum(s)
  {
    if |s| > 0 {
      SumLowerBound(s[1..], b);
    }
  }

  lemma {:induction false} SumUpperBound(s: seq<real>, b: real)
    requires forall i :: 0 <= i < |s| ==> s[i] <= b
    ensures Sum(s) <= (|s| as real) * b
  {
    if |s| > 0 {
      SumUpperBound(s[1..], b);
    }
  }

  /** The mean of a non-empty series lies between its minimum and maximum. */
  lemma MeanBetweenExtremes(s: seq<real>)
    requires |s| > 0
    ensures Mean(s).Some?
    ensures Minimum(s) <= Mean(s).value <= Maximum(s)
  {
    MeanAtLeast(s, Minimum(s));
    MeanAtMost(s, Maximum(s));
  }

  /** A lower bound of every element bounds the mean. */
  lemma MeanAtLeast(s: seq<real>, b: real)
    requires |s| > 0
    requires forall i :: 0 <= i < |s| ==> b <= s[i]
    ensures b <= Sum(s) / (|s| as real)
  {
    var n, total := |s| as real, Sum(s);
    assert n * b <= total by { SumLowerBound(s, b); }
    AtMostQuotient(b, total, n);
  }

  /** An upper bound of every element bounds the mean. */
  lemma MeanAtMost(s: seq<real>, b: real)
    requires |s| > 0
    requires forall i :: 0 <= i < |s| ==> s[i] <= b
    ensures Sum(s) / (|s| as real) <= b
  {
    var n, total := |s| as real, Sum(s);
    assert total <= n * b by { SumUpperBound(s, b); }
    QuotientAtMost(total, b, n);
  }

  /**
   * In an ascending series the mean of the first k values never exceeds the
   * mean of the whole series.
   */
  lemma {:induction false} PrefixMeanAtMostMean(s: seq<real>, k: nat)
    requires Ascending(s)
    requires 0 < k <= |s|
    ensures Mean(s[..k]).Some? && Mean(s).Some?
    ensures Mean(s[..k]).value <= Mean(s).value
  {
    var head, tail := s[..k], s[k..];
    var a, b, total := Sum(head), Sum(tail), Sum(s);
    var nHead, nTail, n := |head| as real, |tail| as real, |s| as real;
    var pivot := s[k - 1];
    assert a <= nHead * pivot by { HeadBound(s, k); }
    assert nTail * pivot <= b by { TailBound(s, k); }
    assert total == a + b by { SplitSum(s, k); }
    MeanStep(a, b, total, pivot, nHead, nTail, n);
  }

  lemma {:induction false} SplitSum(s: seq<real>, k: nat)
    requires k <= |s|
    ensures Sum(s) == Sum(s[..k]) + Sum(s[k..])
  {
    assert s == s[..k] + s[k..];
    SumAppend(s[..k], s[k..]);
  }

  /** The arithmetic behind PrefixMeanAtMostMean. */
  lemma MeanStep(a: real, b: real, total: real, p: real, nHead: real, nTail: real, n: real)
    requires nHead > 0.0 && nTail >= 0.0
    requires a <= nHead * p && nTail * p <= b
    requires n == nHead + nTail && total == a + b
    ensures a / nHead <= total / n
  {
    CrossBound(a, b, p, nHead, nTail, n, total);
    DivideMonotone(a, total, nHead, n);
  }

  lemma {:induction false} HeadBound(s: seq<real>, k: nat)
    requires Ascending(s)
    requires 0 < k <= |s|
    ensures Sum(s[..k]) <= (|s[..k]| as real) * s[k - 1]
  {
    var head := s[..k];
    forall i | 0 <= i < |head| ensures head[i] <= s[k - 1] {
      assert head[i] == s[i];
    }
    SumUpperBound(head, s[k - 1]);
  }

  lemma {:induction false} TailBound(s: seq<real>, k: nat)
    requires Ascending(s)
    requires 0 < k <= |s|
    ensures (|s[k..]| as real) * s[k - 1] <= Sum(s[k..])
  {
    var tail := s[k..];
    forall i | 0 <= i < |tail| ensures s[k - 1] <= tail[i] {
      assert tail[i] == s[k + i];
    }
    SumLowerBound(tail, s[k - 1]);
  }

  /**
   * If a <= k * p and m * p <= b with k, m >= 0, then a * (k + m) <= k * (a + b)
   * the arithmetic step behind PrefixMeanAtMostMean.
   */
  lemma CrossBound(a: real, b: real, p: real, k: real, m: real, n: real, t: real)
    requires k >= 0.0 && m >= 0.0
    requires a <= k * p && m * p <= b
    requires n == k + m && t == a + b
    ensures a * n <= k * t
  {
    MultiplyMonotone(a, k * p, m);
    MultiplyMonotone(m * p, b, k);
    assert m * (k * p) == k * (m * p);
  }

  lemma AtMostQuotient(b: real, t: real, n: real)
    requires n > 0.0 && n * b <= t
    ensures b <= t / n
  {
    var q := t / n;
    assert t == q * n;
    assert n * (b - q) <= 0.0;
  }

  lemma QuotientAtMost(t: real, b: real, n: real)
    requires n > 0.0 && t <= n * b
    ensures t / n <= b
  {
    var q := t / n;
    assert t == q * n;
    assert n * (q - b) <= 0.0;
  }

  /** Two series with the same length and the same sum have the same mean. */
  lemma SameMean(a: seq<real>, b: seq<real>)
    requires |a| == |b| && Sum(a) == Sum(b)
    ensures Mean(a) == Mean(b)
  {
  }

  lemma MultiplyMonotone(x: real, y: real, c: real)
    requires x <= y && c >= 0.0
    ensures c * x <= c * y
  {
  }

  /** a / k <= c / n follows from a * n <= k * c for positive k and n. */
  lemma DivideMonotone(a: real, c: real, k: real, n: real)
    requires k > 0.0 && n > 0.0
    requires a * n <= k * c
    ensures a / k <= c / n
  {
    var x, y := a / k, c / n;
    assert a == x * k;
    assert c == y * n;
    assert (x - y) * (k * n) <= 0.0;
  }
}
