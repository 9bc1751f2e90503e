/** Real vectors (the Python lists of floats the learners keep) and the numpy
    reductions they apply to them: sum, dot product, max and first argmax. */
module Vectors {

  /** Python's two-argument `min`. */
  function Min(x: real, y: real): (m: real)
    ensures m <= x && m <= y
    ensures m == x || m == y
  {
    if y < x then y else x
  }

  function Abs(x: real): (a: real)
    ensures 0.0 <= a && (a == x || a == -x)
  {
    if x < 0.0 then -x else x
  }

  /** The sum of the entries, accumulated from the front. */
  function Sum(s: seq<real>): real
  {
    if |s| == 0 then 0.0 else Sum(s[..|s| - 1]) + s[|s| - 1]
  }

  /** The probability mass of the first k entries. */
  function Cumulative(s: seq<real>, k: nat): real
    requires k <= |s|
  {
    Sum(s[..k])
  }

  lemma CumulativeNext(s: seq<real>, k: nat)
    requires k < |s|
    ensures Cumulative(s, k + 1) == Cumulative(s, k) + s[k]
  {
    assert s[..k + 1][..k] == s[..k];
  }

  lemma CumulativeWhole(s: seq<real>)
    ensures Cumulative(s, |s|) == Sum(s)
  {
    assert s[..|s|] == s;
  }

  /** Replacing one entry changes the sum by exactly the difference. */
  lemma {:induction false} SumUpdate(s: seq<real>, i: nat, v: real)
    requires i < |s|
    ensures Sum(s[i := v]) == Sum(s) - s[i] + v
  {
    var n := |s|;
    if i == n - 1 {
      assert s[i := v][..n - 1] == s[..n - 1];
    } else {
      SumUpdate(s[..n - 1], i, v);
      assert s[i := v][..n - 1] == s[..n - 1][i := v];
    }
  }

  /** The sum of n copies of c. */
  lemma {:induction false} SumConstant(c: real, n: nat)
    ensures Sum(seq(n, _ => c)) == (n as real) * c
  {
    if n > 0 {
      SumConstant(c, n - 1);
      assert seq(n, _ => c)[..n - 1] == seq(n - 1, _ => c);
    }
  }

  ghost predicate NonNegative(s: seq<real>)
  {
    forall i :: 0 <= i < |s| ==> 0.0 <= s[i]
  }

  /** A mixed strategy: a point of the probability simplex. */
  ghost predicate IsDistribution(s: seq<real>)
  {
    NonNegative(s) && Sum(s) == 1.0
  }

  lemma {:induction false} SumNonNegative(s: seq<real>)
    requires NonNegative(s)
    ensures 0.0 <= Sum(s)
  {
    if |s| > 0 {
      SumNonNegative(s[..|s| - 1]);
    }
  }

  /** In a non-negative vector no entry exceeds the total. */
  lemma {:induction false} EntryAtMostSum(s: seq<real>, i: nat)
    requires NonNegative(s) && i < |s|
    ensures 0.0 <= s[i] <= Sum(s)
  {
    var n := |s|;
    if i == n - 1 {
      SumNonNegative(s[..n - 1]);
    } else {
      EntryAtMostSum(s[..n - 1], i);
    }
  }

  /** Every entry of a mixed strategy is a probability. */
  lemma EntryIsProbability(s: seq<real>, i: nat)
    requires i < |s|
    ensures IsDistribution(s) ==> 0.0 <= s[i] <= 1.0
  {
    if IsDistribution(s) {
      EntryAtMostSum(s, i);
    }
  }

  /** `np.dot` of two equally long vectors. */
  function Dot(a: seq<real>, b: seq<real>): real
    requires |a| == |b|
  {
    if |a| == 0 then 0.0 else Dot(a[..|a| - 1], b[..|b| - 1]) + a[|a| - 1] * b[|b| - 1]
  }

  /** `np.max`: the largest entry. */
  function Max(s: seq<real>): (m: real)
    requires |s| > 0
    ensures m in s
    ensures forall i :: 0 <= i < |s| ==> s[i] <= m
  {
    if |s| == 1 then s[0]
    else
      var m' := Max(s[..|s| - 1]);
      assert m' in s[..|s| - 1];
      if s[|s| - 1] > m' then s[|s| - 1] else m'
  }

  /** i is the lowest index holding the largest entry of s. */
  ghost predicate IsFirstMax(s: seq<real>, i: nat)
  {
    && i < |s|
    && (forall j :: 0 <= j < |s| ==> s[j] <= s[i])
    && (forall j :: 0 <= j < i ==> s[j] < s[i])
  }

  /** `np.argmax`: ties resolve to the lowest index. */
  function ArgMax(s: seq<real>): (i: nat)
    requires |s| > 0
    ensures IsFirstMax(s, i)
  {
    if |s| == 1 then 0
    else
      var k := ArgMax(s[..|s| - 1]);
      if s[|s| - 1] > s[k] then |s| - 1 else k
  }

  /** The first maximum is unique, so `np.max` is the entry `np.argmax` points at. */
  lemma {:induction false} FirstMaxUnique(s: seq<real>, i: nat, j: nat)
    requires IsFirstMax(s, i) && IsFirstMax(s, j)
    ensures i == j
  {
    assert s[i] == s[j];
  }

  lemma MaxAtArgMax(s: seq<real>)
    requires |s| > 0
    ensures Max(s) == s[ArgMax(s)]
  {
  }

  /** `[0 for _ in range(n)]` */
  function Zeros(n: nat): (z: seq<real>)
    ensures |z| == n && forall i :: 0 <= i < n ==> z[i] == 0.0
  {
    seq(n, _ => 0.0)
  }

  /** `[1/n for _ in range(n)]` */
  function Uniform(n: nat): (u: seq<real>)
    requires n >= 1
    ensures |u| == n && IsDistribution(u)
    ensures forall i :: 0 <= i < n ==> u[i] == 1.0 / (n as real)
  {
    var u := seq(n, _ => 1.0 / (n as real));
    SumConstant(1.0 / (n as real), n);
    u
  }

  /** m shares of the given size, added up one at a time. */
  function Shares(m: nat, share: real): real
  {
    if m == 0 then 0.0 else Shares(m - 1, share) + share
  }

  lemma {:induction false} SharesProduct(m: nat, share: real)
    ensures Shares(m, share) == (m as real) * share
  {
    if m > 0 {
      SharesProduct(m - 1, share);
    }
  }

  /** m shares of x/m make up x. */
  lemma SharesOfQuotient(m: nat, x: real)
    requires m > 0
    ensures Shares(m, x / (m as real)) == x
  {
    var y := x / (m as real);
    SharesProduct(m, y);
    assert (m as real) * y == x;
  }

  /** Cutting one more element off the front part of a sequence and then
      dropping it again gives the shorter front part. */
  lemma PrefixOfPrefix<T>(s: seq<T>, i: nat)
    requires i < |s|
    ensures s[..i + 1][..i] == s[..i]
  {
  }
}
