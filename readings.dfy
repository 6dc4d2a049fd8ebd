/**
 * Heart-rate readings and the statistics computed over a window of them:
 * the timestamp filter used for pruning and windowed queries, the mean,
 * `Math.round` of the mean, and the population variance.
 *
 * JavaScript numbers are taken as exact reals (no floating-point rounding).
 */
module Readings {

  datatype Option<T> = None | Some(value: T)

  /** One heart-rate sample: epoch milliseconds and beats per minute. */
  datatype Reading = Reading(timestamp: int, bpm: int)

  /** Readings in non-decreasing timestamp order. */
  ghost predicate Chronological(rs: seq<Reading>)
  {
    forall i, j :: 0 <= i < j < |rs| ==> rs[i].timestamp <= rs[j].timestamp
  }

  /** `a` is `b` with some elements dropped and the rest kept in their order. */
  ghost predicate IsSubsequence(a: seq<Reading>, b: seq<Reading>)
    decreases |b|
  {
    if b == [] then a == []
    else (a != [] && a[0] == b[0] && IsSubsequence(a[1..], b[1..])) || IsSubsequence(a, b[1..])
  }

  /**
   * The readings taken at or after `cutoff`, in stored order: the
   * `filter(r => r.timestamp >= cutoff)` shared by pruning and `getReadings`.
   */
  function Since(rs: seq<Reading>, cutoff: int): (r: seq<Reading>)
    ensures |r| <= |rs|
    ensures forall x :: x in r <==> x in rs && x.timestamp >= cutoff
  {
    if rs == [] then []
    else if rs[0].timestamp >= cutoff then [rs[0]] + Since(rs[1..], cutoff)
    else Since(rs[1..], cutoff)
  }

  /** The filter keeps every copy of a surviving reading and no copy of a dropped one. */
  lemma {:induction false} SinceCounts(rs: seq<Reading>, cutoff: int)
    ensures forall x :: multiset(Since(rs, cutoff))[x] == if x.timestamp >= cutoff then multiset(rs)[x] else 0
  {
    if rs != [] {
      SinceCounts(rs[1..], cutoff);
      assert rs == [rs[0]] + rs[1..];
    }
  }

  /** The filter keeps its survivors in their original relative order. */
  lemma {:induction false} SinceIsSubsequence(rs: seq<Reading>, cutoff: int)
    ensures IsSubsequence(Since(rs, cutoff), rs)
  {
    if rs != [] {
      SinceIsSubsequence(rs[1..], cutoff);
    }
  }

  /** Filtering a concatenation filters each part and concatenates the results. */
  lemma {:induction false} SinceConcat(a: seq<Reading>, b: seq<Reading>, cutoff: int)
    ensures Since(a + b, cutoff) == Since(a, cutoff) + Since(b, cutoff)
  {
    if a == [] {
      assert a + b == b;
    } else {
      assert (a + b)[1..] == a[1..] + b;
      SinceConcat(a[1..], b, cutoff);
    }
  }

  /** Filtering after appending a reading that survives the cutoff keeps it as the newest. */
  lemma SinceAppend(rs: seq<Reading>, x: Reading, cutoff: int)
    requires x.timestamp >= cutoff
    ensures Since(rs + [x], cutoff) == Since(rs, cutoff) + [x]
  {
    SinceConcat(rs, [x], cutoff);
    assert Since([x], cutoff) == [x] + Since([], cutoff);
  }

  /** When nothing is older than the cutoff the filter is the identity. */
  lemma {:induction false} SinceKeepsAll(rs: seq<Reading>, cutoff: int)
    requires forall k :: 0 <= k < |rs| ==> rs[k].timestamp >= cutoff
    ensures Since(rs, cutoff) == rs
  {
    if rs != [] {
      SinceKeepsAll(rs[1..], cutoff);
    }
  }

  /** Two successive filters are one filter by the later cutoff; in particular pruning is idempotent. */
  lemma {:induction false} SinceTwice(rs: seq<Reading>, c1: int, c2: int)
    ensures Since(Since(rs, c1), c2) == Since(rs, if c1 <= c2 then c2 else c1)
  {
    if rs != [] {
      SinceTwice(rs[1..], c1, c2);
    }
  }

  /** The filter of a chronological list is chronological. */
  lemma {:induction false} SinceChronological(rs: seq<Reading>, cutoff: int)
    requires Chronological(rs)
    ensures Chronological(Since(rs, cutoff))
  {
    if rs != [] {
      assert Chronological(rs[1..]) by {
        forall i, j | 0 <= i < j < |rs[1..]|
          ensures rs[1..][i].timestamp <= rs[1..][j].timestamp
        {
          assert rs[1..][i] == rs[i + 1] && rs[1..][j] == rs[j + 1];
        }
      }
      SinceChronological(rs[1..], cutoff);
      var tail := Since(rs[1..], cutoff);
      if rs[0].timestamp >= cutoff {
        forall k | 0 <= k < |tail| ensures rs[0].timestamp <= tail[k].timestamp {
          assert tail[k] in rs[1..];
        }
      }
    }
  }

  /** Appending a reading no older than any stored one keeps the list chronological. */
  lemma AppendChronological(rs: seq<Reading>, x: Reading)
    requires Chronological(rs)
    requires forall y :: y in rs ==> y.timestamp <= x.timestamp
    ensures Chronological(rs + [x])
  {
    var pushed := rs + [x];
    forall i, j | 0 <= i < j < |pushed|
      ensures pushed[i].timestamp <= pushed[j].timestamp
    {
      if j == |pushed| - 1 {
        assert pushed[i] in rs;
      }
    }
  }

  /**
   * Appending a reading that survives the cutoff and then filtering leaves
   * it as the newest reading, drops everything older than the cutoff, and
   * keeps a chronological list chronological when the reading is the latest.
   */
  lemma AppendThenPrune(rs: seq<Reading>, x: Reading, cutoff: int)
    requires x.timestamp >= cutoff
    ensures Since(rs + [x], cutoff) == Since(rs, cutoff) + [x]
    ensures forall y :: y in Since(rs + [x], cutoff) ==> y.timestamp >= cutoff
    ensures (Chronological(rs) && forall y :: y in rs ==> y.timestamp <= x.timestamp) ==>
              Chronological(Since(rs + [x], cutoff))
  {
    SinceAppend(rs, x, cutoff);
    if Chronological(rs) && forall y :: y in rs ==> y.timestamp <= x.timestamp {
      AppendChronological(rs, x);
      SinceChronological(rs + [x], cutoff);
    }
  }

  /** The bpm values of a list of readings, in order. */
  function Bpms(rs: seq<Reading>): (r: seq<int>)
    ensures |r| == |rs|
    ensures forall k :: 0 <= k < |rs| ==> r[k] == rs[k].bpm
  {
    seq(|rs|, k requires 0 <= k < |rs| => rs[k].bpm)
  }

  /** The `reduce((a, b) => a + b, 0)` of a list of numbers. */
  function Sum(xs: seq<int>): int
  {
    if xs == [] then 0 else xs[0] + Sum(xs[1..])
  }

  lemma {:induction false} SumBounds(xs: seq<int>, lo: int, hi: int)
    requires forall k :: 0 <= k < |xs| ==> lo <= xs[k] <= hi
    ensures lo * |xs| <= Sum(xs) <= hi * |xs|
  {
    if xs != [] {
      SumBounds(xs[1..], lo, hi);
      assert lo * |xs| == lo + lo * |xs[1..]|;
      assert hi * |xs| == hi + hi * |xs[1..]|;
    }
  }

  lemma {:induction false} SumConstant(xs: seq<int>, x: int)
    requires forall k :: 0 <= k < |xs| ==> xs[k] == x
    ensures Sum(xs) == x * |xs|
  {
    if xs != [] {
      SumConstant(xs[1..], x);
      assert x * |xs| == x + x * |xs[1..]|;
    }
  }

  function SeqMin(xs: seq<int>): (m: int)
    requires xs != []
    ensures m in xs
    ensures forall k :: 0 <= k < |xs| ==> m <= xs[k]
  {
    if |xs| == 1 then xs[0]
    else
      var rest := SeqMin(xs[1..]);
      if xs[0] <= rest then xs[0] else rest
  }

  function SeqMax(xs: seq<int>): (m: int)
    requires xs != []
    ensures m in xs
    ensures forall k :: 0 <= k < |xs| ==> xs[k] <= m
  {
    if |xs| == 1 then xs[0]
    else
      var rest := SeqMax(xs[1..]);
      if xs[0] >= rest then xs[0] else rest
  }

  /** The arithmetic mean `sum / length` of a non-empty list. */
  function Mean(xs: seq<int>): real
    requires xs != []
  {
    Sum(xs) as real / |xs| as real
  }

  lemma DivideBounds(total: int, n: int, lo: int, hi: int)
    requires n > 0 && lo * n <= total <= hi * n
    ensures lo as real <= total as real / n as real <= hi as real
  {
    assert (lo * n) as real == lo as real * n as real;
    assert (hi * n) as real == hi as real * n as real;
  }

  /** The mean lies between the smallest and the largest element. */
  lemma MeanWithinRange(xs: seq<int>)
    requires xs != []
    ensures SeqMin(xs) as real <= Mean(xs) <= SeqMax(xs) as real
  {
    SumBounds(xs, SeqMin(xs), SeqMax(xs));
    DivideBounds(Sum(xs), |xs|, SeqMin(xs), SeqMax(xs));
  }

  /** `Math.round`: the nearest integer, halves rounded up. */
  function RoundHalfUp(x: real): (r: int)
    ensures r as real - 0.5 <= x < r as real + 0.5
  {
    (x + 0.5).Floor
  }

  /** Rounding an integer-valued number gives that integer back. */
  lemma RoundHalfUpOfInteger(k: int)
    ensures RoundHalfUp(k as real) == k
  {
  }

  /** `d * d`. */
  function Square(d: int): (s: int)
    ensures s >= 0
    ensures s == 0 <==> d == 0
  {
    d * d
  }

  /**
   * The squared deviations from the mean, summed and scaled by n * n so that
   * they stay integers: with `total` the sum of n numbers,
   * (n * x - total)^2 == n^2 * (x - total / n)^2.
   */
  function ScaledSquaredDeviations(xs: seq<int>, n: int, total: int): (r: int)
    ensures r >= 0
  {
    if xs == [] then 0
    else Square(n * xs[0] - total) + ScaledSquaredDeviations(xs[1..], n, total)
  }

  lemma {:induction false} ScaledSquaredDeviationsZero(xs: seq<int>, n: int, total: int)
    ensures ScaledSquaredDeviations(xs, n, total) == 0 <==> forall k :: 0 <= k < |xs| ==> n * xs[k] == total
  {
    if xs != [] {
      ScaledSquaredDeviationsZero(xs[1..], n, total);
      assert forall k :: 0 < k < |xs| ==> xs[k] == xs[1..][k - 1];
    }
  }

  lemma Cancel(n: int, a: int, b: int)
    requires n > 0 && n * a == n * b
    ensures a == b
  {
  }

  /** `d * d` on reals. */
  function RealSquare(d: real): real
  {
    d * d
  }

  /** `reduce((sum, x) => sum + (x - m) ** 2, 0)`: the squared deviations from `m`, summed. */
  function DeviationSquares(xs: seq<int>, m: real): real
  {
    if xs == [] then 0.0 else RealSquare(xs[0] as real - m) + DeviationSquares(xs[1..], m)
  }

  /** One term: (n * x - total)^2 == n^2 * (x - total / n)^2. */
  lemma ScaledTerm(x: int, n: int, total: int, k: real, m: real)
    requires n > 0 && k == (n * n) as real && m == total as real / n as real
    ensures Square(n * x - total) as real == k * RealSquare(x as real - m)
  {
    var N := n as real;
    var d := x as real - m;
    assert (n * x - total) as real == N * d;
    assert Square(n * x - total) as real == (N * d) * (N * d);
    assert (N * d) * (N * d) == (N * N) * (d * d);
  }

  /** The squared deviations from `m`, each scaled by `k`, summed. */
  function ScaledDeviationSquares(xs: seq<int>, k: real, m: real): real
  {
    if xs == [] then 0.0 else k * RealSquare(xs[0] as real - m) + ScaledDeviationSquares(xs[1..], k, m)
  }

  lemma {:induction false} ScaledTermsSum(xs: seq<int>, n: int, total: int, k: real, m: real)
    requires n > 0 && k == (n * n) as real && m == total as real / n as real
    ensures ScaledSquaredDeviations(xs, n, total) as real == ScaledDeviationSquares(xs, k, m)
  {
    if xs != [] {
      var a := Square(n * xs[0] - total);
      var b := ScaledSquaredDeviations(xs[1..], n, total);
      assert a as real == k * RealSquare(xs[0] as real - m) by { ScaledTerm(xs[0], n, total, k, m); }
      assert b as real == ScaledDeviationSquares(xs[1..], k, m) by { ScaledTermsSum(xs[1..], n, total, k, m); }
      assert ScaledSquaredDeviations(xs, n, total) == a + b;
    }
  }

  lemma Distribute(k: real, t: real, r: real)
    ensures k * t + k * r == k * (t + r)
  {
  }

  lemma {:induction false} ScaleOutOfSum(xs: seq<int>, k: real, m: real)
    ensures ScaledDeviationSquares(xs, k, m) == k * DeviationSquares(xs, m)
  {
    if xs != [] {
      ScaleOutOfSum(xs[1..], k, m);
      Distribute(k, RealSquare(xs[0] as real - m), DeviationSquares(xs[1..], m));
    }
  }

  /** The integer-scaled sum is n^2 times the sum of squared deviations from total / n. */
  lemma ScaledDeviationsIdentity(xs: seq<int>, n: int, total: int, k: real, m: real)
    requires n > 0 && k == (n * n) as real && m == total as real / n as real
    ensures ScaledSquaredDeviations(xs, n, total) as real == k * DeviationSquares(xs, m)
  {
    ScaledTermsSum(xs, n, total, k, m);
    ScaleOutOfSum(xs, k, m);
  }

  lemma Rescale(s: real, d: real, n: int)
    requires n > 0 && s == (n * n) as real * d
    ensures d / n as real == s / (n * n * n) as real
  {
    var N := n as real;
    assert (n * n) as real == N * N;
    assert (n * n * n) as real == N * N * N;
    assert s / (N * N * N) == (N * N * d) / (N * N * N);
  }

  /**
   * Population variance, the mean squared deviation from the mean:
   * sum((x - mean)^2) / n. It equals sum((n * x - total)^2) / n^3, the
   * integer-scaled form the proofs about it use.
   */
  function PopulationVariance(xs: seq<int>): (v: real)
    requires xs != []
    ensures v == ScaledSquaredDeviations(xs, |xs|, Sum(xs)) as real / (|xs| * |xs| * |xs|) as real
    ensures v >= 0.0
  {
    var n := |xs|;
    var mean := Mean(xs);
    ScaledDeviationsIdentity(xs, n, Sum(xs), (n * n) as real, mean);
    Rescale(ScaledSquaredDeviations(xs, n, Sum(xs)) as real, DeviationSquares(xs, mean), n);
    DeviationSquares(xs, mean) / n as real
  }
  /** The variance is zero exactly when all elements are equal. */
  lemma PopulationVarianceZero(xs: seq<int>)
    requires xs != []
    ensures PopulationVariance(xs) == 0.0 <==> forall j, k :: 0 <= j < |xs| && 0 <= k < |xs| ==> xs[j] == xs[k]
  {
    var n := |xs|;
    assert n * n * n > 0;
    ScaledSquaredDeviationsZero(xs, n, Sum(xs));
    if forall j, k :: 0 <= j < |xs| && 0 <= k < |xs| ==> xs[j] == xs[k] {
      SumConstant(xs, xs[0]);
    }
    if PopulationVariance(xs) == 0.0 {
      forall j, k | 0 <= j < |xs| && 0 <= k < |xs| ensures xs[j] == xs[k] {
        Cancel(n, xs[j], xs[k]);
      }
    }
  }

  lemma SquareMonotone(a: real, b: real)
    requires 0.0 <= a < b
    ensures a * a < b * b
  {
    var d := b - a;
    assert b * b == (a + d) * (a + d);
    assert (a + d) * (a + d) == a * a + 2.0 * a * d + d * d;
    assert a * d >= 0.0;
    assert d * d > 0.0;
  }

  /**
   * A standard deviation compared with a threshold is its variance compared
   * with the squared threshold, so thresholds on `Math.sqrt(variance)` can
   * be checked on the variance itself.
   */
  lemma StandardDeviationThreshold(sd: real, t: real)
    requires sd >= 0.0 && t >= 0.0
    ensures sd < t <==> sd * sd < t * t
    ensures sd > t <==> sd * sd > t * t
  {
    if sd < t {
      SquareMonotone(sd, t);
    } else if t < sd {
      SquareMonotone(t, sd);
    }
  }
}
