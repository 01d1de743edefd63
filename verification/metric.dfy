/**
 * The standalone metric module (metric.py). Its levenshtein_distance and lcs
 * (metric.py:1-46) are the same code as text.py:1-46 and are the members of
 * TextMetrics; what differs is lcs_1gram, whose tolerant equality has no
 * shortcut for tolerance 0 and always falls back to the edit distance.
 */
module Metric {
  import opened TextMetrics

  /** equal_with_tolerance of metric.py:57-60: a length precheck, then the edit distance. */
  predicate DistanceWithin(u: string, v: string, tolerance: int) {
    if Abs(|u| - |v|) > tolerance then false
    else EditDistance(u, v) <= tolerance
  }

  /** DistanceWithin at a fixed tolerance, as a match relation. */
  function DistanceTolerance(tolerance: int): (string, string) -> bool {
    (u: string, v: string) => DistanceWithin(u, v, tolerance)
  }

  /**
   * The missing shortcut changes nothing: for every tolerance the relation of
   * metric.py and the relation of text.py accept the same pairs of words.
   */
  lemma DistanceWithinIsTolerantEqual(u: string, v: string, tolerance: int)
    ensures DistanceWithin(u, v, tolerance) == TolerantEqual(u, v, tolerance)
  {
    EditDistanceZeroIff(u, v);
  }

  /**
   * The length precheck only saves work: the edit distance alone decides the
   * relation, since it is never below the length difference.
   */
  lemma LengthCheckRedundant(u: string, v: string, tolerance: int)
    ensures DistanceWithin(u, v, tolerance) == (EditDistance(u, v) <= tolerance)
  {
    EditDistanceBounds(u, v);
  }

  /** lcs_1gram of metric.py computes what lcs_1gram of text.py computes. */
  lemma Lcs1GramAgrees(seq1: seq<string>, seq2: seq<string>, tolerance: int)
    ensures LcsLength(seq1, seq2, DistanceTolerance(tolerance)) == LcsLength(seq1, seq2, Tolerance(tolerance))
    ensures Reconstruct(seq1, seq2, DistanceTolerance(tolerance)) == Reconstruct(seq1, seq2, Tolerance(tolerance))
  {
    forall u: string, v: string
      ensures DistanceTolerance(tolerance)(u, v) == Tolerance(tolerance)(u, v)
    {
      DistanceWithinIsTolerantEqual(u, v, tolerance);
    }
    LcsSameRelation(seq1, seq2, DistanceTolerance(tolerance), Tolerance(tolerance));
  }

  /** equal_with_tolerance (metric.py:57-60). */
  method EqualWithTolerance(a: string, b: string, tolerance: int) returns (r: bool)
    ensures r == DistanceWithin(a, b, tolerance)
    ensures r ==> Abs(|a| - |b|) <= tolerance && EditDistance(a, b) <= tolerance
  {
    if Abs(|a| - |b|) > tolerance {
      return false;
    }
    var d := LevenshteinDistance(a, b);
    return d <= tolerance;
  }

  /** One pass of the inner loop of lcs_1gram (metric.py:64-68). */
  method FillRow(seq1: seq<string>, seq2: seq<string>, tolerance: int, dp: array2<nat>, i: nat)
    requires i < |seq1| && dp.Length0 == |seq1| + 1 && dp.Length1 == |seq2| + 1
    requires forall r, c :: 0 <= r <= i && 0 <= c <= |seq2| ==> dp[r, c] == LcsLength(seq1[..r], seq2[..c], DistanceTolerance(tolerance))
    requires dp[i + 1, 0] == 0
    modifies dp
    ensures forall r, c :: 0 <= r <= i + 1 && 0 <= c <= |seq2| ==> dp[r, c] == LcsLength(seq1[..r], seq2[..c], DistanceTolerance(tolerance))
    ensures forall r, c :: i + 1 < r <= |seq1| && 0 <= c <= |seq2| ==> dp[r, c] == old(dp[r, c])
  {
    for j := 0 to |seq2|
      invariant forall r, c :: 0 <= r <= i && 0 <= c <= |seq2| ==> dp[r, c] == LcsLength(seq1[..r], seq2[..c], DistanceTolerance(tolerance))
      invariant forall c :: 0 <= c <= j ==> dp[i + 1, c] == LcsLength(seq1[..i + 1], seq2[..c], DistanceTolerance(tolerance))
      invariant forall r, c :: i + 1 < r <= |seq1| && 0 <= c <= |seq2| ==> dp[r, c] == old(dp[r, c])
    {
      LcsLengthAt(seq1, seq2, i, j, DistanceTolerance(tolerance));
      var matches := EqualWithTolerance(seq1[i], seq2[j], tolerance);
      if matches {
        dp[i + 1, j + 1] := dp[i, j] + 1;
      } else {
        dp[i + 1, j + 1] := Max(dp[i, j + 1], dp[i + 1, j]);
      }
    }
  }

  /** The backtracking walk of lcs_1gram (metric.py:70-83). */
  method Backtrack(seq1: seq<string>, seq2: seq<string>, tolerance: int, dp: array2<nat>) returns (lcs: seq<string>)
    requires dp.Length0 == |seq1| + 1 && dp.Length1 == |seq2| + 1
    requires forall r, c :: 0 <= r <= |seq1| && 0 <= c <= |seq2| ==> dp[r, c] == LcsLength(seq1[..r], seq2[..c], DistanceTolerance(tolerance))
    ensures lcs == Reconstruct(seq1, seq2, DistanceTolerance(tolerance))
  {
    var acc: seq<string> := [];
    var i, j := |seq1|, |seq2|;
    assert seq1[..i] == seq1 && seq2[..j] == seq2;
    while i > 0 && j > 0
      invariant 0 <= i <= |seq1| && 0 <= j <= |seq2|
      invariant Reconstruct(seq1, seq2, DistanceTolerance(tolerance))
             == Reconstruct(seq1[..i], seq2[..j], DistanceTolerance(tolerance)) + Reversed(acc)
      decreases i + j
    {
      BacktrackStep(seq1, seq2, i, j, DistanceTolerance(tolerance), acc);
      var matches := EqualWithTolerance(seq1[i - 1], seq2[j - 1], tolerance);
      if matches {
        acc := acc + [seq1[i - 1]];
        i, j := i - 1, j - 1;
      } else if dp[i - 1, j] >= dp[i, j - 1] {
        i := i - 1;
      } else {
        j := j - 1;
      }
    }
    lcs := Reversed(acc);
  }

  /**
   * lcs_1gram (metric.py:49-83): the table value and a longest sequence of
   * words of `seq1` pairing in order with words of `seq2` within the
   * tolerance; the same answer as text.py's lcs_1gram.
   */
  method Lcs1Gram(seq1: seq<string>, seq2: seq<string>, tolerance: int) returns (length: nat, lcs: seq<string>)
    ensures length == LcsLength(seq1, seq2, DistanceTolerance(tolerance))
    ensures lcs == Reconstruct(seq1, seq2, DistanceTolerance(tolerance))
    ensures |lcs| == length && length <= |seq1| && length <= |seq2|
    ensures IsSubsequence(lcs, seq1) && PairsInOrder(lcs, seq2, DistanceTolerance(tolerance))
    ensures forall x :: IsSubsequence(x, seq1) && PairsInOrder(x, seq2, DistanceTolerance(tolerance)) ==> |x| <= length
    ensures length == LcsLength(seq1, seq2, Tolerance(tolerance)) && lcs == Reconstruct(seq1, seq2, Tolerance(tolerance))
  {
    var m, n := |seq1|, |seq2|;
    var dp := new nat[m + 1, n + 1]((r, c) => 0);
    for i := 0 to m
      invariant forall r, c :: 0 <= r <= i && 0 <= c <= n ==> dp[r, c] == LcsLength(seq1[..r], seq2[..c], DistanceTolerance(tolerance))
      invariant forall r :: i < r <= m ==> dp[r, 0] == 0
    {
      FillRow(seq1, seq2, tolerance, dp, i);
    }
    assert seq1[..m] == seq1 && seq2[..n] == seq2;
    length := dp[m, n];
    lcs := Backtrack(seq1, seq2, tolerance, dp);
    LcsLengthBounded(seq1, seq2, DistanceTolerance(tolerance));
    ReconstructIsCommonSubsequence(seq1, seq2, DistanceTolerance(tolerance));
    forall x | IsSubsequence(x, seq1) && PairsInOrder(x, seq2, DistanceTolerance(tolerance))
      ensures |x| <= length
    {
      LcsLengthIsMaximal(x, seq1, seq2, DistanceTolerance(tolerance));
    }
    Lcs1GramAgrees(seq1, seq2, tolerance);
  }
}
