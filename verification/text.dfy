/**
 * Text-correlation algorithms of src/automixer/utils/text.py: the two-row
 * Levenshtein distance, the exact longest common subsequence with its
 * backtracking reconstruction, and the tolerant 1-gram variant in which two
 * words match when their lengths and their edit distance are within a tolerance.
 *
 * Each algorithm is a method over arrays, proved against a recursive
 * specification function; the properties the code relies on (optimality,
 * symmetry, subsequence-ness, reconstruction length) are lemmas about those
 * functions.
 */
module TextMetrics {

  function Min3(x: nat, y: nat, z: nat): (r: nat)
    ensures r <= x && r <= y && r <= z
    ensures r == x || r == y || r == z
  {
    if x <= y && x <= z then x else if y <= z then y else z
  }

  function Max(x: nat, y: nat): nat { if x >= y then x else y }

  function Abs(x: int): nat { if x < 0 then -x else x }

  // ---------------------------------------------------------------------------
  // Edit distance
  // ---------------------------------------------------------------------------

  /**
   * The edit distance of `a` and `b`: the fewest single-character insertions,
   * deletions and substitutions that turn one into the other, written as the
   * recurrence on prefixes that the dynamic-programming rows follow
   * (insert, delete, substitute, in the order the code takes their minimum).
   */
  function EditDistance(a: string, b: string): (d: nat)
    decreases |a| + |b|
  {
    if |a| == 0 then |b|
    else if |b| == 0 then |a|
    else Min3(EditDistance(a, b[..|b| - 1]) + 1,
              EditDistance(a[..|a| - 1], b) + 1,
              EditDistance(a[..|a| - 1], b[..|b| - 1]) + (if a[|a| - 1] != b[|b| - 1] then 1 else 0))
  }

  /** The recurrence of EditDistance, stated for the prefixes of length `i` and `j`. */
  lemma EditDistanceAt(a: string, b: string, i: nat, j: nat)
    requires 1 <= i <= |a| && 1 <= j <= |b|
    ensures EditDistance(a[..i], b[..j])
         == Min3(EditDistance(a[..i], b[..j - 1]) + 1,
                 EditDistance(a[..i - 1], b[..j]) + 1,
                 EditDistance(a[..i - 1], b[..j - 1]) + (if a[i - 1] != b[j - 1] then 1 else 0))
  {
    assert a[..i][..i - 1] == a[..i - 1];
    assert b[..j][..j - 1] == b[..j - 1];
  }

  /**
   * The distance is at least the difference of the lengths and at most the
   * length of the longer string.
   */
  lemma {:induction false} EditDistanceBounds(a: string, b: string)
    ensures |a| - |b| <= EditDistance(a, b) && |b| - |a| <= EditDistance(a, b)
    ensures EditDistance(a, b) <= Max(|a|, |b|)
    decreases |a| + |b|
  {
    if |a| > 0 && |b| > 0 {
      EditDistanceBounds(a, b[..|b| - 1]);
      EditDistanceBounds(a[..|a| - 1], b);
      EditDistanceBounds(a[..|a| - 1], b[..|b| - 1]);
    }
  }

  /** Swapping the arguments does not change the distance. */
  lemma {:induction false} EditDistanceSymmetric(a: string, b: string)
    ensures EditDistance(a, b) == EditDistance(b, a)
    decreases |a| + |b|
  {
    if |a| > 0 && |b| > 0 {
      EditDistanceSymmetric(a, b[..|b| - 1]);
      EditDistanceSymmetric(a[..|a| - 1], b);
      EditDistanceSymmetric(a[..|a| - 1], b[..|b| - 1]);
    }
  }

  /** The distance is zero exactly when the two strings are equal. */
  lemma {:induction false} EditDistanceZeroIff(a: string, b: string)
    ensures EditDistance(a, b) == 0 <==> a == b
    decreases |a| + |b|
  {
    if |a| > 0 && |b| > 0 {
      EditDistanceZeroIff(a[..|a| - 1], b[..|b| - 1]);
      assert a == a[..|a| - 1] + [a[|a| - 1]];
      assert b == b[..|b| - 1] + [b[|b| - 1]];
      if a == b {
        assert a[..|a| - 1] == b[..|b| - 1];
      }
    }
  }

  /**
   * One pass of the inner loop of levenshtein_distance (text.py:10-15):
   * given `previous` holding row i - 1 of the table, fills `current` with row i.
   */
  method FillEditRow(a: string, b: string, i: nat, previous: array<nat>, current: array<nat>)
    requires 1 <= i <= |a|
    requires previous.Length == |b| + 1 && current.Length == |b| + 1 && previous != current
    requires forall k :: 0 <= k <= |b| ==> previous[k] == EditDistance(a[..i - 1], b[..k])
    modifies current
    ensures forall k :: 0 <= k <= |b| ==> current[k] == EditDistance(a[..i], b[..k])
  {
    var c1 := a[i - 1];
    current[0] := i;
    var j := 1;
    while j <= |b|
      invariant 1 <= j <= |b| + 1
      invariant forall k {:trigger current[k]} :: 0 <= k < j ==> current[k] == EditDistance(a[..i], b[..k])
    {
      var c2 := b[j - 1];
      var insert := current[j - 1] + 1;
      var delete := previous[j] + 1;
      var substitute := previous[j - 1] + (if c1 != c2 then 1 else 0);
      EditDistanceAt(a, b, i, j);
      assert Min3(insert, delete, substitute) == EditDistance(a[..i], b[..j]);
      current[j] := Min3(insert, delete, substitute);
      j := j + 1;
    }
  }

  /**
   * The two-row loop of levenshtein_distance (text.py:6-18), once `b` is the
   * shorter string: one row of the table at a time, keeping only the previous
   * and the current row and swapping them after each row.
   */
  method EditDistanceByRows(a: string, b: string) returns (d: nat)
    ensures d == EditDistance(a, b)
  {
    var n := |b|;
    var previous := new nat[n + 1](j => j);
    var current := new nat[n + 1](j => 0);
    var i := 1;
    while i <= |a|
      invariant 1 <= i <= |a| + 1
      invariant fresh(previous) && fresh(current)
      invariant previous.Length == n + 1 && current.Length == n + 1 && previous != current
      invariant forall j :: 0 <= j <= n ==> previous[j] == EditDistance(a[..i - 1], b[..j])
    {
      FillEditRow(a, b, i, previous, current);
      previous, current := current, previous;
      i := i + 1;
    }
    assert a[..|a|] == a && b[..n] == b;
    d := previous[n];
  }

  /**
   * levenshtein_distance (text.py:1-18): the longer string drives the outer
   * loop; the result is the edit distance of the two strings, whichever order
   * they are given in.
   */
  method LevenshteinDistance(s1: string, s2: string) returns (d: nat)
    ensures d == EditDistance(s1, s2)
    ensures s2 == [] ==> d == |s1|
    ensures s1 == [] ==> d == |s2|
    ensures d == 0 <==> s1 == s2
  {
    EditDistanceSymmetric(s1, s2);
    EditDistanceZeroIff(s1, s2);
    if |s1| < |s2| {
      d := EditDistanceByRows(s2, s1);
    } else {
      d := EditDistanceByRows(s1, s2);
    }
  }

  // ---------------------------------------------------------------------------
  // Longest common subsequence, over an arbitrary match relation
  // ---------------------------------------------------------------------------

  /** Exact equality, the match relation of `lcs`. */
  predicate Equal<T(==)>(x: T, y: T) { x == y }

  /**
   * The length of a longest common subsequence of `a` and `b` when element
   * x of `a` matches element y of `b` exactly when eq(x, y): the value the
   * table holds in its last cell.
   */
  function LcsLength<T>(a: seq<T>, b: seq<T>, eq: (T, T) -> bool): nat
    decreases |a| + |b|
  {
    if |a| == 0 || |b| == 0 then 0
    else if eq(a[|a| - 1], b[|b| - 1]) then LcsLength(a[..|a| - 1], b[..|b| - 1], eq) + 1
    else Max(LcsLength(a[..|a| - 1], b, eq), LcsLength(a, b[..|b| - 1], eq))
  }

  /** The recurrence of LcsLength, stated at index `i`, `j` of the two sequences. */
  lemma LcsLengthAt<T>(a: seq<T>, b: seq<T>, i: nat, j: nat, eq: (T, T) -> bool)
    requires i < |a| && j < |b|
    ensures LcsLength(a[..i + 1], b[..j + 1], eq)
         == if eq(a[i], b[j]) then LcsLength(a[..i], b[..j], eq) + 1
            else Max(LcsLength(a[..i], b[..j + 1], eq), LcsLength(a[..i + 1], b[..j], eq))
  {
    assert a[..i + 1][..i] == a[..i];
    assert b[..j + 1][..j] == b[..j];
  }

  /** A common subsequence is never longer than either input. */
  lemma {:induction false} LcsLengthBounded<T>(a: seq<T>, b: seq<T>, eq: (T, T) -> bool)
    ensures LcsLength(a, b, eq) <= |a| && LcsLength(a, b, eq) <= |b|
    decreases |a| + |b|
  {
    if |a| > 0 && |b| > 0 {
      LcsLengthBounded(a[..|a| - 1], b[..|b| - 1], eq);
      LcsLengthBounded(a[..|a| - 1], b, eq);
      LcsLengthBounded(a, b[..|b| - 1], eq);
    }
  }

  /**
   * `x` pairs, in order, with elements of `b`: there are positions
   * p0 < p1 < ... in `b` with eq(x[k], b[pk]) for every k. Either the last
   * element of `x` pairs with the last element of `b`, or the last element
   * of `b` is skipped.
   */
  predicate PairsInOrder<T>(x: seq<T>, b: seq<T>, eq: (T, T) -> bool)
    decreases |b|
  {
    if |x| == 0 then true
    else if |b| == 0 then false
    else (eq(x[|x| - 1], b[|b| - 1]) && PairsInOrder(x[..|x| - 1], b[..|b| - 1], eq))
         || PairsInOrder(x, b[..|b| - 1], eq)
  }

  /** `x` is a subsequence of `a`. */
  predicate IsSubsequence<T(==)>(x: seq<T>, a: seq<T>) {
    PairsInOrder(x, a, Equal)
  }

  /** Dropping the last element of either input lowers the length by at most one. */
  lemma {:induction false} LcsLengthDropLast<T>(a: seq<T>, b: seq<T>, eq: (T, T) -> bool)
    ensures |a| > 0 ==> LcsLength(a[..|a| - 1], b, eq) <= LcsLength(a, b, eq) <= LcsLength(a[..|a| - 1], b, eq) + 1
    ensures |b| > 0 ==> LcsLength(a, b[..|b| - 1], eq) <= LcsLength(a, b, eq) <= LcsLength(a, b[..|b| - 1], eq) + 1
    decreases |a| + |b|
  {
    if |a| > 0 && |b| > 0 {
      LcsLengthDropLast(a[..|a| - 1], b, eq);
      LcsLengthDropLast(a, b[..|b| - 1], eq);
    }
  }

  /** No common subsequence is longer than LcsLength: the table value is the optimum. */
  lemma {:induction false} LcsLengthIsMaximal<T>(x: seq<T>, a: seq<T>, b: seq<T>, eq: (T, T) -> bool)
    requires IsSubsequence(x, a) && PairsInOrder(x, b, eq)
    ensures |x| <= LcsLength(a, b, eq)
    decreases |a| + |b|
  {
    if |x| > 0 {
      var a', b', x' := a[..|a| - 1], b[..|b| - 1], x[..|x| - 1];
      if PairsInOrder(x, a', Equal) {
        LcsLengthIsMaximal(x, a', b, eq);
        LcsLengthDropLast(a, b, eq);
      } else if PairsInOrder(x, b', eq) {
        LcsLengthIsMaximal(x, a, b', eq);
        LcsLengthDropLast(a, b, eq);
      } else {
        LcsLengthIsMaximal(x', a', b', eq);
      }
    }
  }

  /**
   * The sequence the backtracking loop rebuilds, in the order it is
   * returned: from the last cell, take a match when the last elements match,
   * otherwise step to the neighbour with the larger value, preferring to drop
   * from the first sequence on a tie.
   */
  function Reconstruct<T>(a: seq<T>, b: seq<T>, eq: (T, T) -> bool): seq<T>
    decreases |a| + |b|
  {
    if |a| == 0 || |b| == 0 then []
    else if eq(a[|a| - 1], b[|b| - 1]) then Reconstruct(a[..|a| - 1], b[..|b| - 1], eq) + [a[|a| - 1]]
    else if LcsLength(a[..|a| - 1], b, eq) >= LcsLength(a, b[..|b| - 1], eq) then Reconstruct(a[..|a| - 1], b, eq)
    else Reconstruct(a, b[..|b| - 1], eq)
  }

  /**
   * One step of the backtracking walk from cell (i, j): on a match the element
   * moves from the reconstruction of the prefixes to the accumulated reversed
   * tail; otherwise the walk moves to the neighbour with the larger length,
   * preferring the row above on a tie.
   */
  lemma BacktrackStep<T>(a: seq<T>, b: seq<T>, i: nat, j: nat, eq: (T, T) -> bool, acc: seq<T>)
    requires 0 < i <= |a| && 0 < j <= |b|
    ensures eq(a[i - 1], b[j - 1]) ==>
      Reconstruct(a[..i], b[..j], eq) + Reversed(acc) == Reconstruct(a[..i - 1], b[..j - 1], eq) + Reversed(acc + [a[i - 1]])
    ensures !eq(a[i - 1], b[j - 1]) && LcsLength(a[..i - 1], b[..j], eq) >= LcsLength(a[..i], b[..j - 1], eq) ==>
      Reconstruct(a[..i], b[..j], eq) == Reconstruct(a[..i - 1], b[..j], eq)
    ensures !eq(a[i - 1], b[j - 1]) && LcsLength(a[..i - 1], b[..j], eq) < LcsLength(a[..i], b[..j - 1], eq) ==>
      Reconstruct(a[..i], b[..j], eq) == Reconstruct(a[..i], b[..j - 1], eq)
  {
    assert a[..i][..i - 1] == a[..i - 1];
    assert b[..j][..j - 1] == b[..j - 1];
    ReversedSnoc(acc, a[i - 1]);
  }

  /**
   * The reconstruction has exactly LcsLength elements, is a subsequence of
   * `a` and pairs in order with elements of `b`: it is a longest common
   * subsequence.
   */
  lemma {:induction false} ReconstructIsCommonSubsequence<T>(a: seq<T>, b: seq<T>, eq: (T, T) -> bool)
    ensures |Reconstruct(a, b, eq)| == LcsLength(a, b, eq)
    ensures IsSubsequence(Reconstruct(a, b, eq), a)
    ensures PairsInOrder(Reconstruct(a, b, eq), b, eq)
    decreases |a| + |b|
  {
    if |a| > 0 && |b| > 0 {
      var a', b' := a[..|a| - 1], b[..|b| - 1];
      var r := Reconstruct(a, b, eq);
      if eq(a[|a| - 1], b[|b| - 1]) {
        ReconstructIsCommonSubsequence(a', b', eq);
        assert r[..|r| - 1] == Reconstruct(a', b', eq);
      } else if LcsLength(a', b, eq) >= LcsLength(a, b', eq) {
        ReconstructIsCommonSubsequence(a', b, eq);
      } else {
        ReconstructIsCommonSubsequence(a, b', eq);
      }
    }
  }

  /** Two relations that agree on every pair give the same length and reconstruction. */
  lemma {:induction false} LcsSameRelation<T>(a: seq<T>, b: seq<T>, eq1: (T, T) -> bool, eq2: (T, T) -> bool)
    requires forall x, y :: eq1(x, y) == eq2(x, y)
    ensures LcsLength(a, b, eq1) == LcsLength(a, b, eq2)
    ensures Reconstruct(a, b, eq1) == Reconstruct(a, b, eq2)
    decreases |a| + |b|
  {
    if |a| > 0 && |b| > 0 {
      LcsSameRelation(a[..|a| - 1], b[..|b| - 1], eq1, eq2);
      LcsSameRelation(a[..|a| - 1], b, eq1, eq2);
      LcsSameRelation(a, b[..|b| - 1], eq1, eq2);
    }
  }

  /** A sequence compared with itself under a reflexive relation: the whole sequence is common. */
  lemma {:induction false} LcsOfItself<T>(a: seq<T>, eq: (T, T) -> bool)
    requires forall k :: 0 <= k < |a| ==> eq(a[k], a[k])
    ensures LcsLength(a, a, eq) == |a|
    ensures Reconstruct(a, a, eq) == a
    decreases |a|
  {
    if |a| > 0 {
      LcsOfItself(a[..|a| - 1], eq);
      assert eq(a[|a| - 1], a[|a| - 1]);
      assert a == a[..|a| - 1] + [a[|a| - 1]];
    }
  }

  /** The reverse of `s`, which the code writes as the slice `lcs[::-1]`. */
  function Reversed<T>(s: seq<T>): (r: seq<T>)
    ensures |r| == |s|
  {
    if |s| == 0 then [] else [s[|s| - 1]] + Reversed(s[..|s| - 1])
  }

  lemma ReversedSnoc<T>(s: seq<T>, x: T)
    ensures Reversed(s + [x]) == [x] + Reversed(s)
  {
    assert (s + [x])[..|s|] == s;
  }

  /**
   * One pass of the inner loop of lcs (text.py:27-31): given rows 0..i of
   * the table, fills row i + 1.
   */
  method FillLcsRow<T(==)>(seq1: seq<T>, seq2: seq<T>, dp: array2<nat>, i: nat)
    requires i < |seq1| && dp.Length0 == |seq1| + 1 && dp.Length1 == |seq2| + 1
    requires forall r, c :: 0 <= r <= i && 0 <= c <= |seq2| ==> dp[r, c] == LcsLength(seq1[..r], seq2[..c], Equal)
    requires dp[i + 1, 0] == 0
    modifies dp
    ensures forall r, c :: 0 <= r <= i + 1 && 0 <= c <= |seq2| ==> dp[r, c] == LcsLength(seq1[..r], seq2[..c], Equal)
    ensures forall r, c :: i + 1 < r <= |seq1| && 0 <= c <= |seq2| ==> dp[r, c] == old(dp[r, c])
  {
    for j := 0 to |seq2|
      invariant forall r, c :: 0 <= r <= i && 0 <= c <= |seq2| ==> dp[r, c] == LcsLength(seq1[..r], seq2[..c], Equal)
      invariant forall c :: 0 <= c <= j ==> dp[i + 1, c] == LcsLength(seq1[..i + 1], seq2[..c], Equal)
      invariant forall r, c :: i + 1 < r <= |seq1| && 0 <= c <= |seq2| ==> dp[r, c] == old(dp[r, c])
    {
      LcsLengthAt(seq1, seq2, i, j, Equal);
      if seq1[i] == seq2[j] {
        dp[i + 1, j + 1] := dp[i, j] + 1;
      } else {
        dp[i + 1, j + 1] := Max(dp[i, j + 1], dp[i + 1, j]);
      }
    }
  }

  /** The table fill of lcs (text.py:23-31): every cell holds the LCS length of two prefixes. */
  method LcsTable<T(==)>(seq1: seq<T>, seq2: seq<T>) returns (dp: array2<nat>)
    ensures fresh(dp) && dp.Length0 == |seq1| + 1 && dp.Length1 == |seq2| + 1
    ensures forall r, c :: 0 <= r <= |seq1| && 0 <= c <= |seq2| ==> dp[r, c] == LcsLength(seq1[..r], seq2[..c], Equal)
  {
    var m, n := |seq1|, |seq2|;
    dp := new nat[m + 1, n + 1]((r, c) => 0);
    for i := 0 to m
      invariant forall r, c :: 0 <= r <= i && 0 <= c <= n ==> dp[r, c] == LcsLength(seq1[..r], seq2[..c], Equal)
      invariant forall r :: i < r <= m ==> dp[r, 0] == 0
    {
      FillLcsRow(seq1, seq2, dp, i);
    }
  }

  /**
   * The backtracking walk of lcs (text.py:33-46): from the last cell, take the
   * match or step towards the larger neighbour, appending matched elements,
   * and return the reversed list.
   */
  method LcsBacktrack<T(==)>(seq1: seq<T>, seq2: seq<T>, dp: array2<nat>) returns (lcs: seq<T>)
    requires dp.Length0 == |seq1| + 1 && dp.Length1 == |seq2| + 1
    requires forall r, c :: 0 <= r <= |seq1| && 0 <= c <= |seq2| ==> dp[r, c] == LcsLength(seq1[..r], seq2[..c], Equal)
    ensures lcs == Reconstruct(seq1, seq2, Equal)
  {
    var acc: seq<T> := [];
    var i, j := |seq1|, |seq2|;
    assert seq1[..i] == seq1 && seq2[..j] == seq2;
    while i > 0 && j > 0
      invariant 0 <= i <= |seq1| && 0 <= j <= |seq2|
      invariant Reconstruct(seq1, seq2, Equal) == Reconstruct(seq1[..i], seq2[..j], Equal) + Reversed(acc)
      decreases i + j
    {
      BacktrackStep(seq1, seq2, i, j, Equal, acc);
      if seq1[i - 1] == seq2[j - 1] {
        acc := acc + [seq1[i - 1]];
        i, j := i - 1, j - 1;
      } else if dp[i - 1, j] >= dp[i, j - 1] {
        i := i - 1;
      } else {
        j := j - 1;
      }
    }
    lcs := Reversed(acc);
  }

  /**
   * lcs (text.py:21-46): fills the (m+1) x (n+1) table row by row, then walks
   * back from the last cell. The result is the table value and a longest
   * common subsequence of the two inputs.
   */
  method Lcs<T(==)>(seq1: seq<T>, seq2: seq<T>) returns (length: nat, lcs: seq<T>)
    ensures length == LcsLength(seq1, seq2, Equal)
    ensures lcs == Reconstruct(seq1, seq2, Equal)
    ensures |lcs| == length && length <= |seq1| && length <= |seq2|
    ensures IsSubsequence(lcs, seq1) && IsSubsequence(lcs, seq2)
    ensures forall x :: IsSubsequence(x, seq1) && IsSubsequence(x, seq2) ==> |x| <= length
  {
    var dp := LcsTable(seq1, seq2);
    assert seq1[..|seq1|] == seq1 && seq2[..|seq2|] == seq2;
    length := dp[|seq1|, |seq2|];
    lcs := LcsBacktrack(seq1, seq2, dp);
    LcsLengthBounded(seq1, seq2, Equal);
    ReconstructIsCommonSubsequence(seq1, seq2, Equal);
    forall x | IsSubsequence(x, seq1) && IsSubsequence(x, seq2)
      ensures |x| <= length
    {
      LcsLengthIsMaximal(x, seq1, seq2, Equal);
    }
  }

  // ---------------------------------------------------------------------------
  // Tolerant 1-gram LCS
  // ---------------------------------------------------------------------------

  /**
   * The match relation of lcs_1gram (text.py:57-62): two words match when
   * their lengths differ by at most `tolerance` and, with tolerance 0, they
   * are equal, otherwise their edit distance is at most `tolerance`.
   */
  predicate TolerantEqual(u: string, v: string, tolerance: int) {
    if Abs(|u| - |v|) > tolerance then false
    else if tolerance == 0 then u == v
    else EditDistance(u, v) <= tolerance
  }

  /** TolerantEqual at a fixed tolerance, as a match relation for LcsLength and Reconstruct. */
  function Tolerance(tolerance: int): (string, string) -> bool {
    (u: string, v: string) => TolerantEqual(u, v, tolerance)
  }

  /** Tolerant equality does not depend on the order of its arguments. */
  lemma TolerantEqualSymmetric(u: string, v: string, tolerance: int)
    ensures TolerantEqual(u, v, tolerance) == TolerantEqual(v, u, tolerance)
  {
    EditDistanceSymmetric(u, v);
  }

  /** Two matching words are within the tolerance both in length and in edit distance. */
  lemma TolerantEqualWithin(u: string, v: string, tolerance: int)
    requires TolerantEqual(u, v, tolerance)
    ensures Abs(|u| - |v|) <= tolerance && EditDistance(u, v) <= tolerance
  {
    EditDistanceZeroIff(u, v);
  }

  /** With tolerance 0 the tolerant relation is plain equality. */
  lemma ToleranceZeroIsEqual()
    ensures forall u: string, v: string :: Tolerance(0)(u, v) == Equal(u, v)
  {
  }

  /** lcs_1gram with tolerance 0 computes exactly what lcs computes. */
  lemma Lcs1GramZeroIsLcs(seq1: seq<string>, seq2: seq<string>)
    ensures LcsLength(seq1, seq2, Tolerance(0)) == LcsLength(seq1, seq2, Equal)
    ensures Reconstruct(seq1, seq2, Tolerance(0)) == Reconstruct(seq1, seq2, Equal)
  {
    ToleranceZeroIsEqual();
    LcsSameRelation(seq1, seq2, Tolerance(0), Equal);
  }

  /** equal_with_tolerance (text.py:57-62), with the tolerance-0 shortcut. */
  method EqualWithTolerance(a: string, b: string, tolerance: int) returns (r: bool)
    ensures r == TolerantEqual(a, b, tolerance)
  {
    if Abs(|a| - |b|) > tolerance {
      return false;
    }
    if tolerance == 0 {
      return a == b;
    }
    var d := LevenshteinDistance(a, b);
    return d <= tolerance;
  }

  /** One pass of the inner loop of lcs_1gram (text.py:66-70). */
  method FillTolerantRow(seq1: seq<string>, seq2: seq<string>, tolerance: int, dp: array2<nat>, i: nat)
    requires i < |seq1| && dp.Length0 == |seq1| + 1 && dp.Length1 == |seq2| + 1
    requires forall r, c :: 0 <= r <= i && 0 <= c <= |seq2| ==> dp[r, c] == LcsLength(seq1[..r], seq2[..c], Tolerance(tolerance))
    requires dp[i + 1, 0] == 0
    modifies dp
    ensures forall r, c :: 0 <= r <= i + 1 && 0 <= c <= |seq2| ==> dp[r, c] == LcsLength(seq1[..r], seq2[..c], Tolerance(tolerance))
    ensures forall r, c :: i + 1 < r <= |seq1| && 0 <= c <= |seq2| ==> dp[r, c] == old(dp[r, c])
  {
    for j := 0 to |seq2|
      invariant forall r, c :: 0 <= r <= i && 0 <= c <= |seq2| ==> dp[r, c] == LcsLength(seq1[..r], seq2[..c], Tolerance(tolerance))
      invariant forall c :: 0 <= c <= j ==> dp[i + 1, c] == LcsLength(seq1[..i + 1], seq2[..c], Tolerance(tolerance))
      invariant forall r, c :: i + 1 < r <= |seq1| && 0 <= c <= |seq2| ==> dp[r, c] == old(dp[r, c])
    {
      LcsLengthAt(seq1, seq2, i, j, Tolerance(tolerance));
      var matches := EqualWithTolerance(seq1[i], seq2[j], tolerance);
      if matches {
        dp[i + 1, j + 1] := dp[i, j] + 1;
      } else {
        dp[i + 1, j + 1] := Max(dp[i, j + 1], dp[i + 1, j]);
      }
    }
  }

  /** The backtracking walk of lcs_1gram (text.py:72-85). */
  method TolerantBacktrack(seq1: seq<string>, seq2: seq<string>, tolerance: int, dp: array2<nat>) returns (lcs: seq<string>)
    requires dp.Length0 == |seq1| + 1 && dp.Length1 == |seq2| + 1
    requires forall r, c :: 0 <= r <= |seq1| && 0 <= c <= |seq2| ==> dp[r, c] == LcsLength(seq1[..r], seq2[..c], Tolerance(tolerance))
    ensures lcs == Reconstruct(seq1, seq2, Tolerance(tolerance))
  {
    var acc: seq<string> := [];
    var i, j := |seq1|, |seq2|;
    assert seq1[..i] == seq1 && seq2[..j] == seq2;
    while i > 0 && j > 0
      invariant 0 <= i <= |seq1| && 0 <= j <= |seq2|
      invariant Reconstruct(seq1, seq2, Tolerance(tolerance))
             == Reconstruct(seq1[..i], seq2[..j], Tolerance(tolerance)) + Reversed(acc)
      decreases i + j
    {
      BacktrackStep(seq1, seq2, i, j, Tolerance(tolerance), acc);
      var matches := EqualWithTolerance(seq1[i - 1], seq2[j - 1], tolerance);
      if matches {
        acc := acc + [seq1[i - 1]];
        i, j := i - 1, j - 1;
      } else if dp[i - 1, j] >= dp[i, j - 1] {
        i := i - 1;
      } else {
        j := j - 1;
      }
    }
    lcs := Reversed(acc);
  }

  /**
   * lcs_1gram (text.py:49-85): the same table and walk as lcs, with tolerant
   * equality in place of ==. The result is the table value and a longest
   * sequence of words of `seq1` that pair, in order, with tolerant-equal
   * words of `seq2`.
   */
  method Lcs1Gram(seq1: seq<string>, seq2: seq<string>, tolerance: int) returns (length: nat, lcs: seq<string>)
    ensures length == LcsLength(seq1, seq2, Tolerance(tolerance))
    ensures lcs == Reconstruct(seq1, seq2, Tolerance(tolerance))
    ensures |lcs| == length && length <= |seq1| && length <= |seq2|
    ensures IsSubsequence(lcs, seq1) && PairsInOrder(lcs, seq2, Tolerance(tolerance))
    ensures forall x :: IsSubsequence(x, seq1) && PairsInOrder(x, seq2, Tolerance(tolerance)) ==> |x| <= length
  {
    var m, n := |seq1|, |seq2|;
    var dp := new nat[m + 1, n + 1]((r, c) => 0);
    for i := 0 to m
      invariant forall r, c :: 0 <= r <= i && 0 <= c <= n ==> dp[r, c] == LcsLength(seq1[..r], seq2[..c], Tolerance(tolerance))
      invariant forall r :: i < r <= m ==> dp[r, 0] == 0
    {
      FillTolerantRow(seq1, seq2, tolerance, dp, i);
    }
    assert seq1[..m] == seq1 && seq2[..n] == seq2;
    length := dp[m, n];
    lcs := TolerantBacktrack(seq1, seq2, tolerance, dp);
    LcsLengthBounded(seq1, seq2, Tolerance(tolerance));
    ReconstructIsCommonSubsequence(seq1, seq2, Tolerance(tolerance));
    forall x | IsSubsequence(x, seq1) && PairsInOrder(x, seq2, Tolerance(tolerance))
      ensures |x| <= length
    {
      LcsLengthIsMaximal(x, seq1, seq2, Tolerance(tolerance));
    }
  }
}
