/**
 * The Python string operations the services rely on: str.split() with no
 * separator, str.join, str.lower, str.rstrip(chars) and str.strip().
 */
module Strings {

  /** Python's str.isspace on a single character, by code point. */
  predicate IsSpace(c: char) {
    var n := c as int;
    n == 32 || 9 <= n <= 13 || 28 <= n <= 31 || n == 0x85 || n == 0xA0 || n == 0x1680
    || 0x2000 <= n <= 0x200A || n == 0x2028 || n == 0x2029 || n == 0x202F || n == 0x205F || n == 0x3000
  }

  /** A word as str.split() produces it: non-empty and free of whitespace. */
  predicate IsWord(w: string) {
    |w| > 0 && forall i :: 0 <= i < |w| ==> !IsSpace(w[i])
  }

  /** Lower-casing of one character (ASCII letters only). */
  function LowerChar(c: char): (r: char)
    ensures 'A' <= c <= 'Z' ==> r as int == c as int + 32
    ensures !('A' <= c <= 'Z') ==> r == c
  {
    if 'A' <= c <= 'Z' then (c as int + 32) as char else c
  }

  /** str.lower(): every character lower-cased, the length unchanged. */
  function Lower(s: string): (r: string)
    ensures |r| == |s|
    ensures forall i :: 0 <= i < |s| ==> r[i] == LowerChar(s[i])
    ensures forall i :: 0 <= i < |s| ==> !('A' <= r[i] <= 'Z')
  {
    seq(|s|, i requires 0 <= i < |s| => LowerChar(s[i]))
  }

  /** Lower-casing twice is lower-casing once. */
  lemma LowerIdempotent(s: string)
    ensures Lower(Lower(s)) == Lower(s)
  {
  }

  /**
   * The start of the word that ends at index `i`: the word runs from the
   * result up to `i` and is preceded by whitespace or the start of `s`.
   */
  function WordStart(s: string, i: nat): (k: nat)
    requires i < |s| && !IsSpace(s[i])
    ensures k <= i
    ensures forall j :: k <= j <= i ==> !IsSpace(s[j])
    ensures k == 0 || IsSpace(s[k - 1])
  {
    if i == 0 || IsSpace(s[i - 1]) then i else WordStart(s, i - 1)
  }

  /**
   * str.split() with no separator: the maximal runs of non-whitespace
   * characters, in order; leading, trailing and repeated whitespace
   * produce no empty words.
   */
  function Split(s: string): seq<string>
    decreases |s|
  {
    if |s| == 0 then []
    else if IsSpace(s[|s| - 1]) then Split(s[..|s| - 1])
    else
      var k := WordStart(s, |s| - 1);
      Split(s[..k]) + [s[k..]]
  }

  /** sep.join(xs): the elements of `xs` with `sep` between neighbours. */
  function Join(sep: string, xs: seq<string>): string
  {
    if |xs| == 0 then ""
    else if |xs| == 1 then xs[0]
    else Join(sep, xs[..|xs| - 1]) + sep + xs[|xs| - 1]
  }

  /** Joining never loses characters: each element and each separator is counted once. */
  lemma {:induction false} JoinLength(sep: string, xs: seq<string>)
    requires |xs| > 0
    ensures |Join(sep, xs)| >= |xs[|xs| - 1]|
    ensures |xs| > 1 ==> |Join(sep, xs)| == |Join(sep, xs[..|xs| - 1])| + |sep| + |xs[|xs| - 1]|
  {
  }

  /** Every word of Split is a word: non-empty and without whitespace. */
  lemma {:induction false} SplitYieldsWords(s: string)
    ensures forall w :: w in Split(s) ==> IsWord(w)
    decreases |s|
  {
    if |s| == 0 {
    } else if IsSpace(s[|s| - 1]) {
      SplitYieldsWords(s[..|s| - 1]);
    } else {
      var k := WordStart(s, |s| - 1);
      SplitYieldsWords(s[..k]);
      var w := s[k..];
      assert forall j :: 0 <= j < |w| ==> w[j] == s[k + j];
    }
  }

  /**
   * Re-joining the words of `s` with single spaces gives a string no longer
   * than `s`: whitespace runs collapse to one space and the ends are trimmed.
   */
  lemma {:induction false} JoinSplitNoLonger(s: string)
    ensures |Join(" ", Split(s))| <= |s|
    ensures |s| > 0 && IsSpace(s[|s| - 1]) ==> |Join(" ", Split(s))| < |s|
    decreases |s|
  {
    if |s| == 0 {
    } else if IsSpace(s[|s| - 1]) {
      JoinSplitNoLonger(s[..|s| - 1]);
    } else {
      var k := WordStart(s, |s| - 1);
      var prefix := Split(s[..k]);
      JoinSplitNoLonger(s[..k]);
      assert Split(s) == prefix + [s[k..]];
      if |prefix| > 0 {
        assert (prefix + [s[k..]])[..|prefix|] == prefix;
        assert |s[..k]| > 0;
        assert s[..k][k - 1] == s[k - 1];
      } else {
        assert Join(" ", Split(s)) == s[k..];
      }
    }
  }

  /** The start of the last word of `p + w`, where `w` is a word and `p` is empty or ends in whitespace, is |p|. */
  lemma {:induction false} WordStartAfter(p: string, w: string, i: nat)
    requires IsWord(w) && (|p| == 0 || IsSpace(p[|p| - 1]))
    requires |p| <= i < |p| + |w|
    ensures WordStart(p + w, i) == |p|
    decreases i
  {
    var s := p + w;
    assert !IsSpace(s[i]) by { assert s[i] == w[i - |p|]; }
    if i == |p| {
    } else {
      assert s[i - 1] == w[i - 1 - |p|];
      WordStartAfter(p, w, i - 1);
    }
  }

  /** Splitting a string that ends in whitespace ignores that whitespace. */
  lemma SplitTrailingSpace(s: string, c: char)
    requires IsSpace(c)
    ensures Split(s + [c]) == Split(s)
  {
    assert (s + [c])[..|s|] == s;
  }

  /** A word appended after whitespace (or at the start) is split off as the last word. */
  lemma SplitLastWord(p: string, w: string)
    requires IsWord(w) && (|p| == 0 || IsSpace(p[|p| - 1]))
    ensures Split(p + w) == Split(p) + [w]
  {
    var s := p + w;
    assert s[|s| - 1] == w[|w| - 1];
    WordStartAfter(p, w, |s| - 1);
    assert s[..|p|] == p && s[|p|..] == w;
  }

  /** Round trip: splitting the single-space join of words gives the words back. */
  lemma {:induction false} SplitJoin(ws: seq<string>)
    requires forall i :: 0 <= i < |ws| ==> IsWord(ws[i])
    ensures Split(Join(" ", ws)) == ws
    decreases |ws|
  {
    if |ws| == 1 {
      SplitLastWord("", ws[0]);
      assert "" + ws[0] == ws[0];
    } else if |ws| > 1 {
      var w := ws[|ws| - 1];
      var init := ws[..|ws| - 1];
      var j := Join(" ", init);
      assert Join(" ", ws) == (j + " ") + w;
      calc {
        Split(Join(" ", ws));
        Split((j + " ") + w);
        { SplitLastWord(j + " ", w); }
        Split(j + " ") + [w];
        { SplitTrailingSpace(j, ' '); }
        Split(j) + [w];
        { SplitJoin(init); }
        init + [w];
        ws;
      }
    }
  }

  /** s.rstrip(chars): drops trailing characters that belong to `chars`, however many. */
  function RStrip(s: string, chars: set<char>): (r: string)
    ensures |r| <= |s| && r == s[..|r|]
    ensures forall i :: |r| <= i < |s| ==> s[i] in chars
    ensures |r| == 0 || r[|r| - 1] !in chars
  {
    if |s| > 0 && s[|s| - 1] in chars then RStrip(s[..|s| - 1], chars) else s
  }

  /** Drops trailing whitespace. */
  function RStripSpace(s: string): (r: string)
    ensures |r| <= |s| && r == s[..|r|]
    ensures forall i :: |r| <= i < |s| ==> IsSpace(s[i])
    ensures |r| == 0 || !IsSpace(r[|r| - 1])
  {
    if |s| > 0 && IsSpace(s[|s| - 1]) then RStripSpace(s[..|s| - 1]) else s
  }

  /** Drops leading whitespace. */
  function LStripSpace(s: string): (r: string)
    ensures |r| <= |s| && r == s[|s| - |r|..]
    ensures forall i :: 0 <= i < |s| - |r| ==> IsSpace(s[i])
    ensures |r| == 0 || !IsSpace(r[0])
  {
    if |s| > 0 && IsSpace(s[0]) then LStripSpace(s[1..]) else s
  }

  /**
   * str.strip(): the middle of `s` left when the whitespace at both ends is
   * removed; what is removed is all whitespace, and what is left neither
   * starts nor ends with whitespace.
   */
  function Strip(s: string): (r: string)
    ensures |r| <= |s|
    ensures |r| == 0 || (!IsSpace(r[0]) && !IsSpace(r[|r| - 1]))
    ensures exists i, j ::
              0 <= i <= j <= |s| && r == s[i..j]
              && (forall k :: 0 <= k < i ==> IsSpace(s[k]))
              && (forall k :: j <= k < |s| ==> IsSpace(s[k]))
  {
    var m := RStripSpace(s);
    var r := LStripSpace(m);
    StripMiddle(s, m, r);
    r
  }

  /** The witness of Strip's ensures: the left strip of the right strip is a middle slice of `s`. */
  lemma StripMiddle(s: string, m: string, r: string)
    requires m == RStripSpace(s) && r == LStripSpace(m)
    ensures var i := |m| - |r|;
      0 <= i <= |m| <= |s| && r == s[i..|m|]
      && (forall k :: 0 <= k < i ==> IsSpace(s[k]))
      && (forall k :: |m| <= k < |s| ==> IsSpace(s[k]))
  {
    var i := |m| - |r|;
    assert r == m[i..] && m == s[..|m|];
    assert r == s[i..|m|];
    forall k | 0 <= k < i
      ensures IsSpace(s[k])
    {
      assert s[k] == m[k];
    }
  }
}
