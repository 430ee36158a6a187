/** Character classes and string operations the analyzer relies on from Go's
    `strings` and `unicode` packages and from the RE2 `\s` class, restated on
    `seq<char>` (a Go string after UTF-8 decoding). */
module Text {

  import opened Wrappers

  /** `unicode.IsSpace`, the whitespace that `strings.TrimSpace` removes:
      the Unicode White_Space property. */
  predicate IsUnicodeSpace(c: char) {
    c == '\t' || c == '\n' || c == '\U{000B}' || c == '\U{000C}' || c == '\r' || c == ' '
    || c == '\U{0085}' || c == '\U{00A0}' || c == '\U{1680}'
    || ('\U{2000}' <= c <= '\U{200A}')
    || c == '\U{2028}' || c == '\U{2029}' || c == '\U{202F}' || c == '\U{205F}' || c == '\U{3000}'
  }

  /** The RE2 Perl class `\s`: tab, newline, form feed, carriage return, space
      (vertical tab is not in it). */
  predicate IsRegexSpace(c: char) {
    c == '\t' || c == '\n' || c == '\U{000C}' || c == '\r' || c == ' '
  }

  lemma RegexSpaceIsUnicodeSpace(c: char)
    ensures IsRegexSpace(c) ==> IsUnicodeSpace(c)
  {
  }

  predicate AllUnicodeSpace(s: string) {
    forall k :: 0 <= k < |s| ==> IsUnicodeSpace(s[k])
  }

  predicate IsLowerAscii(c: char) { 'a' <= c <= 'z' }
  predicate IsUpperAscii(c: char) { 'A' <= c <= 'Z' }

  function UpperChar(c: char): (u: char)
    ensures !IsLowerAscii(u)
    ensures IsLowerAscii(c) ==> IsUpperAscii(u) && u as int == c as int - 32
    ensures !IsLowerAscii(c) ==> u == c
  {
    if IsLowerAscii(c) then (c as int - 32) as char else c
  }

  function LowerChar(c: char): (l: char)
    ensures !IsUpperAscii(l)
    ensures IsUpperAscii(c) ==> IsLowerAscii(l) && l as int == c as int + 32
    ensures !IsUpperAscii(c) ==> l == c
  {
    if IsUpperAscii(c) then (c as int + 32) as char else c
  }

  /** `strings.ToUpper`, on the ASCII letters. */
  function Upper(s: string): (r: string)
    ensures |r| == |s|
    ensures forall k :: 0 <= k < |s| ==> r[k] == UpperChar(s[k])
  {
    seq(|s|, k requires 0 <= k < |s| => UpperChar(s[k]))
  }

  /** `strings.ToLower`, on the ASCII letters. */
  function Lower(s: string): (r: string)
    ensures |r| == |s|
    ensures forall k :: 0 <= k < |s| ==> r[k] == LowerChar(s[k])
  {
    seq(|s|, k requires 0 <= k < |s| => LowerChar(s[k]))
  }

  /** A text without upper-case ASCII letters is its own lower case. */
  lemma LowerOfLowerCase(s: string)
    requires forall k :: 0 <= k < |s| ==> !IsUpperAscii(s[k])
    ensures Lower(s) == s
  {
  }

  /** Two characters are equal under the ASCII case folding of RE2's `(?i)`. */
  predicate EqualFold(a: char, b: char) {
    LowerChar(a) == LowerChar(b)
  }

  predicate StartsWith(s: string, p: string) {
    |p| <= |s| && s[..|p|] == p
  }

  /** `p` occurs in `s` at index `i`, with ASCII case folding. */
  predicate StartsWithFold(s: string, p: string) {
    |p| <= |s| && forall k :: 0 <= k < |p| ==> EqualFold(s[k], p[k])
  }

  predicate OccursAt(s: string, p: string, i: int) {
    0 <= i && i + |p| <= |s| && s[i..i + |p|] == p
  }

  /** `strings.Contains`: `p` occurs somewhere in `s` (the empty string occurs everywhere). */
  predicate Contains(s: string, p: string)
    decreases |s|
  {
    StartsWith(s, p) || (|s| > 0 && Contains(s[1..], p))
  }

  lemma {:induction false} ContainsIffOccurs(s: string, p: string)
    ensures Contains(s, p) <==> exists i :: OccursAt(s, p, i)
  {
    assert StartsWith(s, p) <==> OccursAt(s, p, 0) by {
      if |p| <= |s| { assert s[..|p|] == s[0..|p|]; }
    }
    if |s| > 0 {
      ContainsIffOccurs(s[1..], p);
      forall i | 0 < i ensures OccursAt(s, p, i) <==> OccursAt(s[1..], p, i - 1) {
        if i + |p| <= |s| { assert s[1..][i - 1..i - 1 + |p|] == s[i..i + |p|]; }
      }
      if Contains(s[1..], p) {
        var i :| OccursAt(s[1..], p, i);
        assert OccursAt(s, p, i + 1);
      }
    }
  }

  /** Occurrences survive extending the string on either side. */
  lemma ContainsInExtension(s: string, p: string, before: string, after: string)
    requires Contains(s, p)
    ensures Contains(before + s + after, p)
  {
    ContainsIffOccurs(s, p);
    var i :| OccursAt(s, p, i);
    var t := before + s + after;
    assert t[|before| + i..|before| + i + |p|] == s[i..i + |p|];
    assert OccursAt(t, p, |before| + i);
    ContainsIffOccurs(t, p);
  }

  /** Every character of a string that occurs in `s` is a character of `s`. */
  lemma ContainedCharsOccur(s: string, p: string)
    ensures Contains(s, p) ==> forall c :: c in p ==> c in s
  {
    ContainsIffOccurs(s, p);
    if Contains(s, p) {
      var i :| OccursAt(s, p, i);
      forall c | c in p ensures c in s {
        var k :| 0 <= k < |p| && p[k] == c;
        assert s[i + k] == s[i..i + |p|][k];
      }
    }
  }

  /** A string with a character that `s` lacks does not occur in `s`. */
  lemma MissingCharNotContained(s: string, p: string, c: char)
    requires c in p && c !in s
    ensures !Contains(s, p)
  {
    ContainedCharsOccur(s, p);
  }

  /** A string that occurs inside `p` occurs wherever `p` occurs. */
  lemma ContainsTransitive(s: string, p: string, q: string)
    requires Contains(s, p) && Contains(p, q)
    ensures Contains(s, q)
  {
    ContainsIffOccurs(s, p);
    ContainsIffOccurs(p, q);
    var i :| OccursAt(s, p, i);
    var j :| OccursAt(p, q, j);
    forall k | 0 <= k < |q| ensures s[i + j + k] == q[k] {
      assert s[i + j + k] == s[i..i + |p|][j + k] == p[j + k] == p[j..j + |q|][k];
    }
    assert s[i + j..i + j + |q|] == q;
    assert OccursAt(s, q, i + j);
    ContainsIffOccurs(s, q);
  }

  /** A string occurs in itself with anything around it. */
  lemma ContainsPiece(before: string, p: string, after: string)
    ensures Contains(before + p + after, p)
  {
    assert StartsWith(p, p) by { assert p[..|p|] == p; }
    ContainsInExtension(p, p, before, after);
  }

  /** A string occurs at the end of anything it ends. */
  lemma ContainsEnd(before: string, p: string)
    ensures Contains(before + p, p)
  {
    ContainsPiece(before, p, []);
    assert before + p + [] == before + p;
  }

  /** An occurrence survives appending text. */
  lemma ContainsInPrefix(s: string, p: string, after: string)
    requires Contains(s, p)
    ensures Contains(s + after, p)
  {
    ContainsInExtension(s, p, [], after);
    assert [] + s + after == s + after;
  }

  /** No `x` in `s` is directly followed by `y`. */
  predicate NoPair(s: string, x: char, y: char) {
    forall k :: 0 <= k < |s| - 1 ==> s[k] != x || s[k + 1] != y
  }

  /** Joining two texts without the pair creates it only at the seam. */
  lemma NoPairJoin(a: string, b: string, x: char, y: char)
    requires NoPair(a, x, y) && NoPair(b, x, y)
    requires a == [] || b == [] || a[|a| - 1] != x || b[0] != y
    ensures NoPair(a + b, x, y)
  {
    var s := a + b;
    forall k | 0 <= k < |s| - 1 ensures s[k] != x || s[k + 1] != y {
      if |a| <= k {
        assert s[k] == b[k - |a|] && s[k + 1] == b[k + 1 - |a|];
      }
    }
  }

  /** A text without some pair of adjacent characters of `p` does not
      contain `p`. */
  lemma NoPairNotContained(s: string, p: string, j: nat)
    requires j + 1 < |p| && NoPair(s, p[j], p[j + 1])
    ensures !Contains(s, p)
  {
    forall i | 0 <= i && i + |p| <= |s| ensures !OccursAt(s, p, i) {
      assert s[i..i + |p|][j] == s[i + j] && s[i..i + |p|][j + 1] == s[i + j + 1];
    }
    ContainsIffOccurs(s, p);
  }

  /** Index of the first `c` at or after `from`, if any. */
  function IndexOfFrom(s: string, c: char, from: nat): (r: Option<nat>)
    decreases |s| - from
    ensures r.Some? ==> from <= r.value < |s| && s[r.value] == c
    ensures r.Some? ==> forall k :: from <= k < r.value ==> s[k] != c
    ensures r.None? ==> forall k :: from <= k < |s| ==> s[k] != c
  {
    if from >= |s| then None
    else if s[from] == c then Some(from)
    else IndexOfFrom(s, c, from + 1)
  }

  /** Index of the first occurrence of `p` at or after `from`, if any. */
  function FindFrom(s: string, p: string, from: nat): (r: Option<nat>)
    decreases |s| - from
    ensures r.Some? ==> from <= r.value && OccursAt(s, p, r.value)
    ensures r.Some? ==> forall k :: from <= k < r.value ==> !OccursAt(s, p, k)
    ensures r.None? ==> forall k :: from <= k ==> !OccursAt(s, p, k)
  {
    if from + |p| > |s| then None
    else if s[from..from + |p|] == p then Some(from)
    else FindFrom(s, p, from + 1)
  }

  /** End of the longest run of RE2 `\s` characters starting at `from`: the
      greedy `\s*`. */
  function RegexSpaceRunEnd(s: string, from: nat): (e: nat)
    decreases |s| - from
    ensures from <= |s| ==> from <= e <= |s|
    ensures from > |s| ==> e == from
    ensures forall k :: from <= k < e ==> IsRegexSpace(s[k])
    ensures e < |s| ==> !IsRegexSpace(s[e])
  {
    if from < |s| && IsRegexSpace(s[from]) then RegexSpaceRunEnd(s, from + 1) else from
  }

  /** `strings.TrimLeft` of the Unicode whitespace. */
  function TrimLeftSpace(s: string): (r: string)
    ensures |r| <= |s| && r == s[|s| - |r|..]
    ensures AllUnicodeSpace(s[..|s| - |r|])
    ensures r == [] || !IsUnicodeSpace(r[0])
  {
    if |s| > 0 && IsUnicodeSpace(s[0]) then
      var r := TrimLeftSpace(s[1..]);
      TrimLeftStep(s, r);
      r
    else s
  }

  /** One leading space more in front of a trimmed suffix. */
  lemma TrimLeftStep(s: string, r: string)
    requires |s| > 0 && IsUnicodeSpace(s[0])
    requires |r| <= |s| - 1 && r == s[1..][|s| - 1 - |r|..] && AllUnicodeSpace(s[1..][..|s| - 1 - |r|])
    ensures r == s[|s| - |r|..] && AllUnicodeSpace(s[..|s| - |r|])
  {
    var n := |s| - |r|;
    assert s[1..][n - 1..] == s[n..];
    forall k | 0 <= k < n ensures IsUnicodeSpace(s[k]) {
      if k > 0 {
        assert s[k] == s[1..][..n - 1][k - 1];
      }
    }
  }

  /** `strings.TrimRight` of the Unicode whitespace. */
  function TrimRightSpace(s: string): (r: string)
    ensures |r| <= |s| && r == s[..|r|]
    ensures AllUnicodeSpace(s[|r|..])
    ensures r == [] || !IsUnicodeSpace(r[|r| - 1])
  {
    if |s| > 0 && IsUnicodeSpace(s[|s| - 1]) then
      var r := TrimRightSpace(s[..|s| - 1]);
      assert s[|r|..] == s[..|s| - 1][|r|..] + [s[|s| - 1]];
      r
    else s
  }

  /** `r` is a slice of `s` with only whitespace before and after it. */
  predicate PaddedBy(s: string, r: string) {
    exists i :: 0 <= i <= |s| - |r| && r == s[i..i + |r|]
                && AllUnicodeSpace(s[..i]) && AllUnicodeSpace(s[i + |r|..])
  }

  /** `strings.TrimSpace`: `s` without its leading and trailing whitespace. */
  function TrimSpace(s: string): (r: string)
    ensures PaddedBy(s, r)
    ensures r == [] || (!IsUnicodeSpace(r[0]) && !IsUnicodeSpace(r[|r| - 1]))
  {
    var left := TrimLeftSpace(s);
    var r := TrimRightSpace(left);
    PaddedAt(s, left, r);
    r
  }

  /** Trimming a suffix of `s` after a whitespace prefix, then a prefix of
      that before a whitespace suffix, leaves `s` padded around the result. */
  lemma PaddedAt(s: string, left: string, r: string)
    requires |left| <= |s| && left == s[|s| - |left|..] && AllUnicodeSpace(s[..|s| - |left|])
    requires |r| <= |left| && r == left[..|r|] && AllUnicodeSpace(left[|r|..])
    ensures PaddedBy(s, r)
  {
    var i := |s| - |left|;
    assert s[i + |r|..] == left[|r|..];
    assert r == s[i..i + |r|];
  }

  /** Leading whitespace does not change what `strings.TrimLeft` returns. */
  lemma {:induction false} TrimLeftIgnoresLeadingSpace(w: string, s: string)
    requires AllUnicodeSpace(w)
    ensures TrimLeftSpace(w + s) == TrimLeftSpace(s)
  {
    if w != [] {
      assert (w + s)[0] == w[0] && (w + s)[1..] == w[1..] + s;
      TrimLeftIgnoresLeadingSpace(w[1..], s);
    } else {
      assert w + s == s;
    }
  }

  /** Leading whitespace does not change what `strings.TrimSpace` returns. */
  lemma TrimSpaceIgnoresLeadingSpace(w: string, s: string)
    requires AllUnicodeSpace(w)
    ensures TrimSpace(w + s) == TrimSpace(s)
  {
    TrimLeftIgnoresLeadingSpace(w, s);
  }

  /** Trailing whitespace does not change what `strings.TrimRight` returns. */
  lemma {:induction false} TrimRightIgnoresTrailingSpace(s: string, w: string)
    requires AllUnicodeSpace(w)
    ensures TrimRightSpace(s + w) == TrimRightSpace(s)
    decreases |w|
  {
    if w != [] {
      var n := |s + w|;
      assert (s + w)[n - 1] == w[|w| - 1];
      assert (s + w)[..n - 1] == s + w[..|w| - 1];
      TrimRightIgnoresTrailingSpace(s, w[..|w| - 1]);
    } else {
      assert s + w == s;
    }
  }

  /** A text is its two parts on either side of a cut. */
  lemma SplitAt(s: string, n: nat)
    requires n <= |s|
    ensures s[..n] + s[n..] == s
  {
  }

  /** Upper-casing works piece by piece. */
  lemma UpperJoin(a: string, b: string)
    ensures Upper(a + b) == Upper(a) + Upper(b)
  {
    assert forall k :: 0 <= k < |a + b| ==> Upper(a + b)[k] == (Upper(a) + Upper(b))[k];
  }

  /** Concatenation regroups. */
  lemma ConcatAssoc(a: string, b: string, c: string)
    ensures a + b + c == a + (b + c)
  {
  }

  /** White space in front of a text that starts with a non-space is
      dropped, and trimming keeps the text up to its last non-space at least. */
  lemma TrimSpaceKeepsPrefix(w: string, m: string, n: nat)
    requires AllUnicodeSpace(w) && 0 < n <= |m|
    requires !IsUnicodeSpace(m[0]) && !IsUnicodeSpace(m[n - 1])
    ensures n <= |TrimSpace(w + m)| <= |m| && TrimSpace(w + m) == m[..|TrimSpace(w + m)|]
  {
    TrimSpaceIgnoresLeadingSpace(w, m);
    assert TrimLeftSpace(m) == m;
  }

  /** `strings.TrimSpace` returns exactly the text between leading and
      trailing whitespace. */
  lemma TrimSpaceStripsPadding(w1: string, t: string, w2: string)
    requires AllUnicodeSpace(w1) && AllUnicodeSpace(w2)
    requires t == [] || (!IsUnicodeSpace(t[0]) && !IsUnicodeSpace(t[|t| - 1]))
    ensures TrimSpace(w1 + t + w2) == t
  {
    var s := w1 + t + w2;
    assert s == w1 + (t + w2);
    TrimLeftIgnoresLeadingSpace(w1, t + w2);
    assert TrimLeftSpace(s) == TrimLeftSpace(t + w2);
    if t == [] {
      assert t + w2 == w2 + [];
      TrimLeftIgnoresLeadingSpace(w2, []);
      assert TrimLeftSpace(s) == [];
    } else {
      assert (t + w2)[0] == t[0];
      assert TrimLeftSpace(t + w2) == t + w2;
      TrimRightIgnoresTrailingSpace(t, w2);
      assert TrimRightSpace(t) == t;
    }
  }

  /** Number of bytes `c` takes in UTF-8. */
  function Utf8Width(c: char): (n: nat)
    ensures 1 <= n <= 4
  {
    if c as int < 0x80 then 1
    else if c as int < 0x800 then 2
    else if c as int < 0x10000 then 3
    else 4
  }

  /** Go's `len` of a string: its length in UTF-8 bytes. */
  function Utf8Length(s: string): (n: nat)
    ensures |s| <= n <= 4 * |s|
  {
    if s == [] then 0 else Utf8Width(s[0]) + Utf8Length(s[1..])
  }
}
