/** The markup version classifier: `extractDOCTYPE`,
    `checkHTMLVersionWithVariants` and `detectHTMLVersion`. The four regular
    expressions of the constants file are written out as matchers over the
    text; each returns the end of the match at the start of the text. */
module HtmlVersion {

  import opened Wrappers
  import opened Text
  import opened Constants

  /** `j` closes an XML declaration opened at `i`: it is the first `>` after
      `<?xml`, and a `?` directly precedes it. */
  predicate XmlCloseAt(s: string, i: nat, j: int) {
    i + 5 < j < |s| && s[j] == '>' && s[j - 1] == '?'
    && forall k :: i + 5 <= k < j ==> s[k] != '>'
  }

  /** End of the match of `(?i)^\s*<\?xml[^>]*\?>\s*` at the start of `s`:
      optional spaces, `<?xml` in any case, then everything up to the first
      `>`, which must directly follow a `?`, then optional spaces. */
  function XmlDeclarationEnd(s: string): (e: Option<nat>)
    ensures var i := RegexSpaceRunEnd(s, 0);
      e.Some? <==> StartsWithFold(s[i..], "<?xml") && exists j :: XmlCloseAt(s, i, j)
    ensures e.Some? ==> exists j :: XmlCloseAt(s, RegexSpaceRunEnd(s, 0), j) && e.value == RegexSpaceRunEnd(s, j + 1)
    ensures e.Some? ==> 0 < e.value <= |s|
    ensures e.Some? && e.value < |s| ==> !IsRegexSpace(s[e.value])
  {
    var i := RegexSpaceRunEnd(s, 0);
    if !StartsWithFold(s[i..], "<?xml") then None
    else match IndexOfFrom(s, '>', i + 5)
      case None =>
        assert forall j :: !XmlCloseAt(s, i, j);
        None
      case Some(j) =>
        if j > i + 5 && s[j - 1] == '?' then
          assert XmlCloseAt(s, i, j);
          Some(RegexSpaceRunEnd(s, j + 1))
        else
          assert forall j' :: !XmlCloseAt(s, i, j');
          None
  }

  /** The non-greedy `.*?` of the comment pattern can stop at `k`: `-->`
      occurs there, and no line break lies between `<!--` and it. */
  predicate CommentCloseAt(s: string, i: nat, k: int) {
    i + 4 <= k && OccursAt(s, "-->", k) && '\n' !in s[i + 4..k]
  }

  /** A character of a slice is a character of every longer slice. */
  lemma SliceMemberCarries(s: string, c: char, lo: nat, hi: nat, hi': nat)
    requires lo <= hi <= hi' <= |s| && c in s[lo..hi]
    ensures c in s[lo..hi']
  {
    var x :| lo <= x < hi && s[x] == c;
    assert s[lo..hi'][x - lo] == c;
  }

  /** End of the match of `(?i)^\s*<!--.*?-->\s*` at the start of `s`: the
      comment closes at the first `-->`, and `.` does not cross a newline. */
  function CommentEnd(s: string): (e: Option<nat>)
    ensures var i := RegexSpaceRunEnd(s, 0);
      e.Some? <==> StartsWith(s[i..], "<!--") && exists k :: CommentCloseAt(s, i, k)
    ensures e.Some? ==> exists k :: (CommentCloseAt(s, RegexSpaceRunEnd(s, 0), k)
      && (forall m :: RegexSpaceRunEnd(s, 0) + 4 <= m < k ==> !OccursAt(s, "-->", m))
      && e.value == RegexSpaceRunEnd(s, k + 3))
    ensures e.Some? ==> 0 < e.value <= |s|
    ensures e.Some? && e.value < |s| ==> !IsRegexSpace(s[e.value])
  {
    var i := RegexSpaceRunEnd(s, 0);
    if !StartsWith(s[i..], "<!--") then None
    else match FindFrom(s, "-->", i + 4)
      case None =>
        assert forall k :: !CommentCloseAt(s, i, k);
        None
      case Some(k) =>
        if '\n' in s[i + 4..k] then
          forall k' | i + 4 <= k' && OccursAt(s, "-->", k') ensures '\n' in s[i + 4..k'] {
            SliceMemberCarries(s, '\n', i + 4, k, k');
          }
          None
        else
          assert CommentCloseAt(s, i, k);
          Some(RegexSpaceRunEnd(s, k + 3))
  }

  /** End of the match of `(?i)^\s*<!DOCTYPE\s+[^>]*>` at the start of `s`:
      optional spaces, `<!DOCTYPE` in any case, at least one space, then
      everything up to and including the first `>`. */
  function DoctypeEnd(s: string): (e: Option<nat>)
    ensures var i := RegexSpaceRunEnd(s, 0);
      e.Some? <==> StartsWithFold(s[i..], "<!DOCTYPE") && i + 9 < |s| && IsRegexSpace(s[i + 9])
                   && exists k :: i + 10 <= k < |s| && s[k] == '>'
    ensures e.Some? ==> var i := RegexSpaceRunEnd(s, 0);
                        i + 10 < e.value <= |s| && StartsWithFold(s[i..], "<!DOCTYPE")
                        && IsRegexSpace(s[i + 9]) && s[e.value - 1] == '>'
                        && forall k :: i <= k < e.value - 1 ==> s[k] != '>'
  {
    var i := RegexSpaceRunEnd(s, 0);
    if !StartsWithFold(s[i..], "<!DOCTYPE") || i + 9 >= |s| || !IsRegexSpace(s[i + 9]) then None
    else match IndexOfFrom(s, '>', i + 10)
      case None => None
      case Some(j) => Some(j + 1)
  }

  /** `ReplaceAllString(s, "")` with the XML declaration pattern: being
      anchored, the pattern is removed at most once, from the front. */
  function StripXmlDeclaration(s: string): (r: string)
    ensures XmlDeclarationEnd(s).None? ==> r == s
    ensures XmlDeclarationEnd(s).Some? ==> r == s[XmlDeclarationEnd(s).value..]
    ensures |r| <= |s| && r == s[|s| - |r|..]
    ensures r == s || r == [] || !IsRegexSpace(r[0])
  {
    match XmlDeclarationEnd(s)
    case None => s
    case Some(e) => s[e..]
  }

  /** `ReplaceAllString(s, "")` with the comment pattern: at most one leading
      comment is removed. */
  function StripComment(s: string): (r: string)
    ensures CommentEnd(s).None? ==> r == s
    ensures CommentEnd(s).Some? ==> r == s[CommentEnd(s).value..]
    ensures |r| <= |s| && r == s[|s| - |r|..]
    ensures r == s || r == [] || !IsRegexSpace(r[0])
  {
    match CommentEnd(s)
    case None => s
    case Some(e) => s[e..]
  }

  /** Upper-casing text that case-folds to a pattern without lower-case
      letters gives text that starts with the pattern itself. */
  lemma UpperOfFolded(s: string, p: string)
    requires StartsWithFold(s, p) && forall k :: 0 <= k < |p| ==> !IsLowerAscii(p[k])
    ensures StartsWith(Upper(s), p)
  {
    var u := Upper(s);
    forall k | 0 <= k < |p| ensures u[k] == p[k] {
      assert EqualFold(s[k], p[k]);
    }
    assert u[..|p|] == p;
  }

  /** Upper-casing keeps every `>` and creates none. */
  lemma UpperKeepsCloseAngle(c: char)
    ensures UpperChar(c) == '>' <==> c == '>'
  {
  }

  /** The text the DOCTYPE pattern is applied to: trimmed, then without a
      leading XML declaration, then without one leading comment. */
  function CleanedMarkup(html: string): (cleaned: string)
    ensures cleaned == [] || !IsRegexSpace(cleaned[0])
  {
    var trimmed := TrimSpace(html);
    assert trimmed == [] || !IsRegexSpace(trimmed[0]) by {
      if trimmed != [] { RegexSpaceIsUnicodeSpace(trimmed[0]); }
    }
    StripComment(StripXmlDeclaration(trimmed))
  }

  /** The shape of a DOCTYPE token: `<!DOCTYPE`, a space, then text whose
      only `>` is the last character, with no lower-case ASCII letter. */
  predicate IsDoctypeToken(d: string) {
    |d| > 10 && StartsWith(d, "<!DOCTYPE") && IsRegexSpace(d[9])
    && d[|d| - 1] == '>' && (forall k :: 0 <= k < |d| - 1 ==> d[k] != '>')
    && (forall k :: 0 <= k < |d| ==> !IsLowerAscii(d[k]))
  }

  /** The text matched by the DOCTYPE pattern at the start of cleaned
      markup, upper-cased, has the shape of a DOCTYPE token. */
  lemma DoctypeTokenShape(cleaned: string, e: nat)
    requires DoctypeEnd(cleaned) == Some(e) && (cleaned == [] || !IsRegexSpace(cleaned[0]))
    ensures IsDoctypeToken(Upper(cleaned[..e]))
  {
    assert RegexSpaceRunEnd(cleaned, 0) == 0;
    var d := Upper(cleaned[..e]);
    assert StartsWithFold(cleaned[..e], "<!DOCTYPE");
    assert "<!DOCTYPE"[..] == ['<', '!', 'D', 'O', 'C', 'T', 'Y', 'P', 'E'];
    UpperOfFolded(cleaned[..e], "<!DOCTYPE");
    forall k | 0 <= k < |d| ensures d[k] == '>' <==> k == |d| - 1 {
      UpperKeepsCloseAngle(cleaned[k]);
    }
  }

  /** `extractDOCTYPE`: the upper-cased leading `<!DOCTYPE ...>` token, or ""
      when there is none. A token starts with `<!DOCTYPE` and a space, its
      only `>` is its last character, and it has no lower-case ASCII letter. */
  function ExtractDoctype(html: string): (d: string)
    ensures d == [] || IsDoctypeToken(d)
  {
    var cleaned := CleanedMarkup(html);
    match DoctypeEnd(cleaned)
    case None => ""
    case Some(e) =>
      DoctypeTokenShape(cleaned, e);
      Upper(cleaned[..e])
  }

  /** An XML declaration: `<?xml` in any case, then text without `>`, then
      `?>`. */
  predicate IsXmlDeclarationText(x: string) {
    |x| >= 7 && StartsWithFold(x, "<?xml") && x[|x| - 2] == '?' && x[|x| - 1] == '>'
    && forall k :: 5 <= k < |x| - 1 ==> x[k] != '>'
  }

  /** A comment on one line: `<!--`, then text without a line break, closed by
      its first `-->`. */
  predicate IsOneLineCommentText(c: string) {
    |c| >= 7 && StartsWith(c, "<!--") && OccursAt(c, "-->", |c| - 3) && '\n' !in c
    && forall k :: 4 <= k < |c| - 3 ==> !OccursAt(c, "-->", k)
  }

  /** A DOCTYPE declaration as written: `<!DOCTYPE` in any case, a space, then
      text whose only `>` closes it. */
  predicate IsDoctypeText(t: string) {
    |t| > 10 && StartsWithFold(t, "<!DOCTYPE") && IsRegexSpace(t[9]) && t[|t| - 1] == '>'
    && forall k :: 0 <= k < |t| - 1 ==> t[k] != '>'
  }

  /** A leading XML declaration and the spaces after it are removed. */
  lemma XmlDeclarationRemoved(x: string, sp: string, q: string)
    requires IsXmlDeclarationText(x) && AllRegexSpace(sp)
    requires q != [] && !IsRegexSpace(q[0])
    ensures StripXmlDeclaration(x + sp + q) == q
  {
    var s := x + sp + q;
    assert EqualFold(x[0], '<');
    assert s[0] == '<';
    RunEndAt(s, 0, 0);
    assert StartsWithFold(s, "<?xml") by {
      forall k | 0 <= k < 5 ensures EqualFold(s[k], "<?xml"[k]) {
        assert s[k] == x[k];
      }
    }
    assert XmlCloseAt(s, 0, |x| - 1);
    forall j | XmlCloseAt(s, 0, j) ensures j == |x| - 1 {
    }
    forall k | |x| <= k < |x| + |sp| ensures IsRegexSpace(s[k]) {
      assert s[k] == sp[k - |x|];
    }
    assert s[|x| + |sp|] == q[0];
    RunEndAt(s, |x|, |x| + |sp|);
    assert s[|x| + |sp|..] == q;
  }

  /** Text that starts with `<` but not with `<?` keeps its start. */
  lemma XmlDeclarationAbsent(q: string)
    requires |q| >= 2 && q[0] == '<' && q[1] != '?'
    ensures StripXmlDeclaration(q) == q
  {
    RunEndAt(q, 0, 0);
    assert q[0..] == q;
    assert !EqualFold(q[1], "<?xml"[1]);
  }

  /** A leading one-line comment and the spaces after it are removed. */
  lemma CommentRemoved(c: string, sp: string, q: string)
    requires IsOneLineCommentText(c) && AllRegexSpace(sp)
    requires q != [] && !IsRegexSpace(q[0])
    ensures StripComment(c + sp + q) == q
  {
    var s := c + sp + q;
    assert c[0] == c[..4][0];
    assert s[0] == '<';
    RunEndAt(s, 0, 0);
    assert s[..4] == c[..4];
    assert s[0..] == s;
    forall k | 0 <= k && k + 3 <= |c| ensures OccursAt(s, "-->", k) == OccursAt(c, "-->", k) {
      assert s[k..k + 3] == c[k..k + 3];
    }
    assert s[4..|c| - 3] == c[4..|c| - 3];
    assert '\n' !in s[4..|c| - 3];
    assert CommentCloseAt(s, 0, |c| - 3);
    forall k | 4 <= k < |c| - 3 ensures !OccursAt(s, "-->", k) {
    }
    forall k | |c| <= k < |c| + |sp| ensures IsRegexSpace(s[k]) {
      assert s[k] == sp[k - |c|];
    }
    assert s[|c| + |sp|] == q[0];
    RunEndAt(s, |c|, |c| + |sp|);
    assert s[|c| + |sp|..] == q;
  }

  /** Text that starts with `<` but not with `<!-` keeps its start. */
  lemma CommentAbsent(q: string)
    requires |q| >= 2 && q[0] == '<' && (q[1] != '!' || (|q| >= 3 && q[2] != '-'))
    ensures StripComment(q) == q
  {
    RunEndAt(q, 0, 0);
    assert q[0..] == q;
    assert !StartsWith(q, "<!--") by {
      if |q| >= 4 {
        assert q[..4][1] == q[1] && q[..4][2] == q[2];
      }
    }
  }

  /** Text that starts with `<` but not with `<!` has no DOCTYPE at its
      start. */
  lemma DoctypeAbsent(q: string)
    requires |q| >= 2 && q[0] == '<' && q[1] != '!'
    ensures DoctypeEnd(q).None?
  {
    RunEndAt(q, 0, 0);
    assert q[0..] == q;
    assert !EqualFold(q[1], "<!DOCTYPE"[1]);
  }

  /** A DOCTYPE declaration at the start is matched up to its `>`. */
  lemma DoctypeFound(t: string, r: string)
    requires IsDoctypeText(t)
    ensures DoctypeEnd(t + r) == Some(|t|)
  {
    var s := t + r;
    assert EqualFold(t[0], '<');
    assert s[0] == '<';
    RunEndAt(s, 0, 0);
    assert s[0..] == s;
    assert StartsWithFold(s, "<!DOCTYPE") by {
      forall k | 0 <= k < 9 ensures EqualFold(s[k], "<!DOCTYPE"[k]) {
        assert s[k] == t[k];
      }
    }
    assert s[|t| - 1] == '>';
  }

  /** Trimming keeps a lead that starts and ends with a non-space. */
  lemma TrimmedLead(w: string, pre: string, rest: string) returns (r: string)
    requires AllUnicodeSpace(w) && pre != []
    requires !IsUnicodeSpace(pre[0]) && !IsUnicodeSpace(pre[|pre| - 1])
    ensures TrimSpace(w + (pre + rest)) == pre + r
  {
    var m := pre + rest;
    assert m[0] == pre[0] && m[|pre| - 1] == pre[|pre| - 1];
    TrimSpaceKeepsPrefix(w, m, |pre|);
    var trimmed := TrimSpace(w + m);
    r := m[|pre|..|trimmed|];
    assert trimmed == m[..|trimmed|] == pre + r;
  }

  /** The optional declaration and comment in front of a DOCTYPE are
      stripped. */
  lemma StrippedLead(x: string, sp1: string, c: string, sp2: string, q: string)
    requires (x == [] && sp1 == []) || (IsXmlDeclarationText(x) && AllRegexSpace(sp1))
    requires (c == [] && sp2 == []) || (IsOneLineCommentText(c) && AllRegexSpace(sp2))
    requires |q| >= 3 && q[0] == '<' && q[1] == '!' && q[2] != '-'
    ensures StripComment(StripXmlDeclaration(x + sp1 + (c + sp2 + q))) == q
  {
    var q1 := c + sp2 + q;
    if c != [] {
      assert c[0] == c[..4][0] && c[1] == c[..4][1];
      assert q1[0] == c[0] && q1[1] == c[1];
    } else {
      assert q1 == q;
    }
    if x != [] {
      XmlDeclarationRemoved(x, sp1, q1);
    } else {
      assert x + sp1 + q1 == q1;
      XmlDeclarationAbsent(q1);
    }
    if c != [] {
      CommentRemoved(c, sp2, q);
    } else {
      assert q1 == q;
      CommentAbsent(q);
    }
  }

  /** `extractDOCTYPE` finds a DOCTYPE that follows white space, an optional
      XML declaration and an optional one-line comment, and returns it
      upper-cased, whatever comes after it. */
  lemma ExtractFindsDoctype(w: string, x: string, sp1: string, c: string, sp2: string, t: string, rest: string)
    requires AllUnicodeSpace(w)
    requires (x == [] && sp1 == []) || (IsXmlDeclarationText(x) && AllRegexSpace(sp1))
    requires (c == [] && sp2 == []) || (IsOneLineCommentText(c) && AllRegexSpace(sp2))
    requires IsDoctypeText(t)
    ensures ExtractDoctype(w + x + sp1 + c + sp2 + t + rest) == Upper(t)
  {
    var pre := x + sp1 + c + sp2 + t;
    var html := w + x + sp1 + c + sp2 + t + rest;
    ConcatAssoc(w, x, sp1);
    ConcatAssoc(w, x + sp1, c);
    ConcatAssoc(w, x + sp1 + c, sp2);
    ConcatAssoc(w, x + sp1 + c + sp2, t);
    ConcatAssoc(w, pre, rest);
    assert EqualFold(t[0], '<') && EqualFold(t[1], '!') && EqualFold(t[2], 'D');
    if x != [] {
      assert EqualFold(x[0], '<');
      assert pre[0] == x[0];
    } else if c != [] {
      assert c[0] == c[..4][0];
      assert pre[0] == c[0];
    } else {
      assert pre[0] == t[0];
    }
    assert pre[|pre| - 1] == t[|t| - 1];
    var r := TrimmedLead(w, pre, rest);
    var lead, comment := x + sp1, c + sp2;
    ConcatAssoc(lead, c, sp2);
    ConcatAssoc(lead + comment, t, r);
    ConcatAssoc(lead, comment, t + r);
    StrippedLead(x, sp1, c, sp2, t + r);
    assert CleanedMarkup(html) == t + r;
    DoctypeFound(t, r);
    assert (t + r)[..|t|] == t;
  }

  /** A lone `<` starts no XML declaration and no comment. */
  lemma LoneAngleKept(t: string)
    requires t == ['<']
    ensures StripComment(StripXmlDeclaration(t)) == t
  {
    RunEndAt(t, 0, 0);
    assert t[0..] == t;
    assert XmlDeclarationEnd(t).None?;
    assert CommentEnd(t).None?;
  }

  /** A lone `<` starts no DOCTYPE. */
  lemma LoneAngleHasNoDoctype(t: string)
    requires t == ['<']
    ensures DoctypeEnd(t).None?
  {
    RunEndAt(t, 0, 0);
    assert t[0..] == t;
  }

  /** Trimming markup that starts with `<` keeps the `<` and the character
      after it, unless only white space follows. */
  lemma TrimmedTagStart(html: string)
    requires |html| >= 2 && html[0] == '<'
    ensures var t := TrimSpace(html);
      |t| >= 1 && t[0] == '<' && (|t| == 1 || t[1] == html[1])
  {
    var e: string := [];
    assert e + html == html;
    TrimSpaceKeepsPrefix(e, html, 1);
  }

  /** Markup that starts with a tag, `<` and then neither `!` nor `?`, has no
      DOCTYPE token, whatever white space it ends with. */
  lemma ExtractNeedsDeclaration(html: string)
    requires |html| >= 2 && html[0] == '<' && html[1] != '!' && html[1] != '?'
    ensures ExtractDoctype(html) == ""
  {
    var t := TrimSpace(html);
    TrimmedTagStart(html);
    if |t| >= 2 {
      XmlDeclarationAbsent(t);
      CommentAbsent(t);
      DoctypeAbsent(t);
    } else {
      assert t == ['<'];
      LoneAngleKept(t);
      LoneAngleHasNoDoctype(t);
    }
    assert CleanedMarkup(html) == t;
  }

  /** Whitespace before the markup is ignored. */
  lemma ExtractIgnoresLeadingWhitespace(w: string, html: string)
    requires AllUnicodeSpace(w)
    ensures ExtractDoctype(w + html) == ExtractDoctype(html)
  {
    TrimSpaceIgnoresLeadingSpace(w, html);
  }

  /** The DOCTYPE must sit at the very start of the trimmed markup, possibly
      behind an XML declaration or a comment: nothing later is found. */
  lemma {:induction false} ExtractIsAnchored(html: string)
    requires ExtractDoctype(html) != ""
    ensures var t := TrimSpace(html);
            StartsWithFold(t, "<!DOCTYPE") || StartsWithFold(t, "<?xml") || StartsWith(t, "<!--")
  {
    var t := TrimSpace(html);
    assert t == [] || !IsRegexSpace(t[0]) by {
      if t != [] { RegexSpaceIsUnicodeSpace(t[0]); }
    }
    assert RegexSpaceRunEnd(t, 0) == 0;
    var x := StripXmlDeclaration(t);
    if x != t {
      assert XmlDeclarationEnd(t).Some?;
    } else {
      var c := StripComment(x);
      if c != x {
        assert CommentEnd(x).Some?;
      } else {
        assert DoctypeEnd(c).Some?;
      }
    }
  }

  /** A leading comment that spans a line break is not removed, so no DOCTYPE
      is found behind it. */
  lemma MultiLineCommentHidesDoctype(html: string)
    requires var t := TrimSpace(html);
             StartsWith(t, "<!--") && FindFrom(t, "-->", 4).Some? && '\n' in t[4..FindFrom(t, "-->", 4).value]
    ensures ExtractDoctype(html) == ""
  {
    var t := TrimSpace(html);
    CommentLead(t);
    MultiLineCommentKept(t);
    assert CleanedMarkup(html) == t;
  }

  /** A leading comment whose first `-->` comes after a line break is not
      matched by the comment pattern. */
  lemma MultiLineCommentKept(t: string)
    requires StartsWith(t, "<!--") && FindFrom(t, "-->", 4).Some? && '\n' in t[4..FindFrom(t, "-->", 4).value]
    requires RegexSpaceRunEnd(t, 0) == 0
    ensures CommentEnd(t).None?
  {
    assert t[0..] == t;
  }

  /** Markup that starts with `<!--` has no leading spaces, no XML
      declaration and no DOCTYPE at its start. */
  lemma CommentLead(t: string)
    requires StartsWith(t, "<!--")
    ensures RegexSpaceRunEnd(t, 0) == 0
    ensures XmlDeclarationEnd(t).None? && DoctypeEnd(t).None?
  {
    assert t[0] == '<' && t[1] == '!' && t[2] == '-' by {
      assert t[..4] == "<!--";
      assert t[0] == t[..4][0] && t[1] == t[..4][1] && t[2] == t[..4][2];
    }
    assert !IsRegexSpace(t[0]);
    assert !StartsWithFold(t, "<?xml") by { assert !EqualFold(t[1], '?'); }
    assert !StartsWithFold(t, "<!DOCTYPE") by { assert !EqualFold(t[2], 'D'); }
  }

  /** `RegexHTML5DOCTYPE`, `^\s*<!DOCTYPE\s+HTML\s*>\s*$`, case-sensitive and
      matched against the whole token. */
  predicate IsBareHtml5Doctype(d: string) {
    var i := RegexSpaceRunEnd(d, 0);
    StartsWith(d[i..], "<!DOCTYPE")
    && var p := RegexSpaceRunEnd(d, i + 9);
       p > i + 9 && StartsWith(d[p..], "HTML")
       && var q := RegexSpaceRunEnd(d, p + 4);
          q < |d| && d[q] == '>' && RegexSpaceRunEnd(d, q + 1) == |d|
  }

  predicate AllRegexSpace(s: string) {
    forall k :: 0 <= k < |s| ==> IsRegexSpace(s[k])
  }

  /** A run of spaces followed by a non-space (or the end): the greedy `\s*`
      stops exactly behind the run. */
  lemma {:induction false} RunEndAt(d: string, lo: nat, hi: nat)
    requires lo <= hi <= |d|
    requires forall k :: lo <= k < hi ==> IsRegexSpace(d[k])
    requires hi == |d| || !IsRegexSpace(d[hi])
    ensures RegexSpaceRunEnd(d, lo) == hi
    decreases hi - lo
  {
    if lo < hi {
      RunEndAt(d, lo + 1, hi);
    }
  }

  /** The characters of an all-space slice are spaces. */
  lemma SpacesOfSlice(d: string, lo: nat, hi: nat)
    requires lo <= hi <= |d| && AllRegexSpace(d[lo..hi])
    ensures forall k :: lo <= k < hi ==> IsRegexSpace(d[k])
  {
    forall k | lo <= k < hi ensures IsRegexSpace(d[k]) {
      assert d[k] == d[lo..hi][k - lo];
    }
  }

  /** A string cut at six points is the concatenation of its seven pieces. */
  lemma Reassemble(d: string, i: nat, p: nat, q: nat, w1: string, x: string, w2: string, y: string, w3: string, z: string, w4: string)
    requires i + |x| <= p && p + |y| <= q && q + |z| <= |d|
    requires w1 == d[..i] && x == d[i..i + |x|] && w2 == d[i + |x|..p]
    requires y == d[p..p + |y|] && w3 == d[p + |y|..q] && z == d[q..q + |z|] && w4 == d[q + |z|..]
    ensures d == w1 + (x + (w2 + (y + (w3 + (z + w4)))))
  {
    assert d[q..] == z + w4;
    assert d[p + |y|..] == w3 + d[q..];
    assert d[p..] == y + d[p + |y|..];
    assert d[i + |x|..] == w2 + d[p..];
    assert d[i..] == x + d[i + |x|..];
    assert d == w1 + d[i..];
  }

  /** The text the bare pattern describes: spaces, `<!DOCTYPE`, spaces,
      `HTML`, spaces, `>`, spaces. */
  function BareHtml5Text(w1: string, w2: string, w3: string, w4: string): string {
    w1 + ("<!DOCTYPE" + (w2 + ("HTML" + (w3 + (">" + w4)))))
  }

  /** The bare pattern accepts every such text with at least one space
      between `<!DOCTYPE` and `HTML`. */
  lemma BareHtml5Shape(w1: string, w2: string, w3: string, w4: string)
    requires AllRegexSpace(w1) && AllRegexSpace(w2) && AllRegexSpace(w3) && AllRegexSpace(w4)
    requires w2 != []
    ensures IsBareHtml5Doctype(BareHtml5Text(w1, w2, w3, w4))
  {
    var d := BareHtml5Text(w1, w2, w3, w4);
    var i := |w1|;
    var p := i + 9 + |w2|;
    var q := p + 4 + |w3|;
    Pieces(d, w1, "<!DOCTYPE", w2, "HTML", w3, ">", w4);
    BareFromCuts(d, i, p, q);
  }

  /** Where the seven pieces of a concatenation sit in it. */
  lemma Pieces(d: string, w1: string, x: string, w2: string, y: string, w3: string, z: string, w4: string)
    requires d == w1 + (x + (w2 + (y + (w3 + (z + w4)))))
    ensures var i := |w1|; var p := i + |x| + |w2|; var q := p + |y| + |w3|;
      q + |z| <= |d| && d[..i] == w1 && d[i..i + |x|] == x && d[i + |x|..p] == w2
      && d[p..p + |y|] == y && d[p + |y|..q] == w3 && d[q..q + |z|] == z && d[q + |z|..] == w4
  {
  }

  /** A string cut into spaces, `<!DOCTYPE`, spaces, `HTML`, spaces, `>`,
      spaces is accepted by the bare pattern. */
  lemma BareFromCuts(d: string, i: nat, p: nat, q: nat)
    requires i + 9 < p && p + 4 <= q < |d|
    requires AllRegexSpace(d[..i]) && AllRegexSpace(d[i + 9..p]) && AllRegexSpace(d[p + 4..q]) && AllRegexSpace(d[q + 1..])
    requires d[i..i + 9] == "<!DOCTYPE" && d[p..p + 4] == "HTML" && d[q..q + 1] == ">"
    ensures IsBareHtml5Doctype(d)
  {
    assert d[i] == '<' by { assert d[i] == d[i..i + 9][0]; }
    assert d[p] == 'H' by { assert d[p] == d[p..p + 4][0]; }
    assert d[q] == '>' by { assert d[q] == d[q..q + 1][0]; }
    RunEnds(d, i, i + 9, p, p + 4, q);
    SliceStarts(d, i, "<!DOCTYPE");
    SliceStarts(d, p, "HTML");
    BareFromRuns(d, i, p, q);
  }

  /** A text that holds `pat` at `k` has a suffix from `k` starting with it. */
  lemma SliceStarts(d: string, k: nat, pat: string)
    requires k + |pat| <= |d| && d[k..k + |pat|] == pat
    ensures StartsWith(d[k..], pat)
  {
    assert d[k..][..|pat|] == d[k..k + |pat|];
  }

  /** The bare pattern, with the ends of its four runs of spaces given. */
  lemma BareFromRuns(d: string, i: nat, p: nat, q: nat)
    requires i <= |d| && RegexSpaceRunEnd(d, 0) == i && StartsWith(d[i..], "<!DOCTYPE")
    requires i + 9 < p <= |d| && RegexSpaceRunEnd(d, i + 9) == p && StartsWith(d[p..], "HTML")
    requires p + 4 <= q < |d| && RegexSpaceRunEnd(d, p + 4) == q && d[q] == '>'
    requires RegexSpaceRunEnd(d, q + 1) == |d|
    ensures IsBareHtml5Doctype(d)
  {
  }

  /** The four runs of spaces between the cuts end where the next piece
      starts. */
  lemma RunEnds(d: string, i: nat, a: nat, p: nat, b: nat, q: nat)
    requires i < a <= p < b <= q < |d|
    requires !IsRegexSpace(d[i]) && !IsRegexSpace(d[p]) && !IsRegexSpace(d[q])
    requires AllRegexSpace(d[..i]) && AllRegexSpace(d[a..p]) && AllRegexSpace(d[b..q]) && AllRegexSpace(d[q + 1..])
    ensures RegexSpaceRunEnd(d, 0) == i && RegexSpaceRunEnd(d, a) == p
    ensures RegexSpaceRunEnd(d, b) == q && RegexSpaceRunEnd(d, q + 1) == |d|
  {
    SpacesOfSlice(d, 0, i);
    RunEndAt(d, 0, i);
    SpacesOfSlice(d, a, p);
    RunEndAt(d, a, p);
    SpacesOfSlice(d, b, q);
    RunEndAt(d, b, q);
    SpacesOfSlice(d, q + 1, |d|);
    RunEndAt(d, q + 1, |d|);
  }

  /** Conversely, every string the bare pattern accepts has that shape. */
  lemma BareHtml5OnlyShape(d: string)
    requires IsBareHtml5Doctype(d)
    ensures exists w1, w2, w3, w4 ::
      AllRegexSpace(w1) && AllRegexSpace(w2) && AllRegexSpace(w3) && AllRegexSpace(w4) && w2 != []
      && d == BareHtml5Text(w1, w2, w3, w4)
  {
    var i := RegexSpaceRunEnd(d, 0);
    var p := RegexSpaceRunEnd(d, i + 9);
    var q := RegexSpaceRunEnd(d, p + 4);
    assert d[i..i + 9] == "<!DOCTYPE" by { assert d[i..][..9] == d[i..i + 9]; }
    assert d[p..p + 4] == "HTML" by { assert d[p..][..4] == d[p..p + 4]; }
    assert d[q..q + 1] == ">";
    ShapeFromCuts(d, i, p, q);
  }

  /** The pieces between the cuts of a bare DOCTYPE are the spaces of its shape. */
  lemma ShapeFromCuts(d: string, i: nat, p: nat, q: nat)
    requires i + 9 < p && p + 4 <= q < |d|
    requires AllRegexSpace(d[..i]) && AllRegexSpace(d[i + 9..p]) && AllRegexSpace(d[p + 4..q]) && AllRegexSpace(d[q + 1..])
    requires d[i..i + 9] == "<!DOCTYPE" && d[p..p + 4] == "HTML" && d[q..q + 1] == ">"
    ensures exists w1, w2, w3, w4 ::
      AllRegexSpace(w1) && AllRegexSpace(w2) && AllRegexSpace(w3) && AllRegexSpace(w4) && w2 != []
      && d == BareHtml5Text(w1, w2, w3, w4)
  {
    var w1, w2, w3, w4 := d[..i], d[i + 9..p], d[p + 4..q], d[q + 1..];
    Reassemble(d, i, p, q, w1, "<!DOCTYPE", w2, "HTML", w3, ">", w4);
    assert d == BareHtml5Text(w1, w2, w3, w4);
  }

  /** `checkHTMLVersionWithVariants`: "" when the family keyword is absent;
      otherwise the first provided variant (Strict, then Transitional, then
      Frameset) whose keyword occurs, else the base label. */
  function CheckVariants(doctype: string, keyword: string, base: string,
                         strict: string, transitional: string, frameset: string): (v: string)
    ensures base != "" ==> (v == "" <==> !Contains(doctype, keyword))
    ensures v != "" ==> Contains(doctype, keyword) && v in {base, strict, transitional, frameset}
    ensures strict == transitional == frameset == "" ==> v in {"", base}
    ensures v == strict != "" ==> Contains(doctype, DOCTYPEKeywordStrict) || strict in {base, transitional, frameset}
  {
    if !Contains(doctype, keyword) then ""
    else if strict != "" && Contains(doctype, DOCTYPEKeywordStrict) then strict
    else if transitional != "" && Contains(doctype, DOCTYPEKeywordTransitional) then transitional
    else if frameset != "" && Contains(doctype, DOCTYPEKeywordFrameset) then frameset
    else base
  }

  /** With four distinct labels, each outcome of the variant check is
      decided in source order: the family keyword first, then `STRICT`, then
      `TRANSITIONAL`, then `FRAMESET`, and the base label when none of the
      three occurs. */
  lemma VariantPrecedence(doctype: string, keyword: string, base: string,
                          strict: string, transitional: string, frameset: string)
    requires base != "" && strict != "" && transitional != "" && frameset != ""
    requires base != strict && base != transitional && base != frameset
    requires strict != transitional && strict != frameset && transitional != frameset
    ensures var v := CheckVariants(doctype, keyword, base, strict, transitional, frameset);
      var named := Contains(doctype, keyword);
      var s, t, f := Contains(doctype, DOCTYPEKeywordStrict), Contains(doctype, DOCTYPEKeywordTransitional),
                     Contains(doctype, DOCTYPEKeywordFrameset);
      (v == "" <==> !named)
      && (v == strict <==> named && s)
      && (v == transitional <==> named && !s && t)
      && (v == frameset <==> named && !s && !t && f)
      && (v == base <==> named && !s && !t && !f)
  {
  }

  /** The simple versions without variants, in declared order. */
  const SimpleVersions: seq<(string, string)> := [
    (DOCTYPEKeywordHTML40, HTMLVersionHTML40),
    (DOCTYPEKeywordHTML32, HTMLVersionHTML32),
    (DOCTYPEKeywordHTML20, HTMLVersionHTML20)
  ]

  /** The label of the first entry of `table` whose keyword occurs in the
      token. Whatever order Go's map iteration takes, its loop returns the
      label of some entry whose keyword occurs, and returns nothing exactly
      when no keyword occurs; this function returns one of those labels. */
  function FirstVersionMatch(doctype: string, table: seq<(string, string)>): (v: Option<string>)
    ensures v.Some? ==> exists k :: 0 <= k < |table| && Contains(doctype, table[k].0) && v.value == table[k].1
    ensures v.None? <==> forall k :: 0 <= k < |table| ==> !Contains(doctype, table[k].0)
  {
    if table == [] then None
    else if Contains(doctype, table[0].0) then Some(table[0].1)
    else
      var v := FirstVersionMatch(doctype, table[1..]);
      assert forall k :: 1 <= k < |table| ==> table[k] == table[1..][k - 1];
      v
  }

  /** The decision chain of `detectHTMLVersion` applied to a DOCTYPE token. */
  function ClassifyDoctype(d: string): (version: string)
    ensures version in VersionLabels && version != ""
  {
    if d == "" then HTMLVersion5
    else if IsBareHtml5Doctype(d) then HTMLVersion5
    else
      var xhtml11 := CheckVariants(d, DOCTYPEKeywordXHTML11, HTMLVersionXHTML11, "", "", "");
      if xhtml11 != "" then xhtml11
      else
        var xhtml10 := CheckVariants(d, DOCTYPEKeywordXHTML10, HTMLVersionXHTML10,
          HTMLVersionXHTML10Strict, HTMLVersionXHTML10Transitional, HTMLVersionXHTML10Frameset);
        if xhtml10 != "" then xhtml10
        else
          var html401 := CheckVariants(d, DOCTYPEKeywordHTML401, HTMLVersionHTML401,
            HTMLVersionHTML401Strict, HTMLVersionHTML401Transitional, HTMLVersionHTML401Frameset);
          if html401 != "" then html401
          else
            match FirstVersionMatch(d, SimpleVersions)
            case Some(v) =>
              assert v in {HTMLVersionHTML40, HTMLVersionHTML32, HTMLVersionHTML20};
              v
            case None =>
              if Contains(d, DOCTYPEKeywordXHTML) then HTMLVersionXHTMLGeneric
              else if Contains(d, DOCTYPEKeywordHTML) then HTMLVersionHTMLGeneric
              else HTMLVersionUnknown
  }

  /** `detectHTMLVersion`: exactly one non-empty label for every markup text. */
  function DetectVersion(html: string): (version: string)
    ensures version in VersionLabels && version != ""
  {
    ClassifyDoctype(ExtractDoctype(html))
  }

  /** The version of markup that leads with a DOCTYPE (behind white space,
      an optional XML declaration and an optional one-line comment) is the
      classification of that DOCTYPE, upper-cased. */
  lemma DetectClassifiesDoctype(w: string, x: string, sp1: string, c: string, sp2: string, t: string, rest: string)
    requires AllUnicodeSpace(w)
    requires (x == [] && sp1 == []) || (IsXmlDeclarationText(x) && AllRegexSpace(sp1))
    requires (c == [] && sp2 == []) || (IsOneLineCommentText(c) && AllRegexSpace(sp2))
    requires IsDoctypeText(t)
    ensures DetectVersion(w + x + sp1 + c + sp2 + t + rest) == ClassifyDoctype(Upper(t))
  {
    ExtractFindsDoctype(w, x, sp1, c, sp2, t, rest);
  }

  /** Markup that starts with a tag has no DOCTYPE and is reported as
      HTML5. */
  lemma DetectTagAsHtml5(html: string)
    requires |html| >= 2 && html[0] == '<' && html[1] != '!' && html[1] != '?'
    ensures DetectVersion(html) == HTMLVersion5
  {
    ExtractNeedsDeclaration(html);
  }

  /** A token is reported as HTML5 exactly when there is none or it is the
      bare `<!DOCTYPE html>` form. */
  lemma Html5Iff(d: string)
    ensures ClassifyDoctype(d) == HTMLVersion5 <==> d == "" || IsBareHtml5Doctype(d)
  {
  }

  /** Past the HTML5 and XHTML 1.1 checks, a token that names XHTML 1.0 is
      reported with the XHTML 1.0 label its variant keywords select. */
  lemma Xhtml10Stage(d: string)
    requires d != "" && !IsBareHtml5Doctype(d)
    requires !Contains(d, DOCTYPEKeywordXHTML11) && Contains(d, DOCTYPEKeywordXHTML10)
    ensures ClassifyDoctype(d) == CheckVariants(d, DOCTYPEKeywordXHTML10, HTMLVersionXHTML10,
      HTMLVersionXHTML10Strict, HTMLVersionXHTML10Transitional, HTMLVersionXHTML10Frameset) != ""
  {
  }

  /** Past both XHTML checks, a token that names HTML 4.01 is reported with
      the HTML 4.01 label its variant keywords select. */
  lemma Html401Stage(d: string)
    requires d != "" && !IsBareHtml5Doctype(d)
    requires !Contains(d, DOCTYPEKeywordXHTML11) && !Contains(d, DOCTYPEKeywordXHTML10)
    requires Contains(d, DOCTYPEKeywordHTML401)
    ensures ClassifyDoctype(d) == CheckVariants(d, DOCTYPEKeywordHTML401, HTMLVersionHTML401,
      HTMLVersionHTML401Strict, HTMLVersionHTML401Transitional, HTMLVersionHTML401Frameset) != ""
  {
  }

  /** Past the three variant checks, the simple versions are tried. A token
      that names just one of HTML 4.0, HTML 3.2 and HTML 2.0 gets its label;
      one that names several gets the first in the declared order, where Go's
      map iteration would pick any of them. */
  lemma SimpleStage(d: string)
    requires d != "" && !IsBareHtml5Doctype(d)
    requires !Contains(d, DOCTYPEKeywordXHTML11) && !Contains(d, DOCTYPEKeywordXHTML10)
    requires !Contains(d, DOCTYPEKeywordHTML401)
    ensures Contains(d, DOCTYPEKeywordHTML40) ==> ClassifyDoctype(d) == HTMLVersionHTML40
    ensures !Contains(d, DOCTYPEKeywordHTML40) && Contains(d, DOCTYPEKeywordHTML32)
            ==> ClassifyDoctype(d) == HTMLVersionHTML32
    ensures !Contains(d, DOCTYPEKeywordHTML40) && !Contains(d, DOCTYPEKeywordHTML32)
            && Contains(d, DOCTYPEKeywordHTML20)
            ==> ClassifyDoctype(d) == HTMLVersionHTML20
  {
    var t := SimpleVersions;
    assert t[1..] == [t[1], t[2]] && t[1..][1..] == [t[2]] && [t[2]][1..] == [];
    if !Contains(d, DOCTYPEKeywordHTML40) {
      assert FirstVersionMatch(d, t) == FirstVersionMatch(d, t[1..]);
      if Contains(d, DOCTYPEKeywordHTML32) {
        assert FirstVersionMatch(d, t[1..]) == Some(HTMLVersionHTML32);
      }
    }
  }

  /** A token that names none of the specific versions falls back to the
      generic XHTML label, then the generic HTML label, then unknown. */
  lemma GenericFallback(d: string)
    requires d != "" && !IsBareHtml5Doctype(d)
    requires !Contains(d, DOCTYPEKeywordXHTML11) && !Contains(d, DOCTYPEKeywordXHTML10)
    requires !Contains(d, DOCTYPEKeywordHTML401) && !Contains(d, DOCTYPEKeywordHTML40)
    requires !Contains(d, DOCTYPEKeywordHTML32) && !Contains(d, DOCTYPEKeywordHTML20)
    ensures Contains(d, DOCTYPEKeywordXHTML) ==> ClassifyDoctype(d) == HTMLVersionXHTMLGeneric
    ensures !Contains(d, DOCTYPEKeywordXHTML) && Contains(d, DOCTYPEKeywordHTML)
            ==> ClassifyDoctype(d) == HTMLVersionHTMLGeneric
    ensures !Contains(d, DOCTYPEKeywordHTML) ==> ClassifyDoctype(d) == HTMLVersionUnknown
  {
    assert FirstVersionMatch(d, SimpleVersions).None?;
    if !Contains(d, DOCTYPEKeywordHTML) && Contains(d, DOCTYPEKeywordXHTML) {
      KeywordsOverlap();
      ContainsTransitive(d, DOCTYPEKeywordXHTML, DOCTYPEKeywordHTML);
    }
  }

  /** A token of neither XHTML family that names HTML 4.01 is reported as one
      of the HTML 4.01 labels, never as HTML 4.0, although it contains that
      keyword too. */
  lemma Html401BeforeHtml40(d: string)
    requires d != "" && !IsBareHtml5Doctype(d)
    requires !Contains(d, DOCTYPEKeywordXHTML11) && !Contains(d, DOCTYPEKeywordXHTML10)
    requires Contains(d, DOCTYPEKeywordHTML401)
    ensures ClassifyDoctype(d) in {HTMLVersionHTML401, HTMLVersionHTML401Strict,
                                   HTMLVersionHTML401Transitional, HTMLVersionHTML401Frameset}
  {
  }

  /** A token that names XHTML 1.1 is reported as XHTML 1.1 (unless it is
      the bare HTML5 form). */
  lemma Xhtml11First(d: string)
    requires d != "" && !IsBareHtml5Doctype(d) && Contains(d, DOCTYPEKeywordXHTML11)
    ensures ClassifyDoctype(d) == HTMLVersionXHTML11
  {
  }

  /** A DOCTYPE token is reported as unknown exactly when it does not contain
      "HTML" at all: every keyword the chain looks for contains "HTML". */
  lemma {:induction false} UnknownIffNoHtml(d: string)
    requires d != "" && !IsBareHtml5Doctype(d)
    ensures ClassifyDoctype(d) == HTMLVersionUnknown <==> !Contains(d, DOCTYPEKeywordHTML)
  {
    KeywordsOverlap();
    if !Contains(d, DOCTYPEKeywordHTML) {
      forall q | q in {DOCTYPEKeywordXHTML11, DOCTYPEKeywordXHTML10, DOCTYPEKeywordHTML401,
                       DOCTYPEKeywordHTML40, DOCTYPEKeywordHTML32, DOCTYPEKeywordHTML20, DOCTYPEKeywordXHTML}
        ensures !Contains(d, q)
      {
        if Contains(d, q) { ContainsTransitive(d, q, DOCTYPEKeywordHTML); }
      }
    }
  }
}
