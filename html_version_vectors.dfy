/** Examples of the markup version classifier from its tests: DOCTYPE
    extraction at the start and behind white space, an XML declaration or a
    comment, the upper-cased HTML 4.01 Strict DOCTYPE, the variant selection
    of the HTML 4.01 family, and the HTML5 page. */
module HtmlVersionVectors {

  import opened Wrappers
  import opened Text
  import opened Constants
  import opened HtmlVersion

  const Html5Doctype: string := "<!DOCTYPE html>"
  const Html5Token: string := "<!DOCTYPE HTML>"

  /** `<!DOCTYPE html>` is a DOCTYPE declaration, and its token is
      `<!DOCTYPE HTML>`. */
  lemma Html5DoctypeText()
    ensures IsDoctypeText(Html5Doctype) && Upper(Html5Doctype) == Html5Token
  {
    var t := Html5Doctype;
    assert StartsWithFold(t, "<!DOCTYPE") by {
      forall k | 0 <= k < 9 ensures EqualFold(t[k], "<!DOCTYPE"[k]) {
        assert t[k] == "<!DOCTYPE"[k];
      }
    }
    forall k | 0 <= k < |t| ensures Upper(t)[k] == Html5Token[k] {
    }
  }

  /** The HTML5 token is the bare form: no spaces in front, one space
      after `<!DOCTYPE`, none around `>`. */
  lemma Html5TokenIsBare(d: string)
    requires d == Html5Token
    ensures IsBareHtml5Doctype(d)
  {
    assert d[0] == '<' && d[9] == ' ' && d[10] == 'H' && d[14] == '>';
    RunEndAt(d, 0, 0);
    RunEndAt(d, 9, 10);
    RunEndAt(d, 14, 14);
    RunEndAt(d, 15, 15);
    assert d[..9] == "<!DOCTYPE";
    assert d[10..][..4] == "HTML";
    BareFromRuns(d, 0, 10, 14);
  }

  /** `<!DOCTYPE html>` is found behind white space, an XML declaration or
      a one-line comment. */
  lemma ExtractHtml5Behind(lead: string, rest: string)
    requires AllUnicodeSpace(lead) || IsXmlDeclarationText(lead) || IsOneLineCommentText(lead)
    ensures ExtractDoctype(lead + Html5Doctype + rest) == Html5Token
  {
    var e: string, t := [], Html5Doctype;
    Html5DoctypeText();
    if AllUnicodeSpace(lead) {
      ExtractFindsDoctype(lead, e, e, e, e, t, rest);
      assert lead + e == lead;
    } else if IsXmlDeclarationText(lead) {
      ExtractFindsDoctype(e, lead, e, e, e, t, rest);
      assert e + lead == lead;
      assert lead + e == lead;
    } else {
      ExtractFindsDoctype(e, e, e, lead, e, t, rest);
      assert e + e + e == e;
      assert e + lead == lead;
      assert lead + e == lead;
    }
  }

  /** A bare `<!DOCTYPE html>` at the very start is found. */
  lemma ExtractBare(html: string)
    requires html == Html5Doctype + "<html></html>"
    ensures ExtractDoctype(html) == Html5Token
  {
    var lead: string, rest := [], "<html></html>";
    assert html == lead + Html5Doctype + rest;
    ExtractHtml5Behind(lead, rest);
  }

  /** Leading spaces, a line break and a tab are trimmed first. */
  lemma ExtractBehindWhitespace(html: string)
    requires html == "   \n\t" + Html5Doctype + "<html></html>"
    ensures ExtractDoctype(html) == Html5Token
  {
    var lead, rest := "   \n\t", "<html></html>";
    assert AllUnicodeSpace(lead) by {
      assert lead == [' ', ' ', ' ', '\n', '\t'];
    }
    ExtractHtml5Behind(lead, rest);
  }

  /** An XML declaration in front of the DOCTYPE is skipped. */
  lemma ExtractBehindXmlDeclaration(html: string)
    requires html == "<?xml version=\"1.0\" encoding=\"UTF-8\"?>" + Html5Doctype + "<html></html>"
    ensures ExtractDoctype(html) == Html5Token
  {
    var lead, rest := "<?xml version=\"1.0\" encoding=\"UTF-8\"?>", "<html></html>";
    XmlDeclarationText(lead);
    ExtractHtml5Behind(lead, rest);
  }

  lemma XmlDeclarationText(x: string)
    requires x == "<?xml version=\"1.0\" encoding=\"UTF-8\"?>"
    ensures IsXmlDeclarationText(x)
  {
    assert StartsWithFold(x, "<?xml") by {
      forall k | 0 <= k < 5 ensures EqualFold(x[k], "<?xml"[k]) {
        assert x[k] == "<?xml"[k];
      }
    }
  }

  /** A one-line comment in front of the DOCTYPE is skipped. */
  lemma ExtractBehindComment(html: string)
    requires html == "<!-- This is a comment -->" + Html5Doctype + "<html></html>"
    ensures ExtractDoctype(html) == Html5Token
  {
    var lead, rest := "<!-- This is a comment -->", "<html></html>";
    CommentText(lead);
    ExtractHtml5Behind(lead, rest);
  }

  lemma CommentText(c: string)
    requires c == "<!-- This is a comment -->"
    ensures IsOneLineCommentText(c)
  {
    assert c[..4] == "<!--";
    assert c[|c| - 3..|c|] == "-->";
    assert forall k :: 0 <= k < |c| - 1 ==> c[k] != '>';
    forall k | 4 <= k < |c| - 3 ensures !OccursAt(c, "-->", k) {
      assert c[k..k + 3][2] == c[k + 2];
    }
  }

  /** Markup without a DOCTYPE gives no token. */
  lemma ExtractNone(html: string)
    requires html == "<html></html>"
    ensures ExtractDoctype(html) == ""
  {
    assert html[0] == '<' && html[1] == 'h';
    ExtractNeedsDeclaration(html);
  }

  /** Markup without a DOCTYPE that ends with a line break, as a fetched
      page does, gives no token either. */
  lemma ExtractNoneTrailingNewline(html: string)
    requires html == "<html></html>\n"
    ensures ExtractDoctype(html) == ""
  {
    assert html[0] == '<' && html[1] == 'h';
    ExtractNeedsDeclaration(html);
  }

  /** The page of the version test, with `<!DOCTYPE html>` on its first line,
      is HTML5. */
  lemma DetectHtml5Page(html: string)
    requires html == Html5Doctype + "\n<html>\n<head><title>Test</title></head>\n<body><h1>Hello</h1></body>\n</html>"
    ensures DetectVersion(html) == HTMLVersion5
  {
    var lead: string, rest := [], "\n<html>\n<head><title>Test</title></head>\n<body><h1>Hello</h1></body>\n</html>";
    assert html == lead + Html5Doctype + rest;
    ExtractHtml5Behind(lead, rest);
    Html5TokenIsBare(Html5Token);
    Html5Iff(Html5Token);
  }

  const Html401Head: string := "<!DOCTYPE HTML PUBLIC \"-//W3C//DTD "
  const Html401DtdPath: string := "//EN\" \"HTTP://WWW.W3.ORG/TR/HTML4/"
  const Html401DtdEnd: string := ".DTD\">"

  /** The upper-cased HTML 4.01 public DOCTYPE of the variant tests: `level`
      follows the version in the public identifier and `dtd` names the DTD
      file. */
  function Html401Public(level: string, dtd: string): string {
    Html401Head + DOCTYPEKeywordHTML401 + level + Html401DtdPath + dtd + Html401DtdEnd
  }

  /** The public DOCTYPE names HTML 4.01, its level and its DTD file. */
  lemma PublicNames(level: string, dtd: string)
    ensures var d := Html401Public(level, dtd);
      Contains(d, DOCTYPEKeywordHTML401) && Contains(d, level) && Contains(d, dtd)
  {
    var h, k, m, e := Html401Head, DOCTYPEKeywordHTML401, Html401DtdPath, Html401DtdEnd;
    ContainsPiece(h, k, level);
    ContainsInPrefix(h + k + level, k, m);
    ContainsInPrefix(h + k + level + m, k, dtd);
    ContainsInPrefix(h + k + level + m + dtd, k, e);
    ContainsPiece(h + k, level, m);
    ContainsInPrefix(h + k + level + m, level, dtd);
    ContainsInPrefix(h + k + level + m + dtd, level, e);
    ContainsPiece(h + k + level + m, dtd, e);
  }

  lemma HeadLacks(h: string)
    requires h == Html401Head
    ensures 'S' !in h && 'A' !in h
  {
  }

  lemma DtdPathLacks(m: string)
    requires m == Html401DtdPath
    ensures 'S' !in m && 'A' !in m
  {
  }

  /** The fixed parts of the public DOCTYPE have no `S` and no `A`, so a
      pair that starts with one of them can only come from the level or the
      DTD file name. */
  lemma PublicNoPair(level: string, dtd: string, x: char, y: char)
    requires x == 'S' || x == 'A'
    requires y != '/' && y != '.'
    requires NoPair(level, x, y) && NoPair(dtd, x, y)
    ensures NoPair(Html401Public(level, dtd), x, y)
  {
    var h, k, m, e := Html401Head, DOCTYPEKeywordHTML401, Html401DtdPath, Html401DtdEnd;
    HeadLacks(h);
    DtdPathLacks(m);
    assert 'S' !in k && 'A' !in k && 'S' !in e && 'A' !in e;
    assert h[|h| - 1] == ' ' && m[0] == '/' && m[|m| - 1] == '/' && e[0] == '.';
    NoPairJoin(h, k, x, y);
    assert (h + k)[|h + k| - 1] == k[|k| - 1] == '1';
    NoPairJoin(h + k, level, x, y);
    NoPairJoin(h + k + level, m, x, y);
    assert (h + k + level + m)[|h + k + level + m| - 1] == m[|m| - 1];
    NoPairJoin(h + k + level + m, dtd, x, y);
    NoPairJoin(h + k + level + m + dtd, e, x, y);
  }

  /** The Strict token selects the Strict label. */
  lemma VariantStrict(d: string)
    requires d == Html401Public("", "STRICT")
    ensures CheckVariants(d, DOCTYPEKeywordHTML401, HTMLVersionHTML401, HTMLVersionHTML401Strict,
                          HTMLVersionHTML401Transitional, HTMLVersionHTML401Frameset)
            == HTMLVersionHTML401Strict
  {
    var level, dtd := "", "STRICT";
    PublicNames(level, dtd);
  }

  /** `ST` opens `STRICT`, and `AN` sits inside `TRANSITIONAL`. */
  lemma KeywordPairs()
    ensures DOCTYPEKeywordStrict[0] == 'S' && DOCTYPEKeywordStrict[1] == 'T'
    ensures DOCTYPEKeywordTransitional[2] == 'A' && DOCTYPEKeywordTransitional[3] == 'N'
  {
  }

  lemma TransitionalParts(level: string, dtd: string)
    requires level == " " + DOCTYPEKeywordTransitional && dtd == "LOOSE"
    ensures NoPair(level, 'S', 'T') && NoPair(dtd, 'S', 'T')
  {
  }

  lemma FramesetParts(level: string, dtd: string)
    requires level == " " + DOCTYPEKeywordFrameset && dtd == DOCTYPEKeywordFrameset
    ensures NoPair(level, 'S', 'T') && NoPair(dtd, 'S', 'T')
    ensures NoPair(level, 'A', 'N') && NoPair(dtd, 'A', 'N')
  {
  }

  /** The Transitional token, whose DTD file is `LOOSE.DTD`, selects the
      Transitional label: it has no `ST`, so no `STRICT`. */
  lemma VariantTransitional(d: string)
    requires d == Html401Public(" " + DOCTYPEKeywordTransitional, "LOOSE")
    ensures CheckVariants(d, DOCTYPEKeywordHTML401, HTMLVersionHTML401, HTMLVersionHTML401Strict,
                          HTMLVersionHTML401Transitional, HTMLVersionHTML401Frameset)
            == HTMLVersionHTML401Transitional
  {
    var level, dtd := " " + DOCTYPEKeywordTransitional, "LOOSE";
    PublicNames(level, dtd);
    ContainsEnd(" ", DOCTYPEKeywordTransitional);
    ContainsTransitive(d, level, DOCTYPEKeywordTransitional);
    TransitionalParts(level, dtd);
    PublicNoPair(level, dtd, 'S', 'T');
    KeywordPairs();
    NoPairNotContained(d, DOCTYPEKeywordStrict, 0);
  }

  /** The Frameset token selects the Frameset label: it has neither `ST` nor
      `AN`, so neither `STRICT` nor `TRANSITIONAL`. */
  lemma VariantFrameset(d: string)
    requires d == Html401Public(" " + DOCTYPEKeywordFrameset, DOCTYPEKeywordFrameset)
    ensures CheckVariants(d, DOCTYPEKeywordHTML401, HTMLVersionHTML401, HTMLVersionHTML401Strict,
                          HTMLVersionHTML401Transitional, HTMLVersionHTML401Frameset)
            == HTMLVersionHTML401Frameset
  {
    var level, dtd := " " + DOCTYPEKeywordFrameset, DOCTYPEKeywordFrameset;
    PublicNames(level, dtd);
    FramesetParts(level, dtd);
    PublicNoPair(level, dtd, 'S', 'T');
    PublicNoPair(level, dtd, 'A', 'N');
    KeywordPairs();
    NoPairNotContained(d, DOCTYPEKeywordStrict, 0);
    NoPairNotContained(d, DOCTYPEKeywordTransitional, 2);
  }

  /** The HTML5 token does not name HTML 4.01: no label. */
  lemma VariantNoKeyword(d: string)
    requires d == Html5Token
    ensures CheckVariants(d, DOCTYPEKeywordHTML401, HTMLVersionHTML401, "", "", "") == ""
  {
    MissingCharNotContained(d, DOCTYPEKeywordHTML401, '4');
  }

  /** Without variant labels, a token that names HTML 4.01 gets the base
      label. */
  lemma VariantBaseOnly(d: string)
    requires d == Html401Head + DOCTYPEKeywordHTML401 + "//EN\">"
    ensures CheckVariants(d, DOCTYPEKeywordHTML401, HTMLVersionHTML401, "", "", "") == HTMLVersionHTML401
  {
    ContainsPiece(Html401Head, DOCTYPEKeywordHTML401, "//EN\">");
  }

  const Html401LowerPath: string := "//EN\" \"http://www.w3.org/TR/html4/"
  const Html401LowerEnd: string := ".dtd\">"

  /** The HTML 4.01 Strict DOCTYPE as the extraction test writes it, with
      the DTD address in lower case. */
  const Html401StrictAsWritten: string :=
    Html401Head + DOCTYPEKeywordHTML401 + Html401LowerPath + "strict" + Html401LowerEnd

  lemma HeadUpper(h: string)
    requires h == Html401Head
    ensures Upper(h) == h
  {
    forall k | 0 <= k < |h| ensures Upper(h)[k] == h[k] {
    }
  }

  lemma LowerPathUpper(p: string)
    requires p == Html401LowerPath
    ensures Upper(p) == Html401DtdPath
  {
    var u := Upper(p);
    assert u[..7] == Html401DtdPath[..7] by {
      forall k | 0 <= k < 7 ensures u[k] == Html401DtdPath[k] {
      }
    }
    assert u[7..] == Html401DtdPath[7..] by {
      forall k | 7 <= k < |p| ensures u[k] == Html401DtdPath[k] {
      }
    }
    SplitAt(u, 7);
    SplitAt(Html401DtdPath, 7);
  }

  lemma StrictTailUpper(k: string, s: string, e: string)
    requires k == DOCTYPEKeywordHTML401 && s == "strict" && e == Html401LowerEnd
    ensures Upper(k) == k && Upper(s) == "STRICT" && Upper(e) == Html401DtdEnd
  {
    assert Upper(k) == k;
    assert Upper(s) == "STRICT";
    assert Upper(e) == Html401DtdEnd;
  }

  /** Upper-casing the written Strict DOCTYPE gives the token of the
      variant test. */
  lemma StrictUpper(t: string)
    requires t == Html401StrictAsWritten
    ensures Upper(t) == Html401Public("", "STRICT")
  {
    var h, k, p, s, e := Html401Head, DOCTYPEKeywordHTML401, Html401LowerPath, "strict", Html401LowerEnd;
    UpperJoin(h + k + p + s, e);
    UpperJoin(h + k + p, s);
    UpperJoin(h + k, p);
    UpperJoin(h, k);
    HeadUpper(h);
    LowerPathUpper(p);
    StrictTailUpper(k, s, e);
    assert h + k + "" == h + k;
  }

  lemma HeadShape(h: string)
    requires h == Html401Head
    ensures '>' !in h && h[9] == ' ' && StartsWithFold(h, "<!DOCTYPE")
  {
    assert h[..9] == "<!DOCTYPE";
    forall j | 0 <= j < 9 ensures EqualFold(h[j], "<!DOCTYPE"[j]) {
      assert h[j] == h[..9][j];
    }
  }

  lemma LowerPathShape(p: string)
    requires p == Html401LowerPath
    ensures '>' !in p
  {
  }

  lemma StrictParts(h: string, k: string, p: string, s: string, e: string)
    requires h == Html401Head && k == DOCTYPEKeywordHTML401 && p == Html401LowerPath
    requires s == "strict" && e == Html401LowerEnd
    ensures '>' !in h && '>' !in k && '>' !in p && '>' !in s
    ensures |e| == 6 && e[5] == '>' && '>' !in e[..5]
    ensures h[9] == ' ' && StartsWithFold(h, "<!DOCTYPE")
  {
    HeadShape(h);
    LowerPathShape(p);
    assert e[..5] == ".dtd\"";
  }

  /** The written Strict DOCTYPE is a DOCTYPE declaration: its only `>`
      closes it. */
  lemma StrictText(t: string)
    requires t == Html401StrictAsWritten
    ensures IsDoctypeText(t)
  {
    var h, k, p, s, e := Html401Head, DOCTYPEKeywordHTML401, Html401LowerPath, "strict", Html401LowerEnd;
    StrictParts(h, k, p, s, e);
    var f := h + k + p + s;
    assert t == f + e;
    assert '>' !in f;
    forall j | 0 <= j < 9 ensures EqualFold(t[j], "<!DOCTYPE"[j]) {
      assert t[j] == h[j];
    }
    assert t[9] == h[9];
    forall j | 0 <= j < |t| - 1 ensures t[j] != '>' {
      if j < |f| { assert t[j] == f[j]; } else { assert t[j] == e[j - |f|]; }
    }
  }

  /** The HTML 4.01 Strict DOCTYPE at the start of the markup is found and
      upper-cased, DTD address included. */
  lemma ExtractStrict(html: string)
    requires html == Html401StrictAsWritten + "<html></html>"
    ensures ExtractDoctype(html) == Html401Public("", "STRICT")
  {
    var e: string, t := [], Html401StrictAsWritten;
    StrictText(t);
    StrictUpper(t);
    ExtractFindsDoctype(e, e, e, e, e, t, "<html></html>");
    assert e + e + e + e + e + t == t;
  }
}
