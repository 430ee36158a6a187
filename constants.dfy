/** The analyzer's constants: configuration defaults, status codes, the
    validation limit, the HTML version labels and the DOCTYPE keywords. The
    four DOCTYPE regular expressions are hand-written matchers in module
    HtmlVersion. Durations are Go `time.Duration` values: nanoseconds. */
module Constants {

  import opened Text

  const Second: int := 1_000_000_000

  // Analyzer defaults
  const DefaultMaxLinks: int := 100
  const DefaultLinkTimeout: int := 10 * Second
  /** Shorter timeout used when probing links on the page's own host. */
  const DefaultInternalLinkTimeout: int := 3 * Second
  const DefaultMaxWorkers: int := 20
  const DefaultMaxRedirects: int := 0
  /** Minimum login score for a page to be reported as having a login form. */
  const DefaultLoginFormThreshold: int := 10

  // HTTP status codes
  const StatusOK: int := 200
  const StatusBadRequest: int := 400

  // Request validation
  const MaxURLLength: int := 2048

  // HTML version labels
  const HTMLVersion5: string := "HTML5"
  const HTMLVersionXHTML11: string := "XHTML 1.1"
  const HTMLVersionXHTML10: string := "XHTML 1.0"
  const HTMLVersionXHTML10Strict: string := "XHTML 1.0 Strict"
  const HTMLVersionXHTML10Transitional: string := "XHTML 1.0 Transitional"
  const HTMLVersionXHTML10Frameset: string := "XHTML 1.0 Frameset"
  const HTMLVersionHTML401: string := "HTML 4.01"
  const HTMLVersionHTML401Strict: string := "HTML 4.01 Strict"
  const HTMLVersionHTML401Transitional: string := "HTML 4.01 Transitional"
  const HTMLVersionHTML401Frameset: string := "HTML 4.01 Frameset"
  const HTMLVersionHTML40: string := "HTML 4.0"
  const HTMLVersionHTML32: string := "HTML 3.2"
  const HTMLVersionHTML20: string := "HTML 2.0"
  const HTMLVersionXHTMLGeneric: string := "XHTML"
  const HTMLVersionHTMLGeneric: string := "HTML"
  const HTMLVersionUnknown: string := "Unknown DOCTYPE"

  /** Every label the version classifier can produce. */
  const VersionLabels: set<string> := {
    HTMLVersion5, HTMLVersionXHTML11,
    HTMLVersionXHTML10, HTMLVersionXHTML10Strict, HTMLVersionXHTML10Transitional, HTMLVersionXHTML10Frameset,
    HTMLVersionHTML401, HTMLVersionHTML401Strict, HTMLVersionHTML401Transitional, HTMLVersionHTML401Frameset,
    HTMLVersionHTML40, HTMLVersionHTML32, HTMLVersionHTML20,
    HTMLVersionXHTMLGeneric, HTMLVersionHTMLGeneric, HTMLVersionUnknown
  }

  // DOCTYPE keywords, matched against the upper-cased DOCTYPE token
  const DOCTYPEKeywordHTML: string := "HTML"
  const DOCTYPEKeywordXHTML: string := "XHTML"
  const DOCTYPEKeywordStrict: string := "STRICT"
  const DOCTYPEKeywordTransitional: string := "TRANSITIONAL"
  const DOCTYPEKeywordFrameset: string := "FRAMESET"
  const DOCTYPEKeywordHTML401: string := "HTML 4.01"
  const DOCTYPEKeywordHTML40: string := "HTML 4.0"
  const DOCTYPEKeywordHTML32: string := "HTML 3.2"
  const DOCTYPEKeywordHTML20: string := "HTML 2.0"
  const DOCTYPEKeywordXHTML11: string := "XHTML 1.1"
  const DOCTYPEKeywordXHTML10: string := "XHTML 1.0"

  /** The keywords overlap: the HTML 4.01 keyword contains the HTML 4.0 one,
      every XHTML keyword contains "XHTML" and every keyword contains "HTML". A token that names a family
      with variants therefore also matches a simpler or generic keyword, which
      is why the classifier must try the families first. */
  lemma KeywordsOverlap()
    ensures Contains(DOCTYPEKeywordHTML401, DOCTYPEKeywordHTML40)
    ensures Contains(DOCTYPEKeywordXHTML11, DOCTYPEKeywordHTML)
    ensures Contains(DOCTYPEKeywordXHTML10, DOCTYPEKeywordHTML)
    ensures Contains(DOCTYPEKeywordXHTML, DOCTYPEKeywordHTML)
    ensures Contains(DOCTYPEKeywordXHTML11, DOCTYPEKeywordXHTML)
    ensures Contains(DOCTYPEKeywordXHTML10, DOCTYPEKeywordXHTML)
    ensures Contains(DOCTYPEKeywordHTML401, DOCTYPEKeywordHTML)
    ensures Contains(DOCTYPEKeywordHTML40, DOCTYPEKeywordHTML)
    ensures Contains(DOCTYPEKeywordHTML32, DOCTYPEKeywordHTML)
    ensures Contains(DOCTYPEKeywordHTML20, DOCTYPEKeywordHTML)
  {
    assert StartsWith(DOCTYPEKeywordHTML401, DOCTYPEKeywordHTML40);
    assert DOCTYPEKeywordXHTML11[1..] == "HTML 1.1" && StartsWith("HTML 1.1", "HTML");
    assert DOCTYPEKeywordXHTML10[1..] == "HTML 1.0" && StartsWith("HTML 1.0", "HTML");
    assert DOCTYPEKeywordXHTML[1..] == "HTML" && StartsWith("HTML", "HTML");
    assert StartsWith(DOCTYPEKeywordXHTML11, DOCTYPEKeywordXHTML);
    assert StartsWith(DOCTYPEKeywordXHTML10, DOCTYPEKeywordXHTML);
    assert StartsWith(DOCTYPEKeywordHTML401, DOCTYPEKeywordHTML);
    assert StartsWith(DOCTYPEKeywordHTML40, DOCTYPEKeywordHTML);
    assert StartsWith(DOCTYPEKeywordHTML32, DOCTYPEKeywordHTML);
    assert StartsWith(DOCTYPEKeywordHTML20, DOCTYPEKeywordHTML);
  }
}
