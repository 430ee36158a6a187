# Webpage analyser: a Dafny model of the analysis core

The webpage analyser server takes a URL. It fetches the page and reports:

- the HTML version declared by its DOCTYPE;
- the page title;
- the number of headings at each level h1 to h6;
- the internal, external and inaccessible links;
- whether the page holds a login form.

Results are cached by URL. This project models that core and proves properties of it:

- the `Analyzer` service (`internal/services/analyzer.go`);
- its constants (`internal/constants/constants.go`);
- the request-side URL check (`internal/models/request.go`).

Modules, one per concern:

| module | models |
|---|---|
| `Wrappers` | `Option` and `Result` |
| `Text` | `strings.TrimSpace` (Unicode white space), ASCII upper/lower case, `strings.Contains`, Go regexp `\s`, UTF-8 byte length |
| `Constants` | the analyzer defaults, status codes, URL limit, version labels and DOCTYPE keywords |
| `Urls` | the part of a parsed `url.URL` the analyzer reads |
| `Page` | the parsed document as the analyzer queries it: titles, heading levels, `a[href]` values, forms with their inputs, buttons, links and labels, and meta/link tags |
| `HtmlVersion` | `extractDOCTYPE` with its three regular expressions written out as matchers, `checkHTMLVersionWithVariants`, `detectHTMLVersion` |
| `Structure` | `extractPageTitle`, `countHeadings` |
| `Links` | the HEAD probe rule, and `analyzeLinks` (collection, admission with external links first, counting) |
| `Login` | the `detectLoginForm` scoring |
| `HtmlVersionVectors` | the examples of the DOCTYPE extraction, variant and version tests, worked through the classifier |
| `LoginVectors` | six of the eight examples of the login tests, scored |
| `Request` | `AnalyzeRequest.Validate` |
| `Analyzer` | `NewAnalyzer` defaults, the cache, `parseAndValidateURL`, `fetchWebpage`, `parseHTML`, `performWebpageAnalysis` and `Analyze` |

Foreign pieces are parameters of the operations that use them:

- `url.Parse` is `string -> Option<Url>`;
- `baseURL.Parse(href)` is `(Url, string) -> Option<Url>`;
- the page GET is `(string, ClientPolicy) -> FetchOutcome`;
- the link HEAD request is `(string, ClientPolicy) -> ProbeOutcome`;
- the HTML parser is `string -> Option<Document>`;
- `time.Now` is an integer.

A `ClientPolicy` carries a client's timeout and redirect limit. A probe can therefore answer differently for the internal and the external client.

Where the code itself is modelled:

- The state the source changes in place is modelled as classes: the configuration `NewAnalyzer` rewrites, and the cache.
- The loops of `countHeadings`, `analyzeLinks` and `detectLoginForm` are methods. Each is proved against a specification function.
- The admission queue is an array of capacity `MaxLinks`, filled the way the channel is.

The code decides where it and the intended behaviour differ:

- `TestAnalyzer_DetectHTMLVersion_AdditionalCases` is skipped in the source (analyzer_test.go:1003-1095). It expects the labels "XHTML (Generic)" and "Unknown". The code returns "XHTML" and "Unknown DOCTYPE", and the model follows the code.
- `Validate`'s message speaks of characters, but `len` counts UTF-8 bytes. The model counts bytes (`Utf8Length`).

## Model

| member | source | states |
|---|---|---|
| Constants.KeywordsOverlap | internal/constants/constants.go:130-140 | The keyword "HTML 4.01" contains "HTML 4.0". Every family keyword contains "HTML", and the XHTML ones contain "XHTML". This is why the order of the checks matters. |
| Text.TrimSpace | internal/services/analyzer.go:262 | The result is a slice of the input, with no white space at either end. |
| Text.TrimSpaceStripsPadding | internal/services/analyzer.go:192 | Trimming white-space padding around a text that neither starts nor ends in white space gives back exactly that text. |
| Text.TrimSpaceIgnoresLeadingSpace | internal/services/analyzer.go:262 | Leading white space does not change the trimmed text. |
| Text.Upper | internal/services/analyzer.go:277 | Upper-casing keeps the length and maps each character on its own. |
| Text.ContainsIffOccurs | internal/services/analyzer.go:242 | `Contains` holds exactly when the pattern occurs at some index. |
| Text.ContainsTransitive | internal/services/analyzer.go:242 | Containment is transitive. |
| Text.MissingCharNotContained | internal/services/analyzer.go:442 | A pattern holding a character the text lacks is not contained in it. |
| Text.Utf8Length | internal/models/request.go:17 | The byte length lies between the number of characters and four times it. |
| HtmlVersion.XmlDeclarationEnd | internal/constants/constants.go:145 | There is a match exactly when, after the leading white space, the text starts with `<?xml` (any case) and its first `>` after that is directly preceded by `?`. The match then ends behind the white space after that `>`, so it ends before a non-space character or at the end of the text. |
| HtmlVersion.CommentEnd | internal/constants/constants.go:146 | There is a match exactly when, after the leading white space, the text starts with `<!--` and a `-->` follows with no line break before it. The match ends behind the white space after the first such `-->`. |
| HtmlVersion.DoctypeEnd | internal/constants/constants.go:147 | There is a match exactly when, after the leading white space, the text starts with `<!DOCTYPE` (any case), a white-space character, and later a `>`. The match then ends with the first `>`. |
| HtmlVersion.StripXmlDeclaration | internal/services/analyzer.go:265-266 | Without a match the text is kept. With one, exactly the matched prefix is removed, so what is left is empty or starts with a non-space character. |
| HtmlVersion.StripComment | internal/services/analyzer.go:269-270 | Without a match the text is kept. With one, exactly the matched prefix (one comment and the white space after it) is removed. |
| HtmlVersion.DoctypeTokenShape | internal/services/analyzer.go:273-277 | The upper-cased match is a DOCTYPE token: `<!DOCTYPE`, white space, no lower-case letter, and `>` only as its last character. |
| HtmlVersion.ExtractDoctype | internal/services/analyzer.go:260-278 | `extractDOCTYPE` returns either "" or a DOCTYPE token. |
| HtmlVersion.XmlDeclarationRemoved | internal/services/analyzer.go:265-266 | A leading XML declaration and the white space after it are removed, and exactly the text behind them is kept. |
| HtmlVersion.CommentRemoved | internal/services/analyzer.go:269-270 | A leading one-line comment and the white space after it are removed, and exactly the text behind them is kept. |
| HtmlVersion.DoctypeFound | internal/constants/constants.go:147 | A DOCTYPE declaration at the start of a text is matched exactly up to its closing `>`, whatever follows. |
| HtmlVersion.ExtractFindsDoctype | internal/services/analyzer.go:260-278 | A DOCTYPE behind white space, an optional XML declaration and an optional one-line comment is returned upper-cased, whatever follows it. |
| HtmlVersion.ExtractNeedsDeclaration | internal/services/analyzer.go:260-278 | Markup that starts with a tag (`<` followed by neither `!` nor `?`) has no DOCTYPE token, whatever white space it ends with: "" is returned. |
| HtmlVersion.ExtractIgnoresLeadingWhitespace | internal/services/analyzer.go:262 | White space before the markup does not change the extracted DOCTYPE. |
| HtmlVersion.ExtractIsAnchored | internal/services/analyzer.go:260-278 | A DOCTYPE is found only when the trimmed markup starts with it, with an XML declaration or with a comment. |
| HtmlVersion.MultiLineCommentHidesDoctype | internal/constants/constants.go:146 | A leading comment that spans a line is not removed, so no DOCTYPE behind it is found. |
| HtmlVersion.UpperOfFolded | internal/services/analyzer.go:277 | A case-insensitive match of an upper-case pattern is an exact match after upper-casing. |
| HtmlVersion.BareHtml5Shape | internal/constants/constants.go:148 | White space, `<!DOCTYPE`, at least one space, `HTML`, white space, `>`, white space: every such text matches the HTML5 pattern. |
| HtmlVersion.BareHtml5OnlyShape | internal/constants/constants.go:148 | Every text that matches the HTML5 pattern has that shape. |
| HtmlVersion.CheckVariants | internal/services/analyzer.go:281-301 | With a base label, the result is "" exactly when the family keyword is absent. Otherwise it is the base or a provided variant, and a Strict result needs the STRICT keyword. |
| HtmlVersion.VariantPrecedence | internal/services/analyzer.go:281-301 | With four distinct labels: "" exactly when the family keyword is absent; Strict exactly when STRICT occurs; Transitional exactly when TRANSITIONAL occurs and STRICT does not; Frameset exactly when only FRAMESET of the three occurs; the base label exactly when none of them occurs. |
| HtmlVersion.FirstVersionMatch | internal/services/analyzer.go:235-245 | The result is the label of some entry whose keyword occurs. It is none exactly when no keyword occurs, whatever the order of Go's map iteration. |
| HtmlVersion.ClassifyDoctype | internal/services/analyzer.go:207-257 | Every DOCTYPE token gets exactly one non-empty label from the sixteen. |
| HtmlVersion.DetectVersion | internal/services/analyzer.go:207-257 | `detectHTMLVersion` returns one of the sixteen labels for every markup text. |
| HtmlVersion.DetectClassifiesDoctype | internal/services/analyzer.go:207-278 | The version of markup that leads with a DOCTYPE, behind white space, an optional XML declaration and an optional one-line comment, is the classification of that DOCTYPE upper-cased. |
| HtmlVersion.DetectTagAsHtml5 | internal/services/analyzer.go:209-212 | Markup that starts with a tag (`<` followed by neither `!` nor `?`), whatever white space it ends with, has no DOCTYPE and is reported as HTML5. |
| HtmlVersion.Html5Iff | internal/services/analyzer.go:210-217 | The label is HTML5 exactly when there is no DOCTYPE or the DOCTYPE is the bare HTML5 one. |
| HtmlVersion.Xhtml11First | internal/services/analyzer.go:220-222 | A token containing "XHTML 1.1" is XHTML 1.1, before any other family. |
| HtmlVersion.Xhtml10Stage | internal/services/analyzer.go:224-227 | Past the HTML5 and XHTML 1.1 checks, a token that names XHTML 1.0 gets the XHTML 1.0 label its variant keywords select, and never "". |
| HtmlVersion.Html401Stage | internal/services/analyzer.go:229-232 | Past both XHTML checks, a token that names HTML 4.01 gets the HTML 4.01 label its variant keywords select, and never "". |
| HtmlVersion.SimpleStage | internal/services/analyzer.go:235-245 | Past the variant checks, a token that names one of HTML 4.0, HTML 3.2 and HTML 2.0 gets its label. A token that names several gets one of their labels, taken in the declared order. |
| HtmlVersion.GenericFallback | internal/services/analyzer.go:247-256 | A token that names no specific version is "XHTML" when it contains XHTML, otherwise "HTML" when it contains HTML, otherwise "Unknown DOCTYPE". |
| HtmlVersion.Html401BeforeHtml40 | internal/services/analyzer.go:229-245 | An HTML 4.01 token is labelled HTML 4.01 (or one of its variants), never HTML 4.0, although it contains "HTML 4.0". |
| HtmlVersion.UnknownIffNoHtml | internal/services/analyzer.go:247-256 | A non-HTML5 token is "Unknown DOCTYPE" exactly when it does not contain "HTML". |
| HtmlVersionVectors.ExtractBare | internal/services/analyzer_test.go:815-819 | `<!DOCTYPE html><html></html>` gives `<!DOCTYPE HTML>`. |
| HtmlVersionVectors.ExtractStrict | internal/services/analyzer_test.go:820-824 | The HTML 4.01 Strict DOCTYPE is returned upper-cased, DTD address included. |
| HtmlVersionVectors.ExtractBehindXmlDeclaration | internal/services/analyzer_test.go:830-834 | A DOCTYPE behind `<?xml version="1.0" encoding="UTF-8"?>` gives `<!DOCTYPE HTML>`. |
| HtmlVersionVectors.ExtractBehindComment | internal/services/analyzer_test.go:835-839 | A DOCTYPE behind `<!-- This is a comment -->` gives `<!DOCTYPE HTML>`. |
| HtmlVersionVectors.ExtractNone | internal/services/analyzer_test.go:840-844 | `<html></html>` gives "". |
| HtmlVersionVectors.ExtractNoneTrailingNewline | internal/services/analyzer.go:260-278 | `<html></html>` followed by a line break gives "". |
| HtmlVersionVectors.ExtractBehindWhitespace | internal/services/analyzer_test.go:845-849 | A DOCTYPE behind spaces, a line break and a tab gives `<!DOCTYPE HTML>`. |
| HtmlVersionVectors.Html5TokenIsBare | internal/constants/constants.go:148 | `<!DOCTYPE HTML>` matches the HTML5 pattern. |
| HtmlVersionVectors.DetectHtml5Page | internal/services/analyzer_test.go:138-155 | The page of the version test is HTML5. |
| HtmlVersionVectors.VariantStrict | internal/services/analyzer_test.go:877-886 | The HTML 4.01 Strict token selects "HTML 4.01 Strict". |
| HtmlVersionVectors.VariantTransitional | internal/services/analyzer_test.go:887-896 | The HTML 4.01 Transitional token, with the DTD file LOOSE.DTD, selects "HTML 4.01 Transitional". |
| HtmlVersionVectors.VariantFrameset | internal/services/analyzer_test.go:897-906 | The HTML 4.01 Frameset token selects "HTML 4.01 Frameset". |
| HtmlVersionVectors.VariantNoKeyword | internal/services/analyzer_test.go:907-913 | `<!DOCTYPE HTML>` does not name HTML 4.01, so the result is "". |
| HtmlVersionVectors.VariantBaseOnly | internal/services/analyzer_test.go:914-920 | Without variant labels, the HTML 4.01 token gets "HTML 4.01". |
| Structure.ExtractPageTitle | internal/services/analyzer.go:191-193 | The title occurs in the joined title text with only white space around it, and does not start or end with white space. |
| Structure.TitleOfPaddedText | internal/services/analyzer_test.go:721-763 | A title padded with white space yields the text inside. |
| Structure.Selector | internal/services/analyzer.go:200 | The key of a level is "h" followed by its digit. |
| Structure.SelectorInjective | internal/services/analyzer.go:199-201 | Distinct levels get distinct keys. |
| Structure.CountHeadings | internal/services/analyzer.go:196-205 | The map has exactly the keys h1 to h6, and each holds the number of headings of its level. |
| Structure.HeadingCountsKeys | internal/services/analyzer.go:196-205 | The written-out heading map has the six keys and the six counts. |
| Structure.HeadingCountsSum | internal/services/analyzer.go:196-205 | The six counts add up to the number of headings. |
| Links.DefaultNeverFollows | internal/services/analyzer.go:65-70 | With the default redirect limit of 0, no redirect is ever followed. |
| Links.ProbePolicy | internal/services/analyzer.go:395-413 | Internal links use the 3-second client and external links the configured timeout. Both use the configured redirect limit. |
| Links.CheckLinkWithTimeout | internal/services/analyzer.go:392-423 | A link is accessible exactly when the request is built, a response arrives, and its status is below 400. |
| Links.CheckLink | internal/services/analyzer.go:426-428 | `checkLink` is accessible exactly when the external client's probe answers with a status below 400. |
| Links.ProbesDifferOnlyInTimeout | internal/services/analyzer.go:392-423 | With equal timeouts, the internal and external checks agree. |
| Links.ProbeVectors | internal/services/analyzer_test.go:265-311 | 200 and 301 are accessible. 404, 500 and a malformed request are not. |
| Links.Resolved | internal/services/analyzer.go:319-324 | Only hrefs that resolve are kept, so there are never more links than hrefs. |
| Links.InternalPlusExternal | internal/services/analyzer.go:326-332 | Every resolved link is counted exactly once, as internal or as external. |
| Links.InternalIffSameHost | internal/services/analyzer.go:326-329 | A link is internal exactly when its host equals the page's host. |
| Links.UnresolvedIgnored | internal/services/analyzer.go:321-324 | An href that does not resolve changes neither list. |
| Links.CollectLinks | internal/services/analyzer.go:319-334 | The loop builds both lists in document order, and its counters equal their lengths. |
| Links.Tasks | internal/services/analyzer.go:341-361 | Each queued task carries its link and its internal flag. |
| Links.AdmissionBudget | internal/services/analyzer.go:337-361 | min(links, MaxLinks) tasks are admitted, never more than MaxLinks. An internal link is admitted only when every external link was admitted first. |
| Links.Admit | internal/services/analyzer.go:337-361 | The buffer of capacity MaxLinks holds, in its first slots, external links first and then internal links up to the remaining capacity. |
| Links.CountFalseIsMultiplicity | internal/services/analyzer.go:371-375 | The inaccessible count is the number of false results in the multiset. |
| Links.CompletionOrderIrrelevant | internal/services/analyzer.go:371-375 | Any order in which the workers deliver the results gives the same count. |
| Links.LinkReportBounds | internal/services/analyzer.go:304-378 | Internal plus external equals the number of resolved hrefs. Inaccessible lies between 0 and min(that number, MaxLinks). |
| Links.AnalyzeLinks | internal/services/analyzer.go:304-378 | `analyzeLinks` returns the collected counts and the number of failed probes among the admitted links. |
| Login.SubmitText | internal/services/analyzer.go:461-464 | The text of a submit control starts with its lower-cased text; the value is appended after it. |
| Login.CountLoginButtons | internal/services/analyzer.go:460-468 | At most one bonus is given per submit button. |
| Login.CountLoginInputs | internal/services/analyzer.go:460-468 | At most one bonus is given per submit input. |
| Login.AuthTagCount | internal/services/analyzer.go:523-527 | At most one point is given per meta or link tag. |
| Login.ScoreForm | internal/services/analyzer.go:437-514 | The loop computes the form score of the specification. |
| Login.DetectLoginForm | internal/services/analyzer.go:431-531 | True exactly when the best form score plus the auth-tag points reaches the threshold 10. |
| Login.MaxFormScoreIsMaximum | internal/services/analyzer.go:516-519 | The page keeps the highest form score: no form scores more, and one form reaches it. |
| Login.FormScoreBound | internal/services/analyzer.go:437-514 | A form scores at most 16 plus 2 per submit control. |
| Login.ClassicLoginFormDetected | internal/services/analyzer.go:440-457 | A form with a login action, a password field and a user field is detected. |
| Login.NoActionFallsShort | internal/services/analyzer.go:440-468 | Password, user field and one login button without a login action score 9. That is below the threshold. |
| Login.CountLoginButtonsAppend | internal/services/analyzer.go:460-468 | Submit buttons are counted independently of one another. |
| Login.CountLoginInputsAppend | internal/services/analyzer.go:460-468 | Submit inputs are counted independently of one another. |
| Login.LabelsForAppend | internal/services/analyzer.go:473-477 | More labels only extend the label text of a checkbox. |
| Login.LowerPrefixContains | internal/services/analyzer.go:478-479 | A phrase found in the lower-cased start of a text is found in the whole lower-cased text. |
| Login.RememberMeKept | internal/services/analyzer.go:471-480 | A remember-me checkbox stays one when labels are added. |
| Login.InputSignalsKept | internal/services/analyzer.go:448-483 | Password, user and remember-me signals survive added inputs and labels. |
| Login.LinkSignalsKept | internal/services/analyzer.go:486-514 | Forgot-password and OAuth signals survive added links and buttons. |
| Login.FormScoreMonotone | internal/services/analyzer.go:437-514 | Adding inputs, buttons, links or labels to a form never lowers its score. |
| Login.PageScoreMonotone | internal/services/analyzer.go:516-527 | Adding a form or a tag never lowers the page score. |
| LoginVectors.CompleteLoginFormScore | internal/services/analyzer_test.go:169-178 | The complete login form of the tests scores 12. |
| LoginVectors.CompleteLoginFormDetected | internal/services/analyzer_test.go:169-178 | A page made of the complete login form is detected. |
| LoginVectors.ContactFormAction | internal/services/analyzer_test.go:223-233 | The contact form's action is not a login action. |
| LoginVectors.ContactFormSubmit | internal/services/analyzer_test.go:223-233 | The contact form's "Send" button earns no login bonus. |
| LoginVectors.SendIsNoOAuth | internal/services/analyzer_test.go:223-233 | "Send" is not an OAuth control. |
| LoginVectors.ContactFormScore | internal/services/analyzer_test.go:223-233 | The contact form scores 3. |
| LoginVectors.ContactFormNotDetected | internal/services/analyzer_test.go:223-233 | A page made of the contact form is not detected. |
| LoginVectors.SearchFormScore | internal/services/analyzer_test.go:234-242 | The form with only a user name field and a "Search" button scores 3. |
| LoginVectors.SearchFormNotDetected | internal/services/analyzer_test.go:234-242 | A page made of that form is not detected. |
| LoginVectors.NoFormNotDetected | internal/services/analyzer_test.go:243-250 | A page without forms is not detected. |
| LoginVectors.ForgotPasswordFormDetected | internal/services/analyzer_test.go:201-211 | The "Forgot password?" link is a forgot-password signal, and the form is detected. |
| LoginVectors.OAuthFormDetected | internal/services/analyzer_test.go:212-222 | The "Sign in with Google" button is an OAuth signal, and the form is detected. |
| Request.Validate | internal/models/request.go:16-38 | The four errors apply in order: more than 2048 bytes, unparseable, missing scheme or host, scheme other than http(s). The URL is valid exactly when none applies. |
| Request.TooLongBeforeParsing | internal/models/request.go:17-19 | An over-long URL is refused whatever the parser would say. |
| Request.ValidIsShort | internal/models/request.go:17-19 | A valid URL has at most 2048 characters. |
| Analyzer.WithDefaultProperties | internal/services/analyzer.go:46-58 | A zero setting takes the default and any other value is kept. Applying the defaults twice changes nothing. |
| Analyzer.DefaultsFillZeros | internal/services/analyzer.go:46-58 | After construction, the link budget, timeout and worker count are not zero. An unset redirect limit stays 0. |
| Analyzer.AnalyzerConfig.constructor | internal/config/config.go:42-46 | A configuration holds the four given settings. |
| Analyzer.Analyzer.constructor | internal/services/analyzer.go:46-73 | Zero settings are replaced by the defaults in the shared configuration, in place. The page client's timeout is fixed to the resulting link timeout. |
| Analyzer.Cache.constructor | internal/services/analyzer.go:24-28 | A new store is empty. |
| Analyzer.Cache.Lookup | internal/services/analyzer.go:24-28 | An unreachable store answers with an error. Otherwise a miss is answered with no response and a hit with the stored one. |
| Analyzer.Cache.Get | internal/services/analyzer.go:24-28 | `Get` answers as `Lookup` and changes nothing. |
| Analyzer.Cache.Set | internal/services/analyzer.go:24-28 | `Set` stores the response under its URL, or fails and stores nothing. |
| Analyzer.ParseAndValidateURL | internal/services/analyzer.go:116-133 | A URL is accepted exactly when it parses, has a scheme and a host, and uses http or https. The accepted URL is the parsed one. |
| Analyzer.ValidateAgreesWithAnalyzer | internal/services/analyzer.go:116-133 | A request that passes `Validate` is accepted by the analyzer. An accepted URL passes `Validate` exactly when it fits in 2048 bytes. |
| Analyzer.FetchWebpage | internal/services/analyzer.go:136-153 | The body is returned only for status 200. No response, any other status, and an unreadable body are errors, and the error carries the status. |
| Analyzer.ParseHtml | internal/services/analyzer.go:156-162 | The parser's document is returned, or a parse error. |
| Analyzer.UncachedSteps | internal/services/analyzer.go:86-110 | The first failing step decides the error. Otherwise the result is the analysis of the fetched page. |
| Analyzer.InvalidUrlNeverFetched | internal/services/analyzer_test.go:453-468 | An invalid URL is refused whatever the network or the parser would do. |
| Analyzer.NonOkStatusFails | internal/services/analyzer_test.go:471-492 | A page answered with a status other than 200 fails with that status. |
| Analyzer.AnalyzeSucceedsIff | internal/services/analyzer.go:78-113 | Analysis succeeds exactly when the URL is valid, the page answers 200 with a readable body, and the body parses. |
| Analyzer.AnalysisReport | internal/services/analyzer.go:165-189 | A successful analysis carries the requested URL and the current time. Its label is one of the sixteen. Its title is the joined title text with the white space removed at both ends. Its headings map has the keys h1 to h6, and its link counts are within their bounds. |
| Analyzer.Analyzer.PerformWebpageAnalysis | internal/services/analyzer.go:165-189 | The response combines the version, title, headings, link analysis and login verdict of the page, with the current settings. |
| Analyzer.Analyzer.Analyze | internal/services/analyzer.go:78-113 | A cache hit is returned unchanged without validating or fetching anything, and a cache error counts as a miss. Otherwise the result is the uncached analysis, and a success is stored when the store is reachable. |

## Left out

- Text.Upper and Text.Lower: case mapping covers ASCII letters only. Go's `strings.ToUpper`/`ToLower` and the `(?i)` flag also fold non-ASCII letters, and those foldings can change the length of the text.
- The document parser (goquery and the HTML tokenizer), `url.Parse`, `URL.Parse` for reference resolution, and HTTP are not modelled. They are parameters: `Page.Document` is what the selectors of the code read, already extracted.
- Labels are looked up by comparing ids. Go builds the selector `label[for='<id>']` by concatenation, so an id that contains a quote gives an invalid selector, and no label is found for it. That corner is not modelled.
- The worker pool and channels are not modelled. The probes run in one loop, and the count is shown not to depend on the order of completion. The `context` passed to the probes (cancellation) is not modelled.
- MaxWorkers: with a negative worker count (zero is replaced by the default), no worker starts and `analyzeLinks` waits forever once a link is queued. The model does not capture that hang; the count of workers does not influence the result.
- Analyzer.Analyzer.Analyze and Analyzer.Analyzer.PerformWebpageAnalysis require a link budget of at least 0, because `make(chan, n)` panics for a negative capacity. The panic is not modelled as a result.
- Analyzer.Cache: the store behind `CacheInterface` is modelled by its observable answers. The Redis client and the no-op cache (`cache.go`), TTLs, and JSON encoding are not modelled.
- Logging and metrics (zap, Prometheus): effects with no bearing on results.
- `time.Now` is a parameter; `AnalyzedAt` is that integer.
- The handlers, router, rate limiter, configuration loading (`config.go` beyond the four analyzer settings), `app.go` and `main` are not part of this model.
- The login examples with an e-mail field (analyzer_test.go:179-188) and with a remember-me checkbox (analyzer_test.go:189-200) are not written out as vectors. The XHTML 1.0 example of the extraction test (analyzer_test.go:825-829) is not written out either. Their signals are covered by the general lemmas of `Login` and `HtmlVersion`.
- HtmlVersion.SimpleStage: Go ranges over the map of simple versions in an unspecified order, so a token that names two of them may get either label. The model fixes the declared order; for a token that names one of them the result is the same in every order.
- The regular expressions are modelled as hand-written matchers for the four patterns of `constants.go`, not as a general regular-expression engine.
