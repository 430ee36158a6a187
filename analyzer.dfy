/** The `Analyzer` service: construction with configuration defaults, the
    cache-first `Analyze` pipeline, `parseAndValidateURL`, `fetchWebpage`,
    `parseHTML` and `performWebpageAnalysis`. HTTP, the HTML parser, the URL
    parser and the clock are parameters. */
module Analyzer {

  import opened Wrappers
  import opened Constants
  import opened Urls
  import opened Page
  import opened HtmlVersion
  import opened Structure
  import opened Links
  import opened Login
  import Request

  // ---------------------------------------------------------------------
  // Configuration and its defaults
  // ---------------------------------------------------------------------

  /** `config.AnalyzerConfig`: the four settings `NewAnalyzer` may overwrite
      in place. `linkTimeout` is a `time.Duration` in nanoseconds. */
  class AnalyzerConfig {
    var maxLinks: int
    var linkTimeout: int
    var maxWorkers: int
    var maxRedirects: int

    constructor(maxLinks: int, linkTimeout: int, maxWorkers: int, maxRedirects: int)
      ensures this.maxLinks == maxLinks && this.linkTimeout == linkTimeout
      ensures this.maxWorkers == maxWorkers && this.maxRedirects == maxRedirects
    {
      this.maxLinks := maxLinks;
      this.linkTimeout := linkTimeout;
      this.maxWorkers := maxWorkers;
      this.maxRedirects := maxRedirects;
    }
  }

  /** One setting after `NewAnalyzer`: a zero is replaced by the default,
      anything else (negative values included) is kept. */
  function WithDefault(setting: int, default: int): int {
    if setting == 0 then default else setting
  }

  /** Defaulting keeps every set value, fills every unset one, and applying it
      a second time changes nothing. */
  lemma WithDefaultProperties(setting: int, default: int)
    ensures setting != 0 ==> WithDefault(setting, default) == setting
    ensures setting == 0 ==> WithDefault(setting, default) == default
    ensures WithDefault(WithDefault(setting, default), default) == WithDefault(setting, default)
  {
  }

  /** After `NewAnalyzer`, the link budget, the timeout and the worker count
      are never zero; the redirect limit is still zero when it was unset,
      because its default is zero. */
  lemma DefaultsFillZeros(maxLinks: int, linkTimeout: int, maxWorkers: int, maxRedirects: int)
    ensures WithDefault(maxLinks, DefaultMaxLinks) != 0
    ensures WithDefault(linkTimeout, DefaultLinkTimeout) != 0
    ensures WithDefault(maxWorkers, DefaultMaxWorkers) != 0
    ensures WithDefault(maxRedirects, DefaultMaxRedirects) == maxRedirects
  {
  }

  // ---------------------------------------------------------------------
  // The cache
  // ---------------------------------------------------------------------

  /** A store behind `CacheInterface`, keyed by the requested URL. When it is
      unreachable every call fails. */
  datatype CacheError = Unreachable

  /** `models.AnalyzeResponse`; `analyzedAt` is the instant `time.Now`
      returned, as an integer. */
  datatype AnalyzeResponse = AnalyzeResponse(
    url: string,
    htmlVersion: string,
    title: string,
    headings: map<string, int>,
    links: LinkAnalysis,
    hasLoginForm: bool,
    analyzedAt: int)

  class Cache {
    var entries: map<string, AnalyzeResponse>
    var reachable: bool

    constructor(reachable: bool)
      ensures entries == map[] && this.reachable == reachable
    {
      entries := map[];
      this.reachable := reachable;
    }

    /** What `Get` answers: an error when the store is unreachable, no
        response on a miss, the stored response on a hit. */
    function Lookup(key: string): (answer: Result<Option<AnalyzeResponse>, CacheError>)
      reads this
      ensures answer.Err? <==> !reachable
      ensures answer == Ok(None) <==> reachable && key !in entries
      ensures reachable && key in entries ==> answer == Ok(Some(entries[key]))
    {
      if !reachable then Err(Unreachable)
      else if key in entries then Ok(Some(entries[key]))
      else Ok(None)
    }

    /** `Get`: reads the store without changing it. */
    method Get(key: string) returns (answer: Result<Option<AnalyzeResponse>, CacheError>)
      ensures answer == Lookup(key)
    {
      if !reachable {
        return Err(Unreachable);
      }
      if key in entries {
        return Ok(Some(entries[key]));
      }
      return Ok(None);
    }

    /** `Set`: stores the response under the key, or fails and stores nothing
        when the store is unreachable. */
    method Set(key: string, response: AnalyzeResponse) returns (err: Option<CacheError>)
      modifies this
      ensures reachable == old(reachable)
      ensures err.None? <==> reachable
      ensures entries == if reachable then old(entries)[key := response] else old(entries)
    {
      if !reachable {
        return Some(Unreachable);
      }
      entries := entries[key := response];
      return None;
    }
  }

  // ---------------------------------------------------------------------
  // The pipeline as functions
  // ---------------------------------------------------------------------

  /** Why `parseAndValidateURL` refuses a URL. */
  datatype UrlError = Unparseable | MissingSchemeOrHost | UnsupportedScheme(scheme: string)

  /** Why `Analyze` fails, one case per step that can fail. */
  datatype AnalyzeError =
    | InvalidUrl(reason: UrlError)
    | FetchFailed
    | BadStatus(status: int)
    | ReadFailed
    | ParseFailed

  /** What the GET of the page gives: no response at all, or a status code and
      the body, `None` when reading the body failed. */
  datatype FetchOutcome = NoResponse | Fetched(status: int, body: Option<string>)

  /** `parseAndValidateURL`: the URL must parse, have a scheme and a host, and
      use http or https. Unlike the request check, there is no length limit. */
  function ParseAndValidateURL(targetURL: string, parse: string -> Option<Url>): (r: Result<Url, UrlError>)
    ensures r.Ok? <==> parse(targetURL).Some? && parse(targetURL).value.scheme != ""
                       && parse(targetURL).value.host != "" && IsWebScheme(parse(targetURL).value.scheme)
    ensures r.Ok? ==> r.value == parse(targetURL).value
    ensures r == Err(Unparseable) <==> parse(targetURL).None?
    ensures r.Err? && r.error.UnsupportedScheme? ==> !IsWebScheme(r.error.scheme)
  {
    match parse(targetURL)
    case None => Err(Unparseable)
    case Some(u) =>
      if u.scheme == "" || u.host == "" then Err(MissingSchemeOrHost)
      else if !IsWebScheme(u.scheme) then Err(UnsupportedScheme(u.scheme))
      else Ok(u)
  }

  /** The request check and the analyzer agree: a request that passes
      `Validate` is accepted by `parseAndValidateURL`, and a URL the analyzer
      accepts passes `Validate` exactly when it fits in 2048 bytes. */
  lemma ValidateAgreesWithAnalyzer(targetURL: string, parse: string -> Option<Url>)
    ensures Request.Validate(targetURL, parse).None? ==> ParseAndValidateURL(targetURL, parse).Ok?
    ensures ParseAndValidateURL(targetURL, parse).Ok? ==>
      (Request.Validate(targetURL, parse).None? <==> Text.Utf8Length(targetURL) <= MaxURLLength)
  {
  }

  /** The client the analyzer fetches pages with: the timeout fixed when the
      analyzer was built, and the configured redirect limit. */
  function PageClient(clientTimeout: int, maxRedirects: int): ClientPolicy {
    ClientPolicy(clientTimeout, maxRedirects)
  }

  /** `fetchWebpage`: the body of a 200 response; any other status, a missing
      response or an unreadable body is an error. */
  function FetchWebpage(targetURL: string, fetch: (string, ClientPolicy) -> FetchOutcome,
                        policy: ClientPolicy): (r: Result<string, AnalyzeError>)
    ensures r.Ok? <==> fetch(targetURL, policy).Fetched? && fetch(targetURL, policy).status == StatusOK
                       && fetch(targetURL, policy).body.Some?
    ensures r.Ok? ==> r.value == fetch(targetURL, policy).body.value
    ensures r == Err(FetchFailed) <==> fetch(targetURL, policy).NoResponse?
    ensures r.Err? && r.error.BadStatus? ==> r.error.status != StatusOK
                                             && fetch(targetURL, policy).Fetched?
                                             && fetch(targetURL, policy).status == r.error.status
  {
    match fetch(targetURL, policy)
    case NoResponse => Err(FetchFailed)
    case Fetched(status, body) =>
      if status != StatusOK then Err(BadStatus(status))
      else match body
        case None => Err(ReadFailed)
        case Some(html) => Ok(html)
  }

  /** `parseHTML`: the parser's document, or an error. */
  function ParseHtml(html: string, parseDocument: string -> Option<Document>): (r: Result<Document, AnalyzeError>)
    ensures r.Ok? <==> parseDocument(html).Some?
    ensures r.Ok? ==> r.value == parseDocument(html).value
    ensures r.Err? ==> r.error == ParseFailed
  {
    match parseDocument(html)
    case None => Err(ParseFailed)
    case Some(doc) => Ok(doc)
  }

  /** `baseURL.Parse(href)`: links resolved against the page's URL. */
  function ResolverAt(resolve: (Url, string) -> Option<Url>, base: Url): string -> Option<Url> {
    href => resolve(base, href)
  }

  /** The response `performWebpageAnalysis` builds for a fetched page. */
  function AnalysisOf(targetURL: string, html: string, doc: Document, base: Url,
                      resolve: (Url, string) -> Option<Url>, probe: (string, ClientPolicy) -> ProbeOutcome,
                      maxLinks: nat, clientTimeout: int, maxRedirects: int, now: int): AnalyzeResponse
  {
    AnalyzeResponse(
      targetURL,
      DetectVersion(html),
      ExtractPageTitle(doc),
      HeadingCounts(doc.headings),
      LinkReport(doc.hrefs, ResolverAt(resolve, base), base.host, probe, maxLinks, clientTimeout, maxRedirects),
      PageScore(doc) >= DefaultLoginFormThreshold,
      now)
  }

  /** `Analyze` after a cache miss: validate, fetch, parse, analyse; the first
      failing step decides the error. */
  function AnalyzeUncached(targetURL: string, parse: string -> Option<Url>,
                           fetch: (string, ClientPolicy) -> FetchOutcome,
                           parseDocument: string -> Option<Document>,
                           resolve: (Url, string) -> Option<Url>, probe: (string, ClientPolicy) -> ProbeOutcome,
                           maxLinks: nat, clientTimeout: int, maxRedirects: int, now: int)
    : Result<AnalyzeResponse, AnalyzeError>
  {
    match ParseAndValidateURL(targetURL, parse)
    case Err(reason) => Err(InvalidUrl(reason))
    case Ok(base) =>
      match FetchWebpage(targetURL, fetch, PageClient(clientTimeout, maxRedirects))
      case Err(e) => Err(e)
      case Ok(html) =>
        match ParseHtml(html, parseDocument)
        case Err(e) => Err(e)
        case Ok(doc) => Ok(AnalysisOf(targetURL, html, doc, base, resolve, probe, maxLinks, clientTimeout, maxRedirects, now))
  }

  /** The steps of `AnalyzeUncached`, one implication per step. */
  lemma UncachedSteps(targetURL: string, parse: string -> Option<Url>,
                      fetch: (string, ClientPolicy) -> FetchOutcome,
                      parseDocument: string -> Option<Document>,
                      resolve: (Url, string) -> Option<Url>, probe: (string, ClientPolicy) -> ProbeOutcome,
                      maxLinks: nat, clientTimeout: int, maxRedirects: int, now: int)
    ensures var r := AnalyzeUncached(targetURL, parse, fetch, parseDocument, resolve, probe,
                                     maxLinks, clientTimeout, maxRedirects, now);
      var parsed := ParseAndValidateURL(targetURL, parse);
      var fetched := FetchWebpage(targetURL, fetch, PageClient(clientTimeout, maxRedirects));
      (parsed.Err? ==> r == Err(InvalidUrl(parsed.error)))
      && (parsed.Ok? && fetched.Err? ==> r == Err(fetched.error))
      && (parsed.Ok? && fetched.Ok? && ParseHtml(fetched.value, parseDocument).Err? ==>
            r == Err(ParseHtml(fetched.value, parseDocument).error))
      && (parsed.Ok? && fetched.Ok? && ParseHtml(fetched.value, parseDocument).Ok? ==>
            r == Ok(AnalysisOf(targetURL, fetched.value, ParseHtml(fetched.value, parseDocument).value,
                               parsed.value, resolve, probe, maxLinks, clientTimeout, maxRedirects, now)))
  {
  }

  /** An invalid URL is refused before anything is fetched: the page fetch
      and the parser play no part in the outcome. */
  lemma InvalidUrlNeverFetched(targetURL: string, parse: string -> Option<Url>,
                               fetch1: (string, ClientPolicy) -> FetchOutcome,
                               fetch2: (string, ClientPolicy) -> FetchOutcome,
                               parseDocument1: string -> Option<Document>,
                               parseDocument2: string -> Option<Document>,
                               resolve: (Url, string) -> Option<Url>, probe: (string, ClientPolicy) -> ProbeOutcome,
                               maxLinks: nat, clientTimeout: int, maxRedirects: int, now: int)
    requires ParseAndValidateURL(targetURL, parse).Err?
    ensures AnalyzeUncached(targetURL, parse, fetch1, parseDocument1, resolve, probe, maxLinks, clientTimeout, maxRedirects, now)
         == AnalyzeUncached(targetURL, parse, fetch2, parseDocument2, resolve, probe, maxLinks, clientTimeout, maxRedirects, now)
         == Err(InvalidUrl(ParseAndValidateURL(targetURL, parse).error))
  {
  }

  /** A page answered with any status other than 200 fails with that status;
      with the default redirect limit this includes a redirect, which the
      page client does not follow. */
  lemma NonOkStatusFails(targetURL: string, parse: string -> Option<Url>,
                         fetch: (string, ClientPolicy) -> FetchOutcome,
                         parseDocument: string -> Option<Document>,
                         resolve: (Url, string) -> Option<Url>, probe: (string, ClientPolicy) -> ProbeOutcome,
                         maxLinks: nat, clientTimeout: int, maxRedirects: int, now: int, status: int, body: Option<string>)
    requires ParseAndValidateURL(targetURL, parse).Ok?
    requires fetch(targetURL, PageClient(clientTimeout, maxRedirects)) == Fetched(status, body)
    requires status != StatusOK
    ensures AnalyzeUncached(targetURL, parse, fetch, parseDocument, resolve, probe, maxLinks, clientTimeout, maxRedirects, now)
            == Err(BadStatus(status))
  {
  }

  /** `Analyze` succeeds exactly when the URL is valid, the page answers 200
      with a readable body, and the body parses. */
  lemma AnalyzeSucceedsIff(targetURL: string, parse: string -> Option<Url>,
                           fetch: (string, ClientPolicy) -> FetchOutcome,
                           parseDocument: string -> Option<Document>,
                           resolve: (Url, string) -> Option<Url>, probe: (string, ClientPolicy) -> ProbeOutcome,
                           maxLinks: nat, clientTimeout: int, maxRedirects: int, now: int)
    ensures AnalyzeUncached(targetURL, parse, fetch, parseDocument, resolve, probe, maxLinks, clientTimeout, maxRedirects, now).Ok?
      <==> ParseAndValidateURL(targetURL, parse).Ok?
           && (exists html :: fetch(targetURL, PageClient(clientTimeout, maxRedirects)) == Fetched(StatusOK, Some(html))
                              && parseDocument(html).Some?)
  {
    var r := FetchWebpage(targetURL, fetch, PageClient(clientTimeout, maxRedirects));
    if r.Ok? {
      assert fetch(targetURL, PageClient(clientTimeout, maxRedirects)) == Fetched(StatusOK, Some(r.value));
    }
  }

  /** What a successful analysis reports: the requested URL, one of the
      version labels, a trimmed title, the six heading counts, link counts
      within their bounds, and the time it was made. */
  lemma AnalysisReport(targetURL: string, html: string, doc: Document, base: Url,
                       resolve: (Url, string) -> Option<Url>, probe: (string, ClientPolicy) -> ProbeOutcome,
                       maxLinks: nat, clientTimeout: int, maxRedirects: int, now: int)
    ensures var a := AnalysisOf(targetURL, html, doc, base, resolve, probe, maxLinks, clientTimeout, maxRedirects, now);
      a.url == targetURL && a.analyzedAt == now
      && a.htmlVersion in VersionLabels
      && (a.title == [] || (!Text.IsUnicodeSpace(a.title[0]) && !Text.IsUnicodeSpace(a.title[|a.title| - 1])))
      && Text.PaddedBy(JoinTexts(doc.titles), a.title)
      && a.headings.Keys == SelectorsUpTo(7)
      && 0 <= a.links.inaccessible <= Min(a.links.internal + a.links.external, maxLinks)
      && a.links.internal >= 0 && a.links.external >= 0
  {
    HeadingCountsKeys(doc.headings);
    LinkReportBounds(doc.hrefs, ResolverAt(resolve, base), base.host, probe, maxLinks, clientTimeout, maxRedirects);
  }

  // ---------------------------------------------------------------------
  // The service
  // ---------------------------------------------------------------------

  /** `Analyzer`: the shared configuration (read afresh on every call), the
      cache, and the page client's timeout, which is fixed when the analyzer
      is built. */
  class Analyzer {
    const config: AnalyzerConfig
    const cache: Cache
    const clientTimeout: int

    /** `NewAnalyzer`: fills the zero settings of the shared configuration
        with the defaults, in place, and builds the page client from it. */
    constructor(cfg: AnalyzerConfig, cache: Cache)
      modifies cfg
      ensures config == cfg && this.cache == cache
      ensures cfg.maxLinks == WithDefault(old(cfg.maxLinks), DefaultMaxLinks)
      ensures cfg.linkTimeout == WithDefault(old(cfg.linkTimeout), DefaultLinkTimeout)
      ensures cfg.maxWorkers == WithDefault(old(cfg.maxWorkers), DefaultMaxWorkers)
      ensures cfg.maxRedirects == WithDefault(old(cfg.maxRedirects), DefaultMaxRedirects)
      ensures clientTimeout == cfg.linkTimeout
    {
      if cfg.maxLinks == 0 {
        cfg.maxLinks := DefaultMaxLinks;
      }
      if cfg.linkTimeout == 0 {
        cfg.linkTimeout := DefaultLinkTimeout;
      }
      if cfg.maxWorkers == 0 {
        cfg.maxWorkers := DefaultMaxWorkers;
      }
      if cfg.maxRedirects == 0 {
        cfg.maxRedirects := DefaultMaxRedirects;
      }
      config := cfg;
      this.cache := cache;
      clientTimeout := cfg.linkTimeout;
    }

    /** `performWebpageAnalysis`: version, title, headings, links and login
        form of a fetched and parsed page, with the current settings. */
    method PerformWebpageAnalysis(targetURL: string, html: string, doc: Document, base: Url,
                                  resolve: (Url, string) -> Option<Url>,
                                  probe: (string, ClientPolicy) -> ProbeOutcome, now: int)
      returns (response: AnalyzeResponse)
      requires config.maxLinks >= 0
      ensures response == AnalysisOf(targetURL, html, doc, base, resolve, probe,
                                     config.maxLinks, clientTimeout, config.maxRedirects, now)
    {
      var headings := CountHeadings(doc);
      var links := AnalyzeLinks(doc.hrefs, ResolverAt(resolve, base), base.host, probe,
                                config.maxLinks, clientTimeout, config.maxRedirects);
      var hasLoginForm := DetectLoginForm(doc);
      response := AnalyzeResponse(targetURL, DetectVersion(html), ExtractPageTitle(doc),
                                  headings, links, hasLoginForm, now);
    }

    /** The part of `Analyze` after a cache miss: validate, fetch, parse and
        analyse, stopping at the first step that fails. */
    method AnalyzeUncachedPage(targetURL: string, parse: string -> Option<Url>,
                               fetch: (string, ClientPolicy) -> FetchOutcome,
                               parseDocument: string -> Option<Document>,
                               resolve: (Url, string) -> Option<Url>,
                               probe: (string, ClientPolicy) -> ProbeOutcome, now: int)
      returns (result: Result<AnalyzeResponse, AnalyzeError>)
      requires config.maxLinks >= 0
      ensures result == AnalyzeUncached(targetURL, parse, fetch, parseDocument, resolve, probe,
                                        config.maxLinks, clientTimeout, config.maxRedirects, now)
    {
      UncachedSteps(targetURL, parse, fetch, parseDocument, resolve, probe,
                    config.maxLinks, clientTimeout, config.maxRedirects, now);
      var parsed := ParseAndValidateURL(targetURL, parse);
      if parsed.Err? {
        return Err(InvalidUrl(parsed.error));
      }
      var fetched := FetchWebpage(targetURL, fetch, PageClient(clientTimeout, config.maxRedirects));
      if fetched.Err? {
        return Err(fetched.error);
      }
      var document := ParseHtml(fetched.value, parseDocument);
      if document.Err? {
        return Err(document.error);
      }
      var response := PerformWebpageAnalysis(targetURL, fetched.value, document.value, parsed.value,
                                             resolve, probe, now);
      result := Ok(response);
    }

    /** `Analyze`: a cached response is returned as it is, without validating
        or fetching anything; a cache error counts as a miss. Otherwise the
        page is analysed and a successful response is stored, a failure to
        store it being ignored. `make(chan, n)` panics for a negative link
        budget, hence the precondition. */
    method Analyze(targetURL: string, parse: string -> Option<Url>,
                   fetch: (string, ClientPolicy) -> FetchOutcome,
                   parseDocument: string -> Option<Document>,
                   resolve: (Url, string) -> Option<Url>,
                   probe: (string, ClientPolicy) -> ProbeOutcome, now: int)
      returns (result: Result<AnalyzeResponse, AnalyzeError>)
      requires config.maxLinks >= 0
      modifies cache
      ensures cache.reachable == old(cache.reachable)
      ensures old(cache.Lookup(targetURL)).Ok? && old(cache.Lookup(targetURL)).value.Some? ==>
                result == Ok(old(cache.entries)[targetURL]) && cache.entries == old(cache.entries)
      ensures !(old(cache.Lookup(targetURL)).Ok? && old(cache.Lookup(targetURL)).value.Some?) ==>
                result == AnalyzeUncached(targetURL, parse, fetch, parseDocument, resolve, probe,
                                          config.maxLinks, clientTimeout, config.maxRedirects, now)
                && cache.entries == (if result.Ok? && cache.reachable
                                     then old(cache.entries)[targetURL := result.value]
                                     else old(cache.entries))
    {
      var cached := cache.Get(targetURL);
      if cached.Ok? && cached.value.Some? {
        return Ok(cached.value.value);
      }
      result := AnalyzeUncachedPage(targetURL, parse, fetch, parseDocument, resolve, probe, now);
      if result.Ok? {
        var _ := cache.Set(targetURL, result.value);
      }
    }
  }
}
