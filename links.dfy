/** `analyzeLinks`, `checkLinkWithTimeout` and `checkLink`: every resolvable
    link is counted as internal or external, a budget of them is probed
    (external links first), and the failed probes are counted. HTTP is not
    modelled: a probe is a function from the link and the client settings to
    the outcome of the HEAD request. */
module Links {

  import opened Wrappers
  import opened Constants
  import opened Urls

  /** The settings of the HTTP client a probe uses. */
  datatype ClientPolicy = ClientPolicy(timeout: int, maxRedirects: int)

  /** What a HEAD request gives: the request could not be built, no response
      arrived (transport error or timeout), or a response with a status code.
      The response is the last one the client kept after its redirect rule. */
  datatype ProbeOutcome = RequestRejected | TransportFailed | Responded(status: int)

  /** The counters of `models.LinkAnalysis`. */
  datatype LinkAnalysis = LinkAnalysis(internal: int, external: int, inaccessible: int)

  /** `linkCheckRequest`: a link queued for probing. */
  datatype LinkTask = LinkTask(link: string, isInternal: bool)

  /** The client's `CheckRedirect`: a redirect is followed only while fewer
      than `maxRedirects` requests were made before it. */
  predicate FollowsRedirect(policy: ClientPolicy, via: nat) {
    via < policy.maxRedirects
  }

  /** With the default of no redirects, the client never follows one: the
      redirect response itself is the outcome of the probe. */
  lemma DefaultNeverFollows(policy: ClientPolicy, via: nat)
    requires policy.maxRedirects == DefaultMaxRedirects
    ensures !FollowsRedirect(policy, via)
  {
  }

  /** The client a probe uses: internal links get the shorter fixed timeout,
      external links the configured one; both share the redirect rule. */
  function ProbePolicy(isInternal: bool, linkTimeout: int, maxRedirects: int): (policy: ClientPolicy)
    ensures policy.maxRedirects == maxRedirects
    ensures isInternal ==> policy.timeout == DefaultInternalLinkTimeout
    ensures !isInternal ==> policy.timeout == linkTimeout
  {
    ClientPolicy(if isInternal then DefaultInternalLinkTimeout else linkTimeout, maxRedirects)
  }

  /** A status below 400 counts as accessible. */
  predicate IsAccessibleStatus(status: int) {
    status < StatusBadRequest
  }

  /** `checkLinkWithTimeout`: accessible exactly when the request is built, a
      response arrives, and its status is below 400. */
  function CheckLinkWithTimeout(probe: (string, ClientPolicy) -> ProbeOutcome, link: string, isInternal: bool,
                                linkTimeout: int, maxRedirects: int): (accessible: bool)
    ensures accessible <==> exists status :: probe(link, ProbePolicy(isInternal, linkTimeout, maxRedirects)) == Responded(status)
                                             && status < StatusBadRequest
  {
    match probe(link, ProbePolicy(isInternal, linkTimeout, maxRedirects))
    case Responded(status) => IsAccessibleStatus(status)
    case _ => false
  }

  /** `checkLink`: the probe of an external link. */
  function CheckLink(probe: (string, ClientPolicy) -> ProbeOutcome, link: string,
                     linkTimeout: int, maxRedirects: int): (accessible: bool)
    ensures accessible <==> exists status :: probe(link, ClientPolicy(linkTimeout, maxRedirects)) == Responded(status)
                                             && status < StatusBadRequest
  {
    CheckLinkWithTimeout(probe, link, false, linkTimeout, maxRedirects)
  }

  /** Internal and external probes differ only in the timeout: with the same
      timeout they agree. */
  lemma ProbesDifferOnlyInTimeout(probe: (string, ClientPolicy) -> ProbeOutcome, link: string, maxRedirects: int)
    ensures CheckLinkWithTimeout(probe, link, true, DefaultInternalLinkTimeout, maxRedirects)
            == CheckLinkWithTimeout(probe, link, false, DefaultInternalLinkTimeout, maxRedirects)
  {
  }

  /** The outcomes the probe tests expect: 200 and a redirect (301, kept
      because no redirect is followed) are accessible, 404 and 500 are not,
      and neither is a link whose request cannot be built. */
  lemma ProbeVectors(probe: (string, ClientPolicy) -> ProbeOutcome, link: string, linkTimeout: int)
    ensures probe(link, ClientPolicy(linkTimeout, DefaultMaxRedirects)) == Responded(200)
            ==> CheckLink(probe, link, linkTimeout, DefaultMaxRedirects)
    ensures probe(link, ClientPolicy(linkTimeout, DefaultMaxRedirects)) == Responded(301)
            ==> CheckLink(probe, link, linkTimeout, DefaultMaxRedirects)
    ensures probe(link, ClientPolicy(linkTimeout, DefaultMaxRedirects)) == Responded(404)
            ==> !CheckLink(probe, link, linkTimeout, DefaultMaxRedirects)
    ensures probe(link, ClientPolicy(linkTimeout, DefaultMaxRedirects)) == Responded(500)
            ==> !CheckLink(probe, link, linkTimeout, DefaultMaxRedirects)
    ensures probe(link, ClientPolicy(linkTimeout, DefaultMaxRedirects)) == RequestRejected
            ==> !CheckLink(probe, link, linkTimeout, DefaultMaxRedirects)
  {
  }

  // ---------------------------------------------------------------------
  // Collecting the links

  /** The hrefs that resolve against the page URL, resolved, in document
      order. `resolve` is `baseURL.Parse` (`None` when it fails). */
  function Resolved(hrefs: seq<string>, resolve: string -> Option<Url>): (links: seq<Url>)
    ensures |links| <= |hrefs|
  {
    if hrefs == [] then []
    else
      var rest := Resolved(hrefs[..|hrefs| - 1], resolve);
      match resolve(hrefs[|hrefs| - 1])
      case None => rest
      case Some(u) => rest + [u]
  }

  /** The `String()` forms of the resolved links whose host is (or is not)
      the page's host, in document order. */
  function OnHost(links: seq<Url>, baseHost: string, internal: bool): (texts: seq<string>)
    ensures |texts| <= |links|
  {
    if links == [] then []
    else
      var rest := OnHost(links[..|links| - 1], baseHost, internal);
      var u := links[|links| - 1];
      if (u.host == baseHost) == internal then rest + [u.text] else rest
  }

  function InternalLinks(hrefs: seq<string>, resolve: string -> Option<Url>, baseHost: string): seq<string> {
    OnHost(Resolved(hrefs, resolve), baseHost, true)
  }

  function ExternalLinks(hrefs: seq<string>, resolve: string -> Option<Url>, baseHost: string): seq<string> {
    OnHost(Resolved(hrefs, resolve), baseHost, false)
  }

  /** Every resolved link is either internal or external, never both. */
  lemma {:induction false} InternalPlusExternal(links: seq<Url>, baseHost: string)
    ensures |OnHost(links, baseHost, true)| + |OnHost(links, baseHost, false)| == |links|
  {
    if links != [] {
      InternalPlusExternal(links[..|links| - 1], baseHost);
    }
  }

  /** A link counts as internal exactly when its host equals the page's. */
  lemma {:induction false} InternalIffSameHost(links: seq<Url>, baseHost: string, text: string)
    ensures text in OnHost(links, baseHost, true) <==> exists u :: u in links && u.host == baseHost && u.text == text
  {
    if links != [] {
      var init := links[..|links| - 1];
      InternalIffSameHost(init, baseHost, text);
      assert links == init + [links[|links| - 1]];
      assert forall u :: u in links <==> u in init || u == links[|links| - 1];
    }
  }

  /** An href that does not resolve changes no counter. */
  lemma UnresolvedIgnored(hrefs: seq<string>, href: string, resolve: string -> Option<Url>, baseHost: string)
    requires resolve(href).None?
    ensures InternalLinks(hrefs + [href], resolve, baseHost) == InternalLinks(hrefs, resolve, baseHost)
    ensures ExternalLinks(hrefs + [href], resolve, baseHost) == ExternalLinks(hrefs, resolve, baseHost)
  {
    assert (hrefs + [href])[..|hrefs|] == hrefs;
  }

  /** The collection walk over the `a[href]` elements: each href that
      resolves is counted and appended to the internal or the external list. */
  method CollectLinks(hrefs: seq<string>, resolve: string -> Option<Url>, baseHost: string)
    returns (internal: nat, external: nat, internalLinks: seq<string>, externalLinks: seq<string>)
    ensures internalLinks == InternalLinks(hrefs, resolve, baseHost)
    ensures externalLinks == ExternalLinks(hrefs, resolve, baseHost)
    ensures internal == |internalLinks| && external == |externalLinks|
  {
    internal, external := 0, 0;
    internalLinks, externalLinks := [], [];
    var i := 0;
    while i < |hrefs|
      invariant 0 <= i <= |hrefs|
      invariant internalLinks == InternalLinks(hrefs[..i], resolve, baseHost)
      invariant externalLinks == ExternalLinks(hrefs[..i], resolve, baseHost)
      invariant internal == |internalLinks| && external == |externalLinks|
    {
      assert hrefs[..i + 1][..i] == hrefs[..i];
      match resolve(hrefs[i]) {
        case None =>
        case Some(linkUrl) =>
          assert Resolved(hrefs[..i + 1], resolve) == Resolved(hrefs[..i], resolve) + [linkUrl];
          assert (Resolved(hrefs[..i], resolve) + [linkUrl])[..|Resolved(hrefs[..i], resolve)|]
                 == Resolved(hrefs[..i], resolve);
          if linkUrl.host == baseHost {
            internal := internal + 1;
            internalLinks := internalLinks + [linkUrl.text];
          } else {
            external := external + 1;
            externalLinks := externalLinks + [linkUrl.text];
          }
      }
      i := i + 1;
    }
    assert hrefs[..i] == hrefs;
  }

  // ---------------------------------------------------------------------
  // Admission

  function Min(a: int, b: int): (m: int)
    ensures m <= a && m <= b && (m == a || m == b)
  {
    if a <= b then a else b
  }

  function Tasks(links: seq<string>, isInternal: bool): (tasks: seq<LinkTask>)
    ensures |tasks| == |links|
    ensures forall k :: 0 <= k < |links| ==> tasks[k] == LinkTask(links[k], isInternal)
  {
    seq(|links|, k requires 0 <= k < |links| => LinkTask(links[k], isInternal))
  }

  /** The probes admitted under a budget of `maxLinks`: as many external
      links as fit, in document order, then a document-order prefix of the
      internal links filling the remaining capacity. */
  function AdmissionQueue(externalLinks: seq<string>, internalLinks: seq<string>, maxLinks: nat): seq<LinkTask>
  {
    var e := Min(|externalLinks|, maxLinks);
    var k := Min(|internalLinks|, maxLinks - e);
    Tasks(externalLinks[..e], false) + Tasks(internalLinks[..k], true)
  }

  /** The admission rule: the budget is never exceeded, it is used up as far
      as there are links, and an internal link is probed only when every
      external link is. */
  lemma AdmissionBudget(externalLinks: seq<string>, internalLinks: seq<string>, maxLinks: nat)
    ensures |AdmissionQueue(externalLinks, internalLinks, maxLinks)| == Min(|externalLinks| + |internalLinks|, maxLinks)
    ensures |AdmissionQueue(externalLinks, internalLinks, maxLinks)| <= maxLinks
    ensures forall t :: t in AdmissionQueue(externalLinks, internalLinks, maxLinks) && t.isInternal
              ==> |externalLinks| < maxLinks && forall l :: l in externalLinks ==> LinkTask(l, false) in AdmissionQueue(externalLinks, internalLinks, maxLinks)
  {
    var q := AdmissionQueue(externalLinks, internalLinks, maxLinks);
    var e := Min(|externalLinks|, maxLinks);
    forall t | t in q && t.isInternal
      ensures |externalLinks| < maxLinks && forall l :: l in externalLinks ==> LinkTask(l, false) in q
    {
      var j :| 0 <= j < |q| && q[j] == t;
      assert j >= e;
      assert e == |externalLinks|;
      forall l | l in externalLinks ensures LinkTask(l, false) in q {
        var m :| 0 <= m < |externalLinks| && externalLinks[m] == l;
        assert q[m] == LinkTask(l, false);
      }
    }
  }

  /** The admission loops of `analyzeLinks`: external links until the
      budget is reached, then as many internal links as the remaining
      capacity allows, written into the link channel, a buffer of capacity
      `maxLinks`. Returns the buffer and how many tasks it holds. */
  method Admit(externalLinks: seq<string>, internalLinks: seq<string>, maxLinks: nat)
    returns (queue: array<LinkTask>, linksToCheck: nat)
    ensures fresh(queue) && queue.Length == maxLinks
    ensures linksToCheck <= maxLinks
    ensures queue[..linksToCheck] == AdmissionQueue(externalLinks, internalLinks, maxLinks)
  {
    queue := new LinkTask[maxLinks](_ => LinkTask("", false));
    linksToCheck := 0;
    var i := 0;
    while i < |externalLinks|
      invariant 0 <= i <= |externalLinks|
      invariant linksToCheck == i <= maxLinks
      invariant queue[..linksToCheck] == Tasks(externalLinks[..i], false)
    {
      if linksToCheck >= maxLinks {
        break;
      }
      queue[linksToCheck] := LinkTask(externalLinks[i], false);
      assert externalLinks[..i + 1] == externalLinks[..i] + [externalLinks[i]];
      linksToCheck := linksToCheck + 1;
      i := i + 1;
    }
    var admittedExternal := linksToCheck;
    assert admittedExternal == Min(|externalLinks|, maxLinks);
    var remainingCapacity := maxLinks - linksToCheck;
    var internalLinksToCheck := |internalLinks|;
    if internalLinksToCheck > remainingCapacity {
      internalLinksToCheck := remainingCapacity;
    }
    var j := 0;
    while j < internalLinksToCheck
      invariant 0 <= j <= internalLinksToCheck
      invariant linksToCheck == admittedExternal + j
      invariant queue[..linksToCheck] == Tasks(externalLinks[..admittedExternal], false) + Tasks(internalLinks[..j], true)
    {
      queue[linksToCheck] := LinkTask(internalLinks[j], true);
      assert internalLinks[..j + 1] == internalLinks[..j] + [internalLinks[j]];
      linksToCheck := linksToCheck + 1;
      j := j + 1;
    }
  }

  // ---------------------------------------------------------------------
  // Counting

  /** The probe result of each admitted task, in queue order. */
  function Results(tasks: seq<LinkTask>, probe: (string, ClientPolicy) -> ProbeOutcome,
                   linkTimeout: int, maxRedirects: int): (results: seq<bool>)
    ensures |results| == |tasks|
    ensures forall k :: 0 <= k < |tasks| ==>
      results[k] == CheckLinkWithTimeout(probe, tasks[k].link, tasks[k].isInternal, linkTimeout, maxRedirects)
  {
    seq(|tasks|, k requires 0 <= k < |tasks| =>
      CheckLinkWithTimeout(probe, tasks[k].link, tasks[k].isInternal, linkTimeout, maxRedirects))
  }

  /** Number of `false` results. */
  function CountFalse(results: seq<bool>): (n: nat)
    ensures n <= |results|
  {
    if results == [] then 0
    else CountFalse(results[..|results| - 1]) + (if results[|results| - 1] then 0 else 1)
  }

  /** The count depends only on how many results are `false`, not on their
      order. */
  lemma {:induction false} CountFalseIsMultiplicity(results: seq<bool>)
    ensures CountFalse(results) == multiset(results)[false]
  {
    if results != [] {
      var init := results[..|results| - 1];
      assert results == init + [results[|results| - 1]];
      CountFalseIsMultiplicity(init);
    }
  }

  /** Workers finish in any order: counting the results in any order that
      delivers each exactly once gives the same number. */
  lemma CompletionOrderIrrelevant(results: seq<bool>, delivered: seq<bool>)
    requires multiset(delivered) == multiset(results)
    ensures CountFalse(delivered) == CountFalse(results)
  {
    CountFalseIsMultiplicity(results);
    CountFalseIsMultiplicity(delivered);
  }

  /** The link analysis `analyzeLinks` reports. */
  function LinkReport(hrefs: seq<string>, resolve: string -> Option<Url>, baseHost: string,
                      probe: (string, ClientPolicy) -> ProbeOutcome,
                      maxLinks: nat, linkTimeout: int, maxRedirects: int): LinkAnalysis
  {
    var internalLinks := InternalLinks(hrefs, resolve, baseHost);
    var externalLinks := ExternalLinks(hrefs, resolve, baseHost);
    var queue := AdmissionQueue(externalLinks, internalLinks, maxLinks);
    LinkAnalysis(|internalLinks|, |externalLinks|, CountFalse(Results(queue, probe, linkTimeout, maxRedirects)))
  }

  /** What the report promises: internal plus external is the number of
      resolvable hrefs, and the inaccessible count is at most the number of
      probes, which is at most the budget. */
  lemma LinkReportBounds(hrefs: seq<string>, resolve: string -> Option<Url>, baseHost: string,
                         probe: (string, ClientPolicy) -> ProbeOutcome,
                         maxLinks: nat, linkTimeout: int, maxRedirects: int)
    ensures var r := LinkReport(hrefs, resolve, baseHost, probe, maxLinks, linkTimeout, maxRedirects);
      r.internal + r.external == |Resolved(hrefs, resolve)|
      && 0 <= r.inaccessible <= Min(r.internal + r.external, maxLinks)
  {
    InternalPlusExternal(Resolved(hrefs, resolve), baseHost);
    AdmissionBudget(ExternalLinks(hrefs, resolve, baseHost), InternalLinks(hrefs, resolve, baseHost), maxLinks);
  }

  /** `analyzeLinks`: collect, admit, probe and count. The worker pool is a
      loop over the admitted tasks; the order of the results does not matter
      (`CompletionOrderIrrelevant`). `make(chan, n)` panics for a negative
      capacity, hence `maxLinks` is a `nat`. */
  method AnalyzeLinks(hrefs: seq<string>, resolve: string -> Option<Url>, baseHost: string,
                      probe: (string, ClientPolicy) -> ProbeOutcome,
                      maxLinks: nat, linkTimeout: int, maxRedirects: int)
    returns (analysis: LinkAnalysis)
    ensures analysis == LinkReport(hrefs, resolve, baseHost, probe, maxLinks, linkTimeout, maxRedirects)
  {
    var internal, external, internalLinks, externalLinks := CollectLinks(hrefs, resolve, baseHost);
    var queue, linksToCheck := Admit(externalLinks, internalLinks, maxLinks);
    ghost var results := Results(queue[..linksToCheck], probe, linkTimeout, maxRedirects);
    var inaccessible := 0;
    var i := 0;
    while i < linksToCheck
      invariant 0 <= i <= linksToCheck
      invariant inaccessible == CountFalse(results[..i])
    {
      var task := queue[i];
      var accessible := CheckLinkWithTimeout(probe, task.link, task.isInternal, linkTimeout, maxRedirects);
      assert results[..i + 1][..i] == results[..i];
      if !accessible {
        inaccessible := inaccessible + 1;
      }
      i := i + 1;
    }
    assert results[..i] == results;
    analysis := LinkAnalysis(internal, external, inaccessible);
  }
}
