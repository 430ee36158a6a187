/** `AnalyzeRequest.Validate`: the request-side check of the URL to
    analyse. */
module Request {

  import opened Wrappers
  import opened Text
  import opened Constants
  import opened Urls

  /** Why a request URL is refused, one case per check, in the order the
      checks run. */
  datatype RequestError = TooLong | BadFormat | MissingSchemeOrHost | UnsupportedScheme

  /** `Validate`: the byte length is checked before anything is parsed; then
      the URL must parse, have a scheme and a host, and use http or https.
      `parse` is `url.Parse` (`None` when it fails). The first failing check
      decides the error; `None` means the request is valid. */
  function Validate(requestUrl: string, parse: string -> Option<Url>): (err: Option<RequestError>)
    ensures err == Some(TooLong) <==> Utf8Length(requestUrl) > MaxURLLength
    ensures err == Some(BadFormat) <==> Utf8Length(requestUrl) <= MaxURLLength && parse(requestUrl).None?
    ensures err == Some(MissingSchemeOrHost) <==>
      Utf8Length(requestUrl) <= MaxURLLength && parse(requestUrl).Some?
      && (parse(requestUrl).value.scheme == "" || parse(requestUrl).value.host == "")
    ensures err.None? <==>
      Utf8Length(requestUrl) <= MaxURLLength && parse(requestUrl).Some?
      && parse(requestUrl).value.host != "" && IsWebScheme(parse(requestUrl).value.scheme)
  {
    if Utf8Length(requestUrl) > MaxURLLength then Some(TooLong)
    else match parse(requestUrl)
      case None => Some(BadFormat)
      case Some(u) =>
        if u.scheme == "" || u.host == "" then Some(MissingSchemeOrHost)
        else if !IsWebScheme(u.scheme) then Some(UnsupportedScheme)
        else None
  }

  /** An over-long URL is refused whatever the parser would say of it: it is
      never parsed. */
  lemma TooLongBeforeParsing(requestUrl: string, parse1: string -> Option<Url>, parse2: string -> Option<Url>)
    requires Utf8Length(requestUrl) > MaxURLLength
    ensures Validate(requestUrl, parse1) == Validate(requestUrl, parse2) == Some(TooLong)
  {
  }

  /** A valid request URL has at most 2048 characters (each takes at least
      one byte). */
  lemma ValidIsShort(requestUrl: string, parse: string -> Option<Url>)
    requires Validate(requestUrl, parse).None?
    ensures |requestUrl| <= MaxURLLength
  {
  }
}
