/** A parsed URL, as far as the analyzer looks at it. Go's `net/url` parser
    and reference resolver are not modelled: they are passed to the
    operations that need them as functions. */
module Urls {

  import opened Wrappers

  /** `url.URL`: its scheme, its host (with port) and its `String()` form. */
  datatype Url = Url(scheme: string, host: string, text: string)

  /** The scheme is one of the two the analyzer fetches. */
  predicate IsWebScheme(scheme: string) {
    scheme == "http" || scheme == "https"
  }
}
