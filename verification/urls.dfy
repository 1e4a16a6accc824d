/** The part of `urllib.parse` the model relies on.  `urlparse` followed by
    `parse_qs` is not re-implemented: every function that parses a URL takes
    the parser as a parameter, so its results hold for any parser. */
module Urls {

  /** `parse_qs` never maps a key to an empty list. */
  type Values = s: seq<string> | |s| > 0 witness [""]

  /** The fields of `urlparse(url)` that are read, with the query already
      run through `parse_qs`. */
  datatype Url = Url(netloc: string, path: string, query: map<string, Values>)

  type UrlParser = string -> Url
}
