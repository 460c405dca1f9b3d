/**
 * Undoing the JSON string escapes (section 7 of RFC 8259) and the HTML `&amp;`
 * character reference that search-result pages wrap around image URLs.
 */
module UrlUnescape {
  import opened Text

  /** The (escape, replacement) pairs of the generic worker, applied in this order. */
  const JsonEscapes: seq<(string, string)> :=
    [("\\/", "/"), ("\\u0026", "&"), ("&amp;", "&"), ("\\u0027", "'"), ("\\u0022", "\"")]

  /** The Bing crawler replaces only the first three. */
  const BingEscapes: seq<(string, string)> := JsonEscapes[..3]

  /** Every escape is non-empty, starts with `\` or `&`, and is longer than its replacement. */
  predicate WellFormedEscapes(es: seq<(string, string)>) {
    forall i :: 0 <= i < |es| ==>
      |es[i].0| > 0 && (es[i].0[0] == '\\' || es[i].0[0] == '&') && |es[i].1| <= |es[i].0|
  }

  /** The chained `.replace(...)` calls, left to right. */
  function ReplaceEach(s: string, es: seq<(string, string)>): string
    requires WellFormedEscapes(es)
    decreases |es|
  {
    if es == [] then s
    else ReplaceEach(ReplaceAll(s, es[0].0, es[0].1), es[1..])
  }

  /** `_unescape_json_url` */
  function UnescapeJsonUrl(url: string): string {
    ReplaceEach(url, JsonEscapes)
  }

  /** `_unescape_bing_json_url` */
  function UnescapeBingJsonUrl(url: string): string {
    ReplaceEach(url, BingEscapes)
  }

  /** None of the escapes occurs in `s`. */
  predicate NoEscapes(s: string, es: seq<(string, string)>) {
    forall i :: 0 <= i < |es| ==> !Contains(s, es[i].0)
  }

  lemma {:induction false} ReplaceEachNoLonger(s: string, es: seq<(string, string)>)
    requires WellFormedEscapes(es)
    ensures |ReplaceEach(s, es)| <= |s|
    decreases |es|
  {
    if es != [] {
      ReplaceAllNoLonger(s, es[0].0, es[0].1);
      ReplaceEachNoLonger(ReplaceAll(s, es[0].0, es[0].1), es[1..]);
    }
  }

  lemma {:induction false} ReplaceEachAbsent(s: string, es: seq<(string, string)>)
    requires WellFormedEscapes(es) && NoEscapes(s, es)
    ensures ReplaceEach(s, es) == s
    decreases |es|
  {
    if es != [] {
      ReplaceAllAbsent(s, es[0].0, es[0].1);
      ReplaceEachAbsent(s, es[1..]);
    }
  }

  lemma {:induction false} ReplaceEachKeepsHttp(s: string, es: seq<(string, string)>)
    requires WellFormedEscapes(es) && StartsWith(s, "http")
    ensures StartsWith(ReplaceEach(s, es), "http")
    decreases |es|
  {
    if es != [] {
      ReplaceAllKeepsPrefix("http", s, es[0].0, es[0].1);
      ReplaceEachKeepsHttp(ReplaceAll(s, es[0].0, es[0].1), es[1..]);
    }
  }

  /**
   * Unescaping never lengthens a URL, leaves a URL without any of the five escapes
   * as it is, and keeps an "http" prefix.
   */
  lemma UnescapeJsonUrlProperties(url: string)
    ensures |UnescapeJsonUrl(url)| <= |url|
    ensures NoEscapes(url, JsonEscapes) ==> UnescapeJsonUrl(url) == url
    ensures StartsWith(url, "http") ==> StartsWith(UnescapeJsonUrl(url), "http")
  {
    ReplaceEachNoLonger(url, JsonEscapes);
    if NoEscapes(url, JsonEscapes) {
      ReplaceEachAbsent(url, JsonEscapes);
    }
    if StartsWith(url, "http") {
      ReplaceEachKeepsHttp(url, JsonEscapes);
    }
  }

  /** The same three properties for the Bing variant. */
  lemma UnescapeBingJsonUrlProperties(url: string)
    ensures |UnescapeBingJsonUrl(url)| <= |url|
    ensures NoEscapes(url, BingEscapes) ==> UnescapeBingJsonUrl(url) == url
    ensures StartsWith(url, "http") ==> StartsWith(UnescapeBingJsonUrl(url), "http")
  {
    ReplaceEachNoLonger(url, BingEscapes);
    if NoEscapes(url, BingEscapes) {
      ReplaceEachAbsent(url, BingEscapes);
    }
    if StartsWith(url, "http") {
      ReplaceEachKeepsHttp(url, BingEscapes);
    }
  }
}
