/**
 * Turning a search-result page into candidate image URLs: raw matches, unescaping,
 * resolution of redirect wrappers through the query component (section 3.4 of RFC 3986),
 * the denylists and de-duplication. The three crawlers combine these steps differently.
 */
module Extraction {
  import opened Wrappers
  import opened Text
  import opened UrlUnescape

  /** One element of `re.findall`'s result: the whole match, or the tuple of its capture groups. */
  datatype Match = Whole(text: string) | Groups(groups: seq<string>)

  /** `re.findall(pattern, html)` for one pattern: it raised, or it returned these matches. */
  datatype PatternScan = ScanRaised | Matched(matches: seq<Match>)

  /**
   * `parse_qs(urlparse(url).query)`: `None` when parsing raises, otherwise the first value
   * of every key that has one. Percent-decoding is part of this parser and not modelled.
   */
  type QueryParser = string -> Option<map<string, string>>

  /** The strings a match contributes: itself, or each of its groups. */
  function MatchTexts(m: Match): seq<string> {
    match m
    case Whole(t) => [t]
    case Groups(gs) => gs
  }

  /** The unescaped texts among `ts` that start with "http", scanning left to right. */
  function TextCaptures(ts: seq<string>): set<string>
    decreases |ts|
  {
    if ts == [] then {}
    else
      var t := ts[|ts| - 1];
      TextCaptures(ts[..|ts| - 1]) + (if StartsWith(t, "http") then {UnescapeJsonUrl(t)} else {})
  }

  /** What the matches of one pattern contribute. */
  function MatchCaptures(ms: seq<Match>): set<string>
    decreases |ms|
  {
    if ms == [] then {}
    else MatchCaptures(ms[..|ms| - 1]) + TextCaptures(MatchTexts(ms[|ms| - 1]))
  }

  /** What one pattern contributes: nothing when `findall` raised. */
  function ScanCaptures(scan: PatternScan): set<string> {
    match scan
    case ScanRaised => {}
    case Matched(ms) => MatchCaptures(ms)
  }

  /** The generic worker's `urls_set` after all patterns: the union of what each contributes. */
  function WorkerCaptures(scans: seq<PatternScan>): set<string>
    decreases |scans|
  {
    if scans == [] then {}
    else WorkerCaptures(scans[..|scans| - 1]) + ScanCaptures(scans[|scans| - 1])
  }

  lemma {:induction false} TextCapturesAreHttp(ts: seq<string>)
    ensures forall u :: u in TextCaptures(ts) ==> StartsWith(u, "http")
    decreases |ts|
  {
    if ts != [] {
      TextCapturesAreHttp(ts[..|ts| - 1]);
      UnescapeJsonUrlProperties(ts[|ts| - 1]);
    }
  }

  lemma {:induction false} MatchCapturesAreHttp(ms: seq<Match>)
    ensures forall u :: u in MatchCaptures(ms) ==> StartsWith(u, "http")
    decreases |ms|
  {
    if ms != [] {
      MatchCapturesAreHttp(ms[..|ms| - 1]);
      TextCapturesAreHttp(MatchTexts(ms[|ms| - 1]));
    }
  }

  /** Every URL the generic worker extracts starts with "http": non-http groups are dropped and unescaping keeps the prefix. */
  lemma {:induction false} WorkerCapturesAreHttp(scans: seq<PatternScan>)
    ensures forall u :: u in WorkerCaptures(scans) ==> StartsWith(u, "http")
    decreases |scans|
  {
    if scans != [] {
      WorkerCapturesAreHttp(scans[..|scans| - 1]);
      var last := scans[|scans| - 1];
      if last.Matched? {
        MatchCapturesAreHttp(last.matches);
      }
    }
  }

  /** A pattern that raises contributes nothing and leaves the other patterns' URLs in place. */
  lemma {:induction false} RaisingPatternSkipped(before: seq<PatternScan>, after: seq<PatternScan>)
    ensures WorkerCaptures(before + [ScanRaised] + after) == WorkerCaptures(before + after)
    decreases |after|
  {
    var xs := before + [ScanRaised] + after;
    var ys := before + after;
    if after == [] {
      assert xs == before + [ScanRaised] && xs[..|before|] == before;
      assert ys == before;
      assert WorkerCaptures(xs) == WorkerCaptures(before) + ScanCaptures(ScanRaised);
    } else {
      var n := |after|;
      var last := after[n - 1];
      assert xs[..|xs| - 1] == before + [ScanRaised] + after[..n - 1] && xs[|xs| - 1] == last;
      assert ys[..|ys| - 1] == before + after[..n - 1] && ys[|ys| - 1] == last;
      assert WorkerCaptures(xs) == WorkerCaptures(xs[..|xs| - 1]) + ScanCaptures(last);
      assert WorkerCaptures(ys) == WorkerCaptures(ys[..|ys| - 1]) + ScanCaptures(last);
      RaisingPatternSkipped(before, after[..n - 1]);
    }
  }

  /**
   * The loops of the worker's first phase: for each pattern's `findall` result, add every
   * match or group that starts with "http", unescaped.
   */
  method CollectWorkerCaptures(scans: seq<PatternScan>) returns (urls: set<string>)
    ensures urls == WorkerCaptures(scans)
  {
    urls := {};
    for i := 0 to |scans|
      invariant urls == WorkerCaptures(scans[..i])
    {
      assert scans[..i + 1][..i] == scans[..i];
      match scans[i]
      case ScanRaised =>
      case Matched(ms) =>
        urls := AddMatchCaptures(ms, urls);
    }
    assert scans[..|scans|] == scans;
  }

  /** The loop over one pattern's matches, adding to `urls0`. */
  method AddMatchCaptures(ms: seq<Match>, urls0: set<string>) returns (urls: set<string>)
    ensures urls == urls0 + MatchCaptures(ms)
  {
    urls := urls0;
    for j := 0 to |ms|
      invariant urls == urls0 + MatchCaptures(ms[..j])
    {
      assert ms[..j + 1][..j] == ms[..j];
      urls := AddTextCaptures(MatchTexts(ms[j]), urls);
    }
    assert ms[..|ms|] == ms;
  }

  /** The loop over one match's texts (the whole match, or its groups), adding to `urls0`. */
  method AddTextCaptures(texts: seq<string>, urls0: set<string>) returns (urls: set<string>)
    ensures urls == urls0 + TextCaptures(texts)
  {
    urls := urls0;
    for k := 0 to |texts|
      invariant urls == urls0 + TextCaptures(texts[..k])
    {
      assert texts[..k + 1][..k] == texts[..k];
      if StartsWith(texts[k], "http") {
        urls := urls + {UnescapeJsonUrl(texts[k])};
      }
    }
    assert texts[..|texts|] == texts;
  }

  /** The Bing crawler's raw set: unescaped `murl` captures plus the generic https matches as found. */
  function BingCaptures(murls: seq<string>, links: seq<string>): set<string> {
    (set m | m in murls :: UnescapeBingJsonUrl(m)) + Elems(links)
  }

  /** The two loops of the Bing crawler's first phase. */
  method CollectBingCaptures(murls: seq<string>, links: seq<string>) returns (urls: set<string>)
    ensures urls == BingCaptures(murls, links)
  {
    urls := {};
    for i := 0 to |murls|
      invariant urls == set m | m in murls[..i] :: UnescapeBingJsonUrl(m)
    {
      assert murls[..i + 1] == murls[..i] + [murls[i]];
      urls := urls + {UnescapeBingJsonUrl(murls[i])};
    }
    assert murls[..|murls|] == murls;
    ghost var unescaped := urls;
    for i := 0 to |links|
      invariant urls == unescaped + Elems(links[..i])
    {
      assert links[..i + 1] == links[..i] + [links[i]];
      urls := urls + {links[i]};
    }
    assert links[..|links|] == links;
  }

  /** Every string in `keys` with its trailing `=` signs removed (`key.rstrip("=")`). */
  function CleanKeys(keys: seq<string>): (r: seq<string>)
    ensures |r| == |keys|
    ensures forall i :: 0 <= i < |keys| ==> r[i] == TrimEndChar(keys[i], '=')
  {
    seq(|keys|, i requires 0 <= i < |keys| => TrimEndChar(keys[i], '='))
  }

  /** The value of the first key in `keys` whose first query value starts with "http". */
  function WrappedTarget(qs: map<string, string>, keys: seq<string>): (r: Option<string>)
    ensures r.Some? <==> exists i :: 0 <= i < |keys| && keys[i] in qs && StartsWith(qs[keys[i]], "http")
    ensures r.Some? ==> exists i :: (0 <= i < |keys| && keys[i] in qs && r.value == qs[keys[i]]
      && StartsWith(r.value, "http")
      && forall j :: 0 <= j < i ==> !(keys[j] in qs && StartsWith(qs[keys[j]], "http")))
    decreases |keys|
  {
    if keys == [] then None
    else if keys[0] in qs && StartsWith(qs[keys[0]], "http") then Some(qs[keys[0]])
    else
      var r := WrappedTarget(qs, keys[1..]);
      assert r.Some? ==> exists i :: (1 <= i < |keys| && keys[i] in qs && r.value == qs[keys[i]]
        && forall j :: 0 <= j < i ==> !(keys[j] in qs && StartsWith(qs[keys[j]], "http"))) by {
        if r.Some? {
          var i :| 0 <= i < |keys| - 1 && keys[1..][i] in qs && r.value == qs[keys[1..][i]]
            && StartsWith(r.value, "http")
            && forall j :: 0 <= j < i ==> !(keys[1..][j] in qs && StartsWith(qs[keys[1..][j]], "http"));
          assert forall j :: 1 <= j < i + 1 ==> keys[j] == keys[1..][j - 1];
        }
      }
      r
  }

  /**
   * Wrapper resolution: a URL containing one of the `triggers` is parsed; the first of `keys`
   * whose first value starts with "http" replaces it, passed through `unescape`. Otherwise, and
   * whenever parsing raises, the URL is kept.
   */
  function Resolve(url: string, triggers: seq<string>, keys: seq<string>, parse: QueryParser,
                   unescape: string -> string): (r: string)
    ensures !ContainsAny(url, triggers) ==> r == url
    ensures ContainsAny(url, triggers) && parse(url).None? ==> r == url
    ensures ContainsAny(url, triggers) && parse(url).Some? ==>
      match WrappedTarget(parse(url).value, keys)
      case None => r == url
      case Some(v) => r == unescape(v)
  {
    if !ContainsAny(url, triggers) then url
    else match parse(url)
      case None => url
      case Some(qs) =>
        match WrappedTarget(qs, keys)
        case None => url
        case Some(v) => unescape(v)
  }

  /** The generic worker's resolution: every extraction pattern is a trigger and, with its `=` stripped, a key. */
  function ResolveWorker(url: string, patterns: seq<string>, parse: QueryParser): string {
    Resolve(url, patterns, CleanKeys(patterns), parse, UnescapeJsonUrl)
  }

  /** The worker's default extraction patterns. */
  const DefaultExtractionPatterns: seq<string> := ["mediaurl=", "imgurl=", "murl=", "imageurl="]

  /** The Bing crawler resolves only URLs containing `mediaurl=` or `imgurl=`, through three keys. */
  function ResolveBing(url: string, parse: QueryParser): string {
    Resolve(url, ["mediaurl=", "imgurl="], ["mediaurl", "imgurl", "murl"], parse, UnescapeBingJsonUrl)
  }

  function Identity(s: string): string { s }

  /** The Google crawler resolves only `imgurl`, and does not unescape the value. */
  function ResolveGoogle(url: string, parse: QueryParser): string {
    Resolve(url, ["imgurl="], ["imgurl"], parse, Identity)
  }

  /** Resolution never turns an http URL into something else: the replacement is itself an http URL. */
  lemma ResolveKeepsHttp(url: string, triggers: seq<string>, keys: seq<string>, parse: QueryParser,
                         unescape: string -> string)
    requires StartsWith(url, "http")
    requires forall s :: StartsWith(s, "http") ==> StartsWith(unescape(s), "http")
    ensures StartsWith(Resolve(url, triggers, keys, parse, unescape), "http")
  {
  }

  /** The three unescapers used for resolution keep an "http" prefix. */
  lemma UnescapersKeepHttp()
    ensures forall s :: StartsWith(s, "http") ==> StartsWith(UnescapeJsonUrl(s), "http")
    ensures forall s :: StartsWith(s, "http") ==> StartsWith(UnescapeBingJsonUrl(s), "http")
    ensures forall s :: StartsWith(s, "http") ==> StartsWith(Identity(s), "http")
  {
    forall s | StartsWith(s, "http") ensures StartsWith(UnescapeJsonUrl(s), "http") {
      UnescapeJsonUrlProperties(s);
    }
    forall s | StartsWith(s, "http") ensures StartsWith(UnescapeBingJsonUrl(s), "http") {
      UnescapeBingJsonUrlProperties(s);
    }
  }

  /** With the default patterns, a wrapped `imgurl` is resolved to its unescaped target unless `mediaurl` also qualifies. */
  lemma WorkerDefaultKeys()
    ensures CleanKeys(DefaultExtractionPatterns) == ["mediaurl", "imgurl", "murl", "imageurl"]
  {
    assert TrimEndChar("mediaurl=", '=') == "mediaurl" by {
      assert "mediaurl="[..8] == "mediaurl";
    }
    assert TrimEndChar("imgurl=", '=') == "imgurl" by {
      assert "imgurl="[..6] == "imgurl";
    }
    assert TrimEndChar("murl=", '=') == "murl" by {
      assert "murl="[..4] == "murl";
    }
    assert TrimEndChar("imageurl=", '=') == "imageurl" by {
      assert "imageurl="[..8] == "imageurl";
    }
  }

  /** The set of `resolve(u)` for every `u` in `urls`. */
  function ResolvedSet(urls: set<string>, resolve: string -> string): set<string> {
    set u | u in urls :: resolve(u)
  }

  /** The normalisation loop over a set of URLs; it never yields more URLs than it was given. */
  method NormalizeAll(urls: set<string>, resolve: string -> string) returns (normalized: set<string>)
    ensures normalized == ResolvedSet(urls, resolve)
    ensures |normalized| <= |urls|
  {
    normalized := {};
    var rest := urls;
    while rest != {}
      invariant NormalizedSoFar(urls, rest, normalized, resolve)
      decreases |rest|
    {
      var u :| u in rest;
      NormalizeStep(urls, rest, normalized, u, resolve);
      normalized := normalized + {resolve(u)};
      rest := rest - {u};
    }
    assert urls - rest == urls;
  }

  /** The state of `NormalizeAll` with `rest` still to visit. */
  ghost predicate NormalizedSoFar(urls: set<string>, rest: set<string>, normalized: set<string>, resolve: string -> string) {
    rest <= urls && normalized == ResolvedSet(urls - rest, resolve) && |normalized| <= |urls - rest|
  }

  /** Resolving one more URL keeps the loop's state, adding at most one normalised URL. */
  lemma NormalizeStep(urls: set<string>, rest: set<string>, normalized: set<string>, u: string, resolve: string -> string)
    requires NormalizedSoFar(urls, rest, normalized, resolve) && u in rest
    ensures NormalizedSoFar(urls, rest - {u}, normalized + {resolve(u)}, resolve)
  {
    var done := urls - rest;
    assert urls - (rest - {u}) == done + {u};
    assert ResolvedSet(done + {u}, resolve) == ResolvedSet(done, resolve) + {resolve(u)};
  }

  /** The Google normalisation loop, over the list of matches (repeats included). */
  method NormalizeList(urls: seq<string>, resolve: string -> string) returns (normalized: set<string>)
    ensures normalized == ResolvedSet(Elems(urls), resolve)
    ensures |normalized| <= |urls|
  {
    normalized := {};
    for i := 0 to |urls|
      invariant normalized == ResolvedSet(Elems(urls[..i]), resolve)
      invariant |normalized| <= i
    {
      assert urls[..i + 1] == urls[..i] + [urls[i]];
      assert Elems(urls[..i + 1]) == Elems(urls[..i]) + {urls[i]};
      normalized := normalized + {resolve(urls[i])};
    }
    assert urls[..|urls|] == urls;
  }

  /** The generic worker's denylist. */
  const WorkerDenylist: seq<string> := [
    "/search", "/th?id=", "/rp/", "/fd/ls/", "/hp/", "/ck/a", "/aclick", "/favicon",
    "/policies/", "/logo", "javascript:", "mailto:", "tel:"
  ]

  /** The Bing crawler's denylist. */
  const BingDenylist: seq<string> := [
    "bing.com/images/search", "/th?id=", "/rp/", "/fd/ls/", "/hp/", "bing.com/ck/a",
    "bing.com/aclick", "/favicon", "/policies/", "/logo"
  ]

  /** The Google crawler's denylist. */
  const GoogleDenylist: seq<string> := [
    "google.com/search", "googleusercontent.com/gen_", "/maps/", "/policies/",
    "/images/branding/", "/logo"
  ]

  /** The URLs that survive the denylist. */
  function Allowed(urls: set<string>, denylist: seq<string>): set<string> {
    set u | u in urls && !ContainsAny(u, denylist)
  }

  /** The filter loop: a list, in the set's iteration order, of the URLs no denylist entry occurs in. */
  method FilterDenied(normalized: set<string>, denylist: seq<string>) returns (candidates: seq<string>)
    ensures Distinct(candidates)
    ensures Elems(candidates) == Allowed(normalized, denylist)
  {
    candidates := [];
    var rest := normalized;
    while rest != {}
      invariant rest <= normalized
      invariant Distinct(candidates)
      invariant Elems(candidates) == Allowed(normalized - rest, denylist)
      decreases |rest|
    {
      var u :| u in rest;
      ghost var done := normalized - rest;
      AllowedStep(done, u, denylist);
      if !ContainsAny(u, denylist) {
        DistinctAppend(candidates, u);
        candidates := candidates + [u];
      }
      rest := rest - {u};
      assert normalized - rest == done + {u};
    }
  }

  lemma AllowedStep(done: set<string>, u: string, denylist: seq<string>)
    ensures Allowed(done + {u}, denylist)
         == Allowed(done, denylist) + (if ContainsAny(u, denylist) then {} else {u})
  {
  }

  /** Appending a new element keeps a list distinct and adds it to the elements. */
  lemma DistinctAppend<T>(s: seq<T>, x: T)
    requires Distinct(s) && x !in Elems(s)
    ensures Distinct(s + [x]) && Elems(s + [x]) == Elems(s) + {x}
  {
    assert forall i :: 0 <= i < |s| ==> (s + [x])[i] == s[i];
  }

  /** The de-duplication loop: first occurrences, in order. */
  method Dedup(candidates: seq<string>) returns (unique: seq<string>)
    ensures Distinct(unique)
    ensures Elems(unique) == Elems(candidates)
    ensures Distinct(candidates) ==> unique == candidates
  {
    var seen: set<string> := {};
    unique := [];
    for i := 0 to |candidates|
      invariant Distinct(unique)
      invariant seen == Elems(unique) == Elems(candidates[..i])
      invariant Distinct(candidates) ==> unique == candidates[..i]
    {
      assert candidates[..i + 1] == candidates[..i] + [candidates[i]];
      if Distinct(candidates) {
        DistinctFresh(candidates, i);
      }
      if candidates[i] !in seen {
        seen := seen + {candidates[i]};
        unique := unique + [candidates[i]];
      }
    }
    assert candidates[..|candidates|] == candidates;
  }

  /** In a distinct list no element occurs before its own position. */
  lemma DistinctFresh<T>(s: seq<T>, i: nat)
    requires Distinct(s) && i < |s|
    ensures s[i] !in Elems(s[..i])
  {
    assert forall k :: 0 <= k < i ==> s[..i][k] == s[k] != s[i];
  }

  /** Filtering and de-duplicating never yield more URLs than were normalised. */
  lemma AllowedNoLarger(urls: set<string>, denylist: seq<string>)
    ensures |Allowed(urls, denylist)| <= |urls|
  {
    assert Allowed(urls, denylist) <= urls;
    SubsetCard(Allowed(urls, denylist), urls);
  }

  lemma {:induction false} SubsetCard<T>(a: set<T>, b: set<T>)
    requires a <= b
    ensures |a| <= |b|
    decreases |b|
  {
    if b != {} {
      var x :| x in b;
      SubsetCard(a - {x}, b - {x});
    }
  }

  /** A distinct list has exactly as many elements as its set of elements. */
  lemma {:induction false} DistinctCard<T>(s: seq<T>)
    requires Distinct(s)
    ensures |Elems(s)| == |s|
    decreases |s|
  {
    if s != [] {
      var t := s[..|s| - 1];
      assert Distinct(t);
      DistinctCard(t);
      assert s == t + [s[|s| - 1]];
      assert Elems(s) == Elems(t) + {s[|s| - 1]};
      assert s[|s| - 1] !in Elems(t);
    }
  }
}
