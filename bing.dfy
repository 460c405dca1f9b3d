/**
 * The Bing image-search crawler: one search page per call, candidates from the inline `murl`
 * data and the page's https links, the shared per-candidate loop with Bing's own extension table.
 */
module BingSearch {
  import opened Wrappers
  import opened Text
  import opened UrlUnescape
  import opened ContentTypes
  import opened Extraction
  import opened Fetching
  import opened CrawlPipeline

  /** The pattern whose group captures the inline `murl` values. */
  const MurlPattern: string := "\"murl\":\"(https://[^\"]+)\""

  /** The pattern matching every https link in the page. */
  const LinkPattern: string := "https://[^\\s'\\\"<>]+"

  /** Bing's wrapper resolution as a function of the URL. */
  function BingResolver(parse: QueryParser): string -> string {
    u => ResolveBing(u, parse)
  }

  /** The set of URLs Bing's extraction yields for a page with these matches. */
  function BingCandidates(murls: seq<string>, links: seq<string>, parse: QueryParser): set<string> {
    Allowed(ResolvedSet(BingCaptures(murls, links), BingResolver(parse)), BingDenylist)
  }

  /** The candidates of a fetched page: Bing's extraction applied to this world's matches in `body`. */
  function BingPageCandidates(world: SearchWorld, body: string): set<string> {
    BingCandidates(world.findall(MurlPattern, body), world.findall(LinkPattern, body), world.parse)
  }

  /**
   * A candidate never contains a Bing denylist substring, and every captured URL that is not a
   * wrapper (no `mediaurl=`, no `imgurl=`) and is not denylisted is a candidate as it is.
   */
  lemma BingCandidatesExact(murls: seq<string>, links: seq<string>, parse: QueryParser)
    ensures forall u :: u in BingCandidates(murls, links, parse) ==> !ContainsAny(u, BingDenylist)
    ensures forall u :: (u in BingCaptures(murls, links) && !ContainsAny(u, ["mediaurl=", "imgurl="])
      && !ContainsAny(u, BingDenylist)) ==> u in BingCandidates(murls, links, parse)
  {
    forall u | u in BingCaptures(murls, links) && !ContainsAny(u, ["mediaurl=", "imgurl="])
      && !ContainsAny(u, BingDenylist)
      ensures u in BingCandidates(murls, links, parse)
    {
      assert BingResolver(parse)(u) == u;
    }
  }

  /** Every generic link is captured raw, and every `murl` capture with Bing's escapes removed. */
  lemma BingCapturesContents(murls: seq<string>, links: seq<string>)
    ensures forall l :: l in links ==> l in BingCaptures(murls, links)
    ensures forall m :: m in murls ==> UnescapeBingJsonUrl(m) in BingCaptures(murls, links)
    ensures forall u :: u in BingCaptures(murls, links) ==>
      u in links || exists m :: m in murls && u == UnescapeBingJsonUrl(m)
  {
  }

  /** `BingCrawler`: the storage directory and the stats dictionary. */
  class BingCrawler {
    var resourceDir: string
    var stats: CrawlStats

    /** `__init__`: the directory defaults to `blob/bing`. */
    constructor (resourceDir: string)
      ensures this.resourceDir == if resourceDir != "" then resourceDir else "blob/bing"
      ensures stats == InitialStats(None)
    {
      this.resourceDir := if resourceDir != "" then resourceDir else "blob/bing";
      stats := InitialStats(None);
    }

    /**
     * `fetch_bing_html`: a single request; status 200 gives the page, any other status gives
     * nothing and counts no error, an exception gives nothing and counts one.
     */
    method FetchBingHtml(query: string, first: int, page: (string, int) -> FetchOutcome) returns (html: Option<string>)
      modifies this
      ensures var o := page(query, first);
        html == if o.Response? && o.status == 200 then Some(o.body) else None
      ensures stats == old(stats).(errors := old(stats).errors + if page(query, first).Raised? then 1 else 0)
      ensures resourceDir == old(resourceDir)
    {
      var run := SearchPageFetch(page(query, first));
      html := run.body;
      stats := stats.(errors := stats.errors + run.errors);
    }

    /**
     * `_extract_urls_from_html`: the distinct candidates of the page; `found_urls` counts the
     * distinct raw URLs and `unique_urls` the result.
     */
    method ExtractUrlsFromHtml(html: string, findall: (string, string) -> seq<string>, parse: QueryParser)
      returns (unique: seq<string>)
      modifies this
      ensures Distinct(unique)
      ensures Elems(unique) == BingCandidates(findall(MurlPattern, html), findall(LinkPattern, html), parse)
      ensures |unique| <= |BingCaptures(findall(MurlPattern, html), findall(LinkPattern, html))|
      ensures stats == old(stats).(foundUrls := |BingCaptures(findall(MurlPattern, html), findall(LinkPattern, html))|,
                                   uniqueUrls := |unique|)
      ensures resourceDir == old(resourceDir)
    {
      var urls := CollectBingCaptures(findall(MurlPattern, html), findall(LinkPattern, html));
      stats := stats.(foundUrls := |urls|);
      var normalized := NormalizeAll(urls, BingResolver(parse));
      var candidates := FilterDenied(normalized, BingDenylist);
      unique := Dedup(candidates);
      DistinctCard(unique);
      AllowedNoLarger(normalized, BingDenylist);
      stats := stats.(uniqueUrls := |unique|);
    }

    /** The loop's view of this crawler: source "bing", Bing's table and no page URL. */
    function SiteFor(): Site
      reads this
    {
      Site("bing", resourceDir, SearchTable, None)
    }

    /**
     * `crawl`: fetch the page at cursor `first`; an empty or failed fetch gives `FetchFailed`;
     * otherwise extract the page's candidates, record their number, and run the loop on the
     * first `maxLinks` of them. `candidates` is the extracted list, in the set's iteration order.
     */
    method Crawl(query: string, maxLinks: int, first: int, world: SearchWorld)
      returns (result: CrawlResult, ghost candidates: seq<string>)
      modifies this
      ensures resourceDir == old(resourceDir)
      ensures stats.startTime == Some(world.now) && stats.source == old(stats.source)
      ensures stats.errors >= old(stats.errors)
      ensures result.FetchFailed? <==> !(world.page(query, first).Response? && world.page(query, first).status == 200
                                         && world.page(query, first).body != "")
      ensures result.FetchFailed? ==>
        stats == old(stats).(startTime := Some(world.now),
                             errors := old(stats).errors + if world.page(query, first).Raised? then 1 else 0)
      ensures result.Crawled? ==>
        var body := world.page(query, first).body;
        var murls, links := world.findall(MurlPattern, body), world.findall(LinkPattern, body);
        && Distinct(candidates) && Elems(candidates) == BingPageCandidates(world, body)
        && var t := Run(PySliceTo(candidates, maxLinks), query, SiteFor(), world.env);
        && result == Crawled(t.saved, t.downloaded)
        && stats == AfterLoop(old(stats).(startTime := Some(world.now), foundUrls := |BingCaptures(murls, links)|,
                                          uniqueUrls := |candidates|, imageCandidates := |candidates|), t)
      ensures result.Crawled? ==>
        result.downloaded <= result.saved <= |candidates| && (maxLinks >= 0 ==> result.saved <= maxLinks)
    {
      stats := stats.(startTime := Some(world.now));
      var html := FetchBingHtml(query, first, world.page);
      if html.None? || html.value == "" {
        candidates := [];
        return FetchFailed, candidates;
      }
      var urls := ExtractUrlsFromHtml(html.value, world.findall, world.parse);
      candidates := urls;
      stats := stats.(imageCandidates := |urls|);
      var t := ProcessCandidates(PySliceTo(urls, maxLinks), query, SiteFor(), world.env);
      RunCounters(PySliceTo(urls, maxLinks), query, SiteFor(), world.env);
      stats := AfterLoop(stats, t);
      result := Crawled(t.saved, t.downloaded);
    }
  }
}
