/**
 * The Google image-search crawler: one search page per call, candidates from every https link
 * in the page with `imgurl` wrappers resolved, the shared per-candidate loop with the search
 * crawlers' extension table.
 */
module GoogleSearch {
  import opened Wrappers
  import opened Text
  import opened ContentTypes
  import opened Extraction
  import opened Fetching
  import opened CrawlPipeline

  /** The pattern matching every https link in the page. */
  const LinkPattern: string := "https://[^\\s\\'\\\"<>]+"

  /** Google's wrapper resolution as a function of the URL. */
  function GoogleResolver(parse: QueryParser): string -> string {
    u => ResolveGoogle(u, parse)
  }

  /** The set of URLs Google's extraction yields for a page whose links are `links`. */
  function GoogleCandidates(links: seq<string>, parse: QueryParser): set<string> {
    Allowed(ResolvedSet(Elems(links), GoogleResolver(parse)), GoogleDenylist)
  }

  /** The candidates of a fetched page: Google's extraction applied to this world's links in `body`. */
  function GooglePageCandidates(world: SearchWorld, body: string): set<string> {
    GoogleCandidates(world.findall(LinkPattern, body), world.parse)
  }

  /**
   * A candidate never contains a Google denylist substring; a link without `imgurl=` that is not
   * denylisted is a candidate as it is; and a wrapper whose first `imgurl` value starts with
   * "http" contributes that value, not unescaped, unless it is denylisted.
   */
  lemma GoogleCandidatesExact(links: seq<string>, parse: QueryParser)
    ensures forall u :: u in GoogleCandidates(links, parse) ==> !ContainsAny(u, GoogleDenylist)
    ensures forall u :: (u in links && !ContainsAny(u, ["imgurl="]) && !ContainsAny(u, GoogleDenylist)
                         ==> u in GoogleCandidates(links, parse))
    ensures forall u :: (u in links && ContainsAny(u, ["imgurl="]) && parse(u).Some? && "imgurl" in parse(u).value
                         && StartsWith(parse(u).value["imgurl"], "http")
                         && !ContainsAny(parse(u).value["imgurl"], GoogleDenylist)
                         ==> parse(u).value["imgurl"] in GoogleCandidates(links, parse))
  {
    forall u | u in links && !ContainsAny(u, ["imgurl="]) && !ContainsAny(u, GoogleDenylist)
      ensures u in GoogleCandidates(links, parse)
    {
      assert GoogleResolver(parse)(u) == u;
    }
    forall u | u in links && ContainsAny(u, ["imgurl="]) && parse(u).Some? && "imgurl" in parse(u).value
      && StartsWith(parse(u).value["imgurl"], "http") && !ContainsAny(parse(u).value["imgurl"], GoogleDenylist)
      ensures parse(u).value["imgurl"] in GoogleCandidates(links, parse)
    {
      var qs := parse(u).value;
      assert WrappedTarget(qs, ["imgurl"]) == Some(qs["imgurl"]);
      assert GoogleResolver(parse)(u) == qs["imgurl"];
    }
  }

  /** `GoogleCrawler`: the storage directory and the stats dictionary. */
  class GoogleCrawler {
    var resourceDir: string
    var stats: CrawlStats

    /** `__init__`: the directory defaults to `blob/google`. */
    constructor (resourceDir: string)
      ensures this.resourceDir == if resourceDir != "" then resourceDir else "blob/google"
      ensures stats == InitialStats(None)
    {
      this.resourceDir := if resourceDir != "" then resourceDir else "blob/google";
      stats := InitialStats(None);
    }

    /**
     * `fetch_google_html`: a single request; status 200 gives the page, any other status gives
     * nothing and counts no error, an exception gives nothing and counts one.
     */
    method FetchGoogleHtml(query: string, start: int, page: (string, int) -> FetchOutcome) returns (html: Option<string>)
      modifies this
      ensures var o := page(query, start);
        html == if o.Response? && o.status == 200 then Some(o.body) else None
      ensures stats == old(stats).(errors := old(stats).errors + if page(query, start).Raised? then 1 else 0)
      ensures resourceDir == old(resourceDir)
    {
      var run := SearchPageFetch(page(query, start));
      html := run.body;
      stats := stats.(errors := stats.errors + run.errors);
    }

    /**
     * `_extract_urls_from_html`: the distinct candidates of the page; `found_urls` counts every
     * link matched, repeats included, and `unique_urls` the result.
     */
    method ExtractUrlsFromHtml(html: string, findall: (string, string) -> seq<string>, parse: QueryParser)
      returns (unique: seq<string>)
      modifies this
      ensures Distinct(unique)
      ensures Elems(unique) == GoogleCandidates(findall(LinkPattern, html), parse)
      ensures |unique| <= |findall(LinkPattern, html)|
      ensures stats == old(stats).(foundUrls := |findall(LinkPattern, html)|, uniqueUrls := |unique|)
      ensures resourceDir == old(resourceDir)
    {
      var urls := findall(LinkPattern, html);
      stats := stats.(foundUrls := |urls|);
      var normalized := NormalizeList(urls, GoogleResolver(parse));
      var candidates := FilterDenied(normalized, GoogleDenylist);
      unique := Dedup(candidates);
      DistinctCard(unique);
      AllowedNoLarger(normalized, GoogleDenylist);
      stats := stats.(uniqueUrls := |unique|);
    }

    /** The loop's view of this crawler: source "google", the search table and no page URL. */
    function SiteFor(): Site
      reads this
    {
      Site("google", resourceDir, SearchTable, None)
    }

    /**
     * `crawl`: fetch the page at cursor `start`; an empty or failed fetch gives `FetchFailed`;
     * otherwise extract the page's candidates, record their number, and run the loop on the
     * first `maxLinks` of them. `candidates` is the extracted list, in the set's iteration order.
     */
    method Crawl(query: string, maxLinks: int, start: int, world: SearchWorld)
      returns (result: CrawlResult, ghost candidates: seq<string>)
      modifies this
      ensures resourceDir == old(resourceDir)
      ensures stats.startTime == Some(world.now) && stats.source == old(stats.source)
      ensures stats.errors >= old(stats.errors)
      ensures result.FetchFailed? <==> !(world.page(query, start).Response? && world.page(query, start).status == 200
                                         && world.page(query, start).body != "")
      ensures result.FetchFailed? ==>
        stats == old(stats).(startTime := Some(world.now),
                             errors := old(stats).errors + if world.page(query, start).Raised? then 1 else 0)
      ensures result.Crawled? ==>
        var body := world.page(query, start).body;
        && Distinct(candidates) && Elems(candidates) == GooglePageCandidates(world, body)
        && var t := Run(PySliceTo(candidates, maxLinks), query, SiteFor(), world.env);
        && result == Crawled(t.saved, t.downloaded)
        && stats == AfterLoop(old(stats).(startTime := Some(world.now), foundUrls := |world.findall(LinkPattern, body)|,
                                          uniqueUrls := |candidates|, imageCandidates := |candidates|), t)
      ensures result.Crawled? ==>
        result.downloaded <= result.saved <= |candidates| && (maxLinks >= 0 ==> result.saved <= maxLinks)
    {
      stats := stats.(startTime := Some(world.now));
      var html := FetchGoogleHtml(query, start, world.page);
      if html.None? || html.value == "" {
        candidates := [];
        return FetchFailed, candidates;
      }
      var urls := ExtractUrlsFromHtml(html.value, world.findall, world.parse);
      candidates := urls;
      stats := stats.(imageCandidates := |urls|);
      var t := ProcessCandidates(PySliceTo(urls, maxLinks), query, SiteFor(), world.env);
      RunCounters(PySliceTo(urls, maxLinks), query, SiteFor(), world.env);
      stats := AfterLoop(stats, t);
      result := Crawled(t.saved, t.downloaded);
    }
  }
}
