/**
 * The generic web-scraping worker: fetch any page with retries, extract image URLs with
 * configurable patterns, and run the shared per-candidate loop.
 */
module ScrapingWorker {
  import opened Wrappers
  import opened Text
  import opened UrlUnescape
  import opened ContentTypes
  import opened Extraction
  import opened Fetching
  import opened CrawlPipeline

  /** The default `url_patterns`, as regular-expression source text. */
  const DefaultUrlPatterns: seq<string> := [
    "\"murl\":\"(https://[^\"]+)\"",
    "\"imageUrl\":\"(https://[^\"]+)\"",
    "\"src\":\"(https://[^\"]+)\"",
    "\"url\":\"(https://[^\"]+)\"",
    "<img[^>]+src=\"(https://[^\"]+)\"",
    "https://[^\\s\\'\\\"<>]+"
  ]

  /**
   * Everything a crawl of one page depends on besides the worker: the network's answer to each
   * fetch attempt, the random draws of the delay strategy, `re.findall`, `parse_qs`, the
   * per-candidate world and the clock reading stored as the start time.
   */
  datatype World = World(
    respond: nat -> FetchOutcome, draw: nat -> real,
    findall: (string, string) -> PatternScan, parse: QueryParser, env: Env, now: string)

  /** `findall` applied to the page for every pattern, in order. */
  function Scans(html: string, patterns: seq<string>, findall: (string, string) -> PatternScan): (r: seq<PatternScan>)
    ensures |r| == |patterns|
    ensures forall i :: 0 <= i < |patterns| ==> r[i] == findall(patterns[i], html)
  {
    seq(|patterns|, i requires 0 <= i < |patterns| => findall(patterns[i], html))
  }

  /** The worker's wrapper resolution as a function of the URL. */
  function WorkerResolver(patterns: seq<string>, parse: QueryParser): string -> string {
    u => ResolveWorker(u, patterns, parse)
  }

  /** The set of URLs the worker's extraction yields for a page. */
  function WorkerCandidates(scans: seq<PatternScan>, patterns: seq<string>, parse: QueryParser): set<string> {
    Allowed(ResolvedSet(WorkerCaptures(scans), WorkerResolver(patterns, parse)), WorkerDenylist)
  }

  /** Every URL the worker extracts starts with "http" and contains no denylisted substring. */
  lemma WorkerCandidatesShape(scans: seq<PatternScan>, patterns: seq<string>, parse: QueryParser)
    ensures forall u :: u in WorkerCandidates(scans, patterns, parse) ==>
      StartsWith(u, "http") && !ContainsAny(u, WorkerDenylist)
  {
    WorkerCapturesAreHttp(scans);
    UnescapersKeepHttp();
    forall u | u in WorkerCandidates(scans, patterns, parse)
      ensures StartsWith(u, "http")
    {
      var v :| v in WorkerCaptures(scans) && u == WorkerResolver(patterns, parse)(v);
      ResolveKeepsHttp(v, patterns, CleanKeys(patterns), parse, UnescapeJsonUrl);
    }
  }

  /** The outcome of one entry of `crawl_multiple_sources`: its `url` key was missing, or it was crawled. */
  datatype SourceRun =
    | MissingUrl
    | Ran(result: CrawlResult, errorsBefore: nat, errorsAfter: nat, fetch: FetchRun, candidates: seq<string>)

  /** One entry of `crawl_multiple_sources`'s `sources`: the `url` key (if present), `query` and `method`. */
  datatype SourceConfig = SourceConfig(url: Option<string>, query: string, httpMethod: string)

  /** `total_stats` of `crawl_multiple_sources`. */
  datatype TotalStats = TotalStats(
    startTime: string, sourcesProcessed: nat, totalSaved: nat, totalDownloaded: nat, totalErrors: nat)

  /**
   * `total_errors` as `crawl_multiple_sources` computes it: one per entry without a `url`, plus,
   * for every successful crawl, the worker's `stats["errors"]` at that moment, a running total
   * over all the worker's crawls so far.
   */
  function ReportedErrors(runs: seq<SourceRun>): nat
    decreases |runs|
  {
    if runs == [] then 0
    else ReportedErrors(runs[..|runs| - 1]) + ReportedBy(runs[|runs| - 1])
  }

  /** What one entry adds to `total_errors`: 1 without a `url`, the worker's running count after a success. */
  function ReportedBy(run: SourceRun): nat {
    match run
    case MissingUrl => 1
    case Ran(result, _, after, _, _) => if result.Crawled? then after else 0
  }

  /** The errors counted during each successful crawl itself, plus one per entry without a `url`. */
  function IntendedErrors(runs: seq<SourceRun>): nat
    decreases |runs|
  {
    if runs == [] then 0
    else
      var last := runs[|runs| - 1];
      IntendedErrors(runs[..|runs| - 1]) +
        (match last
         case MissingUrl => 1
         case Ran(result, before, after, _, _) => if result.Crawled? && after >= before then after - before else 0)
  }

  /** The runs of one worker: each crawl starts with the error count the previous one ended with. */
  predicate Chained(runs: seq<SourceRun>, start: nat) {
    forall i :: 0 <= i < |runs| && runs[i].Ran? ==>
      runs[i].errorsBefore <= runs[i].errorsAfter
      && runs[i].errorsBefore == LastErrors(runs[..i], start)
  }

  /** The worker's error count after `runs`. */
  function LastErrors(runs: seq<SourceRun>, start: nat): nat
    decreases |runs|
  {
    if runs == [] then start
    else match runs[|runs| - 1]
      case MissingUrl => LastErrors(runs[..|runs| - 1], start)
      case Ran(_, _, after, _, _) => after
  }

  /**
   * Two successful crawls on a fresh worker, the first counting one error and the second none:
   * the reported total is 2 although only one error occurred.
   */
  lemma ReportedErrorsOvercount()
    ensures var f := FetchRun(Some("<html>"), 1, 1, 0, []);
      var runs := [Ran(Crawled(0, 0), 0, 1, f, []), Ran(Crawled(0, 0), 1, 1, f, [])];
      Chained(runs, 0) && ReportedErrors(runs) == 2 && IntendedErrors(runs) == 1
  {
    var f := FetchRun(Some("<html>"), 1, 1, 0, []);
    var runs := [Ran(Crawled(0, 0), 0, 1, f, []), Ran(Crawled(0, 0), 1, 1, f, [])];
    assert runs[..1] == [Ran(Crawled(0, 0), 0, 1, f, [])];
    assert runs[..1][..0] == [];
    assert ReportedErrors(runs[..1]) == 1 && IntendedErrors(runs[..1]) == 1;
    assert runs[|runs| - 1] == Ran(Crawled(0, 0), 1, 1, f, []);
  }

  /**
   * The intended total never exceeds the errors the worker actually counted over the runs
   * (plus one per entry without a `url`).
   */
  lemma {:induction false} IntendedErrorsBounded(runs: seq<SourceRun>, start: nat)
    requires Chained(runs, start)
    ensures IntendedErrors(runs) <= LastErrors(runs, start) - start + Missing(runs)
    ensures start <= LastErrors(runs, start)
    decreases |runs|
  {
    if runs != [] {
      var prefix := runs[..|runs| - 1];
      assert Chained(prefix, start) by {
        forall i | 0 <= i < |prefix| && prefix[i].Ran?
          ensures prefix[i].errorsBefore <= prefix[i].errorsAfter
          ensures prefix[i].errorsBefore == LastErrors(prefix[..i], start)
        {
          assert prefix[..i] == runs[..i];
        }
      }
      IntendedErrorsBounded(prefix, start);
      assert runs[..|runs| - 1] == prefix;
    }
  }

  /** `all_results`: the result of every entry that has a `url`, in order. */
  function RunResults(runs: seq<SourceRun>): seq<CrawlResult>
    decreases |runs|
  {
    if runs == [] then []
    else
      var last := runs[|runs| - 1];
      RunResults(runs[..|runs| - 1]) + (if last.Ran? then [last.result] else [])
  }

  /** The counts of one successful crawl that `crawl_multiple_sources` adds up (none for any other entry). */
  function CrawledCounts(run: SourceRun): (nat, nat, nat) {
    if run.Ran? && run.result.Crawled? then (1, run.result.saved, run.result.downloaded) else (0, 0, 0)
  }

  /** `total_stats` after `runs`: processed sources, saved and downloaded sums, and the reported errors. */
  function RunTotals(runs: seq<SourceRun>, now: string): TotalStats
    decreases |runs|
  {
    if runs == [] then TotalStats(now, 0, 0, 0, 0)
    else
      var t := RunTotals(runs[..|runs| - 1], now);
      var c := CrawledCounts(runs[|runs| - 1]);
      TotalStats(now, t.sourcesProcessed + c.0, t.totalSaved + c.1, t.totalDownloaded + c.2, ReportedErrors(runs))
  }

  /** A crawl of one entry downloads no more than it saves and saves at most `maxLinks` (when not negative). */
  predicate Within(run: SourceRun, maxLinks: int) {
    run.Ran? && run.result.Crawled? ==>
      run.result.downloaded <= run.result.saved && (maxLinks >= 0 ==> run.result.saved <= maxLinks)
  }

  /** The worker's settings a crawl depends on: scan patterns, wrapper keys, delay strategy, source name and directory. */
  datatype Setup = Setup(patterns: seq<string>, keys: seq<string>, strategy: Option<string>,
                         sourceName: string, resourceDir: string)

  /** A run of an entry with a `url` is the crawl of that URL, with the entry's query and method, in `world`. */
  predicate CrawledEntry(run: SourceRun, source: SourceConfig, maxLinks: int, world: World, setup: Setup) {
    run.Ran? && source.url.Some? ==>
      CrawlOf(source.url.value, source.query, maxLinks, source.httpMethod, world,
              setup.patterns, setup.keys, setup.strategy, WorkerSite(setup.sourceName, setup.resourceDir, source.url.value),
              run.fetch, run.candidates, run.result, run.errorsBefore, run.errorsAfter)
  }

  /** Each run is the crawl of its entry, the k-th in world `worlds(k)`. */
  ghost predicate CrawledEntries(runs: seq<SourceRun>, sources: seq<SourceConfig>, maxLinks: int,
                                 worlds: nat -> World, setup: Setup)
    requires |runs| <= |sources|
  {
    forall k :: 0 <= k < |runs| ==> CrawledEntry(runs[k], sources[k], maxLinks, worlds(k), setup)
  }

  /**
   * The state of `crawl_multiple_sources` after the entries in `runs`: each run matches its
   * entry and keeps its bounds, the results and totals are those of the runs, and the
   * worker's error count is the last run's.
   */
  ghost predicate SourcesDone(sources: seq<SourceConfig>, maxLinks: int, now: string, start: nat,
                              runs: seq<SourceRun>, results: seq<CrawlResult>, totals: TotalStats, errors: nat)
  {
    && |runs| <= |sources|
    && (forall k :: 0 <= k < |runs| ==> (runs[k].MissingUrl? <==> sources[k].url.None?))
    && (forall k :: 0 <= k < |runs| ==> Within(runs[k], maxLinks))
    && results == RunResults(runs) && |results| == |runs| - Missing(runs)
    && totals == RunTotals(runs, now)
    && Chained(runs, start)
    && errors == LastErrors(runs, start)
  }

  /** One more entry, handled as `crawl_multiple_sources` handles it, keeps the state reached. */
  lemma SourcesStep(sources: seq<SourceConfig>, maxLinks: int, now: string, start: nat,
                    runs: seq<SourceRun>, results: seq<CrawlResult>, totals: TotalStats, errors: nat,
                    next: SourceRun, results': seq<CrawlResult>, totals': TotalStats, errors': nat)
    requires SourcesDone(sources, maxLinks, now, start, runs, results, totals, errors)
    requires |runs| < |sources| && (next.MissingUrl? <==> sources[|runs|].url.None?) && Within(next, maxLinks)
    requires next.Ran? ==> next.errorsBefore == errors <= next.errorsAfter == errors'
    requires next.MissingUrl? ==> errors' == errors
    requires results' == results + (if next.Ran? then [next.result] else [])
    requires var c := CrawledCounts(next);
      totals' == TotalStats(totals.startTime, totals.sourcesProcessed + c.0, totals.totalSaved + c.1,
                            totals.totalDownloaded + c.2, totals.totalErrors + ReportedBy(next))
    ensures SourcesDone(sources, maxLinks, now, start, runs + [next], results', totals', errors')
  {
    ChainedExtend(runs, start, next, now);
    EntriesExtend(sources, maxLinks, runs, next);
    if runs == [] {
      assert totals.startTime == now;
    }
  }

  /** The runs keep matching their entries, and their bounds, when the next entry's run is appended. */
  lemma EntriesExtend(sources: seq<SourceConfig>, maxLinks: int, runs: seq<SourceRun>, next: SourceRun)
    requires |runs| < |sources|
    requires forall k :: 0 <= k < |runs| ==> (runs[k].MissingUrl? <==> sources[k].url.None?)
    requires forall k :: 0 <= k < |runs| ==> Within(runs[k], maxLinks)
    requires (next.MissingUrl? <==> sources[|runs|].url.None?) && Within(next, maxLinks)
    ensures forall k :: 0 <= k < |runs| + 1 ==> ((runs + [next])[k].MissingUrl? <==> sources[k].url.None?)
    ensures forall k :: 0 <= k < |runs| + 1 ==> Within((runs + [next])[k], maxLinks)
  {
    var all := runs + [next];
    forall k | 0 <= k < |all|
      ensures (all[k].MissingUrl? <==> sources[k].url.None?) && Within(all[k], maxLinks)
    {
      if k < |runs| {
        assert all[k] == runs[k];
      }
    }
  }

  /** The runs stay the crawls of their entries when the next entry's run is appended. */
  lemma CrawledEntriesExtend(sources: seq<SourceConfig>, maxLinks: int, worlds: nat -> World, setup: Setup,
                             runs: seq<SourceRun>, next: SourceRun)
    requires |runs| < |sources| && CrawledEntries(runs, sources, maxLinks, worlds, setup)
    requires CrawledEntry(next, sources[|runs|], maxLinks, worlds(|runs|), setup)
    ensures CrawledEntries(runs + [next], sources, maxLinks, worlds, setup)
  {
    var all := runs + [next];
    forall k | 0 <= k < |all|
      ensures CrawledEntry(all[k], sources[k], maxLinks, worlds(k), setup)
    {
      if k < |runs| {
        assert all[k] == runs[k];
      }
    }
  }

  /**
   * When no crawl downloads more than it saves, nor saves more than `maxLinks`, the totals
   * download no more than they save, save at most `maxLinks` per processed source, and count
   * each processed source among the entries that have a `url`, whose results are all kept.
   */
  lemma {:induction false} RunTotalsBounded(runs: seq<SourceRun>, now: string, maxLinks: int)
    requires maxLinks >= 0
    requires forall i :: 0 <= i < |runs| && runs[i].Ran? && runs[i].result.Crawled? ==>
      runs[i].result.downloaded <= runs[i].result.saved <= maxLinks
    ensures var t := RunTotals(runs, now);
      t.totalDownloaded <= t.totalSaved <= t.sourcesProcessed * maxLinks
    ensures RunTotals(runs, now).sourcesProcessed <= |RunResults(runs)| == |runs| - Missing(runs)
    decreases |runs|
  {
    if runs != [] {
      var prefix := runs[..|runs| - 1];
      assert forall i :: 0 <= i < |prefix| ==> prefix[i] == runs[i];
      RunTotalsBounded(prefix, now, maxLinks);
      var t := RunTotals(prefix, now);
      assert (t.sourcesProcessed + 1) * maxLinks == t.sourcesProcessed * maxLinks + maxLinks;
    }
  }

  /** The number of entries without a `url`. */
  function Missing(runs: seq<SourceRun>): nat
    decreases |runs|
  {
    if runs == [] then 0
    else Missing(runs[..|runs| - 1]) + (if runs[|runs| - 1].MissingUrl? then 1 else 0)
  }

  /**
   * What `fetch_html` promises of its run: a Vecteezy page is fetched by the Vecteezy loop, any
   * other page by the retry loop with the worker's delay strategy.
   */
  predicate FetchedBy(url: string, httpMethod: string, maxRetries: int, retryDelay: real, strategy: Option<string>,
                      respond: nat -> FetchOutcome, draw: nat -> real, run: FetchRun)
  {
    if Contains(url, "vecteezy.com") then VecteezyFetched(httpMethod, maxRetries, retryDelay, respond, draw, run)
    else RetryFetched(httpMethod, maxRetries, retryDelay, strategy, respond, draw, run)
  }

  /**
   * A fetch counts at most one error, whichever path it takes, and a body it returns is the
   * answer of its last attempt, a request the network answered with 200 within the attempt bound.
   */
  lemma FetchedByOneError(url: string, httpMethod: string, maxRetries: int, retryDelay: real, strategy: Option<string>,
                          respond: nat -> FetchOutcome, draw: nat -> real, run: FetchRun)
    requires FetchedBy(url, httpMethod, maxRetries, retryDelay, strategy, respond, draw, run)
    ensures run.errors <= 1
    ensures run.body.Some? ==>
      && Supported(httpMethod) && 1 <= run.attempts <= maxRetries && run.requests == run.attempts
      && respond(run.attempts - 1) == Response(200, run.body.value)
  {
  }

  /**
   * The site the worker's loop saves under for a page: the source name, the directory, the
   * worker's extension table and the page URL as `source_url`.
   */
  function WorkerSite(sourceName: string, resourceDir: string, pageUrl: string): Site {
    Site(sourceName, resourceDir, WorkerTable, if pageUrl != "" then Some(pageUrl) else None)
  }

  /**
   * What `crawl` of `url` amounts to for a worker with scan patterns `patterns`, wrapper keys
   * `keys`, delay strategy `strategy` and site `site`: `fetch` is the fetch with 3 attempts and a
   * 1-second base delay; a missing or empty body fails the crawl; otherwise `candidates` are the
   * page's extraction and the result is the loop's over the first `maxLinks` of them. The
   * worker's error count grows by the fetch's errors and the loop's.
   */
  predicate CrawlOf(url: string, query: string, maxLinks: int, httpMethod: string, world: World,
                    patterns: seq<string>, keys: seq<string>, strategy: Option<string>, site: Site,
                    fetch: FetchRun, candidates: seq<string>, result: CrawlResult, errorsBefore: nat, errorsAfter: nat)
  {
    && FetchedBy(url, httpMethod, 3, 1.0, strategy, world.respond, world.draw, fetch)
    && (result.FetchFailed? <==> fetch.body.None? || fetch.body.value == "")
    && (result.FetchFailed? ==> errorsAfter == errorsBefore + fetch.errors)
    && (result.Crawled? ==>
          var scans := Scans(fetch.body.value, patterns, world.findall);
          && Distinct(candidates) && Elems(candidates) == WorkerCandidates(scans, keys, world.parse)
          && var t := Run(PySliceTo(candidates, maxLinks), query, site, world.env);
          && result == Crawled(t.saved, t.downloaded)
          && errorsAfter == errorsBefore + fetch.errors + t.errors)
  }

  /**
   * A source whose every request raises fails to crawl, and counts the one error of its fetch
   * (none when a Vecteezy page is asked for with a method other than GET or POST).
   */
  lemma UnreachableSourceFails(url: string, query: string, maxLinks: int, httpMethod: string, world: World,
                               patterns: seq<string>, keys: seq<string>, strategy: Option<string>, site: Site,
                               fetch: FetchRun, candidates: seq<string>, result: CrawlResult,
                               errorsBefore: nat, errorsAfter: nat)
    requires CrawlOf(url, query, maxLinks, httpMethod, world, patterns, keys, strategy, site,
                     fetch, candidates, result, errorsBefore, errorsAfter)
    requires forall k: nat :: world.respond(k) == FetchOutcome.Raised
    ensures result.FetchFailed?
    ensures errorsAfter == errorsBefore + (if Contains(url, "vecteezy.com") && !Supported(httpMethod) then 0 else 1)
  {
    FetchedByOneError(url, httpMethod, 3, 1.0, strategy, world.respond, world.draw, fetch);
  }

  /** `WebScapingWorker`: the generic crawler's configuration and its stats dictionary. */
  class WebScapingWorker {
    var sourceName: string
    var resourceDir: string
    var urlPatterns: seq<string>
    var extractionPatterns: seq<string>
    var retryStrategy: Option<string>
    var stats: CrawlStats

    /** `__init__`: an empty pattern list means the defaults; the directory defaults to `blob/<source>`. */
    constructor (sourceName: string, resourceDir: string, urlPatterns: seq<string>, extractionPatterns: seq<string>)
      ensures this.sourceName == sourceName
      ensures this.resourceDir == if resourceDir != "" then resourceDir else "blob/" + sourceName
      ensures this.urlPatterns == if urlPatterns != [] then urlPatterns else DefaultUrlPatterns
      ensures this.extractionPatterns == if extractionPatterns != [] then extractionPatterns else DefaultExtractionPatterns
      ensures retryStrategy == None
      ensures stats == InitialStats(Some(sourceName))
    {
      this.sourceName := sourceName;
      this.resourceDir := if resourceDir != "" then resourceDir else "blob/" + sourceName;
      this.urlPatterns := if urlPatterns != [] then urlPatterns else DefaultUrlPatterns;
      this.extractionPatterns := if extractionPatterns != [] then extractionPatterns else DefaultExtractionPatterns;
      retryStrategy := None;
      stats := InitialStats(Some(sourceName));
    }

    /** `set_retry_strategy` */
    method SetRetryStrategy(strategy: string)
      modifies this
      ensures retryStrategy == Some(strategy)
      ensures sourceName == old(sourceName) && resourceDir == old(resourceDir) && stats == old(stats)
      ensures urlPatterns == old(urlPatterns) && extractionPatterns == old(extractionPatterns)
    {
      retryStrategy := Some(strategy);
    }

    /** `set_url_patterns` */
    method SetUrlPatterns(patterns: seq<string>)
      modifies this
      ensures urlPatterns == patterns
      ensures sourceName == old(sourceName) && resourceDir == old(resourceDir) && stats == old(stats)
      ensures extractionPatterns == old(extractionPatterns) && retryStrategy == old(retryStrategy)
    {
      urlPatterns := patterns;
    }

    /** `set_extraction_patterns` */
    method SetExtractionPatterns(patterns: seq<string>)
      modifies this
      ensures extractionPatterns == patterns
      ensures sourceName == old(sourceName) && resourceDir == old(resourceDir) && stats == old(stats)
      ensures urlPatterns == old(urlPatterns) && retryStrategy == old(retryStrategy)
    {
      extractionPatterns := patterns;
    }

    /**
     * `fetch_html`: Vecteezy pages take the Vecteezy path, every other page the retry loop with
     * the configured delay strategy; the error the run counts is added to the stats.
     */
    method FetchHtml(url: string, httpMethod: string, maxRetries: int, retryDelay: real,
                     respond: nat -> FetchOutcome, draw: nat -> real) returns (run: FetchRun)
      modifies this
      ensures FetchedBy(url, httpMethod, maxRetries, retryDelay, retryStrategy, respond, draw, run)
      ensures stats == old(stats).(errors := old(stats).errors + run.errors)
      ensures sourceName == old(sourceName) && resourceDir == old(resourceDir)
      ensures urlPatterns == old(urlPatterns) && extractionPatterns == old(extractionPatterns)
      ensures retryStrategy == old(retryStrategy)
    {
      if Contains(url, "vecteezy.com") {
        run := VecteezyFetch(httpMethod, maxRetries, retryDelay, respond, draw);
      } else {
        run := RetryFetch(httpMethod, maxRetries, retryDelay, retryStrategy, respond, draw);
      }
      stats := stats.(errors := stats.errors + run.errors);
    }

    /**
     * `_extract_urls_from_html`: the distinct candidate URLs of the page, in the set's
     * iteration order; `found_urls` counts the distinct captured URLs and `unique_urls` the result.
     */
    method ExtractUrlsFromHtml(html: string, findall: (string, string) -> PatternScan, parse: QueryParser)
      returns (unique: seq<string>)
      modifies this
      ensures Distinct(unique)
      ensures Elems(unique) == WorkerCandidates(Scans(html, urlPatterns, findall), extractionPatterns, parse)
      ensures |unique| <= |WorkerCaptures(Scans(html, urlPatterns, findall))|
      ensures stats == old(stats).(foundUrls := |WorkerCaptures(Scans(html, urlPatterns, findall))|,
                                   uniqueUrls := |unique|)
      ensures sourceName == old(sourceName) && resourceDir == old(resourceDir)
      ensures urlPatterns == old(urlPatterns) && extractionPatterns == old(extractionPatterns)
      ensures retryStrategy == old(retryStrategy)
    {
      var urls := CollectWorkerCaptures(Scans(html, urlPatterns, findall));
      stats := stats.(foundUrls := |urls|);
      var normalized := NormalizeAll(urls, WorkerResolver(extractionPatterns, parse));
      var candidates := FilterDenied(normalized, WorkerDenylist);
      unique := Dedup(candidates);
      DistinctCard(unique);
      AllowedNoLarger(normalized, WorkerDenylist);
      stats := stats.(uniqueUrls := |unique|);
    }

    /** The loop's view of this worker: its source name, directory, table and the page URL as `source_url`. */
    function SiteFor(pageUrl: string): Site
      reads this
    {
      WorkerSite(sourceName, resourceDir, pageUrl)
    }

    /** The settings a crawl by this worker depends on. */
    function Settings(): Setup
      reads this
    {
      Setup(urlPatterns, extractionPatterns, retryStrategy, sourceName, resourceDir)
    }

    /**
     * `crawl`: fetch the page (3 attempts, 1 second base delay); an empty or failed fetch gives
     * `FetchFailed`; otherwise extract the page's candidates, record their number, and run the
     * loop on the first `maxLinks` of them. `fetch` is the fetch's run and `candidates` the
     * extracted list, in the set's iteration order.
     */
    method Crawl(url: string, query: string, maxLinks: int, httpMethod: string, world: World)
      returns (result: CrawlResult, ghost fetch: FetchRun, ghost candidates: seq<string>)
      modifies this
      ensures sourceName == old(sourceName) && resourceDir == old(resourceDir)
      ensures urlPatterns == old(urlPatterns) && extractionPatterns == old(extractionPatterns)
      ensures retryStrategy == old(retryStrategy)
      ensures CrawlOf(url, query, maxLinks, httpMethod, world, urlPatterns, extractionPatterns, retryStrategy,
                      SiteFor(url), fetch, candidates, result, old(stats.errors), stats.errors)
      ensures result.FetchFailed? ==>
        stats == old(stats).(startTime := Some(world.now), errors := old(stats).errors + fetch.errors)
      ensures result.Crawled? ==>
        var scans := Scans(fetch.body.value, urlPatterns, world.findall);
        var t := Run(PySliceTo(candidates, maxLinks), query, SiteFor(url), world.env);
        stats == AfterLoop(old(stats).(startTime := Some(world.now), errors := old(stats).errors + fetch.errors,
                                          foundUrls := |WorkerCaptures(scans)|, uniqueUrls := |candidates|,
                                          imageCandidates := |candidates|), t)
      ensures result.Crawled? ==>
        result.downloaded <= result.saved <= |candidates| && (maxLinks >= 0 ==> result.saved <= maxLinks)
    {
      stats := stats.(startTime := Some(world.now));
      var run := FetchHtml(url, httpMethod, 3, 1.0, world.respond, world.draw);
      fetch := run;
      assert stats == old(stats).(startTime := Some(world.now), errors := old(stats).errors + fetch.errors);
      if run.body.None? || run.body.value == "" {
        candidates := [];
        return FetchFailed, fetch, candidates;
      }
      result, candidates := CrawlPage(url, query, maxLinks, run.body.value, world);
    }

    /** The part of `crawl` after a page came back: extraction, the candidate count and the loop. */
    method CrawlPage(url: string, query: string, maxLinks: int, html: string, world: World)
      returns (result: CrawlResult, ghost candidates: seq<string>)
      modifies this
      ensures sourceName == old(sourceName) && resourceDir == old(resourceDir)
      ensures urlPatterns == old(urlPatterns) && extractionPatterns == old(extractionPatterns)
      ensures retryStrategy == old(retryStrategy)
      ensures var scans := Scans(html, urlPatterns, world.findall);
        && Distinct(candidates) && Elems(candidates) == WorkerCandidates(scans, extractionPatterns, world.parse)
        && var t := Run(PySliceTo(candidates, maxLinks), query, SiteFor(url), world.env);
        && result == Crawled(t.saved, t.downloaded)
        && stats == AfterLoop(old(stats).(foundUrls := |WorkerCaptures(scans)|, uniqueUrls := |candidates|,
                                          imageCandidates := |candidates|), t)
      ensures result.Crawled? && result.downloaded <= result.saved <= |candidates|
      ensures maxLinks >= 0 ==> result.saved <= maxLinks
    {
      var urls := ExtractUrlsFromHtml(html, world.findall, world.parse);
      candidates := urls;
      stats := stats.(imageCandidates := |urls|);
      var t := ProcessCandidates(PySliceTo(urls, maxLinks), query, SiteFor(url), world.env);
      RunCounters(PySliceTo(urls, maxLinks), query, SiteFor(url), world.env);
      stats := AfterLoop(stats, t);
      result := Crawled(t.saved, t.downloaded);
    }

    /**
     * One source of `crawl_multiple_sources` that has a `url`: the crawl of that URL with the
     * entry's query and method, which can only add errors, and whose counts download no more
     * than they save and save at most `maxLinks`.
     */
    method CrawlSource(source: SourceConfig, maxLinks: int, world: World)
      returns (result: CrawlResult, ghost fetch: FetchRun, ghost candidates: seq<string>)
      requires source.url.Some?
      modifies this
      ensures CrawlOf(source.url.value, source.query, maxLinks, source.httpMethod, world, urlPatterns, extractionPatterns,
                      retryStrategy, WorkerSite(sourceName, resourceDir, source.url.value),
                      fetch, candidates, result, old(stats.errors), stats.errors)
      ensures stats.errors >= old(stats.errors)
      ensures result.Crawled? ==> result.downloaded <= result.saved && (maxLinks >= 0 ==> result.saved <= maxLinks)
      ensures sourceName == old(sourceName) && resourceDir == old(resourceDir)
      ensures urlPatterns == old(urlPatterns) && extractionPatterns == old(extractionPatterns)
      ensures retryStrategy == old(retryStrategy)
    {
      result, fetch, candidates := Crawl(source.url.value, source.query, maxLinks, source.httpMethod, world);
    }

    /**
     * `crawl_multiple_sources`: crawl each entry with `maxLinksPerSource` links. An entry without
     * a `url` counts one error; a successful crawl adds to the processed, saved and downloaded
     * totals and adds the worker's running error count to `total_errors` (see `ReportedErrors`).
     */
    method CrawlMultipleSources(sources: seq<SourceConfig>, maxLinksPerSource: int, now: string,
                                worlds: nat -> World)
      returns (results: seq<CrawlResult>, totals: TotalStats, ghost runs: seq<SourceRun>)
      modifies this
      ensures |runs| == |sources|
      ensures forall i :: 0 <= i < |sources| ==> (runs[i].MissingUrl? <==> sources[i].url.None?)
      ensures forall i :: 0 <= i < |sources| ==> CrawledEntry(runs[i], sources[i], maxLinksPerSource, worlds(i), Settings())
      ensures forall i :: 0 <= i < |sources| && runs[i].Ran? && runs[i].result.Crawled? ==>
        runs[i].result.downloaded <= runs[i].result.saved
        && (maxLinksPerSource >= 0 ==> runs[i].result.saved <= maxLinksPerSource)
      ensures results == RunResults(runs) && |results| == |sources| - Missing(runs)
      ensures totals == RunTotals(runs, now)
      ensures totals.totalErrors == ReportedErrors(runs)
      ensures Chained(runs, old(stats.errors))
      ensures stats.errors == LastErrors(runs, old(stats.errors))
      ensures sourceName == old(sourceName) && resourceDir == old(resourceDir)
      ensures urlPatterns == old(urlPatterns) && extractionPatterns == old(extractionPatterns)
      ensures retryStrategy == old(retryStrategy)
    {
      results := [];
      runs := [];
      totals := TotalStats(now, 0, 0, 0, 0);
      ghost var start := stats.errors;
      for i := 0 to |sources|
        invariant |runs| == i
        invariant SourcesDone(sources, maxLinksPerSource, now, start, runs, results, totals, stats.errors)
        invariant CrawledEntries(runs, sources, maxLinksPerSource, worlds, old(Settings()))
        invariant sourceName == old(sourceName) && resourceDir == old(resourceDir)
        invariant urlPatterns == old(urlPatterns) && extractionPatterns == old(extractionPatterns)
        invariant retryStrategy == old(retryStrategy)
      {
        ghost var errors := stats.errors;
        var results', totals', next := CrawlEntry(sources[i], maxLinksPerSource, worlds(i), results, totals);
        SourcesStep(sources, maxLinksPerSource, now, start, runs, results, totals, errors,
                    next, results', totals', stats.errors);
        CrawledEntriesExtend(sources, maxLinksPerSource, worlds, old(Settings()), runs, next);
        results, totals := results', totals';
        runs := runs + [next];
      }
    }

    /**
     * One entry of `crawl_multiple_sources`: without a `url` it counts one error; otherwise it is
     * crawled, its result kept, and a success adds its counts and the worker's running error count.
     */
    method CrawlEntry(source: SourceConfig, maxLinks: int, world: World, results: seq<CrawlResult>, totals: TotalStats)
      returns (results': seq<CrawlResult>, totals': TotalStats, ghost next: SourceRun)
      modifies this
      ensures (next.MissingUrl? <==> source.url.None?) && Within(next, maxLinks)
      ensures CrawledEntry(next, source, maxLinks, world, Settings())
      ensures next.Ran? ==> next.errorsBefore == old(stats.errors) <= next.errorsAfter == stats.errors
      ensures next.MissingUrl? ==> stats.errors == old(stats.errors)
      ensures results' == results + (if next.Ran? then [next.result] else [])
      ensures var c := CrawledCounts(next);
        totals' == TotalStats(totals.startTime, totals.sourcesProcessed + c.0, totals.totalSaved + c.1,
                              totals.totalDownloaded + c.2, totals.totalErrors + ReportedBy(next))
      ensures sourceName == old(sourceName) && resourceDir == old(resourceDir)
      ensures urlPatterns == old(urlPatterns) && extractionPatterns == old(extractionPatterns)
      ensures retryStrategy == old(retryStrategy)
    {
      results', totals' := results, totals;
      if source.url.None? {
        totals' := totals'.(totalErrors := totals'.totalErrors + 1);
        next := MissingUrl;
      } else {
        ghost var before := stats.errors;
        var result;
        ghost var fetch, candidates;
        result, fetch, candidates := CrawlSource(source, maxLinks, world);
        results' := results' + [result];
        if result.Crawled? {
          totals' := totals'.(sourcesProcessed := totals'.sourcesProcessed + 1,
                              totalSaved := totals'.totalSaved + result.saved,
                              totalDownloaded := totals'.totalDownloaded + result.downloaded,
                              totalErrors := totals'.totalErrors + stats.errors);
        }
        next := Ran(result, before, stats.errors, fetch, candidates);
      }
    }
  }

  /** Appending a run that starts where the others left off keeps them chained. */
  lemma ChainedExtend(runs: seq<SourceRun>, start: nat, next: SourceRun, now: string)
    requires Chained(runs, start)
    requires next.Ran? ==> next.errorsBefore == LastErrors(runs, start) <= next.errorsAfter
    ensures Chained(runs + [next], start)
    ensures LastErrors(runs + [next], start) == if next.Ran? then next.errorsAfter else LastErrors(runs, start)
    ensures ReportedErrors(runs + [next]) == ReportedErrors(runs) + ReportedBy(next)
    ensures Missing(runs + [next]) == Missing(runs) + (if next.MissingUrl? then 1 else 0)
    ensures RunResults(runs + [next]) == RunResults(runs) + (if next.Ran? then [next.result] else [])
    ensures var t := RunTotals(runs, now); var c := CrawledCounts(next);
      RunTotals(runs + [next], now) ==
        TotalStats(now, t.sourcesProcessed + c.0, t.totalSaved + c.1, t.totalDownloaded + c.2, ReportedErrors(runs + [next]))
  {
    var all := runs + [next];
    assert all[..|runs|] == runs;
    forall i | 0 <= i < |runs| ensures all[..i] == runs[..i] {
    }
  }
}
