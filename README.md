# Car-Resource-Crawler, modelled in Dafny

This project models the decision logic of the Car-Resource-Crawler service and proves
properties of it. The service crawls image search pages (a generic pattern-driven scraper,
Bing, Google and the Pexels API), verifies candidates, downloads them and catalogues them in
an `image_resources` table. The model covers:

- **candidate extraction**, in the generic, Bing and Google variants (`Extraction`,
  `ScrapingWorker`, `BingSearch`, `GoogleSearch`). The steps are:
  - the pattern scans;
  - the JSON/HTML unescape (`UrlUnescape`);
  - wrapper-parameter resolution through the query string;
  - the denylist filter;
  - the order-preserving de-duplication, with the `found_urls` and `unique_urls` counters.
- **classification and naming** (`ContentTypes`, `Filenames`):
  - the HEAD probe with its ranged-GET fallback;
  - the content-type-to-extension tables;
  - the filename sanitiser;
  - the three filename layouts.
- **fetching** (`Fetching`): `fetch_html`'s bounded retry loop and its Vecteezy variant, the
  retry-delay strategy, the error-analysis table, and the single-attempt search-page fetch.
- **the per-candidate loop** shared by the three crawlers (`CrawlPipeline`): exists, probe,
  save, download, one status update. Also `crawl` and `crawl_multiple_sources` on the
  crawler classes.
- **the catalogue** (`ImageResources`):
  - the table as a sequence of rows with unique ids and URLs;
  - the service class with create, get, get-by-URL, update, delete, bulk create, status
    update, listing and statistics;
  - the JSON round trip of tags (`TagCodec`).
- **the Pexels crawler** (`PexelsCrawler`): configuration check, rate limiter, request
  handling with the 429 retry, download counters, the query/page/photo loops and filenames.
- **the crawl-job routes for Google and Bing** (`CrawlJobs`): the running-flag guards of
  start and stop, and the background loop with its cursor arithmetic and cumulative progress.
- **the example item routes** (`ItemStore`) and the derived settings values (`AppSettings`).

Everything the code does through a network, a database, a file system, a clock or a random
source is a parameter of the model:

- an HTTP exchange is an outcome (`FetchOutcome`, `ProbeReplies`, `DownloadOutcome`,
  `ApiReply`), indexed by the attempt number or the request;
- `re.findall` is a given list of matches per pattern, with an outcome that raises;
- `parse_qs` is a partial map from a URL to "the first value of each key";
- the catalogue a crawler writes to is a given answer to `exists` and to `save`;
- written files are a `map` from path to body;
- clock readings, UUIDs, SHA-1 digests and random jitter are given values.

Strings are sequences of characters, and lower-casing covers ASCII letters only. Delays are
`real` numbers of seconds, and integers are unbounded; the 32-bit range of the catalogue's
`Integer` columns is checked where a row is created.

Behaviour of the code that the model keeps:

- `update_download_status` has no transition check: any status string is written, and
  `completed` can be overwritten. The database still refuses a status longer than its
  50-character column, which the model does not check on this path (see "Left out").
- Candidate order comes from a Python set. The model proves distinctness and exact
  membership, not first-occurrence order.
- The retry delay is `base * 2^attempt` (exponential), `base * (attempt + 1)` (linear or
  unset), or a random draw. It has no added jitter. An exception always waits
  `base * (attempt + 1)`, and only 403, 429 and 500/502/503/504 are retried.
- Creating a row whose id or URL is already taken is an `IntegrityError` that rolls back.
  The existing record is not returned. A string longer than its `String(n)` column is also
  refused and rolled back (`DataError`), and so is a `file_size`, `width` or `height` outside
  the 32-bit range of its `Integer` column.
- The Pexels request repeats a 429 reply without an attempt bound.
- `crawl_multiple_sources` adds the worker's running error total after each source.
  `total_errors` therefore counts earlier sources' errors again
  (`ScrapingWorker.ReportedErrorsOvercount`).

## Model

| member | source | states |
|---|---|---|
| UrlUnescape.UnescapeJsonUrlProperties | src/backgroundworker/web_scaping_worker.py:677-685 | `_unescape_json_url` never lengthens a URL, is the identity on a URL holding none of `\/`, `\u0026`, `&amp;`, `\u0027`, `\u0022`, and keeps an `http` prefix |
| UrlUnescape.UnescapeBingJsonUrlProperties | src/backgroundworker/bing_crawler.py:98-104 | the Bing unescape (only `\/`, `\u0026`, `&amp;`) never lengthens a URL, is the identity on a URL without those three, and keeps an `http` prefix |
| Text.PySliceTo | src/backgroundworker/web_scaping_worker.py:900 | `urls[:max_links]` is a prefix of the list of length min(n, len) for n >= 0, and len + n (at least 0) for a negative n |
| Extraction.WorkerCapturesAreHttp | src/backgroundworker/web_scaping_worker.py:692-702 | every URL the pattern scans collect is an unescaped match or capture group that started with "http", so it starts with "http" |
| Extraction.RaisingPatternSkipped | src/backgroundworker/web_scaping_worker.py:692-704 | a pattern whose scan raises contributes nothing, and the patterns before and after it contribute as if it were absent |
| Extraction.CollectWorkerCaptures | src/backgroundworker/web_scaping_worker.py:689-705 | the scan loop's set is exactly the unescaped http captures of all scans |
| Extraction.AddMatchCaptures | src/backgroundworker/web_scaping_worker.py:695-702 | the loop over one pattern's matches adds exactly their unescaped http captures |
| Extraction.AddTextCaptures | src/backgroundworker/web_scaping_worker.py:696-702 | the loop over one match's texts (the match or its groups) adds exactly the unescaped ones starting with http |
| Extraction.CollectBingCaptures | src/backgroundworker/bing_crawler.py:107-117 | the Bing set is exactly the unescaped `murl` captures together with the raw https matches |
| Extraction.CleanKeys | src/backgroundworker/web_scaping_worker.py:716 | each wrapper key, in order, with its trailing "=" characters removed |
| Extraction.WrappedTarget | src/backgroundworker/web_scaping_worker.py:715-720 | a value is found iff some key's first query value starts with "http", and it is the value of the first such key |
| Extraction.Resolve | src/backgroundworker/web_scaping_worker.py:710-726 | a URL holding no trigger, whose query parsing raises, or with no qualifying key is kept unchanged; otherwise it becomes the unescaped value of the first qualifying key |
| Extraction.ResolveKeepsHttp | src/backgroundworker/web_scaping_worker.py:709-726 | resolution keeps an "http" prefix whenever the unescaper does |
| Extraction.UnescapersKeepHttp | src/backgroundworker/web_scaping_worker.py:677-685 | the worker, Bing and Google (identity) unescapers all keep an "http" prefix |
| Extraction.WorkerDefaultKeys | src/backgroundworker/web_scaping_worker.py:62-67 | the default wrapper keys are cleaned to mediaurl, imgurl, murl, imageurl |
| Extraction.NormalizeAll | src/backgroundworker/web_scaping_worker.py:709-726 | the normalisation loop yields exactly the resolved URLs, never more URLs than it was given |
| Extraction.NormalizeList | src/backgroundworker/google_crawler.py:112-125 | over Google's list of matches (repeats included) the loop yields exactly the resolved set, at most one URL per match |
| Extraction.FilterDenied | src/backgroundworker/web_scaping_worker.py:729-747 | the candidate list is duplicate-free and holds exactly the normalised URLs no denylist entry occurs in |
| Extraction.Dedup | src/backgroundworker/web_scaping_worker.py:750-755 | the result is duplicate-free, has exactly the candidates' elements, and equals the candidates when they have no repeats |
| Extraction.AllowedNoLarger | src/backgroundworker/web_scaping_worker.py:729-747 | the denylist filter never adds URLs |
| ScrapingWorker.Scans | src/backgroundworker/web_scaping_worker.py:692-694 | one scan per configured pattern, in order, each `re.findall(pattern, html)` |
| ScrapingWorker.WorkerCandidatesShape | src/backgroundworker/web_scaping_worker.py:687-758 | every URL the generic extraction returns starts with "http" and holds no denylist entry |
| ScrapingWorker.WebScapingWorker.constructor | src/backgroundworker/web_scaping_worker.py:37-67 | the resource directory defaults to `blob/<source_name>`, and the URL and wrapper patterns default to their built-in lists when none or an empty list is given |
| ScrapingWorker.WebScapingWorker.SetRetryStrategy | src/backgroundworker/web_scaping_worker.py:648-650 | sets the strategy and changes nothing else |
| ScrapingWorker.WebScapingWorker.SetUrlPatterns | src/backgroundworker/web_scaping_worker.py:664-666 | replaces the scan patterns and changes nothing else |
| ScrapingWorker.WebScapingWorker.SetExtractionPatterns | src/backgroundworker/web_scaping_worker.py:668-670 | replaces the wrapper keys and changes nothing else |
| ScrapingWorker.WebScapingWorker.FetchHtml | src/backgroundworker/web_scaping_worker.py:108-288 | a Vecteezy URL runs the Vecteezy loop and any other URL the retry loop with the worker's strategy, and the run is exactly that loop's (`VecteezyFetched`, `RetryFetched`): at most max_retries attempts, a transient outcome for all but the last, the last attempt's 200 body, one error exactly when no body came back, the requests and the waits; the run's errors are added to the stats and nothing else changes |
| ScrapingWorker.WebScapingWorker.ExtractUrlsFromHtml | src/backgroundworker/web_scaping_worker.py:687-758 | the list is duplicate-free with exactly the resolved, non-denylisted captures as elements; `found_urls` is the number of distinct captures and `unique_urls` the list's length |
| ScrapingWorker.WebScapingWorker.Crawl | src/backgroundworker/web_scaping_worker.py:871-934 | the page is fetched by `fetch_html` with three attempts and a 1-second base delay, with that fetch's exact run; the crawl fails exactly when no body or an empty one came back, and then only the start time and the fetch's error count change; otherwise the candidates are exactly the generic extraction of the fetched body, the result and the stats are those of the loop over `urls[:max_links]` with the extraction counters set, so downloaded <= saved <= candidates and saved <= max_links for max_links >= 0 (`CrawlOf`) |
| ScrapingWorker.WebScapingWorker.CrawlPage | src/backgroundworker/web_scaping_worker.py:887-934 | on a fetched body: the candidates are exactly the generic extraction, and the result and stats are those of the loop over `urls[:max_links]` |
| ScrapingWorker.WebScapingWorker.CrawlSource | src/backgroundworker/web_scaping_worker.py:954-963 | the run of one entry is the crawl of its URL with its query and method (`CrawlOf`: the exact fetch, the extraction of the body and the loop over `urls[:max_links]`), never lowers the error count, downloads no more than it saves and saves at most max_links |
| ScrapingWorker.WebScapingWorker.CrawlEntry | src/backgroundworker/web_scaping_worker.py:953-977 | an entry without a URL adds one to `total_errors` and no result; an entry with one is crawled (`CrawledEntry`: the crawl of its URL in its world), its result is appended, and a success adds its counts and the worker's running error total |
| ScrapingWorker.FetchedByOneError | src/backgroundworker/web_scaping_worker.py:108-288 | a fetch counts at most one error, on either path, and a body it returns is the 200 answer of its last attempt, a real request within the attempt bound |
| ScrapingWorker.UnreachableSourceFails | src/backgroundworker/web_scaping_worker.py:108-210 | a source whose every request raises fails to crawl and counts one error (none for a Vecteezy page with a method other than GET or POST) |
| ScrapingWorker.RunTotalsBounded | src/backgroundworker/web_scaping_worker.py:964-969 | total downloaded <= total saved <= sources processed · max_links, and sources processed <= results = sources without a missing URL |
| ScrapingWorker.WebScapingWorker.CrawlMultipleSources | src/backgroundworker/web_scaping_worker.py:936-983 | one run per source; a source without a URL counts one error and adds no result; every other run is the crawl of `sources[i]`'s URL, query and method in `worlds(i)` (`CrawledEntry`); the results are those runs' results in order; `sources_processed`, `total_saved` and `total_downloaded` sum the successful crawls; `total_errors` is the sum of the running error totals reported after each successful crawl plus the missing URLs |
| ScrapingWorker.ReportedErrorsOvercount | src/backgroundworker/web_scaping_worker.py:970 | two sources where only the first makes an error report `total_errors` = 2 while one error happened |
| ScrapingWorker.IntendedErrorsBounded | src/backgroundworker/web_scaping_worker.py:952-977 | the errors the sources actually made are bounded by the worker's error growth plus the sources without a URL |
| ScrapingWorker.ChainedExtend | src/backgroundworker/web_scaping_worker.py:952-977 | one more source run extends the error chain and adds its running total (or 1 for a missing URL) to the reported errors |
| Fetching.RetryDelay | src/backgroundworker/web_scaping_worker.py:652-662 | base·2^attempt for "exponential", the random draw for "random", base·(attempt+1) for "linear", no strategy or any other |
| Fetching.RandomDelayBounds | src/backgroundworker/web_scaping_worker.py:659-661 | with a non-negative base, `random.uniform(base, base * 3)` lies between base and 3 · base |
| Fetching.VecteezyJitterBounds | src/backgroundworker/web_scaping_worker.py:277 | the Vecteezy back-off after a 403 is base · 2^attempt plus a jitter of at most one second |
| Fetching.ExponentialAtLeastLinear | src/backgroundworker/web_scaping_worker.py:652-662 | with a non-negative base the exponential delay is never below the linear one, and an unset strategy behaves as linear |
| Fetching.RetryFetch | src/backgroundworker/web_scaping_worker.py:148-210 | `RetryFetched`: at most max_retries attempts and at least one when max_retries > 0; every attempt but the last had a transient outcome (403, 429, 5xx or an exception); the last attempt's 200 gives its body; a transient last outcome means all attempts were used; exactly one error when no body came back; a request per attempt for GET or POST; each sleep follows the strategy, or base·(attempt+1) after an exception |
| Fetching.VecteezyFetch | src/backgroundworker/web_scaping_worker.py:212-288 | `VecteezyFetched`: the same loop where only 403 and exceptions are retried, each wait base·2^attempt plus the jitter; an unsupported method makes one attempt, no request and no error |
| Fetching.SearchPageFetch | src/backgroundworker/bing_crawler.py:74-95 | one attempt: a body exactly on 200, one error exactly when the request raised, and no error for any other status |
| Fetching.ForbiddenAnalysis | src/backgroundworker/web_scaping_worker.py:312-332 | a 403 is explained with a description and possible causes and a retry is recommended |
| Fetching.RateLimitedAnalysis | src/backgroundworker/web_scaping_worker.py:333-350 | a 429 is explained with a description and possible causes and a retry is recommended |
| Fetching.ServerErrorAnalysis | src/backgroundworker/web_scaping_worker.py:351-367 | a 500, 502, 503 or 504 is explained by a description that names the status code, with possible causes, and a retry is recommended |
| Fetching.NotFoundAnalysis | src/backgroundworker/web_scaping_worker.py:368-384 | a 404 is explained with a description and possible causes and no retry is recommended |
| Fetching.AnalyzeError | src/backgroundworker/web_scaping_worker.py:301-386 | the analysis keeps the status and URL; retry is recommended exactly for 403, 429, 500, 502, 503, 504; only those and 404 have a description, and a description comes with possible causes |
| Fetching.AnalysisMatchesRetryLoop | src/backgroundworker/web_scaping_worker.py:301-386 | the analysis recommends a retry exactly for the statuses the retry loop treats as transient |
| ContentTypes.HeadContentType | src/backgroundworker/web_scaping_worker.py:760-774 | HEAD only when it answers below 400 (and not 405); otherwise HEAD then a `bytes=0-0` GET whose status >= 400 gives none; an exception gives none |
| ContentTypes.ProbeTypeFromSuccessfulReply | src/backgroundworker/bing_crawler.py:167-179 | a reported content type always comes from a reply with status below 400 |
| ContentTypes.InferExtension | src/backgroundworker/web_scaping_worker.py:776-794 | none for a missing or empty type; otherwise the extension of the first key the lower-cased type starts with, or none when no key matches |
| ContentTypes.InferExtensionRange | src/backgroundworker/web_scaping_worker.py:776-794 | with either table the extension, when there is one, is one of jpg, png, webp, gif, bmp, tiff, svg, avif |
| ContentTypes.AvifOnlyInWorkerTable | src/backgroundworker/bing_crawler.py:182-198 | `image/avif` maps to avif with the generic worker's table and to nothing with the Bing/Google table |
| ContentTypes.ExtensionImpliesImage | src/backgroundworker/web_scaping_worker.py:906 | every type that yields an extension passes the loop's "image/" test |
| ContentTypes.TablesAreImageTypes | src/backgroundworker/google_crawler.py:170-187 | every key of both extension tables starts with "image/" |
| Filenames.Sanitize | src/backgroundworker/web_scaping_worker.py:797-800 | the result holds only alphanumerics, "-", "_" and "." and is no longer than the input |
| Filenames.SanitizeSafeIdentity | src/backgroundworker/web_scaping_worker.py:797-800 | a name already made of those characters is unchanged |
| Filenames.SanitizeIdempotent | src/backgroundworker/web_scaping_worker.py:797-800 | sanitising twice is sanitising once |
| Filenames.QuerySlug | src/backgroundworker/web_scaping_worker.py:802-808 | the slug is never empty and is safe: "query", or the sanitised stripped query with spaces as "_" |
| Filenames.ShortDigest | src/backgroundworker/web_scaping_worker.py:806 | the first (at most) 12 characters of the digest |
| Filenames.FileExtension | src/backgroundworker/google_crawler.py:193-198 | the inferred extension, or "jpg" when there is none |
| Filenames.GenerateFilenameExtension | src/backgroundworker/web_scaping_worker.py:802-808 | the text after the last dot of `slug_hash.ext` is the extension, and it is one of the known extensions |
| Filenames.GenerateFilenameSafe | src/backgroundworker/bing_crawler.py:205-210 | with a hexadecimal digest the whole filename is safe |
| Filenames.AvifStoredAsJpg | src/backgroundworker/bing_crawler.py:182-210 | an `image/avif` candidate is named `.jpg` by Bing and Google and `.avif` by the generic worker |
| Filenames.PhotographerSlug | src/backgroundworker/car_crawler.py:160-171 | the slug is no longer than the name and holds only alphanumerics, "-" and "_" |
| Filenames.PhotographerSlugKeepsCleanNames | src/backgroundworker/car_crawler.py:160-171 | a clean name without a trailing space only has its spaces turned into "_" |
| Filenames.CarFilenameIsJpg | src/backgroundworker/car_crawler.py:171 | a Pexels filename always has the extension jpg |
| CrawlPipeline.ProcessCandidates | src/backgroundworker/web_scaping_worker.py:897-925 | the loop's counters, records, downloads and updates are those of `Run` over the examined URLs |
| CrawlPipeline.ProcessCandidate | src/backgroundworker/web_scaping_worker.py:901-925 | one loop iteration is `Step` |
| CrawlPipeline.DownloadAndMark | src/backgroundworker/web_scaping_worker.py:912-919 | a saved record is downloaded and then given exactly one status update |
| CrawlPipeline.RunCounters | src/backgroundworker/web_scaping_worker.py:897-925 | downloaded <= saved <= saved_records <= examined URLs, with one download and one status update per saved record |
| CrawlPipeline.RunUpdates | src/backgroundworker/web_scaping_worker.py:912-919 | every update is "completed" or "failed" with "Download failed", and the completed ones number `downloaded` |
| CrawlPipeline.StepUpdates | src/backgroundworker/google_crawler.py:263-288 | one iteration keeps the updates well formed, with completed = downloaded |
| CrawlPipeline.RunRecords | src/backgroundworker/web_scaping_worker.py:900-916 | every saved record and every download is for an examined URL that was not catalogued and probed as an image; the record is built from it |
| CrawlPipeline.StepRecords | src/backgroundworker/bing_crawler.py:275-299 | one iteration adds at most the record and download of its own URL, and only when that URL is eligible |
| CrawlPipeline.SkippedCandidate | src/backgroundworker/web_scaping_worker.py:902-907 | a catalogued or non-image URL changes nothing |
| CrawlPipeline.FailedSaveStopsCandidate | src/backgroundworker/web_scaping_worker.py:846-849 | a save that raises counts one error, with no download and no status update |
| CrawlPipeline.ExaminedBound | src/backgroundworker/web_scaping_worker.py:900 | over `urls[:max_links]`, downloaded <= saved <= max_links and saved <= len(urls) |
| BingSearch.BingCandidatesExact | src/backgroundworker/bing_crawler.py:119-165 | no returned URL holds a Bing denylist entry, and every collected URL without a wrapper trigger or denylist entry is returned |
| BingSearch.BingCapturesContents | src/backgroundworker/bing_crawler.py:107-117 | every https match and every unescaped `murl` capture is collected, and nothing else |
| BingSearch.BingCrawler.constructor | src/backgroundworker/bing_crawler.py:33-48 | the resource directory defaults to `blob/bing` and the counters start at zero |
| BingSearch.BingCrawler.FetchBingHtml | src/backgroundworker/bing_crawler.py:74-95 | the body exactly on 200; one more error exactly when the request raised |
| BingSearch.BingCrawler.ExtractUrlsFromHtml | src/backgroundworker/bing_crawler.py:106-165 | duplicate-free list of exactly the Bing candidates; `found_urls` counts the distinct raw URLs and `unique_urls` the list |
| BingSearch.BingCrawler.Crawl | src/backgroundworker/bing_crawler.py:262-307 | fails exactly when the page is not a non-empty 200; otherwise the candidates are exactly the Bing extraction of that page's body, and the result and the stats are those of the loop over `urls[:max_links]`, with `found_urls` the distinct raw URLs, so downloaded <= saved <= candidates |
| GoogleSearch.GoogleCandidatesExact | src/backgroundworker/google_crawler.py:107-151 | no returned URL holds a Google denylist entry; unwrapped matches are kept; an `imgurl` wrapper with an http value is replaced by that value, not unescaped |
| GoogleSearch.GoogleCrawler.constructor | src/backgroundworker/google_crawler.py:39-50 | the resource directory defaults to `blob/google` and the counters start at zero |
| GoogleSearch.GoogleCrawler.FetchGoogleHtml | src/backgroundworker/google_crawler.py:81-105 | the body exactly on 200; one more error exactly when the request raised |
| GoogleSearch.GoogleCrawler.ExtractUrlsFromHtml | src/backgroundworker/google_crawler.py:107-151 | duplicate-free list of exactly the Google candidates; `found_urls` counts every match, repeats included, and `unique_urls` the list |
| GoogleSearch.GoogleCrawler.Crawl | src/backgroundworker/google_crawler.py:250-296 | fails exactly when the page is not a non-empty 200; otherwise the candidates are exactly the Google extraction of that page's body, and the result and the stats are those of the loop over `urls[:max_links]`, with `found_urls` every match, so downloaded <= saved <= candidates |
| PexelsCrawler.ValidateConfig | src/backgroundworker/car_crawler.py:68-78 | valid exactly when both the secret key and the base URL are non-empty |
| PexelsCrawler.RateLimitWaitBounds | src/backgroundworker/car_crawler.py:86-93 | the pause is never negative and never above the interval; none without an earlier (non-zero) request time or once the interval has passed; otherwise the request goes out no earlier than last + frequency |
| PexelsCrawler.RequestsSpaced | src/backgroundworker/car_crawler.py:86-93 | consecutive recorded request times are at least `request_frequency` apart |
| PexelsCrawler.AnswerOrError | src/backgroundworker/car_crawler.py:95-111 | a final (non-429) reply either yields the parsed body of a 200 or counts one error, never both |
| PexelsCrawler.ImageUrlChoice | src/backgroundworker/car_crawler.py:212-217 | the URL is large2x, else large, else medium (the first non-empty), and none exactly when all three are missing or empty |
| PexelsCrawler.PhotoUrls | src/backgroundworker/car_crawler.py:209-218 | at most one URL per photo considered |
| PexelsCrawler.PlannedUrls | src/backgroundworker/car_crawler.py:209-223 | one download per photo that has a URL, in order, with that URL |
| PexelsCrawler.PlannedAreJpg | src/backgroundworker/car_crawler.py:220 | every planned filename has the extension jpg |
| PexelsCrawler.PexelsCarCrawler.constructor | src/backgroundworker/car_crawler.py:25-46 | the configuration is kept and every counter starts at zero |
| PexelsCrawler.PexelsCarCrawler.GetStats | src/backgroundworker/car_crawler.py:257-259 | returns the current counters as a value and changes nothing |
| PexelsCrawler.IssueUntilSettled | src/backgroundworker/car_crawler.py:86-104 | the attempts from request k0 on: every one but the last got a 429, the last did not, and the pauses and the last request time are those of the rate limiter over the attempts |
| PexelsCrawler.PexelsCarCrawler.MakeRequest | src/backgroundworker/car_crawler.py:80-111 | every request is counted and timed after its rate-limit wait; 429 replies repeat the request; the first other reply gives the body of a 200 or nothing with one more error |
| PexelsCrawler.PexelsCarCrawler.SearchCars | src/backgroundworker/car_crawler.py:113-128 | the search request for this query and page is re-issued on 429 from the current request count until request `total_requests - 1` settles it (`Searched`); the result is that request's answer, the errors grow by that answer's error, the last request time is the rate limiter's over those requests, and the download counters and files are untouched |
| PexelsCrawler.PexelsCarCrawler.DownloadImage | src/backgroundworker/car_crawler.py:130-158 | on 200 the body is written under the resource directory and a success counted; otherwise nothing is written and a failure counted; exactly one counter moves |
| PexelsCrawler.PexelsCarCrawler.DownloadPhotos | src/backgroundworker/car_crawler.py:209-235 | the planned downloads (one per photo with a URL, under its generated name) are attempted in order, one counter move each; the successes are those the world answered 200, each writing its file, and `downloaded` counts them |
| PexelsCrawler.SavedAppend | src/backgroundworker/car_crawler.py:209-235 | downloading one list after another writes the same files and counts the same successes as downloading both in one run |
| PexelsCrawler.LastSentAppend | src/backgroundworker/car_crawler.py:86-93 | the last request time after two runs of requests is that after one run of all of them |
| PexelsCrawler.PexelsCarCrawler.CrawlPage | src/backgroundworker/car_crawler.py:192-235 | one page: its search and the downloads of its photos extend the query's visited pages and their accounting |
| PexelsCrawler.QueryStep | src/backgroundworker/car_crawler.py:192-235 | a search that settled with a result, then the downloads that result plans, extend the visited pages and the accounting by one page |
| PexelsCrawler.VisitedAnswered | src/backgroundworker/car_crawler.py:192-199 | every visited page was answered, by a request for that page, with its result |
| PexelsCrawler.AccountedThen | src/backgroundworker/car_crawler.py:80-158 | two runs of requests and downloads, one after the other, account for their sum: requests, last request time, errors, counters and files |
| PexelsCrawler.PexelsCarCrawler.CrawlQuery | src/backgroundworker/car_crawler.py:192-240 | pages 1.. in order (`QueryVisited`): each settled by an exact request number from where the previous page's requests ended, its result the answer of that request, its downloads the planned downloads of its photos; a page without a result is skipped, and one without photos ends the query before max_pages; the request count, last request time, errors (one per page without a result), download counters and files are those of these requests and downloads (`Accounted`) |
| PexelsCrawler.PexelsCarCrawler.CrawlQueries | src/backgroundworker/car_crawler.py:189-240 | each query's page loop in turn, each from where the previous ended; the result lists, the answers, the visits and the accounting over all queries |
| PexelsCrawler.QueriesStep | src/backgroundworker/car_crawler.py:189-240 | one more query, paged from where the earlier ones ended, extends the queries visited and their accounting |
| PexelsCrawler.QueriesAnswered | src/backgroundworker/car_crawler.py:189-199 | each query's page results are the answers to that query's own page requests |
| PexelsCrawler.PexelsCarCrawler.CrawlCarImages | src/backgroundworker/car_crawler.py:173-255 | an invalid configuration returns at once with nothing changed; otherwise every query (the five defaults when none) is paged as `CrawlQuery` pages it, each from where the previous query ended (`QueriesVisited`), the stats and files account for all their requests and downloads (`Accounted`), and the total downloaded (the downloads answered 200) and the duration are stored and returned |
| TagCodec.DecodeEncode | src/services/image_resource_service.py:324-329 | decoding the JSON text `json.dumps` writes for a list of strings gives back that list |
| TagCodec.Encode | src/services/image_resource_service.py:29 | the encoding is a JSON array text, starting with "[" |
| ImageResources.CreatedTagsRoundTrip | src/services/image_resource_service.py:27-29 | tags given at creation come back unchanged when non-empty, and an empty list or none comes back as none |
| ImageResources.UpdatedTagsRoundTrip | src/services/image_resource_service.py:175-176 | tags set by an update come back unchanged, an empty list included |
| ImageResources.NewRow | src/models/image_resource.py:13-31 | a new row has the given id and URL, is not downloaded, is "pending" with no error, and both timestamps are the creation time |
| ImageResources.ToResource | src/services/image_resource_service.py:321-351 | the response copies the row, with its tags decoded |
| ImageResources.LookupExact | src/services/image_resource_service.py:60-88 | in a table with unique ids and URLs, each row is what its id and its URL find |
| ImageResources.CreateRowProperties | src/services/image_resource_service.py:23-58 | a create fails with `DataError` exactly when a string exceeds its column width or an integer leaves the 32-bit range of its column (models/image_resource.py:13-28), and otherwise with `IntegrityError` exactly when the id or URL is taken; otherwise one row is appended, the table stays valid, and the new row is what its id and URL find |
| ImageResources.ApplyUpdate | src/services/image_resource_service.py:171-182 | id, URL and creation time are kept and the update time is refreshed |
| ImageResources.EmptyUpdateTouchesOnlyTime | src/services/image_resource_service.py:172-182 | an update that sets no field changes only `updated_at` |
| ImageResources.UpdatedResponseTags | src/services/image_resource_service.py:174-180 | after an update, the tags read back are those set, or the old ones when tags were not set |
| ImageResources.UpdateRowsProperties | src/services/image_resource_service.py:160-187 | nothing found exactly when no row has the id; otherwise only that row changes, every id and URL is kept, and the table stays valid |
| ImageResources.DeleteRowsProperties | src/services/image_resource_service.py:194-201 | reports a removal exactly when a row had the id; afterwards none has it, the others remain, and the table stays valid |
| ImageResources.NewRows | src/services/image_resource_service.py:213-236 | one new row per item of the batch, in order |
| ImageResources.BulkRows | src/services/image_resource_service.py:208-252 | the batch fails with `DataError` exactly when a new row has a string too long for its column or an integer outside the 32-bit range, otherwise with `IntegrityError` exactly when some id or URL would repeat; otherwise all rows are appended in one valid table |
| ImageResources.BulkRowFound | src/services/image_resource_service.py:238-247 | after a bulk create each new row is what its id and its URL find, and the old rows are untouched |
| ImageResources.StatusChange | src/services/image_resource_service.py:257-265 | any status is stored with a fresh update time; "completed" also sets downloaded; "failed" also stores the message; nothing else changes |
| ImageResources.StatusRows | src/services/image_resource_service.py:267-268 | the change applies to the row with the id and leaves every other row as it was |
| ImageResources.StatusRowsProperties | src/services/image_resource_service.py:254-273 | the table stays valid; a row is returned exactly when one has the id, carrying the new status, downloaded after "completed" |
| ImageResources.Filtered | src/services/image_resource_service.py:104-125 | exactly the rows that match every given filter |
| ImageResources.SortNewest | src/services/image_resource_service.py:134 | a permutation of the rows, newest first |
| ImageResources.TotalPagesCeiling | src/services/image_resource_service.py:146 | total_pages is the ceiling of total / per_page, and 0 exactly for an empty result |
| ImageResources.PageRows | src/services/image_resource_service.py:133-134 | at most per_page rows from the sorted rows, non-empty exactly when the offset is inside them, keeping newest-first order |
| ImageResources.PageNonEmpty | src/services/image_resource_service.py:133-146 | a page has rows exactly when its number is at most total_pages |
| ImageResources.PageRowsMatch | src/services/image_resource_service.py:100-138 | the rows of a page are matching table rows, newest first |
| ImageResources.ListRowsProperties | src/services/image_resource_service.py:100-154 | a listing reports the match count and ceiling page count, and at most per_page matching rows newest first; page < 1 or per_page <= 0 is an error |
| ImageResources.PendingIsNotDownloaded | src/services/image_resource_service.py:309-315 | pending = total − downloaded is the number of rows not downloaded |
| ImageResources.StatusCountsPositive | src/services/image_resource_service.py:293-299 | a status has a count exactly when some row has it, and the count is between 1 and the total |
| ImageResources.ImageResourceService.constructor | src/services/image_resource_service.py:19-21 | a service over a table with unique ids and URLs |
| ImageResources.ImageResourceService.CreateImageResource | src/services/image_resource_service.py:23-58 | appends the new row and returns it, or fails with the table unchanged and the error of `CreateRow` (`DataError` for a string too long or an integer out of range, `IntegrityError` for a taken id or URL) |
| ImageResources.ImageResourceService.GetImageResource | src/services/image_resource_service.py:60-73 | a record exactly when some row has the id, and it carries that id |
| ImageResources.ImageResourceService.GetImageResourceByUrl | src/services/image_resource_service.py:75-88 | a record exactly when some row has the URL, and it carries that URL |
| ImageResources.ImageResourceService.UpdateImageResource | src/services/image_resource_service.py:160-192 | none and no change for an unknown id; otherwise the updated row, read back |
| ImageResources.ImageResourceService.DeleteImageResource | src/services/image_resource_service.py:194-206 | removes the row with the id and reports whether there was one |
| ImageResources.ImageResourceService.BulkCreateImageResources | src/services/image_resource_service.py:208-252 | all rows are added and returned in order, or none is and the call fails with the error of `BulkRows` (`DataError` or `IntegrityError`) |
| ImageResources.ImageResourceService.UpdateDownloadStatus | src/services/image_resource_service.py:254-278 | applies the status change to the row with the id and returns it, or none when no row has the id |
| ImageResources.ImageResourceService.ListImageResources | src/services/image_resource_service.py:90-158 | an error exactly for page < 1 or per_page <= 0; otherwise the match count and at most per_page items |
| ImageResources.ImageResourceService.GetStatistics | src/services/image_resource_service.py:280-319 | total is the row count and pending the number of rows not downloaded |
| CrawlJobs.Iterations | src/routes/google_crawler.py:64 | `max(1, loops)`: at least one iteration, exactly `loops` when loops >= 1 |
| CrawlJobs.TotalBounded | src/routes/google_crawler.py:67-69 | cumulative downloaded <= cumulative saved <= iterations · max_links |
| CrawlJobs.TotalAppend | src/routes/bing_crawler.py:67-69 | each iteration adds its saved and downloaded counts, 0 for a result without them |
| CrawlJobs.StartStatus | src/routes/google_crawler.py:37-53 | refused with 400 exactly when running; otherwise running, with zero progress and the new query |
| CrawlJobs.StopStatus | src/routes/google_crawler.py:131-145 | refused with 400 exactly when not running; otherwise not running, "stopped", progress kept |
| CrawlJobs.StartThenStop | src/routes/bing_crawler.py:37-53 | from an idle status a start is accepted, a second start is refused, and a stop after the first is accepted and leaves the job stopped with its query |
| CrawlJobs.AfterIterationAgain | src/routes/google_crawler.py:71-79 | a later iteration's report overwrites every key an earlier one wrote |
| CrawlJobs.Finish | src/routes/google_crawler.py:86-110 | the job is no longer running and its progress is kept |
| CrawlJobs.IterationsRun | src/routes/bing_crawler.py:64-66 | an interrupted job runs no more iterations than `max(1, loops)` |
| CrawlJobs.ReachedStep | src/routes/google_crawler.py:64-79 | one more iteration at cursor start + i · max_links keeps every fact of the iterations before it: their cursors, each result's page shape, the cumulative counts and the last report in the status |
| CrawlJobs.GoogleIteration | src/routes/google_crawler.py:66 | one iteration's result has the shape of a Google crawl of the page at that cursor |
| CrawlJobs.BingIteration | src/routes/bing_crawler.py:66 | one iteration's result has the shape of a Bing crawl of the page at that cursor |
| CrawlJobs.GoogleCrawlerJob.constructor | src/routes/google_crawler.py:15-24 | the job starts idle with zero progress |
| CrawlJobs.GoogleCrawlerJob.Start | src/routes/google_crawler.py:27-53 | the guarded start: 400 while running, otherwise the running status and the started reply |
| CrawlJobs.GoogleCrawlerJob.Iterate | src/routes/google_crawler.py:64-79 | the iterations run in order at their cursors, and after each the status shows the cumulative counts |
| CrawlJobs.GoogleCrawlerJob.Advance | src/routes/google_crawler.py:66-79 | one iteration adds its counts to the running totals and records its number and cursor |
| CrawlJobs.GoogleCrawlerJob.RunCrawler | src/routes/google_crawler.py:55-110 | `max(1, loops)` iterations at start + i · max_links, or those before the interruption; progress is the cumulative sum; the job ends not running, with the last result, "stopped" or the error |
| CrawlJobs.GoogleCrawlerJob.Stop | src/routes/google_crawler.py:127-145 | the guarded stop: 400 when idle, otherwise not running and "stopped" |
| CrawlJobs.BingCrawlerJob.constructor | src/routes/bing_crawler.py:15-24 | the job starts idle with zero progress |
| CrawlJobs.BingCrawlerJob.Start | src/routes/bing_crawler.py:27-53 | the guarded start: 400 while running, otherwise the running status and the started reply |
| CrawlJobs.BingCrawlerJob.Iterate | src/routes/bing_crawler.py:64-79 | the iterations run in order at their cursors, and after each the status shows the cumulative counts |
| CrawlJobs.BingCrawlerJob.Advance | src/routes/bing_crawler.py:66-79 | one iteration adds its counts to the running totals and records its number and cursor |
| CrawlJobs.BingCrawlerJob.RunCrawler | src/routes/bing_crawler.py:55-110 | `max(1, loops)` iterations at first + i · max_links, or those before the interruption; progress is the cumulative sum; the job ends not running, with the last result, "stopped" or the error |
| CrawlJobs.BingCrawlerJob.Stop | src/routes/bing_crawler.py:127-145 | the guarded stop: 400 when idle, otherwise not running and "stopped" |
| ItemStore.TotalPrice | src/routes/items.py:46 | price plus the tax when there is one, the price alone otherwise |
| ItemStore.MakeItem | src/routes/items.py:47-54 | the stored item carries the given id, the caller's name, description, price and tax, and the total price |
| ItemStore.Remove | src/routes/items.py:85 | `pop(item_id)`: one shorter, earlier items in place, later ones shifted down by one |
| ItemStore.CreateKeepsIds | src/routes/items.py:46-55 | while ids equal positions, creating keeps them so |
| ItemStore.UpdateKeepsIds | src/routes/items.py:68-77 | updating keeps ids equal to positions |
| ItemStore.IdsRepeatAfterDelete | src/routes/items.py:48 | create, create, delete the first, create: both items have id 1 |
| ItemStore.ItemRoutes.constructor | src/routes/items.py:9 | the list starts empty |
| ItemStore.ItemRoutes.GetItems | src/routes/items.py:11-23 | the whole list, each entry what `get_item` returns at its position |
| ItemStore.ItemRoutes.GetItem | src/routes/items.py:25-35 | 404 exactly outside 0 <= id < len, otherwise the item at that position |
| ItemStore.ItemRoutes.CreateItem | src/routes/items.py:37-61 | 500 with the list unchanged in production without an API key; otherwise appends the item with id = old length and returns it |
| ItemStore.ItemRoutes.UpdateItem | src/routes/items.py:63-78 | 404 with the list unchanged outside the range; otherwise replaces only that position, keeping id = item_id |
| ItemStore.ItemRoutes.DeleteItem | src/routes/items.py:80-86 | 404 with the list unchanged outside the range; otherwise returns that item and removes it |
| AppSettings.Environment | src/config/settings.py:57-68 | names development, production or testing exactly when the matching property holds, so at most one holds |
| AppSettings.CaseInsensitive | src/config/settings.py:57-68 | upper-casing the environment changes none of the three properties |
| AppSettings.DefaultIsDevelopment | src/config/settings.py:40 | the default environment is development |
| AppSettings.PostgresUrl | src/config/settings.py:69-75 | `database_url` when set and non-empty; otherwise `postgresql://user:...?sslmode=mode` |
| AppSettings.PostgresUrlNamesDatabase | src/config/settings.py:75 | the built URL names the configured database just before `?sslmode=` |

## Left out

- HTTP transport, SQLAlchemy sessions and aiofiles writes are replaced by the outcome parameters described above. Timeouts, redirects and header construction are not modelled.
- `rotate_session` (including the rotation on the second 403), `set_proxy`, the user-agent and header presets, the anti-bot and human-behaviour helpers, `get_vecteezy_recommendations` and `get_site_specific_config`: they are concurrency, client lifecycle or configuration data with no decision logic.
- The sleeps (`_human_delay`, the `random.uniform(1.0, 3.0)` pause before every Vecteezy attempt, the 0.5-second Pexels pause, the delay between sources, the 60-second 429 wait) are not modelled as time passing. The retry waits are returned as values.
- The regular-expression engine and `urlparse`/`parse_qs` percent-decoding: matches and the first value per key are inputs.
- Unicode case folding: `lower()`/`upper()` are modelled on ASCII letters. The keys and prefixes compared are ASCII.
- The `metadata` field the generic worker passes to `ImageResourceCreate` is kept only as the record's `sourceUrl`. The catalogue schema has no column for it.
- ILike (`ImageResources.ILike`): the `%` and `_` wildcards inside a search string are taken literally, and matching is ASCII case-insensitive.
- ResponseTags (`ImageResources.ResponseTags`): any stored text that is not a JSON array of strings is read back as `[]`. Other JSON values, such as an object, would decode to something else in the code.
- ListRows (`ImageResources.ListRows`): a negative offset or a zero or negative `per_page` is modelled as an error. The code gets it from the database or from the division.
- MakeRequest (`PexelsCrawler.PexelsCarCrawler.MakeRequest`): modelled only for reply sequences that eventually answer something other than 429 (`Settles`). The code re-issues by recursion, so a server that answers 429 for ever nests calls until the interpreter's recursion limit (about 1000 re-issues); the `except` then turns the `RecursionError` into one more error and `None`. The same restriction holds for PexelsCrawler.IssueUntilSettled, PexelsCrawler.PexelsCarCrawler.SearchCars, PexelsCrawler.PexelsCarCrawler.CrawlPage, PexelsCrawler.PexelsCarCrawler.CrawlQuery, PexelsCrawler.PexelsCarCrawler.CrawlQueries and PexelsCrawler.PexelsCarCrawler.CrawlCarImages, which require `Settles` for every request.
- LastSent (`PexelsCrawler.LastSent`): the recorded request time is the clock reading before the pause plus the pause. The code reads the clock a second time after sleeping (car_crawler.py:93), which can be later by the scheduler's latency.
- RetryDelay (`Fetching.RetryDelay`): `random.uniform` is modelled as `a + (b - a) * u` for a given value `u`. The bounds lemmas assume `u` in [0, 1]; the generator itself is not modelled.
- VecteezyWait (`Fetching.VecteezyWait`): `random.uniform` is modelled as `a + (b - a) * u` for a given value `u`. The bounds lemmas assume `u` in [0, 1]; the generator itself is not modelled.
- TotalPrice (`ItemStore.TotalPrice`): price and tax are exact reals, so the float rounding of `price + tax` is not modelled.
- Sanitize (`Filenames.Sanitize`): `isalnum` is modelled on ASCII letters and digits. Python's `str.isalnum` also accepts other Unicode letters and digits, so the code keeps "xe ô tô" as "xe_ô_tô" where the model gives "xe__t".
- SanitizeSafeIdentity (`Filenames.SanitizeSafeIdentity`): `isalnum` is modelled on ASCII letters and digits. Python's `str.isalnum` also accepts other Unicode letters and digits, so the code keeps "xe ô tô" as "xe_ô_tô" where the model gives "xe__t".
- QuerySlug (`Filenames.QuerySlug`): `isalnum` is modelled on ASCII letters and digits. Python's `str.isalnum` also accepts other Unicode letters and digits, so the code keeps "xe ô tô" as "xe_ô_tô" where the model gives "xe__t".
- PhotographerSlug (`Filenames.PhotographerSlug`): `isalnum` is modelled on ASCII letters and digits. Python's `str.isalnum` also accepts other Unicode letters and digits, so the code keeps "xe ô tô" as "xe_ô_tô" where the model gives "xe__t".
- PhotographerSlugKeepsCleanNames (`Filenames.PhotographerSlugKeepsCleanNames`): `isalnum` is modelled on ASCII letters and digits. Python's `str.isalnum` also accepts other Unicode letters and digits, so the code keeps "xe ô tô" as "xe_ô_tô" where the model gives "xe__t".
- StatusChange (`ImageResources.StatusChange`): a status longer than the 50-character `download_status` column is written without a width check. The database would refuse it and the service would roll back and re-raise.
- StatusRows (`ImageResources.StatusRows`): a status longer than the 50-character `download_status` column is written without a width check. The database would refuse it and the service would roll back and re-raise.
- StatusRowsProperties (`ImageResources.StatusRowsProperties`): a status longer than the 50-character `download_status` column is written without a width check. The database would refuse it and the service would roll back and re-raise.
- UpdateDownloadStatus (`ImageResources.ImageResourceService.UpdateDownloadStatus`): a status longer than the 50-character `download_status` column is written without a width check. The database would refuse it and the service would roll back and re-raise.
- ApplyUpdate (`ImageResources.ApplyUpdate`): an update value longer than its column, or an integer outside the 32-bit range of its `Integer` column, is written without a check. The database would refuse it and the service would roll back and re-raise.
- UpdateRows (`ImageResources.UpdateRows`): an update value longer than its column, or an integer outside the 32-bit range of its `Integer` column, is written without a check. The database would refuse it and the service would roll back and re-raise.
- UpdateRowsProperties (`ImageResources.UpdateRowsProperties`): an update value longer than its column, or an integer outside the 32-bit range of its `Integer` column, is written without a check. The database would refuse it and the service would roll back and re-raise.
- UpdateImageResource (`ImageResources.ImageResourceService.UpdateImageResource`): an update value longer than its column, or an integer outside the 32-bit range of its `Integer` column, is written without a check. The database would refuse it and the service would roll back and re-raise.
- ApplyUpdate (`ImageResources.ApplyUpdate`): `is_downloaded` and `download_status` can only be left out or set to a value. An explicit null in the request is not modelled; the code writes NULL to these nullable columns and then fails to build the response, whose fields are not optional.
- UpdateRowsProperties (`ImageResources.UpdateRowsProperties`): `is_downloaded` and `download_status` can only be left out or set to a value. An explicit null in the request is not modelled; the code writes NULL to these nullable columns and then fails to build the response, whose fields are not optional.
- UpdateImageResource (`ImageResources.ImageResourceService.UpdateImageResource`): `is_downloaded` and `download_status` can only be left out or set to a value. An explicit null in the request is not modelled; the code writes NULL to these nullable columns and then fails to build the response, whose fields are not optional.
- CreateRowProperties (`ImageResources.CreateRowProperties`), BulkRows (`ImageResources.BulkRows`), CreateImageResource (`ImageResources.ImageResourceService.CreateImageResource`), BulkCreateImageResources (`ImageResources.ImageResourceService.BulkCreateImageResources`) and GetImageResourceByUrl (`ImageResources.ImageResourceService.GetImageResourceByUrl`): pydantic's `HttpUrl` validation and normalisation are not modelled. A new row's `url` is taken to be the normalised text `str(HttpUrl)` gives (lower-cased host, "/" after a bare host, percent-encoding), and the width and uniqueness tests apply to that text. A lookup compares the raw string it is given, as the crawlers' `exists` check does, so a URL the normaliser rewrites, such as "https://A.test", is not found again after it was stored.
- CreateRowProperties (`ImageResources.CreateRowProperties`): PostgreSQL's truncation of a string whose only excess characters are trailing spaces is not modelled: such a value is refused with `DataError`, where the database would store it cut to the column width.
- BulkRows (`ImageResources.BulkRows`): PostgreSQL's truncation of a string whose only excess characters are trailing spaces is not modelled: such a value is refused with `DataError`, where the database would store it cut to the column width.
- CreateImageResource (`ImageResources.ImageResourceService.CreateImageResource`): PostgreSQL's truncation of a string whose only excess characters are trailing spaces is not modelled: such a value is refused with `DataError`, where the database would store it cut to the column width.
- BulkCreateImageResources (`ImageResources.ImageResourceService.BulkCreateImageResources`): PostgreSQL's truncation of a string whose only excess characters are trailing spaces is not modelled: such a value is refused with `DataError`, where the database would store it cut to the column width.
- SortNewest (`ImageResources.SortNewest`): rows with the same creation time come out in table order. `ORDER BY created_at DESC` leaves their order to the database, and a bulk create gives all its rows one creation time.
- CrawlQuery (`PexelsCrawler.PexelsCarCrawler.CrawlQuery`): a reply that is JSON but not an object, and a photo whose `src` or photographer is null, raise in the code and count an error. The model's replies are always objects with optional fields.
- The asyncio background task itself (creation, cancellation delivery, the `finally` that clears the instance) is replaced by an `interrupt` parameter naming the iteration at which the background task stops.
- FastAPI glue outside the two crawler routes and the item routes, `env_utils`, logging, the server bootstrap and the manual scripts.
- The `/items/env/info` and `/items/config/validation` routes, which only report environment data.
