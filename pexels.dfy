/**
 * The Pexels car-image crawler: a rate-limited JSON API client whose 429 replies are retried
 * without bound, a download counter pair, and the query / page / photo loops of a crawl.
 * The network, the clock and the filename timestamps are oracles indexed by how many requests,
 * respectively downloads, the crawler has made so far.
 */
module PexelsCrawler {
  import opened Wrappers
  import opened Text
  import opened Fetching
  import opened Filenames

  /** The four values `get_pexels_config` always supplies. */
  datatype PexelsConfig = PexelsConfig(
    baseUrl: Option<string>, secretKey: Option<string>, requestFrequency: int, resourceDir: string)

  /** A photo of the API reply: photographer and id when present, and the `src` URLs by size. */
  datatype Photo = Photo(photographer: Option<string>, id: Option<string>, src: map<string, string>)

  /**
   * The parsed reply body: a falsy value (null, `{}`, an empty list …), or an object whose
   * `photos` list is given (empty when the key is missing or null).
   */
  datatype Json = Falsy | Object(photos: seq<Photo>)

  /** What one request produced: a status with the body parsed (`None` when it is not JSON), or an exception. */
  datatype ApiReply = ApiResponse(status: int, json: Option<Json>) | ApiRaised

  /** A search request: the endpoint and the query, page and page size sent. */
  datatype SearchRequest = SearchRequest(url: string, query: string, page: int, perPage: int)

  /**
   * The outside world of a crawl. `reply(k, q)` answers the crawler's k-th request, `clock(k)` is
   * the time read before it; `download(k, u)` answers its k-th download and `stamp(k)` is the
   * timestamp of the filename built for it.
   */
  datatype PexelsWorld = PexelsWorld(
    reply: (nat, SearchRequest) -> ApiReply, clock: nat -> real,
    download: (nat, string) -> FetchOutcome, stamp: nat -> string)

  /** The crawler's `stats` dictionary; the last two entries appear when a crawl finishes. */
  datatype PexelsStats = PexelsStats(
    totalRequests: nat, successfulDownloads: nat, failedDownloads: nat, errors: nat,
    startTime: Option<real>, lastRequestTime: Option<real>,
    duration: Option<real>, totalDownloaded: Option<nat>)

  const InitialStats: PexelsStats := PexelsStats(0, 0, 0, 0, None, None, None, None)

  /** The queries searched when none are given. */
  const DefaultQueries: seq<string> := ["car", "automobile", "vehicle", "sports car", "luxury car"]

  /** The result of `crawl_car_images`. */
  datatype CarCrawlResult = InvalidConfiguration | Finished(totalDownloaded: nat, duration: real, stats: PexelsStats)

  /** A configuration value is truthy when it is present and not empty. */
  predicate Truthy(s: Option<string>) {
    s.Some? && s.value != ""
  }

  /** `_validate_config`: the secret key is checked first, then the base URL. */
  function ValidateConfig(secretKey: Option<string>, baseUrl: Option<string>): (ok: bool)
    ensures ok <==> Truthy(secretKey) && Truthy(baseUrl)
  {
    if !Truthy(secretKey) then false
    else if !Truthy(baseUrl) then false
    else true
  }

  /**
   * The pause before a request: when a previous request time is recorded (and not zero) and
   * less than `frequency` seconds have passed, the rest of the interval; otherwise none.
   */
  function RateLimitWait(last: Option<real>, now: real, frequency: int): real {
    if last.Some? && last.value != 0.0 && now - last.value < frequency as real
    then frequency as real - (now - last.value)
    else 0.0
  }

  /**
   * The pause is never negative, ends no earlier than `frequency` seconds after a recorded
   * request, is zero when none is recorded or the interval has passed, and never exceeds the interval.
   */
  lemma RateLimitWaitBounds(last: Option<real>, now: real, frequency: int)
    ensures var w := RateLimitWait(last, now, frequency);
      && w >= 0.0
      && (last.Some? && last.value != 0.0 ==> now + w >= last.value + frequency as real)
      && (last.None? || last.value == 0.0 || now - last.value >= frequency as real ==> w == 0.0)
      && (last.Some? && now >= last.value ==> w <= frequency as real || w == 0.0)
  {
  }

  /**
   * The time recorded as `last_request_time` after `n` requests starting with request `k0`:
   * each request is sent once its rate-limit pause, taken from the clock reading before it, is over.
   */
  function LastSent(last: Option<real>, clock: nat -> real, k0: nat, n: nat, frequency: int): (t: Option<real>)
    ensures n > 0 ==> t.Some?
  {
    if n == 0 then last
    else
      var prev := LastSent(last, clock, k0, n - 1, frequency);
      Some(clock(k0 + n - 1) + RateLimitWait(prev, clock(k0 + n - 1), frequency))
  }

  /** The rate-limit pauses before each of the `n` requests starting with request `k0`. */
  function RateWaits(last: Option<real>, clock: nat -> real, k0: nat, n: nat, frequency: int): (w: seq<real>)
    ensures |w| == n
  {
    if n == 0 then []
    else RateWaits(last, clock, k0, n - 1, frequency)
         + [RateLimitWait(LastSent(last, clock, k0, n - 1, frequency), clock(k0 + n - 1), frequency)]
  }

  /** `waits` and `sent` are the pauses and the last request time after `n` requests from `k0`. */
  ghost predicate SentSoFar(last: Option<real>, clock: nat -> real, k0: nat, n: nat, frequency: int,
                            waits: seq<real>, sent: Option<real>)
  {
    waits == RateWaits(last, clock, k0, n, frequency) && sent == LastSent(last, clock, k0, n, frequency)
  }

  /** One more request appends its own pause and becomes the last one sent. */
  lemma SentStep(last: Option<real>, clock: nat -> real, k0: nat, n: nat, frequency: int,
                 waits: seq<real>, sent: Option<real>)
    requires SentSoFar(last, clock, k0, n, frequency, waits, sent)
    ensures var wait := RateLimitWait(sent, clock(k0 + n), frequency);
      SentSoFar(last, clock, k0, n + 1, frequency, waits + [wait], Some(clock(k0 + n) + wait))
  {
  }

  /**
   * Consecutive requests are sent at least `request_frequency` seconds apart, whatever the
   * clock reads, once a (non-zero) previous request time is on record.
   */
  lemma RequestsSpaced(last: Option<real>, clock: nat -> real, k0: nat, n: nat, frequency: int)
    requires LastSent(last, clock, k0, n, frequency).Some? && LastSent(last, clock, k0, n, frequency).value != 0.0
    ensures LastSent(last, clock, k0, n + 1, frequency).value >= LastSent(last, clock, k0, n, frequency).value + frequency as real
  {
    RateLimitWaitBounds(LastSent(last, clock, k0, n, frequency), clock(k0 + n), frequency);
  }

  /** The reply the request loop re-issues on. */
  predicate TooMany(r: ApiReply) {
    r.ApiResponse? && r.status == 429
  }

  /** What a final reply gives the caller: the parsed body of a 200, nothing otherwise. */
  function Answer(r: ApiReply): Option<Json> {
    if r.ApiResponse? && r.status == 200 then r.json else None
  }

  /** The errors a final reply adds: none for a 200 whose body parses, one otherwise. */
  function AnswerErrors(r: ApiReply): nat {
    if r.ApiResponse? && r.status == 200 && r.json.Some? then 0 else 1
  }

  /** A final reply either carries the parsed body or is counted as an error, never both. */
  lemma AnswerOrError(r: ApiReply)
    requires !TooMany(r)
    ensures Answer(r).Some? <==> AnswerErrors(r) == 0
    ensures Answer(r).Some? ==> r == ApiResponse(200, Answer(r))
  {
  }

  /** From request `k` on, the server eventually answers this request with something other than 429. */
  ghost predicate Settles(reply: (nat, SearchRequest) -> ApiReply, k: nat, req: SearchRequest) {
    exists j :: j >= k && !TooMany(reply(j, req))
  }

  /** `r` is what some request for `req` finally answered. */
  ghost predicate AnsweredBy(reply: (nat, SearchRequest) -> ApiReply, req: SearchRequest, r: Option<Json>) {
    exists k :: !TooMany(reply(k, req)) && r == Answer(reply(k, req))
  }

  /** `search_cars`' request for `page` of `query`: the `/search/photos` endpoint of the base URL. */
  function PageRequest(base: string, query: string, page: int, perPage: int): SearchRequest {
    SearchRequest(base + "/search/photos", query, page, perPage)
  }

  /** Page `i + 1` of `query` was answered with `replies[i]`, for every page in `replies`. */
  ghost predicate PagesAnswered(reply: (nat, SearchRequest) -> ApiReply, base: string, query: string, perPage: int,
                                replies: seq<Option<Json>>)
  {
    forall i :: 0 <= i < |replies| ==> AnsweredBy(reply, PageRequest(base, query, i + 1, perPage), replies[i])
  }

  /** Request number `at` settled `req`: the requests from number `from` up to it were answered 429, and it was not. */
  ghost predicate SettledAt(reply: (nat, SearchRequest) -> ApiReply, req: SearchRequest, from: nat, at: nat) {
    && from <= at
    && (forall j :: from <= j < at ==> TooMany(reply(j, req)))
    && !TooMany(reply(at, req))
  }

  /** The f-string rendering of the base URL. */
  function BaseText(baseUrl: Option<string>): string {
    if baseUrl.Some? then baseUrl.value else "None"
  }

  /** `src.get("large2x") or src.get("large") or src.get("medium")`, with an empty URL counted as missing. */
  function ImageUrl(src: map<string, string>): Option<string> {
    if "large2x" in src && src["large2x"] != "" then Some(src["large2x"])
    else if "large" in src && src["large"] != "" then Some(src["large"])
    else if "medium" in src && src["medium"] != "" then Some(src["medium"])
    else None
  }

  /**
   * The URL chosen is a non-empty `src` entry of the largest size present; there is none
   * exactly when all three sizes are missing or empty.
   */
  lemma ImageUrlChoice(src: map<string, string>)
    ensures ImageUrl(src).None? <==>
      forall k :: k in ["large2x", "large", "medium"] ==> k !in src || src[k] == ""
    ensures ImageUrl(src).Some? ==>
      ImageUrl(src).value != "" &&
      exists k :: k in ["large2x", "large", "medium"] && k in src && src[k] == ImageUrl(src).value
    ensures "large2x" in src && src["large2x"] != "" ==> ImageUrl(src) == Some(src["large2x"])
  {
    if ImageUrl(src).Some? {
      if "large2x" in src && src["large2x"] != "" {
        assert "large2x" in ["large2x", "large", "medium"];
      } else if "large" in src && src["large"] != "" {
        assert "large" in ["large2x", "large", "medium"];
      } else {
        assert "medium" in ["large2x", "large", "medium"];
      }
    }
  }

  /** `_generate_filename` for the photo at `index`: a missing photographer is "unknown", a missing id `img_<index>`. */
  function PhotoFilename(photo: Photo, index: nat, stamp: string): string {
    CarFilename(photo.photographer.GetOr("unknown"), photo.id.GetOr("img_" + NatToString(index)), stamp)
  }

  /** The URLs of the first `n` photos that have one, in order. */
  function PhotoUrls(photos: seq<Photo>, n: nat): (r: seq<string>)
    requires n <= |photos|
    ensures |r| <= n
  {
    if n == 0 then []
    else match ImageUrl(photos[n - 1].src)
      case None => PhotoUrls(photos, n - 1)
      case Some(u) => PhotoUrls(photos, n - 1) + [u]
  }

  /**
   * The downloads of a page's first `n` photos, as (URL, filename) pairs: photos without a URL
   * are skipped, and the k-th download (counting from `k0`) is named with timestamp `stamp(k)`.
   */
  function Planned(photos: seq<Photo>, n: nat, stamp: nat -> string, k0: nat): seq<(string, string)>
    requires n <= |photos|
  {
    if n == 0 then []
    else
      var prev := Planned(photos, n - 1, stamp, k0);
      match ImageUrl(photos[n - 1].src)
      case None => prev
      case Some(u) => prev + [(u, PhotoFilename(photos[n - 1], n - 1, stamp(k0 + |prev|)))]
  }

  /** One download per photo that has a URL, in order, with that URL. */
  lemma {:induction false} PlannedUrls(photos: seq<Photo>, n: nat, stamp: nat -> string, k0: nat)
    requires n <= |photos|
    ensures |Planned(photos, n, stamp, k0)| == |PhotoUrls(photos, n)|
    ensures forall j :: 0 <= j < |Planned(photos, n, stamp, k0)| ==> Planned(photos, n, stamp, k0)[j].0 == PhotoUrls(photos, n)[j]
  {
    if n > 0 {
      PlannedUrls(photos, n - 1, stamp, k0);
    }
  }

  /** The next photo adds its (URL, filename) download when it has a URL, and nothing otherwise. */
  lemma PlannedStep(photos: seq<Photo>, n: nat, stamp: nat -> string, k0: nat)
    requires n < |photos|
    ensures var prev := Planned(photos, n, stamp, k0);
      && (ImageUrl(photos[n].src).None? ==> Planned(photos, n + 1, stamp, k0) == prev)
      && (ImageUrl(photos[n].src).Some? ==>
            Planned(photos, n + 1, stamp, k0) == prev + [(ImageUrl(photos[n].src).value, PhotoFilename(photos[n], n, stamp(k0 + |prev|)))])
  {
  }

  /** `PlannedStep` for photo `n`, `photo`, with URL `u`: its download is download number `k`, named `name`. */
  lemma PlannedNext(photos: seq<Photo>, n: nat, stamp: nat -> string, k0: nat, prev: seq<(string, string)>,
                    photo: Photo, u: string, k: nat, name: string)
    requires n < |photos| && photo == photos[n] && prev == Planned(photos, n, stamp, k0)
    requires ImageUrl(photo.src) == Some(u)
    requires k == k0 + |prev| && name == PhotoFilename(photo, n, stamp(k))
    ensures Planned(photos, n + 1, stamp, k0) == prev + [(u, name)]
  {
    PlannedStep(photos, n, stamp, k0);
    assert photos[n] == photo && stamp(k0 + |Planned(photos, n, stamp, k0)|) == stamp(k);
  }

  /** Every file a page downloads is named `<photographer>_<id>_<timestamp>.jpg`, and so read back as a `jpg`. */
  lemma {:induction false} PlannedAreJpg(photos: seq<Photo>, n: nat, stamp: nat -> string, k0: nat)
    requires n <= |photos|
    ensures forall j :: 0 <= j < |Planned(photos, n, stamp, k0)| ==>
      AfterLastDot(Planned(photos, n, stamp, k0)[j].1) == "jpg"
  {
    if n > 0 {
      PlannedAreJpg(photos, n - 1, stamp, k0);
      var prev := Planned(photos, n - 1, stamp, k0);
      if ImageUrl(photos[n - 1].src).Some? {
        var p := photos[n - 1];
        CarFilenameIsJpg(p.photographer.GetOr("unknown"), p.id.GetOr("img_" + NatToString(n - 1)), stamp(k0 + |prev|));
      }
    }
  }

  /** The last request time is that of the last request, however the requests are split into runs. */
  lemma {:induction false} LastSentAppend(last: Option<real>, clock: nat -> real, k0: nat, k1: nat, k2: nat, frequency: int)
    requires k0 <= k1 <= k2
    ensures LastSent(LastSent(last, clock, k0, k1 - k0, frequency), clock, k1, k2 - k1, frequency)
         == LastSent(last, clock, k0, k2 - k0, frequency)
    decreases k2
  {
    if k2 > k1 {
      LastSentAppend(last, clock, k0, k1, k2 - 1, frequency);
    }
  }

  /**
   * The files after the downloads in `attempts`, the first of them being download number `k0`:
   * each one answered 200 writes its body to `<dir>/<filename>`, the others write nothing.
   */
  function Saved(files: map<string, string>, dir: string, attempts: seq<(string, string)>,
                 download: (nat, string) -> FetchOutcome, k0: nat): map<string, string>
    decreases |attempts|
  {
    if attempts == [] then files
    else
      var n := |attempts| - 1;
      var prev := Saved(files, dir, attempts[..n], download, k0);
      var o := download(k0 + n, attempts[n].0);
      if o.Response? && o.status == 200 then prev[dir + "/" + attempts[n].1 := o.body] else prev
  }

  /** How many of the downloads in `attempts`, the first being download number `k0`, were answered 200. */
  function Successes(attempts: seq<(string, string)>, download: (nat, string) -> FetchOutcome, k0: nat): (n: nat)
    ensures n <= |attempts|
    decreases |attempts|
  {
    if attempts == [] then 0
    else
      var n := |attempts| - 1;
      var o := download(k0 + n, attempts[n].0);
      Successes(attempts[..n], download, k0) + (if o.Response? && o.status == 200 then 1 else 0)
  }

  /** Downloading `a` and then `b` writes the files and counts the successes of downloading `a + b`. */
  lemma {:induction false} SavedAppend(files: map<string, string>, dir: string, a: seq<(string, string)>,
                                       b: seq<(string, string)>, download: (nat, string) -> FetchOutcome, k0: nat)
    ensures Saved(files, dir, a + b, download, k0) == Saved(Saved(files, dir, a, download, k0), dir, b, download, k0 + |a|)
    ensures Successes(a + b, download, k0) == Successes(a, download, k0) + Successes(b, download, k0 + |a|)
    decreases |b|
  {
    if b == [] {
      assert a + b == a;
    } else {
      var n := |b| - 1;
      assert (a + b)[..|a| + n] == a + b[..n];
      assert (a + b)[|a| + n] == b[n];
      SavedAppend(files, dir, a, b[..n], download, k0);
    }
  }

  /** One more download writes its file and counts a success exactly when it is answered 200. */
  lemma SavedStep(files: map<string, string>, dir: string, attempts: seq<(string, string)>, x: (string, string),
                  download: (nat, string) -> FetchOutcome, k0: nat)
    ensures var o := download(k0 + |attempts|, x.0);
      && Successes(attempts + [x], download, k0)
         == Successes(attempts, download, k0) + (if o.Response? && o.status == 200 then 1 else 0)
      && Saved(files, dir, attempts + [x], download, k0)
         == (if o.Response? && o.status == 200 then Saved(files, dir, attempts, download, k0)[dir + "/" + x.1 := o.body]
             else Saved(files, dir, attempts, download, k0))
  {
    assert (attempts + [x])[..|attempts|] == attempts;
  }

  /** How many of the page results came back empty (a failed request or an unparsable body). */
  function Unanswered(replies: seq<Option<Json>>): (n: nat)
    ensures n <= |replies|
    decreases |replies|
  {
    if replies == [] then 0
    else Unanswered(replies[..|replies| - 1]) + (if replies[|replies| - 1].None? then 1 else 0)
  }

  /** The downloads a page result leads to: one per photo with a URL when the result has photos, none otherwise. */
  function PageDownloads(r: Option<Json>, stamp: nat -> string, k0: nat): seq<(string, string)> {
    if r.Some? && r.value.Object? then Planned(r.value.photos, |r.value.photos|, stamp, k0) else []
  }

  /** One page of a query: the number of the request that settled it, and the downloads it made. */
  datatype PageVisit = PageVisit(request: nat, downloads: seq<(string, string)>)

  /** The downloads of the pages, in order. */
  function AllDownloads(visits: seq<PageVisit>): seq<(string, string)>
    decreases |visits|
  {
    if visits == [] then [] else AllDownloads(visits[..|visits| - 1]) + visits[|visits| - 1].downloads
  }

  /** The request count after the pages: one past the request that settled the last page. */
  function RequestsAfter(visits: seq<PageVisit>, k0: nat): nat {
    if visits == [] then k0 else visits[|visits| - 1].request + 1
  }

  /**
   * The pages of a query, from request number `k0` and download number `d0` on: page `i + 1` was
   * requested from where the previous page's requests ended, re-issued on 429 until request
   * `visits[i].request` settled it with the result `replies[i]`, and its downloads are those its
   * result leads to, numbered after the earlier pages' downloads.
   */
  ghost predicate QueryVisited(world: PexelsWorld, base: string, query: string, perPage: int, k0: nat, d0: nat,
                               replies: seq<Option<Json>>, visits: seq<PageVisit>)
  {
    |visits| == |replies| && forall i :: 0 <= i < |visits| ==> PageVisited(world, base, query, perPage, k0, d0, replies, visits, i)
  }

  /** Page `i + 1` of `QueryVisited`, given the pages before it. */
  ghost predicate PageVisited(world: PexelsWorld, base: string, query: string, perPage: int, k0: nat, d0: nat,
                              replies: seq<Option<Json>>, visits: seq<PageVisit>, i: nat)
    requires i < |visits| == |replies|
  {
    var req := PageRequest(base, query, i + 1, perPage);
    && SettledAt(world.reply, req, RequestsAfter(visits[..i], k0), visits[i].request)
    && replies[i] == Answer(world.reply(visits[i].request, req))
    && visits[i].downloads == PageDownloads(replies[i], world.stamp, d0 + |AllDownloads(visits[..i])|)
  }

  /** Every page a query visited was answered, by a request for that page, with its result. */
  lemma VisitedAnswered(world: PexelsWorld, base: string, query: string, perPage: int, k0: nat, d0: nat,
                        replies: seq<Option<Json>>, visits: seq<PageVisit>)
    requires QueryVisited(world, base, query, perPage, k0, d0, replies, visits)
    ensures PagesAnswered(world.reply, base, query, perPage, replies)
  {
    forall i | 0 <= i < |replies|
      ensures AnsweredBy(world.reply, PageRequest(base, query, i + 1, perPage), replies[i])
    {
      var req := PageRequest(base, query, i + 1, perPage);
      assert PageVisited(world, base, query, perPage, k0, d0, replies, visits, i);
      assert !TooMany(world.reply(visits[i].request, req)) && replies[i] == Answer(world.reply(visits[i].request, req));
    }
  }

  /** The downloads a crawler has attempted so far. */
  function StatsDownloads(s: PexelsStats): nat {
    s.successfulDownloads + s.failedDownloads
  }

  /**
   * The stats and files after requests up to number `requests` (of which `unanswered` gave no
   * result) and the downloads in `downloads`, from the stats `start` and the files `files0`:
   * the request count, the time of the last request, one error per empty result, the download
   * counters, and the files written by the downloads answered 200.
   */
  ghost predicate Accounted(world: PexelsWorld, dir: string, frequency: int, start: PexelsStats,
                            files0: map<string, string>, requests: nat, unanswered: nat,
                            downloads: seq<(string, string)>, stats: PexelsStats, files: map<string, string>)
  {
    RequestsAccounted(world, frequency, start, requests, unanswered, stats)
    && DownloadsAccounted(world, dir, start, files0, downloads, stats, files)
  }

  /** The request side of `Accounted`: the request count, the last request time and the errors. */
  ghost predicate RequestsAccounted(world: PexelsWorld, frequency: int, start: PexelsStats, requests: nat, unanswered: nat,
                                    stats: PexelsStats)
  {
    && start.totalRequests <= requests == stats.totalRequests
    && stats.lastRequestTime
       == LastSent(start.lastRequestTime, world.clock, start.totalRequests, requests - start.totalRequests, frequency)
    && stats.errors == start.errors + unanswered
  }

  /** The download side of `Accounted`: the two counters and the files written. */
  ghost predicate DownloadsAccounted(world: PexelsWorld, dir: string, start: PexelsStats, files0: map<string, string>,
                                     downloads: seq<(string, string)>, stats: PexelsStats, files: map<string, string>)
  {
    && StatsDownloads(stats) == StatsDownloads(start) + |downloads|
    && stats.successfulDownloads
       == start.successfulDownloads + Successes(downloads, world.download, StatsDownloads(start))
    && files == Saved(files0, dir, downloads, world.download, StatsDownloads(start))
  }

  /**
   * One more download `x`, made with the stats `s` and files `f` and answered by the world,
   * extends the downloads accounted from `start`.
   */
  lemma DownloadsAccountedStep(world: PexelsWorld, dir: string, start: PexelsStats, files0: map<string, string>,
                               attempts: seq<(string, string)>, x: (string, string), s: PexelsStats,
                               f: map<string, string>, s': PexelsStats, f': map<string, string>)
    requires DownloadsAccounted(world, dir, start, files0, attempts, s, f)
    requires var o := world.download(StatsDownloads(s), x.0);
      var ok := o.Response? && o.status == 200;
      && s' == s.(successfulDownloads := s.successfulDownloads + if ok then 1 else 0,
                  failedDownloads := s.failedDownloads + if ok then 0 else 1)
      && f' == if ok then f[dir + "/" + x.1 := o.body] else f
    ensures DownloadsAccounted(world, dir, start, files0, attempts + [x], s', f')
  {
    SavedStep(files0, dir, attempts, x, world.download, StatsDownloads(start));
  }

  /** Two runs of requests and downloads, one after the other, account for their sum. */
  lemma AccountedThen(world: PexelsWorld, dir: string, frequency: int,
                      s0: PexelsStats, f0: map<string, string>, r1: nat, u1: nat, d1: seq<(string, string)>,
                      s1: PexelsStats, f1: map<string, string>, r2: nat, u2: nat, d2: seq<(string, string)>,
                      s2: PexelsStats, f2: map<string, string>)
    requires Accounted(world, dir, frequency, s0, f0, r1, u1, d1, s1, f1)
    requires Accounted(world, dir, frequency, s1, f1, r2, u2, d2, s2, f2)
    ensures Accounted(world, dir, frequency, s0, f0, r2, u1 + u2, d1 + d2, s2, f2)
  {
    RequestsThen(world, frequency, s0, r1, u1, s1, r2, u2, s2);
    DownloadsThen(world, dir, s0, f0, d1, s1, f1, d2, s2, f2);
  }

  /** The request side of `AccountedThen`. */
  lemma RequestsThen(world: PexelsWorld, frequency: int, s0: PexelsStats, r1: nat, u1: nat, s1: PexelsStats,
                     r2: nat, u2: nat, s2: PexelsStats)
    requires RequestsAccounted(world, frequency, s0, r1, u1, s1)
    requires RequestsAccounted(world, frequency, s1, r2, u2, s2)
    ensures RequestsAccounted(world, frequency, s0, r2, u1 + u2, s2)
  {
    LastSentAppend(s0.lastRequestTime, world.clock, s0.totalRequests, r1, r2, frequency);
  }

  /** The download side of `AccountedThen`. */
  lemma DownloadsThen(world: PexelsWorld, dir: string, s0: PexelsStats, f0: map<string, string>, d1: seq<(string, string)>,
                      s1: PexelsStats, f1: map<string, string>, d2: seq<(string, string)>,
                      s2: PexelsStats, f2: map<string, string>)
    requires DownloadsAccounted(world, dir, s0, f0, d1, s1, f1)
    requires DownloadsAccounted(world, dir, s1, f1, d2, s2, f2)
    ensures DownloadsAccounted(world, dir, s0, f0, d1 + d2, s2, f2)
  {
    SavedAppend(f0, dir, d1, d2, world.download, StatsDownloads(s0));
  }

  /** No page so far was the "no more photos" reply. */
  predicate NoEndYet(replies: seq<Option<Json>>) {
    forall i :: 0 <= i < |replies| ==> !EndOfResults(replies[i])
  }

  /** The page loop ended with the "no more photos" reply. */
  predicate EndOfResults(r: Option<Json>) {
    r == Some(Object([]))
  }

  /**
   * The replies of one query's pages: at most `max_pages` of them, none before the last was the
   * empty photo list, and fewer than `max_pages` only when the last one was.
   */
  predicate PagingShape(replies: seq<Option<Json>>, maxPages: int) {
    && |replies| <= (if maxPages > 0 then maxPages else 0)
    && (forall i :: 0 <= i < |replies| - 1 ==> !EndOfResults(replies[i]))
    && (|replies| < maxPages ==> |replies| > 0 && EndOfResults(replies[|replies| - 1]))
  }

  /** A page visited as `crawl_car_images` visits it keeps the pages of the query visited. */
  lemma QueryVisitedStep(world: PexelsWorld, base: string, query: string, perPage: int, k0: nat, d0: nat,
                         replies: seq<Option<Json>>, visits: seq<PageVisit>, r: Option<Json>, v: PageVisit)
    requires QueryVisited(world, base, query, perPage, k0, d0, replies, visits)
    requires var req := PageRequest(base, query, |visits| + 1, perPage);
      && SettledAt(world.reply, req, RequestsAfter(visits, k0), v.request)
      && r == Answer(world.reply(v.request, req))
      && v.downloads == PageDownloads(r, world.stamp, d0 + |AllDownloads(visits)|)
    ensures QueryVisited(world, base, query, perPage, k0, d0, replies + [r], visits + [v])
  {
    var all := visits + [v];
    var rs := replies + [r];
    forall i | 0 <= i < |all|
      ensures PageVisited(world, base, query, perPage, k0, d0, rs, all, i)
    {
      if i < |visits| {
        assert PageVisited(world, base, query, perPage, k0, d0, replies, visits, i);
        assert all[..i] == visits[..i] && all[i] == visits[i] && rs[i] == replies[i];
      } else {
        assert all[..i] == visits && all[i] == v && rs[i] == r;
      }
    }
  }

  /**
   * One search, from the stats `before` to `mid`: `req` was sent until it settled at request
   * `mid.totalRequests - 1`, its answer is `r`, and only the request counters moved.
   */
  ghost predicate Searched(world: PexelsWorld, frequency: int, req: SearchRequest, before: PexelsStats,
                           mid: PexelsStats, r: Option<Json>)
  {
    && before.totalRequests < mid.totalRequests
    && SettledAt(world.reply, req, before.totalRequests, mid.totalRequests - 1)
    && r == Answer(world.reply(mid.totalRequests - 1, req))
    && mid.lastRequestTime
       == LastSent(before.lastRequestTime, world.clock, before.totalRequests, mid.totalRequests - before.totalRequests, frequency)
    && mid.errors == before.errors + AnswerErrors(world.reply(mid.totalRequests - 1, req))
    && mid.successfulDownloads == before.successfulDownloads && mid.failedDownloads == before.failedDownloads
  }

  /** Downloads alone, which change only the download counters and the files, are accounted without requests. */
  lemma DownloadsOnly(world: PexelsWorld, dir: string, frequency: int, mid: PexelsStats, fb: map<string, string>,
                      attempts: seq<(string, string)>, after: PexelsStats, fa: map<string, string>)
    requires after == mid.(successfulDownloads := after.successfulDownloads, failedDownloads := after.failedDownloads)
    requires StatsDownloads(after) == StatsDownloads(mid) + |attempts|
    requires after.successfulDownloads == mid.successfulDownloads + Successes(attempts, world.download, StatsDownloads(mid))
    requires fa == Saved(fb, dir, attempts, world.download, StatsDownloads(mid))
    ensures Accounted(world, dir, frequency, mid, fb, mid.totalRequests, 0, attempts, after, fa)
  {
  }

  /**
   * One page of the page loop, from the stats `before` and files `fb`: the search that settled
   * at request `mid.totalRequests - 1` with result `r`, then the downloads `attempts` its result
   * leads to. The query's pages and its accounting are extended by that page.
   */
  lemma QueryStep(world: PexelsWorld, base: string, query: string, perPage: int, dir: string, frequency: int,
                  start: PexelsStats, files0: map<string, string>, replies: seq<Option<Json>>, visits: seq<PageVisit>,
                  before: PexelsStats, fb: map<string, string>, mid: PexelsStats, r: Option<Json>,
                  attempts: seq<(string, string)>, after: PexelsStats, fa: map<string, string>)
    requires QueryVisited(world, base, query, perPage, start.totalRequests, StatsDownloads(start), replies, visits)
    requires Accounted(world, dir, frequency, start, files0, RequestsAfter(visits, start.totalRequests),
                       Unanswered(replies), AllDownloads(visits), before, fb)
    requires Searched(world, frequency, PageRequest(base, query, |replies| + 1, perPage), before, mid, r)
    requires attempts == PageDownloads(r, world.stamp, StatsDownloads(mid))
    requires Accounted(world, dir, frequency, mid, fb, mid.totalRequests, 0, attempts, after, fa)
    ensures var v := PageVisit(mid.totalRequests - 1, attempts);
      && QueryVisited(world, base, query, perPage, start.totalRequests, StatsDownloads(start), replies + [r], visits + [v])
      && Accounted(world, dir, frequency, start, files0, RequestsAfter(visits + [v], start.totalRequests),
                   Unanswered(replies + [r]), AllDownloads(visits + [v]), after, fa)
  {
    var req := PageRequest(base, query, |replies| + 1, perPage);
    var v := PageVisit(mid.totalRequests - 1, attempts);
    QueryVisitedStep(world, base, query, perPage, start.totalRequests, StatsDownloads(start), replies, visits, r, v);
    AnswerOrError(world.reply(mid.totalRequests - 1, req));
    var u := if r.None? then 1 else 0;
    assert Accounted(world, dir, frequency, before, fb, mid.totalRequests, u, attempts, after, fa);
    AccountedThen(world, dir, frequency, start, files0, RequestsAfter(visits, start.totalRequests),
                  Unanswered(replies), AllDownloads(visits), before, fb, mid.totalRequests, u, attempts, after, fa);
    assert (replies + [r])[..|replies|] == replies;
    assert (visits + [v])[..|visits|] == visits;
  }

  /** The request count after the queries' pages. */
  function RequestsAfterAll(visits: seq<seq<PageVisit>>, k0: nat): nat
    decreases |visits|
  {
    if visits == [] then k0 else RequestsAfter(visits[|visits| - 1], RequestsAfterAll(visits[..|visits| - 1], k0))
  }

  /** The downloads of the queries' pages, in order. */
  function DownloadsOf(visits: seq<seq<PageVisit>>): seq<(string, string)>
    decreases |visits|
  {
    if visits == [] then [] else DownloadsOf(visits[..|visits| - 1]) + AllDownloads(visits[|visits| - 1])
  }

  /** The empty page results over all queries. */
  function UnansweredAll(perQuery: seq<seq<Option<Json>>>): nat
    decreases |perQuery|
  {
    if perQuery == [] then 0 else UnansweredAll(perQuery[..|perQuery| - 1]) + Unanswered(perQuery[|perQuery| - 1])
  }

  /**
   * The queries visited in order from request number `k0` and download number `d0`: each query's pages were visited from
   * the request and download counts the previous queries ended with.
   */
  ghost predicate QueriesVisited(world: PexelsWorld, base: string, queries: seq<string>, perPage: int, k0: nat, d0: nat,
                                 perQuery: seq<seq<Option<Json>>>, visits: seq<seq<PageVisit>>)
  {
    && |perQuery| == |visits| <= |queries|
    && forall q :: 0 <= q < |visits| ==> QueryOf(world, base, queries, perPage, k0, d0, perQuery, visits, q)
  }

  /** Query `q` of `QueriesVisited`, given the queries before it. */
  ghost predicate QueryOf(world: PexelsWorld, base: string, queries: seq<string>, perPage: int, k0: nat, d0: nat,
                          perQuery: seq<seq<Option<Json>>>, visits: seq<seq<PageVisit>>, q: nat)
    requires q < |perQuery| == |visits| <= |queries|
  {
    QueryVisited(world, base, queries[q], perPage, RequestsAfterAll(visits[..q], k0),
                 d0 + |DownloadsOf(visits[..q])|, perQuery[q], visits[q])
  }

  /** Each query's page results are the answers to that query's page requests. */
  lemma QueriesAnswered(world: PexelsWorld, base: string, queries: seq<string>, perPage: int, k0: nat, d0: nat,
                        perQuery: seq<seq<Option<Json>>>, visits: seq<seq<PageVisit>>)
    requires QueriesVisited(world, base, queries, perPage, k0, d0, perQuery, visits)
    ensures forall q :: 0 <= q < |perQuery| ==> PagesAnswered(world.reply, base, queries[q], perPage, perQuery[q])
  {
    forall q | 0 <= q < |perQuery|
      ensures PagesAnswered(world.reply, base, queries[q], perPage, perQuery[q])
    {
      assert QueryOf(world, base, queries, perPage, k0, d0, perQuery, visits, q);
      VisitedAnswered(world, base, queries[q], perPage, RequestsAfterAll(visits[..q], k0), d0 + |DownloadsOf(visits[..q])|,
                      perQuery[q], visits[q]);
    }
  }

  /** A query visited from where the earlier ones ended extends the queries visited and their accounting. */
  lemma QueriesStep(world: PexelsWorld, base: string, queries: seq<string>, perPage: int, dir: string, frequency: int,
                    start: PexelsStats, files0: map<string, string>,
                    perQuery: seq<seq<Option<Json>>>, visits: seq<seq<PageVisit>>, s: PexelsStats, f: map<string, string>,
                    replies: seq<Option<Json>>, qv: seq<PageVisit>, s': PexelsStats, f': map<string, string>)
    requires QueriesVisited(world, base, queries, perPage, start.totalRequests, StatsDownloads(start), perQuery, visits) && |visits| < |queries|
    requires Accounted(world, dir, frequency, start, files0, RequestsAfterAll(visits, start.totalRequests),
                       UnansweredAll(perQuery), DownloadsOf(visits), s, f)
    requires QueryVisited(world, base, queries[|visits|], perPage, s.totalRequests, StatsDownloads(s), replies, qv)
    requires Accounted(world, dir, frequency, s, f, RequestsAfter(qv, s.totalRequests), Unanswered(replies), AllDownloads(qv), s', f')
    ensures QueriesVisited(world, base, queries, perPage, start.totalRequests, StatsDownloads(start), perQuery + [replies], visits + [qv])
    ensures Accounted(world, dir, frequency, start, files0, RequestsAfterAll(visits + [qv], start.totalRequests),
                      UnansweredAll(perQuery + [replies]), DownloadsOf(visits + [qv]), s', f')
  {
    QueriesAccountedStep(world, dir, frequency, start, files0, perQuery, visits, s, f, replies, qv, s', f');
    assert s.totalRequests == RequestsAfterAll(visits, start.totalRequests);
    assert StatsDownloads(s) == StatsDownloads(start) + |DownloadsOf(visits)|;
    QueriesVisitedStep(world, base, queries, perPage, start.totalRequests, StatsDownloads(start), perQuery, visits, s.totalRequests, StatsDownloads(s), replies, qv);
  }

  /** The accounting half of `QueriesStep`. */
  lemma QueriesAccountedStep(world: PexelsWorld, dir: string, frequency: int, start: PexelsStats, files0: map<string, string>,
                             perQuery: seq<seq<Option<Json>>>, visits: seq<seq<PageVisit>>, s: PexelsStats,
                             f: map<string, string>, replies: seq<Option<Json>>, qv: seq<PageVisit>,
                             s': PexelsStats, f': map<string, string>)
    requires Accounted(world, dir, frequency, start, files0, RequestsAfterAll(visits, start.totalRequests),
                       UnansweredAll(perQuery), DownloadsOf(visits), s, f)
    requires Accounted(world, dir, frequency, s, f, RequestsAfter(qv, s.totalRequests), Unanswered(replies), AllDownloads(qv), s', f')
    ensures Accounted(world, dir, frequency, start, files0, RequestsAfterAll(visits + [qv], start.totalRequests),
                      UnansweredAll(perQuery + [replies]), DownloadsOf(visits + [qv]), s', f')
  {
    assert RequestsAccounted(world, frequency, start, RequestsAfterAll(visits + [qv], start.totalRequests),
                             UnansweredAll(perQuery + [replies]), s') by {
      QueriesAppend(perQuery, visits, replies, qv, start.totalRequests);
      assert s.totalRequests == RequestsAfterAll(visits, start.totalRequests);
      RequestsThen(world, frequency, start, RequestsAfterAll(visits, start.totalRequests), UnansweredAll(perQuery), s,
                   RequestsAfter(qv, s.totalRequests), Unanswered(replies), s');
    }
    assert DownloadsAccounted(world, dir, start, files0, DownloadsOf(visits + [qv]), s', f') by {
      QueriesAppend(perQuery, visits, replies, qv, start.totalRequests);
      DownloadsThen(world, dir, start, files0, DownloadsOf(visits), s, f, AllDownloads(qv), s', f');
    }
  }

  /** The totals over the queries, one more query appended. */
  lemma QueriesAppend(perQuery: seq<seq<Option<Json>>>, visits: seq<seq<PageVisit>>, replies: seq<Option<Json>>,
                      qv: seq<PageVisit>, k0: nat)
    ensures RequestsAfterAll(visits + [qv], k0) == RequestsAfter(qv, RequestsAfterAll(visits, k0))
    ensures DownloadsOf(visits + [qv]) == DownloadsOf(visits) + AllDownloads(qv)
    ensures UnansweredAll(perQuery + [replies]) == UnansweredAll(perQuery) + Unanswered(replies)
  {
    assert (visits + [qv])[..|visits|] == visits;
    assert (perQuery + [replies])[..|perQuery|] == perQuery;
  }

  /** A query visited from where the earlier ones ended extends the queries visited. */
  lemma QueriesVisitedStep(world: PexelsWorld, base: string, queries: seq<string>, perPage: int, k0: nat, d0: nat,
                           perQuery: seq<seq<Option<Json>>>, visits: seq<seq<PageVisit>>, k: nat, d: nat,
                           replies: seq<Option<Json>>, qv: seq<PageVisit>)
    requires QueriesVisited(world, base, queries, perPage, k0, d0, perQuery, visits) && |visits| < |queries|
    requires k == RequestsAfterAll(visits, k0) && d == d0 + |DownloadsOf(visits)|
    requires QueryVisited(world, base, queries[|visits|], perPage, k, d, replies, qv)
    ensures QueriesVisited(world, base, queries, perPage, k0, d0, perQuery + [replies], visits + [qv])
  {
    var all := visits + [qv];
    var rs := perQuery + [replies];
    forall q | 0 <= q < |all|
      ensures QueryOf(world, base, queries, perPage, k0, d0, rs, all, q)
    {
      if q < |visits| {
        assert QueryOf(world, base, queries, perPage, k0, d0, perQuery, visits, q);
        assert all[..q] == visits[..q] && all[q] == visits[q] && rs[q] == perQuery[q];
      } else {
        assert all[..q] == visits && all[q] == qv && rs[q] == replies;
        assert RequestsAfterAll(all[..q], k0) == k;
        assert d0 + |DownloadsOf(all[..q])| == d;
      }
    }
  }

  /**
   * The request loop of `_make_request`, from request number `k0` and last request time `last0`:
   * a 429 reply is re-issued, the first other reply settles it. Before each attempt the rate
   * limit pause is taken and the request time recorded; `n` attempts were made in all.
   */
  method IssueUntilSettled(req: SearchRequest, world: PexelsWorld, k0: nat, last0: Option<real>, frequency: int)
    returns (n: nat, waits: seq<real>, last: Option<real>, reply: ApiReply)
    requires Settles(world.reply, k0, req)
    ensures n > 0
    ensures forall j :: k0 <= j < k0 + n - 1 ==> TooMany(world.reply(j, req))
    ensures reply == world.reply(k0 + n - 1, req) && !TooMany(reply)
    ensures SentSoFar(last0, world.clock, k0, n, frequency, waits, last)
  {
    ghost var stop :| stop >= k0 && !TooMany(world.reply(stop, req));
    n := 0;
    last := last0;
    waits := [];
    while true
      invariant k0 + n <= stop
      invariant forall j :: k0 <= j < k0 + n ==> TooMany(world.reply(j, req))
      invariant SentSoFar(last0, world.clock, k0, n, frequency, waits, last)
      decreases stop - n
    {
      SentStep(last0, world.clock, k0, n, frequency, waits, last);
      var now := world.clock(k0 + n);
      var wait := RateLimitWait(last, now, frequency);
      waits := waits + [wait];
      last := Some(now + wait);
      reply := world.reply(k0 + n, req);
      n := n + 1;
      if !TooMany(reply) {
        return;
      }
    }
  }

  /** `PexelsCarCrawler`: its configuration, the stats dictionary and the files it has written. */
  class PexelsCarCrawler {
    const baseUrl: Option<string>
    const secretKey: Option<string>
    const requestFrequency: int
    const resourceDir: string
    var stats: PexelsStats
    var files: map<string, string>

    /** `__init__`: the configuration is taken as given, the counters start at zero. */
    constructor (config: PexelsConfig)
      ensures baseUrl == config.baseUrl && secretKey == config.secretKey
      ensures requestFrequency == config.requestFrequency && resourceDir == config.resourceDir
      ensures stats == InitialStats && files == map[]
    {
      baseUrl := config.baseUrl;
      secretKey := config.secretKey;
      requestFrequency := config.requestFrequency;
      resourceDir := config.resourceDir;
      stats := InitialStats;
      files := map[];
    }

    /** How many downloads this crawler has attempted. */
    function Downloads(): nat
      reads this
    {
      StatsDownloads(stats)
    }

    /**
     * `get_stats`: a copy of the counters. The stats are a value here, so nothing the caller
     * does with the result can reach the crawler, and reading them changes nothing.
     */
    method GetStats() returns (s: PexelsStats)
      ensures s == stats
      ensures s.successfulDownloads + s.failedDownloads == Downloads()
    {
      s := stats;
    }

    /**
     * `_make_request`: each attempt first waits out the rate limit, then counts the request and
     * records its time; a 429 reply waits 60 seconds and repeats the request. The first other
     * reply decides: the parsed body of a 200, or nothing with one more error. `rateWaits`
     * holds the pause before each attempt (0 when there was none).
     */
    method MakeRequest(req: SearchRequest, world: PexelsWorld) returns (r: Option<Json>, rateWaits: seq<real>)
      requires Settles(world.reply, stats.totalRequests, req)
      modifies this
      ensures stats.totalRequests > old(stats.totalRequests)
      ensures forall k :: old(stats.totalRequests) <= k < stats.totalRequests - 1 ==> TooMany(world.reply(k, req))
      ensures !TooMany(world.reply(stats.totalRequests - 1, req))
      ensures r == Answer(world.reply(stats.totalRequests - 1, req))
      ensures AnsweredBy(world.reply, req, r)
      ensures var n := stats.totalRequests - old(stats.totalRequests);
        && rateWaits == RateWaits(old(stats.lastRequestTime), world.clock, old(stats.totalRequests), n, requestFrequency)
        && stats.lastRequestTime == LastSent(old(stats.lastRequestTime), world.clock, old(stats.totalRequests), n, requestFrequency)
      ensures stats.errors == old(stats.errors) + AnswerErrors(world.reply(stats.totalRequests - 1, req))
      ensures stats == old(stats).(totalRequests := stats.totalRequests, errors := stats.errors,
                                   lastRequestTime := stats.lastRequestTime)
      ensures files == old(files)
    {
      var k0 := stats.totalRequests;
      var n, last, reply;
      n, rateWaits, last, reply := IssueUntilSettled(req, world, k0, stats.lastRequestTime, requestFrequency);
      r := Answer(reply);
      stats := stats.(totalRequests := k0 + n, lastRequestTime := last, errors := stats.errors + AnswerErrors(reply));
    }

    /**
     * `search_cars`: the request to `<base_url>/search/photos` for this query and page, issued
     * as `_make_request` issues it: settled by the request numbered one below the new count.
     */
    method SearchCars(query: string, page: int, perPage: int, world: PexelsWorld) returns (r: Option<Json>)
      requires Settles(world.reply, stats.totalRequests, PageRequest(BaseText(baseUrl), query, page, perPage))
      modifies this
      ensures AnsweredBy(world.reply, PageRequest(BaseText(baseUrl), query, page, perPage), r)
      ensures var req := PageRequest(BaseText(baseUrl), query, page, perPage);
        && old(stats.totalRequests) < stats.totalRequests
        && SettledAt(world.reply, req, old(stats.totalRequests), stats.totalRequests - 1)
        && r == Answer(world.reply(stats.totalRequests - 1, req))
        && stats.errors == old(stats.errors) + AnswerErrors(world.reply(stats.totalRequests - 1, req))
      ensures stats.lastRequestTime == LastSent(old(stats.lastRequestTime), world.clock, old(stats.totalRequests),
                                                stats.totalRequests - old(stats.totalRequests), requestFrequency)
      ensures stats == old(stats).(totalRequests := stats.totalRequests, errors := stats.errors,
                                   lastRequestTime := stats.lastRequestTime)
      ensures Searched(world, requestFrequency, PageRequest(BaseText(baseUrl), query, page, perPage), old(stats), stats, r)
      ensures stats.totalRequests > old(stats.totalRequests)
      ensures stats.successfulDownloads == old(stats.successfulDownloads)
      ensures stats.failedDownloads == old(stats.failedDownloads)
      ensures stats.errors <= old(stats.errors) + 1
      ensures stats.startTime == old(stats.startTime)
      ensures stats.duration == old(stats.duration) && stats.totalDownloaded == old(stats.totalDownloaded)
      ensures files == old(files)
    {
      var waits;
      r, waits := MakeRequest(PageRequest(BaseText(baseUrl), query, page, perPage), world);
    }

    /**
     * `download_image`: a 200 writes the body to `<resource_dir>/<filename>` and counts a
     * success; any other status or an exception counts a failure. Exactly one counter moves.
     */
    method DownloadImage(imageUrl: string, filename: string, world: PexelsWorld) returns (ok: bool)
      modifies this
      ensures var o := world.download(old(Downloads()), imageUrl);
        && ok == (o.Response? && o.status == 200)
        && (ok ==> files == old(files)[resourceDir + "/" + filename := o.body])
      ensures !ok ==> files == old(files)
      ensures stats == old(stats).(successfulDownloads := old(stats.successfulDownloads) + if ok then 1 else 0,
                                   failedDownloads := old(stats.failedDownloads) + if ok then 0 else 1)
      ensures Downloads() == old(Downloads()) + 1
    {
      var o := world.download(Downloads(), imageUrl);
      if o.Response? && o.status == 200 {
        files := files[resourceDir + "/" + filename := o.body];
        stats := stats.(successfulDownloads := stats.successfulDownloads + 1);
        ok := true;
      } else {
        stats := stats.(failedDownloads := stats.failedDownloads + 1);
        ok := false;
      }
    }

    /**
     * The photo loop of one page: every photo with a URL is downloaded under its generated
     * name, in order, and `downloaded` counts the successes.
     */
    method DownloadPhotos(photos: seq<Photo>, world: PexelsWorld) returns (downloaded: nat, attempts: seq<(string, string)>)
      modifies this
      ensures attempts == Planned(photos, |photos|, world.stamp, old(Downloads()))
      ensures Downloads() == old(Downloads()) + |attempts|
      ensures downloaded == stats.successfulDownloads - old(stats.successfulDownloads)
      ensures stats == old(stats).(successfulDownloads := stats.successfulDownloads, failedDownloads := stats.failedDownloads)
      ensures stats.successfulDownloads >= old(stats.successfulDownloads)
      ensures stats.successfulDownloads == old(stats.successfulDownloads) + Successes(attempts, world.download, old(Downloads()))
      ensures files == Saved(old(files), resourceDir, attempts, world.download, old(Downloads()))
    {
      downloaded := 0;
      attempts := [];
      ghost var k0 := Downloads();
      for index := 0 to |photos|
        invariant attempts == Planned(photos, index, world.stamp, k0)
        invariant DownloadsAccounted(world, resourceDir, old(stats), old(files), attempts, stats, files)
        invariant stats.successfulDownloads >= old(stats.successfulDownloads)
        invariant downloaded == stats.successfulDownloads - old(stats.successfulDownloads)
        invariant stats == old(stats).(successfulDownloads := stats.successfulDownloads, failedDownloads := stats.failedDownloads)
      {
        var photo := photos[index];
        var imageUrl := ImageUrl(photo.src);
        if imageUrl.None? {
          PlannedStep(photos, index, world.stamp, k0);
          continue;
        }
        var done := Downloads();
        assert done == k0 + |attempts|;
        ghost var s0, f0 := stats, files;
        var filename := PhotoFilename(photo, index, world.stamp(done));
        PlannedNext(photos, index, world.stamp, k0, attempts, photo, imageUrl.value, done, filename);
        var success := DownloadImage(imageUrl.value, filename, world);
        DownloadsAccountedStep(world, resourceDir, old(stats), old(files), attempts, (imageUrl.value, filename),
                               s0, f0, stats, files);
        attempts := attempts + [(imageUrl.value, filename)];
        if success {
          downloaded := downloaded + 1;
        }
      }
    }

    /**
     * One page of the page loop: the search for page `page`, the one after `replies`, then, when its result has
     * photos, their downloads. The query's pages and its accounting are extended by this page.
     */
    method CrawlPage(query: string, page: int, perPage: int, world: PexelsWorld, ghost start: PexelsStats,
                     ghost files0: map<string, string>, ghost replies: seq<Option<Json>>, ghost visits: seq<PageVisit>)
      returns (result: Option<Json>, downloaded: nat, ghost v: PageVisit)
      requires forall k: nat, req: SearchRequest :: Settles(world.reply, k, req)
      requires page == |replies| + 1
      requires QueryVisited(world, BaseText(baseUrl), query, perPage, start.totalRequests, StatsDownloads(start), replies, visits)
      requires Accounted(world, resourceDir, requestFrequency, start, files0, RequestsAfter(visits, start.totalRequests),
                         Unanswered(replies), AllDownloads(visits), stats, files)
      modifies this
      ensures QueryVisited(world, BaseText(baseUrl), query, perPage, start.totalRequests, StatsDownloads(start),
                           replies + [result], visits + [v])
      ensures Accounted(world, resourceDir, requestFrequency, start, files0, RequestsAfter(visits + [v], start.totalRequests),
                        Unanswered(replies + [result]), AllDownloads(visits + [v]), stats, files)
      ensures downloaded == stats.successfulDownloads - old(stats.successfulDownloads)
      ensures stats.totalRequests > old(stats.totalRequests)
      ensures stats.startTime == old(stats.startTime)
      ensures stats.duration == old(stats.duration) && stats.totalDownloaded == old(stats.totalDownloaded)
    {
      ghost var before, fb := stats, files;
      result := SearchCars(query, page, perPage, world);
      ghost var mid, fm := stats, files;
      var attempts: seq<(string, string)> := [];
      downloaded := 0;
      if result.Some? && result.value.Object? && result.value.photos != [] {
        downloaded, attempts := DownloadPhotos(result.value.photos, world);
      }
      DownloadsOnly(world, resourceDir, requestFrequency, mid, fm, attempts, stats, files);
      QueryStep(world, BaseText(baseUrl), query, perPage, resourceDir, requestFrequency, start, files0, replies, visits,
                before, fb, mid, result, attempts, stats, files);
      v := PageVisit(mid.totalRequests - 1, attempts);
    }

    /**
     * The page loop of one query: pages 1 to `max_pages`; a page without a result is skipped,
     * a result without photos ends the query. `replies` holds each page's result in order, and
     * `visits` the request that settled each page and the downloads its photos led to.
     */
    method CrawlQuery(query: string, maxPages: int, perPage: int, world: PexelsWorld)
      returns (downloaded: nat, replies: seq<Option<Json>>, ghost visits: seq<PageVisit>)
      requires forall k: nat, req: SearchRequest :: Settles(world.reply, k, req)
      modifies this
      ensures PagingShape(replies, maxPages)
      ensures PagesAnswered(world.reply, BaseText(baseUrl), query, perPage, replies)
      ensures QueryVisited(world, BaseText(baseUrl), query, perPage, old(stats.totalRequests), StatsDownloads(old(stats)), replies, visits)
      ensures Accounted(world, resourceDir, requestFrequency, old(stats), old(files),
                        RequestsAfter(visits, old(stats.totalRequests)), Unanswered(replies), AllDownloads(visits), stats, files)
      ensures downloaded == stats.successfulDownloads - old(stats.successfulDownloads)
      ensures stats.successfulDownloads >= old(stats.successfulDownloads)
      ensures stats.totalRequests >= old(stats.totalRequests) + |replies|
      ensures stats.startTime == old(stats.startTime)
      ensures stats.duration == old(stats.duration) && stats.totalDownloaded == old(stats.totalDownloaded)
    {
      downloaded := 0;
      replies := [];
      visits := [];
      var page := 1;
      while page <= maxPages
        invariant 1 <= page && |replies| == page - 1
        invariant NoEndYet(replies)
        invariant QueryVisited(world, BaseText(baseUrl), query, perPage, old(stats.totalRequests), StatsDownloads(old(stats)), replies, visits)
        invariant Accounted(world, resourceDir, requestFrequency, old(stats), old(files),
                            RequestsAfter(visits, old(stats.totalRequests)), Unanswered(replies), AllDownloads(visits), stats, files)
        invariant page > 1 ==> page - 1 <= maxPages
        invariant stats.successfulDownloads >= old(stats.successfulDownloads)
        invariant downloaded == stats.successfulDownloads - old(stats.successfulDownloads)
        invariant stats.totalRequests >= old(stats.totalRequests) + |replies|
        invariant stats.startTime == old(stats.startTime)
        invariant stats.duration == old(stats.duration) && stats.totalDownloaded == old(stats.totalDownloaded)
        decreases maxPages - page
      {
        var result, d, v := CrawlPage(query, page, perPage, world, old(stats), old(files), replies, visits);
        downloaded := downloaded + d;
        replies := replies + [result];
        visits := visits + [v];
        if EndOfResults(result) {
          break;
        }
        page := page + 1;
      }
      VisitedAnswered(world, BaseText(baseUrl), query, perPage, old(stats.totalRequests), StatsDownloads(old(stats)), replies, visits);
    }

    /** The query loop of `crawl_car_images`: each query's page loop in turn. */
    method CrawlQueries(queries: seq<string>, maxPages: int, perPage: int, world: PexelsWorld)
      returns (totalDownloaded: nat, perQuery: seq<seq<Option<Json>>>, ghost visits: seq<seq<PageVisit>>)
      requires forall k: nat, req: SearchRequest :: Settles(world.reply, k, req)
      modifies this
      ensures |perQuery| == |queries| == |visits|
      ensures forall q :: 0 <= q < |queries| ==> PagingShape(perQuery[q], maxPages)
      ensures forall q :: 0 <= q < |queries| ==> PagesAnswered(world.reply, BaseText(baseUrl), queries[q], perPage, perQuery[q])
      ensures QueriesVisited(world, BaseText(baseUrl), queries, perPage, old(stats.totalRequests), StatsDownloads(old(stats)), perQuery, visits)
      ensures Accounted(world, resourceDir, requestFrequency, old(stats), old(files),
                        RequestsAfterAll(visits, old(stats.totalRequests)), UnansweredAll(perQuery), DownloadsOf(visits),
                        stats, files)
      ensures totalDownloaded == stats.successfulDownloads - old(stats.successfulDownloads)
      ensures stats.startTime == old(stats.startTime)
    {
      totalDownloaded := 0;
      perQuery := [];
      visits := [];
      for q := 0 to |queries|
        invariant |perQuery| == q && |visits| == q
        invariant forall i :: 0 <= i < q ==> PagingShape(perQuery[i], maxPages)
        invariant QueriesVisited(world, BaseText(baseUrl), queries, perPage, old(stats.totalRequests), StatsDownloads(old(stats)), perQuery, visits)
        invariant Accounted(world, resourceDir, requestFrequency, old(stats), old(files),
                            RequestsAfterAll(visits, old(stats.totalRequests)), UnansweredAll(perQuery), DownloadsOf(visits),
                            stats, files)
        invariant stats.successfulDownloads >= old(stats.successfulDownloads)
        invariant totalDownloaded == stats.successfulDownloads - old(stats.successfulDownloads)
        invariant stats.startTime == old(stats.startTime)
      {
        ghost var s, f := stats, files;
        var downloaded, replies, qv := CrawlQuery(queries[q], maxPages, perPage, world);
        QueriesStep(world, BaseText(baseUrl), queries, perPage, resourceDir, requestFrequency, old(stats), old(files),
                    perQuery, visits, s, f, replies, qv, stats, files);
        totalDownloaded := totalDownloaded + downloaded;
        perQuery := perQuery + [replies];
        visits := visits + [qv];
      }
      QueriesAnswered(world, BaseText(baseUrl), queries, perPage, old(stats.totalRequests), StatsDownloads(old(stats)), perQuery, visits);
    }

    /**
     * `crawl_car_images`: an invalid configuration returns at once, before any request;
     * otherwise every query (the five defaults when none are given) runs its page loop, and
     * the total downloaded and the duration are stored in the stats and returned.
     * `perQuery[q]` holds the page results of `queries[q]`, each the answer to its own request,
     * and `visits[q]` the requests and downloads of its pages, the queries taken one after another.
     * `started` and `finished` are the two clock readings of the crawl.
     */
    method CrawlCarImages(searchQueries: Option<seq<string>>, maxPages: int, imagesPerPage: int,
                          world: PexelsWorld, started: real, finished: real)
      returns (result: CarCrawlResult, perQuery: seq<seq<Option<Json>>>, ghost visits: seq<seq<PageVisit>>)
      requires forall k: nat, req: SearchRequest :: Settles(world.reply, k, req)
      modifies this
      ensures result.InvalidConfiguration? <==> !ValidateConfig(secretKey, baseUrl)
      ensures result.InvalidConfiguration? ==> stats == old(stats) && files == old(files) && perQuery == [] && visits == []
      ensures result.Finished? ==>
        var queries := searchQueries.GetOr(DefaultQueries);
        && |perQuery| == |queries|
        && (forall q :: 0 <= q < |queries| ==> PagingShape(perQuery[q], maxPages))
        && (forall q :: 0 <= q < |queries| ==> PagesAnswered(world.reply, BaseText(baseUrl), queries[q], imagesPerPage, perQuery[q]))
        && QueriesVisited(world, BaseText(baseUrl), queries, imagesPerPage, old(stats.totalRequests), StatsDownloads(old(stats)), perQuery, visits)
        && |visits| == |queries|
        && Accounted(world, resourceDir, requestFrequency, old(stats), old(files),
                     RequestsAfterAll(visits, old(stats.totalRequests)), UnansweredAll(perQuery), DownloadsOf(visits),
                     stats, files)
        && result.totalDownloaded == Successes(DownloadsOf(visits), world.download, StatsDownloads(old(stats)))
        && result.totalDownloaded == stats.successfulDownloads - old(stats.successfulDownloads)
        && result.duration == finished - started
        && stats.startTime == Some(started) && stats.duration == Some(finished - started)
        && stats.totalDownloaded == Some(result.totalDownloaded)
        && result.stats == stats
    {
      if !ValidateConfig(secretKey, baseUrl) {
        return InvalidConfiguration, [], [];
      }
      var queries := searchQueries.GetOr(DefaultQueries);
      stats := stats.(startTime := Some(started));
      var totalDownloaded;
      totalDownloaded, perQuery, visits := CrawlQueries(queries, maxPages, imagesPerPage, world);
      var duration := finished - started;
      stats := stats.(duration := Some(duration), totalDownloaded := Some(totalDownloaded));
      result := Finished(totalDownloaded, duration, stats);
    }
  }
}
