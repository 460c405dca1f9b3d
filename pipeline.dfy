/**
 * The per-candidate loop shared by the generic, Bing and Google crawlers: for each URL,
 * skip it if it is already catalogued or is not an image, otherwise save a record, download
 * the file and record the download's outcome on the record.
 */
module CrawlPipeline {
  import opened Wrappers
  import opened Text
  import opened ContentTypes
  import opened Filenames
  import opened Fetching
  import opened Extraction

  /** The `ImageResourceCreate` a crawler builds for a candidate. */
  datatype NewRecord = NewRecord(
    url: string, filename: string, filePath: string, source: string, searchQuery: string,
    tags: Option<seq<string>>, format: Option<string>, sourceUrl: Option<string>)

  /** `_save_image_record`: the id of the stored record, an exception, or no catalogue service. */
  datatype SaveOutcome = Saved(id: string) | SaveRaised | NoService

  /** `_download_image`'s GET: a reply with its status, an exception, or no HTTP client. */
  datatype DownloadOutcome = Fetched(status: int) | DownloadRaised | NoClient

  /** One `update_download_status` call. */
  datatype StatusUpdate = StatusUpdate(id: string, status: string, errorMessage: Option<string>)

  /**
   * The outside world as the loop sees it. `catalogued` answers `_check_image_exists` (False when
   * there is no service or the lookup raises), `probe` the content-type probe's exchanges,
   * `save` the catalogue insert, `download` the image GET, `updateRaises` whether a status
   * update raises, and `digest` the SHA-1 hex digest of the clock reading used in the filename.
   */
  datatype Env = Env(
    catalogued: string -> bool,
    probe: string -> ProbeReplies,
    save: NewRecord -> SaveOutcome,
    download: string -> DownloadOutcome,
    updateRaises: StatusUpdate -> bool,
    digest: string -> string)

  /** What distinguishes the crawlers in the loop: source name, storage directory, extension table and page URL. */
  datatype Site = Site(source: string, resourceDir: string, table: seq<(string, string)>, sourceUrl: Option<string>)

  /**
   * What the loop accumulates: the `saved` and `downloaded` it returns, the stats counters
   * `saved_records` and `errors` it moves, and the records saved, URLs downloaded and status
   * updates issued, in order.
   */
  datatype Tally = Tally(
    saved: nat, downloaded: nat, savedRecords: nat, errors: nat,
    records: seq<NewRecord>, downloads: seq<string>, updates: seq<StatusUpdate>)

  const EmptyTally := Tally(0, 0, 0, 0, [], [], [])

  /**
   * The record a crawler saves for an image candidate. The file path joins the resource
   * directory and the filename with "/"; the directory is taken as already normalised, as
   * `Path` would leave it (no trailing "/" and no "." segment).
   */
  function RecordFor(url: string, query: string, contentType: Option<string>, site: Site, env: Env): NewRecord {
    var filename := GenerateFilename(query, contentType, env.digest(url), site.table);
    NewRecord(url, filename, site.resourceDir + "/" + filename, site.source, query,
              if query != "" then Some([query]) else None,
              InferExtension(contentType, site.table), site.sourceUrl)
  }

  /** The content type the probe reports for a URL. */
  function ProbedType(url: string, env: Env): Option<string> {
    HeadContentType(env.probe(url)).contentType
  }

  /** The download counts as done exactly when the GET answered 200. */
  predicate Downloaded(o: DownloadOutcome) {
    o.Fetched? && o.status == 200
  }

  /** The status update for a saved record after its download. */
  function UpdateFor(id: string, ok: bool): StatusUpdate {
    if ok then StatusUpdate(id, "completed", None) else StatusUpdate(id, "failed", Some("Download failed"))
  }

  /** One iteration of the loop body, for candidate `url`. */
  function Step(t: Tally, url: string, query: string, site: Site, env: Env): Tally {
    if env.catalogued(url) then t
    else
      var contentType := ProbedType(url, env);
      if !IsImageType(contentType) then t
      else
        var rec := RecordFor(url, query, contentType, site, env);
        match env.save(rec)
        case NoService => t
        case SaveRaised => t.(errors := t.errors + 1)
        case Saved(id) =>
          var t1 := t.(savedRecords := t.savedRecords + 1, records := t.records + [rec]);
          if id == "" then t1 else AfterDownload(t1, id, url, env)
  }

  /** The download of a saved record's image and the status update that follows it. */
  function AfterDownload(t: Tally, id: string, url: string, env: Env): Tally {
    var dl := env.download(url);
    var ok := Downloaded(dl);
    var upd := UpdateFor(id, ok);
    t.(saved := t.saved + 1,
       downloaded := t.downloaded + (if ok then 1 else 0),
       downloads := t.downloads + [url],
       updates := t.updates + [upd],
       errors := t.errors + (if dl.DownloadRaised? then 1 else 0) + (if env.updateRaises(upd) then 1 else 0))
  }

  /** The loop over `urls`, from an empty tally. */
  function Run(urls: seq<string>, query: string, site: Site, env: Env): Tally
    decreases |urls|
  {
    if urls == [] then EmptyTally
    else Step(Run(urls[..|urls| - 1], query, site, env), urls[|urls| - 1], query, site, env)
  }

  /** The loop of `crawl` over the candidates it examines. */
  method ProcessCandidates(urls: seq<string>, query: string, site: Site, env: Env) returns (t: Tally)
    ensures t == Run(urls, query, site, env)
  {
    t := EmptyTally;
    for i := 0 to |urls|
      invariant t == Run(urls[..i], query, site, env)
    {
      assert urls[..i + 1][..i] == urls[..i];
      t := ProcessCandidate(t, urls[i], query, site, env);
    }
    assert urls[..|urls|] == urls;
  }

  /** The body of the loop for one candidate. */
  method ProcessCandidate(t0: Tally, url: string, query: string, site: Site, env: Env) returns (t: Tally)
    ensures t == Step(t0, url, query, site, env)
  {
    t := t0;
    if env.catalogued(url) {
      return;
    }
    var contentType := ProbedType(url, env);
    if !IsImageType(contentType) {
      return;
    }
    var rec := RecordFor(url, query, contentType, site, env);
    var saved := env.save(rec);
    if saved.SaveRaised? {
      t := t.(errors := t.errors + 1);
    } else if saved.Saved? {
      t := t.(savedRecords := t.savedRecords + 1, records := t.records + [rec]);
      if saved.id != "" {
        t := DownloadAndMark(t, saved.id, url, env);
      }
    }
  }

  /** The download of a saved record's image, then its status update. */
  method DownloadAndMark(t0: Tally, id: string, url: string, env: Env) returns (t: Tally)
    ensures t == AfterDownload(t0, id, url, env)
  {
    t := t0.(saved := t0.saved + 1);
    var dl := env.download(url);
    if dl.DownloadRaised? {
      t := t.(errors := t.errors + 1);
    }
    var ok := dl.Fetched? && dl.status == 200;
    var upd;
    if ok {
      t := t.(downloaded := t.downloaded + 1);
      upd := StatusUpdate(id, "completed", None);
    } else {
      upd := StatusUpdate(id, "failed", Some("Download failed"));
    }
    t := t.(downloads := t.downloads + [url], updates := t.updates + [upd]);
    if env.updateRaises(upd) {
      t := t.(errors := t.errors + 1);
    }
  }

  /** The number of updates that mark a record completed. */
  function Completed(updates: seq<StatusUpdate>): nat
    decreases |updates|
  {
    if updates == [] then 0
    else Completed(updates[..|updates| - 1]) + (if updates[|updates| - 1].status == "completed" then 1 else 0)
  }

  /** Every update either completes a record with no message or fails it with "Download failed". */
  predicate WellFormedUpdates(updates: seq<StatusUpdate>) {
    forall i :: 0 <= i < |updates| ==>
      (updates[i].status == "completed" && updates[i].errorMessage.None?)
      || (updates[i].status == "failed" && updates[i].errorMessage == Some("Download failed"))
  }

  /** A record is saved only for a candidate that was not catalogued and whose probe reported an image type. */
  predicate Eligible(url: string, env: Env) {
    !env.catalogued(url) && IsImageType(ProbedType(url, env))
  }

  /**
   * The counters the loop keeps: downloaded <= saved <= records saved <= candidates examined,
   * with exactly one download and one status update per counted record.
   */
  lemma {:induction false} RunCounters(urls: seq<string>, query: string, site: Site, env: Env)
    ensures var t := Run(urls, query, site, env);
      && t.downloaded <= t.saved <= t.savedRecords <= |urls|
      && t.savedRecords == |t.records|
      && |t.updates| == t.saved && |t.downloads| == t.saved
    decreases |urls|
  {
    if urls != [] {
      RunCounters(urls[..|urls| - 1], query, site, env);
    }
  }

  /** Every status update is well-formed, and the completed ones are exactly the downloads. */
  lemma {:induction false} RunUpdates(urls: seq<string>, query: string, site: Site, env: Env)
    ensures var t := Run(urls, query, site, env);
      WellFormedUpdates(t.updates) && Completed(t.updates) == t.downloaded
    decreases |urls|
  {
    if urls != [] {
      var prefix := urls[..|urls| - 1];
      RunUpdates(prefix, query, site, env);
      StepUpdates(Run(prefix, query, site, env), urls[|urls| - 1], query, site, env);
    }
  }

  lemma StepUpdates(t: Tally, url: string, query: string, site: Site, env: Env)
    requires WellFormedUpdates(t.updates) && Completed(t.updates) == t.downloaded
    ensures var t' := Step(t, url, query, site, env);
      WellFormedUpdates(t'.updates) && Completed(t'.updates) == t'.downloaded
  {
    var t' := Step(t, url, query, site, env);
    if t'.updates != t.updates {
      var rec := RecordFor(url, query, ProbedType(url, env), site, env);
      var id := env.save(rec).id;
      var upd := UpdateFor(id, Downloaded(env.download(url)));
      assert t'.updates == t.updates + [upd];
      assert (t.updates + [upd])[..|t.updates|] == t.updates;
    }
  }

  /**
   * Every saved record is for an eligible candidate of the list and is built from its probe,
   * and only eligible candidates of the list are downloaded.
   */
  lemma {:induction false} RunRecords(urls: seq<string>, query: string, site: Site, env: Env)
    ensures var t := Run(urls, query, site, env);
      && (forall r :: r in t.records ==>
            (r.url in urls && Eligible(r.url, env) && r == RecordFor(r.url, query, ProbedType(r.url, env), site, env)))
      && (forall u :: u in t.downloads ==> u in urls && Eligible(u, env))
    decreases |urls|
  {
    if urls != [] {
      var prefix := urls[..|urls| - 1];
      RunRecords(prefix, query, site, env);
      StepRecords(Run(prefix, query, site, env), urls[|urls| - 1], query, site, env);
      assert forall u :: u in prefix ==> u in urls;
    }
  }

  /** One step adds at most the record and the download of its own candidate, and only when it is eligible. */
  lemma StepRecords(t: Tally, url: string, query: string, site: Site, env: Env)
    ensures var t1 := Step(t, url, query, site, env);
      && (forall r :: r in t1.records ==>
            r in t.records || (r.url == url && Eligible(url, env) && r == RecordFor(url, query, ProbedType(url, env), site, env)))
      && (forall u :: u in t1.downloads ==> u in t.downloads || (u == url && Eligible(url, env)))
  {
  }

  /** A candidate that is already catalogued, or whose probe reports no image type, leaves the tally as it was. */
  lemma SkippedCandidate(t: Tally, url: string, query: string, site: Site, env: Env)
    requires !Eligible(url, env)
    ensures Step(t, url, query, site, env) == t
  {
  }

  /** A save that raises counts one error and nothing else: no record, no download, no update. */
  lemma FailedSaveStopsCandidate(t: Tally, url: string, query: string, site: Site, env: Env)
    requires Eligible(url, env)
    requires env.save(RecordFor(url, query, ProbedType(url, env), site, env)).SaveRaised?
    ensures Step(t, url, query, site, env) == t.(errors := t.errors + 1)
  {
  }

  /** The loop examines only the first `maxLinks` candidates (Python's `urls[:max_links]`). */
  lemma ExaminedBound(urls: seq<string>, maxLinks: int, query: string, site: Site, env: Env)
    requires maxLinks >= 0
    ensures var t := Run(PySliceTo(urls, maxLinks), query, site, env);
      t.downloaded <= t.saved <= maxLinks && t.saved <= |urls|
  {
    RunCounters(PySliceTo(urls, maxLinks), query, site, env);
  }

  /** A crawler's `self.stats`; only the generic worker's carries a `source` entry. */
  datatype CrawlStats = CrawlStats(
    startTime: Option<string>, foundUrls: nat, uniqueUrls: nat, imageCandidates: nat,
    savedRecords: nat, downloaded: nat, errors: nat, source: Option<string>)

  /** The stats a crawler starts with. */
  function InitialStats(source: Option<string>): CrawlStats {
    CrawlStats(None, 0, 0, 0, 0, 0, 0, source)
  }

  /** The stats after the loop has run: its record, download and error counts added. */
  function AfterLoop(stats: CrawlStats, t: Tally): CrawlStats {
    stats.(savedRecords := stats.savedRecords + t.savedRecords,
           downloaded := stats.downloaded + t.downloaded,
           errors := stats.errors + t.errors)
  }

  /**
   * What a search crawler's `crawl` depends on: the search page's outcome for a query and
   * cursor, `re.findall` (pattern, text) as the list of matches, `parse_qs`, the per-candidate
   * world and the clock reading stored as the start time.
   */
  datatype SearchWorld = SearchWorld(
    page: (string, int) -> FetchOutcome, findall: (string, string) -> seq<string>,
    parse: QueryParser, env: Env, now: string)

  /** What `crawl` returns: the fetch failure, or the saved and downloaded counts of this run. */
  datatype CrawlResult = FetchFailed | Crawled(saved: nat, downloaded: nat)
}
