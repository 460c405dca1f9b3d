/**
 * The background crawl jobs behind the Google and Bing start/stop routes: a status record
 * guarded by its running flag, and a loop that runs one crawl per iteration at an advancing
 * result cursor while keeping cumulative counts.
 */
module CrawlJobs {
  import opened Wrappers
  import opened CrawlPipeline
  import opened GoogleSearch
  import opened BingSearch
  import opened Fetching
  import opened Extraction

  /** The cumulative counts shown while a job runs. */
  datatype Progress = Progress(saved: nat, downloaded: nat)

  /** The module-level status dictionary of a crawler route; keys a route never wrote are `None`. */
  datatype JobStatus = JobStatus(
    isRunning: bool, startTime: Option<string>, lastUpdate: Option<string>, query: Option<string>,
    progress: Progress, loops: Option<int>, maxLinks: Option<int>, startCursor: Option<int>,
    currentIteration: Option<nat>, currentCursor: Option<int>, finalResult: Option<CrawlResult>,
    status: Option<string>, error: Option<string>)

  const InitialJobStatus: JobStatus :=
    JobStatus(false, None, None, None, Progress(0, 0), None, None, None, None, None, None, None, None)

  /** A rejected route call: the HTTP status and its detail. */
  datatype HttpError = HttpError(code: int, detail: string)

  /** What a successful start reports back. */
  datatype StartReply = StartReply(message: string, query: string, maxLinks: int, cursor: int, loops: int, status: string)

  /** What the job's task ran into, if anything: a cancellation, or another exception. */
  datatype Interrupt = Cancelled | Failed(message: string)

  /** `max(1, loops)`: a job always runs at least once. */
  function Iterations(loops: int): (n: nat)
    ensures n >= 1 && (loops >= 1 ==> n == loops)
  {
    if loops > 1 then loops else 1
  }

  /** `result.get("saved", 0)`: a failed fetch reports no counts. */
  function SavedOf(r: CrawlResult): nat {
    if r.Crawled? then r.saved else 0
  }

  function DownloadedOf(r: CrawlResult): nat {
    if r.Crawled? then r.downloaded else 0
  }

  /** The running sum of the iterations' counts. */
  function Total(results: seq<CrawlResult>): Progress
    decreases |results|
  {
    if results == [] then Progress(0, 0)
    else
      var p := Total(results[..|results| - 1]);
      var r := results[|results| - 1];
      Progress(p.saved + SavedOf(r), p.downloaded + DownloadedOf(r))
  }

  /**
   * When no iteration downloads more than it saves, nor saves more than `max_links`, the
   * cumulative downloads never exceed the cumulative saves, which stay within `max_links` per iteration.
   */
  lemma {:induction false} TotalBounded(results: seq<CrawlResult>, maxLinks: int)
    requires maxLinks >= 0
    requires forall i :: 0 <= i < |results| && results[i].Crawled? ==>
      results[i].downloaded <= results[i].saved <= maxLinks
    ensures Total(results).downloaded <= Total(results).saved <= |results| * maxLinks
    decreases |results|
  {
    if results != [] {
      var prefix := results[..|results| - 1];
      assert forall i :: 0 <= i < |prefix| ==> prefix[i] == results[i];
      TotalBounded(prefix, maxLinks);
      assert |results| * maxLinks == |prefix| * maxLinks + maxLinks;
    }
  }

  /**
   * The start route's guard and update: rejected with 400 while running; otherwise running,
   * with fresh progress and the new parameters. Keys it does not list (the final result, the
   * last iteration, a stop or error note) keep their old values.
   */
  function StartStatus(st: JobStatus, name: string, query: string, maxLinks: int, cursor: int, loops: int, now: string)
    : (r: Result<JobStatus, HttpError>)
    ensures st.isRunning <==> r.Err?
    ensures r.Err? ==> r.error == HttpError(400, name + " crawler is already running")
    ensures r.Ok? ==> (r.value.isRunning && r.value.progress == Progress(0, 0) && r.value.query == Some(query)
      && r.value.finalResult == st.finalResult && r.value.status == st.status && r.value.error == st.error)
  {
    if st.isRunning then Err(HttpError(400, name + " crawler is already running"))
    else Ok(st.(isRunning := true, startTime := Some(now), lastUpdate := Some(now), query := Some(query),
                progress := Progress(0, 0), loops := Some(loops), maxLinks := Some(maxLinks),
                startCursor := Some(cursor)))
  }

  /** The stop route's guard and update: rejected with 400 when not running; otherwise stopped. */
  function StopStatus(st: JobStatus, name: string, now: string): (r: Result<JobStatus, HttpError>)
    ensures !st.isRunning <==> r.Err?
    ensures r.Err? ==> r.error == HttpError(400, "No " + name + " crawler is currently running")
    ensures r.Ok? ==> !r.value.isRunning && r.value.status == Some("stopped") && r.value.progress == st.progress
  {
    if !st.isRunning then Err(HttpError(400, "No " + name + " crawler is currently running"))
    else Ok(st.(isRunning := false, lastUpdate := Some(now), status := Some("stopped")))
  }

  /** Starting then stopping a job that was idle leaves it idle and marked stopped. */
  lemma StartThenStop(st: JobStatus, name: string, query: string, maxLinks: int, cursor: int, loops: int, t0: string, t1: string)
    requires !st.isRunning
    ensures StartStatus(st, name, query, maxLinks, cursor, loops, t0).Ok?
    ensures StopStatus(StartStatus(st, name, query, maxLinks, cursor, loops, t0).value, name, t1).Ok?
    ensures var s := StopStatus(StartStatus(st, name, query, maxLinks, cursor, loops, t0).value, name, t1).value;
      !s.isRunning && s.status == Some("stopped") && s.query == Some(query)
    ensures StartStatus(StartStatus(st, name, query, maxLinks, cursor, loops, t0).value, name, query, maxLinks, cursor, loops, t1).Err?
  {
  }

  /** The status after `n` iterations have reported, the last with this cursor and result. */
  function AfterIteration(st: JobStatus, results: seq<CrawlResult>, cursor: int, now: string): JobStatus {
    st.(lastUpdate := Some(now), progress := Total(results), currentIteration := Some(|results|),
        currentCursor := Some(cursor))
  }

  /** A later iteration's report overwrites every key an earlier one wrote. */
  lemma AfterIterationAgain(st: JobStatus, r0: seq<CrawlResult>, c0: int, t0: string, r1: seq<CrawlResult>, c1: int, t1: string)
    ensures AfterIteration(AfterIteration(st, r0, c0, t0), r1, c1, t1) == AfterIteration(st, r1, c1, t1)
  {
  }

  /** The final update of the background task: finished, cancelled, or failed with the exception's message. */
  function Finish(st: JobStatus, results: seq<CrawlResult>, interrupt: Option<Interrupt>, now: string): (r: JobStatus)
    ensures !r.isRunning && r.progress == st.progress
    ensures r.currentIteration == st.currentIteration && r.currentCursor == st.currentCursor
  {
    match interrupt
    case None => st.(isRunning := false, lastUpdate := Some(now),
                     finalResult := if results == [] then st.finalResult else Some(results[|results| - 1]))
    case Some(Cancelled) => st.(isRunning := false, lastUpdate := Some(now), status := Some("stopped"))
    case Some(Failed(message)) => st.(isRunning := false, lastUpdate := Some(now), error := Some(message))
  }

  /** Appending an iteration adds its counts to the running sum. */
  lemma TotalAppend(results: seq<CrawlResult>, r: CrawlResult)
    ensures Total(results + [r]) == Progress(Total(results).saved + SavedOf(r), Total(results).downloaded + DownloadedOf(r))
  {
    assert (results + [r])[..|results|] == results;
  }

  /** The interruption the background task meets at iteration `i`, if it is the one named. */
  function InterruptAt(interrupt: Option<(nat, Interrupt)>, i: nat): Option<Interrupt> {
    if interrupt.Some? && interrupt.value.0 == i then Some(interrupt.value.1) else None
  }

  /** How many iterations finish: all of them, or those before the interruption. */
  function IterationsRun(loops: int, interrupt: Option<(nat, Interrupt)>): (n: nat)
    ensures n <= Iterations(loops)
  {
    if interrupt.Some? && interrupt.value.0 < Iterations(loops) then interrupt.value.0 else Iterations(loops)
  }


  /**
   * What a crawl of the page at `cursor` in `world` promises: it fails exactly when that page
   * is not a non-empty 200, and otherwise downloads no more than it saves, and saves at most
   * `max_links` (when not negative) and at most as many URLs as `extract` finds in the page.
   */
  predicate CrawlShape(r: CrawlResult, world: SearchWorld, query: string, cursor: int, maxLinks: int,
                       extract: (SearchWorld, string) -> set<string>)
  {
    var o := world.page(query, cursor);
    && (r.FetchFailed? <==> !(o.Response? && o.status == 200 && o.body != ""))
    && (r.Crawled? ==> r.downloaded <= r.saved <= |extract(world, o.body)| && (maxLinks >= 0 ==> r.saved <= maxLinks))
  }

  /**
   * The state of `run_crawler` after the iterations in `results`: iteration `i` ran at cursor
   * `start + i * max_links`, its result has the shape of a crawl of its page, the counters hold
   * the cumulative sums, and the status shows the last iteration's report.
   */
  ghost predicate Reached(s0: JobStatus, st: JobStatus, query: string, maxLinks: int, start: int,
                          worlds: nat -> SearchWorld, extract: (SearchWorld, string) -> set<string>,
                          clock: nat -> string, results: seq<CrawlResult>, cursors: seq<int>, saved: nat, downloaded: nat)
  {
    && |cursors| == |results|
    && (forall j :: 0 <= j < |cursors| ==> cursors[j] == start + j * maxLinks)
    && (forall j :: 0 <= j < |results| ==> CrawlShape(results[j], worlds(j), query, cursors[j], maxLinks, extract))
    && Progress(saved, downloaded) == Total(results)
    && (|results| > 0 ==> st == AfterIteration(s0, results, cursors[|results| - 1], clock(|results| - 1)))
    && (|results| == 0 ==> st == s0)
  }

  /** One more iteration, at its own cursor and reported at `clock(i)`, keeps the state reached. */
  lemma ReachedStep(s0: JobStatus, st: JobStatus, query: string, maxLinks: int, start: int,
                    worlds: nat -> SearchWorld, extract: (SearchWorld, string) -> set<string>,
                    clock: nat -> string, results: seq<CrawlResult>, cursors: seq<int>, saved: nat, downloaded: nat,
                    r: CrawlResult, cursor: int, st': JobStatus, saved': nat, downloaded': nat)
    requires Reached(s0, st, query, maxLinks, start, worlds, extract, clock, results, cursors, saved, downloaded)
    requires cursor == start + |results| * maxLinks
    requires CrawlShape(r, worlds(|results|), query, cursor, maxLinks, extract)
    requires Progress(saved', downloaded') == Total(results + [r])
    requires st' == AfterIteration(st, results + [r], cursor, clock(|results|))
    ensures Reached(s0, st', query, maxLinks, start, worlds, extract, clock,
                    results + [r], cursors + [cursor], saved', downloaded')
  {
    var n := |results|;
    ShapesExtend(query, maxLinks, start, worlds, extract, results, cursors, r);
    if n > 0 {
      AfterIterationAgain(s0, results, cursors[n - 1], clock(n - 1), results + [r], start + n * maxLinks, clock(n));
    }
  }

  /** The per-iteration cursors and shapes of `Reached`, extended by one more iteration. */
  lemma ShapesExtend(query: string, maxLinks: int, start: int, worlds: nat -> SearchWorld,
                     extract: (SearchWorld, string) -> set<string>, results: seq<CrawlResult>, cursors: seq<int>,
                     r: CrawlResult)
    requires |cursors| == |results|
    requires forall j :: 0 <= j < |cursors| ==> cursors[j] == start + j * maxLinks
    requires forall j :: 0 <= j < |results| ==> CrawlShape(results[j], worlds(j), query, cursors[j], maxLinks, extract)
    requires CrawlShape(r, worlds(|results|), query, start + |results| * maxLinks, maxLinks, extract)
    ensures var cs := cursors + [start + |results| * maxLinks];
      forall j :: 0 <= j < |cs| ==> cs[j] == start + j * maxLinks
    ensures var rs, cs := results + [r], cursors + [start + |results| * maxLinks];
      forall j :: 0 <= j < |rs| ==> CrawlShape(rs[j], worlds(j), query, cs[j], maxLinks, extract)
  {
    var n := |results|;
    var rs, cs := results + [r], cursors + [start + n * maxLinks];
    forall j | 0 <= j < |rs|
      ensures cs[j] == start + j * maxLinks
      ensures CrawlShape(rs[j], worlds(j), query, cs[j], maxLinks, extract)
    {
      if j < n {
        assert rs[j] == results[j] && cs[j] == cursors[j];
      }
    }
  }

  /** One iteration of the Google job: a crawl at this cursor. */
  method GoogleIteration(crawler: GoogleCrawler, query: string, maxLinks: int, cursor: int, world: SearchWorld)
    returns (r: CrawlResult)
    modifies crawler
    ensures CrawlShape(r, world, query, cursor, maxLinks, GooglePageCandidates)
  {
    ghost var candidates;
    r, candidates := crawler.Crawl(query, maxLinks, cursor, world);
    if r.Crawled? {
      DistinctCard(candidates);
    }
  }

  /** One iteration of the Bing job: a crawl at this cursor. */
  method BingIteration(crawler: BingCrawler, query: string, maxLinks: int, cursor: int, world: SearchWorld)
    returns (r: CrawlResult)
    modifies crawler
    ensures CrawlShape(r, world, query, cursor, maxLinks, BingPageCandidates)
  {
    ghost var candidates;
    r, candidates := crawler.Crawl(query, maxLinks, cursor, world);
    if r.Crawled? {
      DistinctCard(candidates);
    }
  }

  /** `routes/google_crawler.py`: the Google job's status and its start, run and stop. */
  class GoogleCrawlerJob {
    var status: JobStatus

    constructor ()
      ensures status == InitialJobStatus
    {
      status := InitialJobStatus;
    }

    /** `start_google_crawler`: the synchronous part, before the background task is scheduled. */
    method Start(query: string, maxLinks: int, start: int, loops: int, now: string) returns (r: Result<StartReply, HttpError>)
      modifies this
      ensures var s := StartStatus(old(status), "Google", query, maxLinks, start, loops, now);
        && (s.Err? ==> status == old(status) && r == Err(s.error))
        && (s.Ok? ==> status == s.value && r == Ok(StartReply("Google crawler started successfully", query, maxLinks, start, loops, "running")))
    {
      var s := StartStatus(status, "Google", query, maxLinks, start, loops, now);
      if s.Err? {
        return Err(s.error);
      }
      status := s.value;
      r := Ok(StartReply("Google crawler started successfully", query, maxLinks, start, loops, "running"));
    }

    /** The iterations of `run_crawler` before its final update. */
    method Iterate(query: string, maxLinks: int, start: int, loops: int, worlds: nat -> SearchWorld,
                   interrupt: Option<(nat, Interrupt)>, clock: nat -> string)
      returns (results: seq<CrawlResult>, cursors: seq<int>)
      modifies this
      ensures |results| == |cursors| == IterationsRun(loops, interrupt)
      ensures forall i :: 0 <= i < |cursors| ==> cursors[i] == start + i * maxLinks
      ensures forall i :: 0 <= i < |results| ==> CrawlShape(results[i], worlds(i), query, cursors[i], maxLinks, GooglePageCandidates)
      ensures |results| > 0 ==>
        status == AfterIteration(old(status), results, cursors[|results| - 1], clock(|results| - 1))
      ensures |results| == 0 ==> status == old(status)
    {
      var crawler := new GoogleCrawler("");
      results := [];
      cursors := [];
      var saved: nat, downloaded: nat := 0, 0;
      ghost var s0 := status;
      var n := Iterations(loops);
      var i := 0;
      while i < n && InterruptAt(interrupt, i).None?
        invariant 0 <= i <= n && |results| == i
        invariant interrupt.Some? ==> interrupt.value.0 >= i
        invariant Reached(s0, status, query, maxLinks, start, worlds, GooglePageCandidates, clock, results, cursors, saved, downloaded)
        decreases n - i
      {
        ghost var st := status;
        var result, cursor, saved', downloaded' := Advance(crawler, query, maxLinks, start, worlds, clock, results, saved, downloaded);
        ReachedStep(s0, st, query, maxLinks, start, worlds, GooglePageCandidates, clock, results, cursors, saved, downloaded,
                    result, cursor, status, saved', downloaded');
        results := results + [result];
        cursors := cursors + [cursor];
        saved, downloaded := saved', downloaded';
        i := i + 1;
      }
      assert i == IterationsRun(loops, interrupt);
    }

    /**
     * One iteration: the crawl at the next cursor, then the counts and the status it updates,
     * which are the totals and the status after the iterations so far and this one.
     */
    method Advance(crawler: GoogleCrawler, query: string, maxLinks: int, start: int, worlds: nat -> SearchWorld,
                   clock: nat -> string, results: seq<CrawlResult>, saved0: nat, downloaded0: nat)
      returns (result: CrawlResult, cursor: int, saved: nat, downloaded: nat)
      requires Progress(saved0, downloaded0) == Total(results)
      modifies this, crawler
      ensures cursor == start + |results| * maxLinks
      ensures CrawlShape(result, worlds(|results|), query, cursor, maxLinks, GooglePageCandidates)
      ensures Progress(saved, downloaded) == Total(results + [result])
      ensures status == AfterIteration(old(status), results + [result], cursor, clock(|results|))
    {
      cursor := start + |results| * maxLinks;
      result := GoogleIteration(crawler, query, maxLinks, cursor, worlds(|results|));
      saved := saved0 + SavedOf(result);
      downloaded := downloaded0 + DownloadedOf(result);
      status := status.(lastUpdate := Some(clock(|results|)), progress := Progress(saved, downloaded),
                        currentIteration := Some(|results| + 1), currentCursor := Some(cursor));
      TotalAppend(results, result);
    }

    /**
     * `run_crawler`: a fresh crawler runs `max(1, loops)` iterations, iteration `i` at cursor
     * `start + i * max_links` in `worlds(i)`, and after each the status shows the cumulative
     * counts. `interrupt` names the iteration, if any, at which the background task is cancelled or fails;
     * `clock(i)` is the time of the i-th update.
     */
    method RunCrawler(query: string, maxLinks: int, start: int, loops: int, worlds: nat -> SearchWorld,
                      interrupt: Option<(nat, Interrupt)>, clock: nat -> string)
      returns (results: seq<CrawlResult>, cursors: seq<int>)
      modifies this
      ensures |results| == |cursors| == IterationsRun(loops, interrupt)
      ensures forall i :: 0 <= i < |cursors| ==> cursors[i] == start + i * maxLinks
      ensures forall i :: 0 <= i < |results| ==> CrawlShape(results[i], worlds(i), query, cursors[i], maxLinks, GooglePageCandidates)
      ensures !status.isRunning
      ensures |results| > 0 ==> (status.progress == Total(results) && status.currentIteration == Some(|results|)
        && status.currentCursor == Some(cursors[|results| - 1]))
      ensures |results| == 0 ==> status.progress == old(status.progress)
      ensures var stop := InterruptAt(interrupt, |results|);
        && (stop.None? ==> |results| == Iterations(loops) && status.finalResult == Some(results[|results| - 1]))
        && (stop == Some(Cancelled) ==> status.status == Some("stopped"))
        && (stop.Some? && stop.value.Failed? ==> status.error == Some(stop.value.message))
    {
      results, cursors := Iterate(query, maxLinks, start, loops, worlds, interrupt, clock);
      status := Finish(status, results, InterruptAt(interrupt, |results|), clock(|results|));
    }

    /** `stop_google_crawler`: the background task is cancelled (its own update is the `Cancelled` finish) and the job marked stopped. */
    method Stop(now: string) returns (r: Result<string, HttpError>)
      modifies this
      ensures var s := StopStatus(old(status), "Google", now);
        && (s.Err? ==> status == old(status) && r == Err(s.error))
        && (s.Ok? ==> status == s.value && r == Ok("Google crawler stopped successfully"))
    {
      var s := StopStatus(status, "Google", now);
      if s.Err? {
        return Err(s.error);
      }
      status := s.value;
      r := Ok("Google crawler stopped successfully");
    }
  }

  /** `routes/bing_crawler.py`: the Bing job, the same as Google's with the `first` cursor. */
  class BingCrawlerJob {
    var status: JobStatus

    constructor ()
      ensures status == InitialJobStatus
    {
      status := InitialJobStatus;
    }

    /** `start_bing_crawler` */
    method Start(query: string, maxLinks: int, first: int, loops: int, now: string) returns (r: Result<StartReply, HttpError>)
      modifies this
      ensures var s := StartStatus(old(status), "Bing", query, maxLinks, first, loops, now);
        && (s.Err? ==> status == old(status) && r == Err(s.error))
        && (s.Ok? ==> status == s.value && r == Ok(StartReply("Bing crawler started successfully", query, maxLinks, first, loops, "running")))
    {
      var s := StartStatus(status, "Bing", query, maxLinks, first, loops, now);
      if s.Err? {
        return Err(s.error);
      }
      status := s.value;
      r := Ok(StartReply("Bing crawler started successfully", query, maxLinks, first, loops, "running"));
    }

    /** The iterations of `run_crawler` before its final update. */
    method Iterate(query: string, maxLinks: int, first: int, loops: int, worlds: nat -> SearchWorld,
                   interrupt: Option<(nat, Interrupt)>, clock: nat -> string)
      returns (results: seq<CrawlResult>, cursors: seq<int>)
      modifies this
      ensures |results| == |cursors| == IterationsRun(loops, interrupt)
      ensures forall i :: 0 <= i < |cursors| ==> cursors[i] == first + i * maxLinks
      ensures forall i :: 0 <= i < |results| ==> CrawlShape(results[i], worlds(i), query, cursors[i], maxLinks, BingPageCandidates)
      ensures |results| > 0 ==>
        status == AfterIteration(old(status), results, cursors[|results| - 1], clock(|results| - 1))
      ensures |results| == 0 ==> status == old(status)
    {
      var crawler := new BingCrawler("");
      results := [];
      cursors := [];
      var saved: nat, downloaded: nat := 0, 0;
      ghost var s0 := status;
      var n := Iterations(loops);
      var i := 0;
      while i < n && InterruptAt(interrupt, i).None?
        invariant 0 <= i <= n && |results| == i
        invariant interrupt.Some? ==> interrupt.value.0 >= i
        invariant Reached(s0, status, query, maxLinks, first, worlds, BingPageCandidates, clock, results, cursors, saved, downloaded)
        decreases n - i
      {
        ghost var st := status;
        var result, cursor, saved', downloaded' := Advance(crawler, query, maxLinks, first, worlds, clock, results, saved, downloaded);
        ReachedStep(s0, st, query, maxLinks, first, worlds, BingPageCandidates, clock, results, cursors, saved, downloaded,
                    result, cursor, status, saved', downloaded');
        results := results + [result];
        cursors := cursors + [cursor];
        saved, downloaded := saved', downloaded';
        i := i + 1;
      }
      assert i == IterationsRun(loops, interrupt);
    }

    /**
     * One iteration: the crawl at the next cursor, then the counts and the status it updates,
     * which are the totals and the status after the iterations so far and this one.
     */
    method Advance(crawler: BingCrawler, query: string, maxLinks: int, first: int, worlds: nat -> SearchWorld,
                   clock: nat -> string, results: seq<CrawlResult>, saved0: nat, downloaded0: nat)
      returns (result: CrawlResult, cursor: int, saved: nat, downloaded: nat)
      requires Progress(saved0, downloaded0) == Total(results)
      modifies this, crawler
      ensures cursor == first + |results| * maxLinks
      ensures CrawlShape(result, worlds(|results|), query, cursor, maxLinks, BingPageCandidates)
      ensures Progress(saved, downloaded) == Total(results + [result])
      ensures status == AfterIteration(old(status), results + [result], cursor, clock(|results|))
    {
      cursor := first + |results| * maxLinks;
      result := BingIteration(crawler, query, maxLinks, cursor, worlds(|results|));
      saved := saved0 + SavedOf(result);
      downloaded := downloaded0 + DownloadedOf(result);
      status := status.(lastUpdate := Some(clock(|results|)), progress := Progress(saved, downloaded),
                        currentIteration := Some(|results| + 1), currentCursor := Some(cursor));
      TotalAppend(results, result);
    }

    /** `run_crawler` of the Bing route: iteration `i` at cursor `first + i * max_links`. */
    method RunCrawler(query: string, maxLinks: int, first: int, loops: int, worlds: nat -> SearchWorld,
                      interrupt: Option<(nat, Interrupt)>, clock: nat -> string)
      returns (results: seq<CrawlResult>, cursors: seq<int>)
      modifies this
      ensures |results| == |cursors| == IterationsRun(loops, interrupt)
      ensures forall i :: 0 <= i < |cursors| ==> cursors[i] == first + i * maxLinks
      ensures forall i :: 0 <= i < |results| ==> CrawlShape(results[i], worlds(i), query, cursors[i], maxLinks, BingPageCandidates)
      ensures !status.isRunning
      ensures |results| > 0 ==> (status.progress == Total(results) && status.currentIteration == Some(|results|)
        && status.currentCursor == Some(cursors[|results| - 1]))
      ensures |results| == 0 ==> status.progress == old(status.progress)
      ensures var stop := InterruptAt(interrupt, |results|);
        && (stop.None? ==> |results| == Iterations(loops) && status.finalResult == Some(results[|results| - 1]))
        && (stop == Some(Cancelled) ==> status.status == Some("stopped"))
        && (stop.Some? && stop.value.Failed? ==> status.error == Some(stop.value.message))
    {
      results, cursors := Iterate(query, maxLinks, first, loops, worlds, interrupt, clock);
      status := Finish(status, results, InterruptAt(interrupt, |results|), clock(|results|));
    }

    /** `stop_bing_crawler` */
    method Stop(now: string) returns (r: Result<string, HttpError>)
      modifies this
      ensures var s := StopStatus(old(status), "Bing", now);
        && (s.Err? ==> status == old(status) && r == Err(s.error))
        && (s.Ok? ==> status == s.value && r == Ok("Bing crawler stopped successfully"))
    {
      var s := StopStatus(status, "Bing", now);
      if s.Err? {
        return Err(s.error);
      }
      status := s.value;
      r := Ok("Bing crawler stopped successfully");
    }
  }
}
