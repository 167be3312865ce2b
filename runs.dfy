/**
 * start(url) and the loop of scheduledCrawl, as whole runs: what a run
 * registers and deregisters, what it requests, and what a tick does once the
 * stop flag is up.
 */
module Runs {
  import opened Options
  import opened Urls
  import opened QueueItems
  import opened CrawlModel
  import opened CrawlProperties
  import opened CrawlScope
  import opened CrawlOutcomes
  import opened CrawlFollow

  /** The finally block removes the run's entry again, however the crawl ended; no other entry changes. */
  lemma StartDeregisters(c: Config, w: World, url: string)
    ensures Start(c, w, url).world.active == w.active - {ThreadName(url, w.clock)}
  {
    CrawlTally(c, Register(w, url), 1, url, {});
  }

  lemma StartSound(c: Config, w: World, url: string)
    requires Sound(c, w)
    ensures Sound(c, Start(c, w, url).world)
  {
    CrawlSound(c, Register(w, url), 1, url, {});
  }

  /**
   * One run requests no url twice, and, when the parser is coherent and the
   * table keyed, requests only urls of the start url's base, leaves the rows of
   * every other base as they were, and creates only discovered-domain rows.
   */
  lemma StartFetchesOnce(c: Config, w: World, url: string)
    ensures var r := Start(c, w, url).world;
            && w.fetched <= r.fetched
            && forall i, j :: |w.fetched| <= i < j < |r.fetched| ==> r.fetched[i] != r.fetched[j]
  {
    CrawlVisits(c, Register(w, url), 1, url, {});
  }

  lemma StartConfined(c: Config, w: World, url: string)
    requires Coherent(c.web) && Keyed(w.rows)
    ensures Confined(c, w, Start(c, w, url).world, {}, BaseUrl(c.web.parse, url))
  {
    CrawlConfined(c, Register(w, url), 1, url, {}, BaseUrl(c.web.parse, url));
  }

  /** One run requests its start url and otherwise only http(s) links the URL parser accepts. */
  lemma StartFollowed(c: Config, w: World, url: string)
    ensures Followed(c, w, Start(c, w, url).world, {url})
  {
    CrawlFollowed(c, Register(w, url), 1, url, {});
  }

  /**
   * The start url's own row, when it exists and its saves succeed: only a
   * failed restricted-URL record escapes start, and the row ends as the
   * crawl's ending says.
   */
  lemma StartOutcome(c: Config, w: World, url: string)
    requires Coherent(c.web) && Keyed(w.rows) && url in w.rows && url !in c.web.storeFaults
    ensures var run := Crawl(c, Register(w, url), 1, url, {});
            var r := Start(c, w, url);
            && (r.error.Some? <==> run.ending.Restricted? && url in c.web.restrictFaults)
            && url in r.world.rows
            && Outcome(c, w.rows[url], r.world.rows[url], run.ending, w.clock, r.world.clock)
  {
    var run := Crawl(c, Register(w, url), 1, url, {});
    CrawlOutcome(c, Register(w, url), 1, url, {});
    OutcomeWiden(c, w.rows[url], run.world.rows[url], run.ending, w.clock + 2, w.clock, run.world.clock);
  }

  /**
   * With crawler.max-crawl-level 1, a run requests the start url at most:
   * levels start at 1 and a link is crawled at level 2, past the limit.
   */
  lemma StartAtDepthOne(c: Config, w: World, url: string)
    requires c.maxCrawlLevel == 1
    ensures var r := Start(c, w, url).world;
            r.fetched == w.fetched || r.fetched == w.fetched + [url]
  {
    CrawlAtDepthLimit(c, Register(w, url), url, {});
  }

  /**
   * A tick that starts after the stop flag is up crawls nothing: every run
   * returns at its first check, so the queue, the restricted log, the robots
   * cache and the log of requests are as they were, and nothing escapes.
   */
  lemma {:induction false} DispatchAfterShutdown(c: Config, w: World, urls: seq<string>)
    requires w.shutdown
    ensures var r := Dispatch(c, w, urls);
            && r.error.None?
            && r.world.shutdown
            && r.world.rows == w.rows
            && r.world.restricted == w.restricted
            && r.world.robotsCache == w.robotsCache
            && r.world.fetched == w.fetched
    decreases |urls|
  {
    if urls != [] {
      var started := Start(c, w, urls[0]);
      DispatchAfterShutdown(c, started.world, urls[1..]);
    }
  }

  lemma {:induction false} DispatchSound(c: Config, w: World, urls: seq<string>)
    requires Sound(c, w)
    ensures Sound(c, Dispatch(c, w, urls).world)
    decreases |urls|
  {
    if urls != [] {
      var started := Start(c, w, urls[0]);
      StartSound(c, w, urls[0]);
      if started.error.None? {
        DispatchSound(c, started.world, urls[1..]);
      }
    }
  }
}
