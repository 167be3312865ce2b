/**
 * The behaviour of Crawler.crawl, start and scheduledCrawl as functions of the
 * crawler's state. The imperative class in CrawlerService is proved to compute
 * exactly these functions; the properties of the engine are proved about them
 * in CrawlProperties.
 *
 * Everything the engine cannot see is an oracle fixed in `Web`: the URL parser,
 * the pages an HTTP fetch returns, robots.txt per host, when another thread
 * calls stop(), when the worker is interrupted, and which queue rows the
 * repository fails to save.
 */
module CrawlModel {
  import opened Options
  import opened Urls
  import opened QueueItems
  import Robots

  const InProgressMessage := "Crawling in progress"
  const InterruptedPrefix := "Crawling interrupted: "
  const FetchFailedMessage := "Crawling failed"
  const FailurePrefix := "Crawling failed: "
  const CompletedMessage := "Crawling completed"
  const DiscoveredMessage := "Discovered new domain by crawler, awaiting approval."
  const RobotsReason := "Disallowed by robots.txt"

  /** The places where crawl reads the stop flag. */
  datatype Checkpoint = Entry | AfterDelay | BeforeRequest | BeforeLink(index: nat)

  datatype Web = Web(
    parse: map<string, Url>,                // the strings new URL(s) accepts, with their components
    pages: map<string, seq<string>>,        // request(url): pages served with status 200, as their absolute link targets
    robotsTxt: map<string, Robots.Fetched>, // robots.txt per host key; a missing host is an IOException
    stopAt: set<(string, Checkpoint)>,      // another thread calls stop() just before this checkpoint of this url
    interruptAt: set<string>,               // the worker is interrupted during this url's politeness delay
    storeFaults: map<string, string>,       // saving the queue row with this key throws, with this message
    restrictFaults: map<string, string>,    // saving the restricted-URL record of this url throws, with this message
    interruptMessage: string)               // the message of the InterruptedException

  /** The base key of s, when the parser accepts s, is its own base. */
  ghost predicate SelfBased(web: Web, s: string)
  {
    s in web.parse ==> BaseUrl(web.parse, BaseKey(web.parse[s])) == BaseKey(web.parse[s])
  }

  /** The parser agrees with itself on the base key of every URL it accepts. */
  ghost predicate Coherent(web: Web)
  {
    forall s :: SelfBased(web, s)
  }

  /** crawler.max-crawl-level, crawler.user-agent and the oracles. */
  datatype Config = Config(web: Web, maxCrawlLevel: int, userAgent: string)

  /** A CrawlerRestrictedUrl record; its id is its position in the log. */
  datatype RestrictedUrl = RestrictedUrl(url: string, userAgent: string, reason: string, createdAt: nat)

  /** Crawler.CrawlerTaskInfo. */
  datatype TaskInfo = TaskInfo(url: string, startTime: nat)

  /**
   * Everything the crawler reads and writes: the queue table, the restricted-URL
   * log, the robots cache, the active-run registry, the stop flag, the worker
   * thread's interrupt status and the clock; plus two logs for the proofs: every
   * request(url) made and every robots.txt fetched.
   */
  datatype World = World(
    rows: Table,
    restricted: seq<RestrictedUrl>,
    robotsCache: map<string, Robots.Rules>,
    active: map<string, TaskInfo>,
    shutdown: bool,
    interrupted: bool,
    clock: nat,
    fetched: seq<string>,
    robotsFetched: seq<string>)

  /** A state and the message of the exception a step raised, if any. */
  datatype Saved = Saved(world: World, error: Option<string>)

  datatype Answer = Answer(allowed: bool, world: World)

  /** Which way crawl(level, url, visited) left. */
  datatype Ending =
    | Skipped           // stop flag, already visited, or too deep
    | Restricted        // robots.txt forbids the url (saving the record may throw)
    | Escaped           // marking the row IN_PROGRESS threw, outside the try
    | Interrupted       // the politeness delay was interrupted
    | Halted            // the stop flag was seen after the delay, before the request or between links
    | FetchFailed       // request returned no document
    | Finished          // every link processed, COMPLETED written
    | Caught(message: string)  // the catch-all turned an exception into FAILED

  datatype Run = Run(world: World, visited: set<string>, raised: Option<string>, ending: Ending)

  datatype LinkRun = LinkRun(world: World, visited: set<string>, raised: Option<string>, halted: bool)

  predicate IsHttp(s: string)
  {
    (|s| >= 7 && s[..7] == "http://") || (|s| >= 8 && s[..8] == "https://")
  }

  /** Another thread may call stop() just before the flag is read here. */
  function StopCheck(c: Config, w: World, url: string, at: Checkpoint): World
  {
    if (url, at) in c.web.stopAt then w.(shutdown := true) else w
  }

  /** The queue table, the clock after a save, and the message of the exception the save threw, if any. */
  datatype Stored = Stored(rows: Table, clock: nat, error: Option<string>)

  /**
   * queueRepository.save(item) on the table alone: an upsert by url; an insert
   * reads the clock to stamp createdAt; a row listed in `faults` cannot be saved.
   */
  function Store(faults: map<string, string>, rows: Table, clock: nat, item: QueueItem): (r: Stored)
    ensures clock <= r.clock
    ensures rows.Keys <= r.rows.Keys
    ensures r.error.Some? <==> item.url in faults
    // a save that throws changes nothing
    ensures r.error.Some? ==> r.rows == rows && r.clock == clock && r.error == Some(faults[item.url])
    // otherwise the item's row is inserted or replaced and no other row changes
    ensures r.error.None? ==> && r.rows.Keys == rows.Keys + {item.url}
                              && (forall k :: k in rows && k != item.url ==> r.rows[k] == rows[k])
                              && r.rows[item.url] == item.(createdAt := r.rows[item.url].createdAt)
    // createdAt is stamped from the clock on insert, which reads it; an update keeps it
    ensures r.error.None? && item.url in rows ==> r.rows[item.url].createdAt == rows[item.url].createdAt && r.clock == clock
    ensures r.error.None? && item.url !in rows ==> r.rows[item.url].createdAt == Some(clock) && r.clock == clock + 1
  {
    if item.url in faults then Stored(rows, clock, Some(faults[item.url]))
    else if item.url in rows then Stored(Save(rows, item, clock), clock, None)
    else Stored(Save(rows, item, clock), clock + 1, None)
  }

  /** queueRepository.save(item) on the crawler's state. */
  function SaveRow(c: Config, w: World, item: QueueItem): (r: Saved)
    ensures r.world == w.(rows := r.world.rows, clock := r.world.clock)
    ensures w.clock <= r.world.clock
    ensures w.rows.Keys <= r.world.rows.Keys
  {
    var s := Store(c.web.storeFaults, w.rows, w.clock, item);
    Saved(w.(rows := s.rows, clock := s.clock), s.error)
  }

  /**
   * queueRepository.findByUrl(url).ifPresent(item -> { set status and message
   * [and lastCrawledAt := now]; save }): nothing happens when there is no row.
   */
  function UpdateRow(c: Config, w: World, url: string, status: Status, message: string, stamped: bool): (r: Saved)
    ensures r.world == w.(rows := r.world.rows, clock := r.world.clock)
    ensures w.clock <= r.world.clock
    ensures w.rows.Keys <= r.world.rows.Keys
  {
    match FindByUrl(w.rows, url)
    case None => Saved(w, None)
    case Some(item) =>
      var w1 := if stamped then w.(clock := w.clock + 1) else w;
      var updated := item.(status := status, lastMessage := Some(message),
                           lastCrawledAt := if stamped then Some(w.clock) else item.lastCrawledAt);
      SaveRow(c, w1, updated)
  }

  /** isUrlAllowedByRobots(url) on the crawler's robots cache. */
  function CheckRobots(c: Config, w: World, url: string): Answer
  {
    var v := Robots.Check(c.web.parse, c.web.robotsTxt, w.robotsCache, url);
    Answer(v.allowed, w.(robotsCache := v.cache, robotsFetched := Robots.Record(w.robotsFetched, v)))
  }

  /** restrictedUrlRepository.save(...) for a URL robots.txt forbids; it is outside any try, so what it throws escapes. */
  function Restrict(c: Config, w: World, url: string): Saved
  {
    if url in c.web.restrictFaults then Saved(w, Some(c.web.restrictFaults[url]))
    else Saved(w.(restricted := w.restricted + [RestrictedUrl(url, c.userAgent, RobotsReason, w.clock)],
                  clock := w.clock + 1), None)
  }

  /** The catch (Exception e) block; an exception from its own save escapes. */
  function Recover(c: Config, w: World, url: string, visited: set<string>, message: string): Run
  {
    var failed := UpdateRow(c, w, url, Failed, FailurePrefix + message, true);
    Run(failed.world, visited, failed.error, Caught(message))
  }

  /** crawl(level, url, visited): the checks made before anything is written. */
  function Crawl(c: Config, w: World, level: int, url: string, visited: set<string>): Run
    decreases c.maxCrawlLevel + 1 - level, 4
  {
    var w := StopCheck(c, w, url, Entry);
    if w.shutdown || url in visited || level > c.maxCrawlLevel then Run(w, visited, None, Skipped)
    else
      var robots := CheckRobots(c, w, url);
      if !robots.allowed then
        var recorded := Restrict(c, robots.world, url);
        Run(recorded.world, visited, recorded.error, Restricted)
      else Visit(c, robots.world, level, url, visited)
  }

  /** Once robots.txt allows the url: mark the row IN_PROGRESS, outside any try. */
  function Visit(c: Config, w: World, level: int, url: string, visited: set<string>): Run
    requires level <= c.maxCrawlLevel
    decreases c.maxCrawlLevel + 1 - level, 3
  {
    var marked := UpdateRow(c, w, url, InProgress, InProgressMessage, false);
    if marked.error.Some? then Run(marked.world, visited, marked.error, Escaped)
    else Delay(c, marked.world, level, url, visited)
  }

  /** The politeness delay and the stop flag read after it and again before the request. */
  function Delay(c: Config, w: World, level: int, url: string, visited: set<string>): Run
    requires level <= c.maxCrawlLevel
    decreases c.maxCrawlLevel + 1 - level, 2
  {
    if w.interrupted || url in c.web.interruptAt then Interrupt(c, w, url, visited)
    else
      var w := StopCheck(c, w, url, AfterDelay);
      if w.shutdown then Run(w, visited, None, Halted)
      else
        var w := StopCheck(c, w, url, BeforeRequest);
        if w.shutdown then Run(w, visited, None, Halted)
        else Fetch(c, w, level, url, visited)
  }

  /** The request, the links of the page and the final status. */
  function Fetch(c: Config, w: World, level: int, url: string, visited: set<string>): Run
    requires level <= c.maxCrawlLevel
    decreases c.maxCrawlLevel + 1 - level, 1
  {
    var w := w.(fetched := w.fetched + [url]);
    var visited := visited + {url};
    if url !in c.web.pages then FetchFailure(c, w, url, visited)
    else Finish(c, url, Links(c, w, level, url, c.web.pages[url], 0, visited))
  }

  /** The catch (InterruptedException e) block: FAILED with the interrupt's message, the interrupt status restored. */
  function Interrupt(c: Config, w: World, url: string, visited: set<string>): Run
  {
    var failed := UpdateRow(c, w.(interrupted := true), url, Failed, InterruptedPrefix + c.web.interruptMessage, true);
    Run(failed.world, visited, failed.error, Interrupted)
  }

  /** request(url) returned no document: FAILED, and the page's links are not read. */
  function FetchFailure(c: Config, w: World, url: string, visited: set<string>): Run
  {
    var failed := UpdateRow(c, w, url, Failed, FetchFailedMessage, true);
    if failed.error.Some? then Recover(c, failed.world, url, visited, failed.error.value)
    else Run(failed.world, visited, None, FetchFailed)
  }

  /** After the loop over the links: an exception goes to the catch, a stop leaves the row as it is, otherwise COMPLETED. */
  function Finish(c: Config, url: string, links: LinkRun): Run
  {
    if links.raised.Some? then Recover(c, links.world, url, links.visited, links.raised.value)
    else if links.halted then Run(links.world, links.visited, None, Halted)
    else
      var done := UpdateRow(c, links.world, url, Completed, CompletedMessage, true);
      if done.error.Some? then Recover(c, done.world, url, links.visited, done.error.value)
      else Run(done.world, links.visited, None, Finished)
  }

  /** The row a link to a new domain creates. */
  function Discovered(baseNext: string, baseCurrent: string): QueueItem
  {
    Build(baseNext, Some(Stopped), Some(DiscoveredMessage), Some(baseCurrent))
  }

  /** A link to another domain: queue that domain, STOPPED, unless it already has a row. */
  function Discover(c: Config, w: World, baseNext: string, baseCurrent: string): (r: Saved)
    // an existing row, of any status, is left alone
    ensures baseNext in w.rows ==> r == Saved(w, None)
    // the save throws only for a new row whose save fails, and then nothing changes
    ensures r.error.Some? <==> baseNext !in w.rows && baseNext in c.web.storeFaults
    ensures r.error.Some? ==> r.world == w
    // otherwise the domain has a row afterwards; a new one is the discovered row, and nothing else changes
    ensures r.error.None? ==> baseNext in r.world.rows
    ensures baseNext !in w.rows && r.error.None? ==>
              r.world == w.(rows := w.rows[baseNext := Discovered(baseNext, baseCurrent).(createdAt := Some(w.clock))],
                            clock := w.clock + 1)
  {
    if baseNext in w.rows then Saved(w, None)
    else SaveRow(c, w, Discovered(baseNext, baseCurrent))
  }

  /** The loop over the links of url's page, from the i-th on. */
  function Links(c: Config, w: World, level: int, url: string, links: seq<string>, i: nat,
                 visited: set<string>): LinkRun
    requires i <= |links|
    requires level <= c.maxCrawlLevel
    decreases c.maxCrawlLevel + 1 - level, 0, |links| - i
  {
    if i == |links| then LinkRun(w, visited, None, false)
    else
      var w := StopCheck(c, w, url, BeforeLink(i));
      if w.shutdown then LinkRun(w, visited, None, true)
      else
        var next := links[i];
        if !IsHttp(next) || next !in c.web.parse || next in visited then
          Links(c, w, level, url, links, i + 1, visited)
        else
          var baseCurrent := BaseUrl(c.web.parse, url);
          var baseNext := BaseUrl(c.web.parse, next);
          if baseCurrent != baseNext then
            var saved := Discover(c, w, baseNext, baseCurrent);
            if saved.error.Some? then LinkRun(saved.world, visited, saved.error, false)
            else Links(c, saved.world, level, url, links, i + 1, visited)
          else
            var child := Crawl(c, w, level + 1, next, visited);
            if child.raised.Some? then LinkRun(child.world, child.visited, child.raised, false)
            else Links(c, child.world, level, url, links, i + 1, child.visited)
  }

  /** The registry key start() gives a run: "Crawler-" + url + "-" + epoch millis. */
  function ThreadName(url: string, millis: nat): string
  {
    "Crawler-" + url + "-" + Decimal(millis)
  }

  /** activeCrawlers.put(threadName, new CrawlerTaskInfo(url, Instant.now())) */
  function Register(w: World, url: string): World
  {
    w.(clock := w.clock + 2, active := w.active[ThreadName(url, w.clock) := TaskInfo(url, w.clock + 1)])
  }

  /** start(url): register, crawl from level 1 with a fresh visited set, deregister in finally. */
  function Start(c: Config, w: World, url: string): Saved
  {
    var name := ThreadName(url, w.clock);
    var run := Crawl(c, Register(w, url), 1, url, {});
    Saved(run.world.(active := run.world.active - {name}), run.raised)
  }

  /** The loop of scheduledCrawl: start each url in turn; an exception out of start ends the loop. */
  function Dispatch(c: Config, w: World, urls: seq<string>): Saved
    decreases |urls|
  {
    if urls == [] then Saved(w, None)
    else
      var started := Start(c, w, urls[0]);
      if started.error.Some? then started else Dispatch(c, started.world, urls[1..])
  }
}
