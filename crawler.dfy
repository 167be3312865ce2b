/**
 * Crawler as the Spring service runs it: one object whose fields are the state
 * the source keeps (the robots cache, the static registry and stop flag) and the
 * state it reaches through collaborators (the two repositories, the clock, the
 * worker thread's interrupt status). Every method is proved to compute the
 * corresponding function of CrawlModel on the state it starts from.
 */
module CrawlerService {
  import opened Options
  import opened Urls
  import opened QueueItems
  import Robots
  import opened CrawlModel
  import CrawlProperties
  import Runs

  class Crawler {
    const maxCrawlLevel: int
    const userAgent: string
    const web: Web

    var rows: Table                             // CrawlerQueueRepository
    var restricted: seq<RestrictedUrl>          // CrawlerRestrictedUrlRepository
    var robotsCache: map<string, Robots.Rules>
    var active: map<string, TaskInfo>           // activeCrawlers
    var shutdown: bool                          // isShutdown
    var interrupted: bool                       // the worker thread's interrupt status
    var clock: nat                              // Instant.now()
    ghost var fetched: seq<string>              // every request(url) made
    ghost var robotsFetched: seq<string>        // every robots.txt fetched, by host key

    /**
     * The invariant of the crawler: rows stored under their url, the robots
     * cache holding what each host's robots.txt says, robots.txt fetched once
     * per cached host, every request permitted by robots.txt and every
     * restricted record refused by it.
     */
    ghost predicate Valid()
      reads this
    {
      CrawlProperties.Sound(Settings(), State())
    }

    function Settings(): Config
    {
      Config(web, maxCrawlLevel, userAgent)
    }

    ghost function State(): World
      reads this
    {
      World(rows, restricted, robotsCache, active, shutdown, interrupted, clock, fetched, robotsFetched)
    }

    constructor (web: Web, maxCrawlLevel: int, userAgent: string, rows: Table, now: nat)
      requires Keyed(rows)
      ensures Valid()
      ensures Settings() == Config(web, maxCrawlLevel, userAgent)
      ensures State() == World(rows, [], map[], map[], false, false, now, [], [])
    {
      this.web := web;
      this.maxCrawlLevel := maxCrawlLevel;
      this.userAgent := userAgent;
      this.rows := rows;
      restricted := [];
      robotsCache := map[];
      active := map[];
      shutdown := false;
      interrupted := false;
      clock := now;
      fetched := [];
      robotsFetched := [];
    }

    /** stop(): raise the process-wide stop flag. */
    method Stop()
      modifies this
      ensures State() == old(State()).(shutdown := true)
    {
      shutdown := true;
    }

    /** isShutdown(). */
    method IsShutdown() returns (stopping: bool)
      ensures stopping == shutdown
    {
      stopping := shutdown;
    }

    /** The bean's own @PreDestroy hook: it only calls stop(). */
    method OnShutdown()
      modifies this
      ensures State() == old(State()).(shutdown := true)
      ensures Valid() == old(Valid())
    {
      Stop();
    }

    /** Reads the stop flag at a checkpoint, where another thread may just have called stop(). */
    method ReachCheckpoint(url: string, at: Checkpoint) returns (stopping: bool)
      modifies this
      ensures State() == StopCheck(Settings(), old(State()), url, at)
      ensures stopping == shutdown
    {
      if (url, at) in web.stopAt {
        Stop();
      }
      stopping := IsShutdown();
    }

    /** Instant.now(): every reading is later than the one before. */
    method Now() returns (t: nat)
      modifies this
      ensures t == old(clock)
      ensures State() == old(State()).(clock := old(clock) + 1)
    {
      t := clock;
      clock := clock + 1;
    }

    /** queueRepository.save(item). */
    method SaveQueueItem(item: QueueItem) returns (error: Option<string>)
      modifies this
      ensures Saved(State(), error) == SaveRow(Settings(), old(State()), item)
    {
      if item.url in web.storeFaults {
        return Some(web.storeFaults[item.url]);
      }
      if item.url in rows {
        rows := Save(rows, item, clock);
      } else {
        var now := Now();
        rows := Save(rows, item, now);
      }
      return None;
    }

    /** queueRepository.findByUrl(url).ifPresent(item -> { setters; save(item) }). */
    method UpdateQueueItem(url: string, status: Status, message: string, stamped: bool)
      returns (error: Option<string>)
      modifies this
      ensures Saved(State(), error) == UpdateRow(Settings(), old(State()), url, status, message, stamped)
    {
      var found := FindByUrl(rows, url);
      if found.None? {
        return None;
      }
      var item := found.value.(status := status, lastMessage := Some(message));
      if stamped {
        var now := Now();
        item := item.(lastCrawledAt := Some(now));
      }
      error := SaveQueueItem(item);
    }

    /** The catch (Exception e) block of crawl. */
    method Fail(url: string, message: string) returns (error: Option<string>)
      modifies this
      ensures Saved(State(), error) == UpdateRow(Settings(), old(State()), url, Failed, FailurePrefix + message, true)
    {
      error := UpdateQueueItem(url, Failed, FailurePrefix + message, true);
    }

    /** isUrlAllowedByRobots(url). */
    method IsUrlAllowedByRobots(url: string) returns (allowed: bool)
      modifies this
      ensures Answer(allowed, State()) == CheckRobots(Settings(), old(State()), url)
    {
      if url !in web.parse {
        return true;
      }
      var host := BaseKey(web.parse[url]);
      if host in robotsCache {
        return Robots.Allows(robotsCache[host], url);
      }
      robotsFetched := robotsFetched + [host];
      if host !in web.robotsTxt {
        robotsCache := robotsCache[host := Robots.AllowAll];
        return true;
      }
      match web.robotsTxt[host]
      case Throws =>
        // the exception reaches the outer catch: allowed, nothing cached
        return true;
      case Parses(rules) =>
        robotsCache := robotsCache[host := rules];
        return Robots.Allows(rules, url);
    }

    /** restrictedUrlRepository.save(...) for a URL that robots.txt forbids. */
    method RecordRestricted(url: string) returns (error: Option<string>)
      modifies this
      ensures Saved(State(), error) == Restrict(Settings(), old(State()), url)
    {
      if url in web.restrictFaults {
        return Some(web.restrictFaults[url]);
      }
      var now := Now();
      restricted := restricted + [RestrictedUrl(url, userAgent, RobotsReason, now)];
      return None;
    }

    /** request(url, visited): the page's link targets, or None when the fetch fails. */
    method Request(url: string, visited: set<string>) returns (doc: Option<seq<string>>, visitedOut: set<string>)
      modifies this
      ensures State() == old(State()).(fetched := old(fetched) + [url])
      ensures doc == if url in web.pages then Some(web.pages[url]) else None
      ensures visitedOut == if url in web.pages then visited + {url} else visited
    {
      fetched := fetched + [url];
      if url in web.pages {
        return Some(web.pages[url]), visited + {url};
      }
      return None, visited;
    }

    /** crawl(level, url, visited): the checks made before anything is written. */
    method Crawl(level: int, url: string, visited: set<string>) returns (visitedOut: set<string>, raised: Option<string>)
      modifies this
      decreases maxCrawlLevel + 1 - level, 4
      ensures var r := CrawlModel.Crawl(Settings(), old(State()), level, url, visited);
              State() == r.world && visitedOut == r.visited && raised == r.raised
    {
      var stopping := ReachCheckpoint(url, Entry);
      if stopping || url in visited || level > maxCrawlLevel {
        return visited, None;
      }
      var allowed := IsUrlAllowedByRobots(url);
      if !allowed {
        raised := RecordRestricted(url);
        return visited, raised;
      }
      visitedOut, raised := Visit(level, url, visited);
    }

    /** Once robots.txt allows the url: mark the row IN_PROGRESS, outside any try. */
    method Visit(level: int, url: string, visited: set<string>) returns (visitedOut: set<string>, raised: Option<string>)
      requires level <= maxCrawlLevel
      modifies this
      decreases maxCrawlLevel + 1 - level, 3
      ensures var r := CrawlModel.Visit(Settings(), old(State()), level, url, visited);
              State() == r.world && visitedOut == r.visited && raised == r.raised
    {
      var error := UpdateQueueItem(url, InProgress, InProgressMessage, false);
      if error.Some? {
        return visited, error;
      }
      visitedOut, raised := Delay(level, url, visited);
    }

    /** The politeness delay and the stop flag read after it and again before the request. */
    method Delay(level: int, url: string, visited: set<string>) returns (visitedOut: set<string>, raised: Option<string>)
      requires level <= maxCrawlLevel
      modifies this
      decreases maxCrawlLevel + 1 - level, 2
      ensures var r := CrawlModel.Delay(Settings(), old(State()), level, url, visited);
              State() == r.world && visitedOut == r.visited && raised == r.raised
    {
      // an interrupt during the sleep, or one already pending, makes it throw
      if interrupted || url in web.interruptAt {
        interrupted := true;
        raised := UpdateQueueItem(url, Failed, InterruptedPrefix + web.interruptMessage, true);
        return visited, raised;
      }
      var stopping := ReachCheckpoint(url, AfterDelay);
      if stopping {
        return visited, None;
      }
      stopping := ReachCheckpoint(url, BeforeRequest);
      if stopping {
        return visited, None;
      }
      visitedOut, raised := Fetch(level, url, visited);
    }

    /** The request, the links of the page and the final status. */
    method Fetch(level: int, url: string, visited: set<string>) returns (visitedOut: set<string>, raised: Option<string>)
      requires level <= maxCrawlLevel
      modifies this
      decreases maxCrawlLevel + 1 - level, 1
      ensures var r := CrawlModel.Fetch(Settings(), old(State()), level, url, visited);
              State() == r.world && visitedOut == r.visited && raised == r.raised
    {
      var doc;
      doc, visitedOut := Request(url, visited);
      visitedOut := visitedOut + {url};
      if doc.None? {
        raised := FetchFailure(url);
        return visitedOut, raised;
      }
      var halted;
      visitedOut, raised, halted := CrawlLinks(level, url, doc.value, visitedOut);
      raised := Finish(url, visitedOut, raised, halted);
    }

    /** request(url) returned no document: mark the row FAILED; an exception from that save goes to the catch. */
    method FetchFailure(url: string) returns (raised: Option<string>)
      modifies this
      ensures forall visited: set<string> :: var r := CrawlModel.FetchFailure(Settings(), old(State()), url, visited);
                State() == r.world && raised == r.raised
    {
      raised := UpdateQueueItem(url, Failed, FetchFailedMessage, true);
      if raised.Some? {
        raised := Fail(url, raised.value);
      }
    }

    /** After the links: an exception goes to the catch, a stop returns, otherwise the row is marked COMPLETED. */
    method Finish(url: string, visited: set<string>, raisedInLinks: Option<string>, halted: bool)
      returns (raised: Option<string>)
      modifies this
      ensures var r := CrawlModel.Finish(Settings(), url, LinkRun(old(State()), visited, raisedInLinks, halted));
              State() == r.world && raised == r.raised
    {
      if raisedInLinks.Some? {
        raised := Fail(url, raisedInLinks.value);
        return;
      }
      if halted {
        return None;
      }
      raised := UpdateQueueItem(url, Completed, CompletedMessage, true);
      if raised.Some? {
        raised := Fail(url, raised.value);
      }
    }

    /** The for-each loop over the links of url's page; an exception or a stop leaves it early. */
    method CrawlLinks(level: int, url: string, links: seq<string>, visited: set<string>)
      returns (visitedOut: set<string>, raised: Option<string>, halted: bool)
      requires level <= maxCrawlLevel
      modifies this
      decreases maxCrawlLevel + 1 - level, 0
      ensures var r := Links(Settings(), old(State()), level, url, links, 0, visited);
              State() == r.world && visitedOut == r.visited && raised == r.raised && halted == r.halted
    {
      visitedOut := visited;
      var i := 0;
      while i < |links|
        invariant i <= |links|
        invariant Links(Settings(), State(), level, url, links, i, visitedOut)
               == Links(Settings(), old(State()), level, url, links, 0, visited)
      {
        var stopping := ReachCheckpoint(url, BeforeLink(i));
        if stopping {
          return visitedOut, None, true;
        }
        var next := links[i];
        if IsHttp(next) && next in web.parse && next !in visitedOut {
          var baseCurrent := BaseUrl(web.parse, url);
          var baseNext := BaseUrl(web.parse, next);
          if baseCurrent != baseNext {
            if FindByUrl(rows, baseNext).None? {
              raised := SaveQueueItem(Discovered(baseNext, baseCurrent));
              if raised.Some? {
                return visitedOut, raised, false;
              }
            }
          } else {
            visitedOut, raised := Crawl(level + 1, next, visitedOut);
            if raised.Some? {
              return visitedOut, raised, false;
            }
          }
        }
        i := i + 1;
      }
      return visitedOut, None, false;
    }

    /** start(url): register the run, crawl from level 1 with a fresh visited set, deregister in finally. */
    method Start(url: string) returns (raised: Option<string>)
      requires Valid()
      modifies this
      ensures Saved(State(), raised) == CrawlModel.Start(Settings(), old(State()), url)
      ensures Valid()
    {
      Runs.StartSound(Settings(), State(), url);
      var millis := Now();
      var name := ThreadName(url, millis);
      var startTime := Now();
      active := active[name := TaskInfo(url, startTime)];
      ghost var registered := State();
      assert registered == Register(old(State()), url);
      var visited;
      visited, raised := Crawl(1, url, {});
      ghost var run := CrawlModel.Crawl(Settings(), registered, 1, url, {});
      assert State() == run.world && raised == run.raised;
      active := active - {name};
    }

    /** queueRepository.findAll(): every row once, in an order the repository chooses. */
    method FindAllQueueItems() returns (items: seq<QueueItem>)
      requires Valid()
      ensures Listing(rows, items)
    {
      items := [];
      var rest := rows.Keys;
      while rest != {}
        invariant rest <= rows.Keys
        invariant forall i :: 0 <= i < |items| ==> items[i].url in rows && rows[items[i].url] == items[i]
        invariant forall i :: 0 <= i < |items| ==> items[i].url !in rest
        invariant DistinctUrls(items)
        invariant forall k :: k in rows && k !in rest ==> exists i :: 0 <= i < |items| && items[i].url == k
        decreases rest
      {
        var k :| k in rest;
        ghost var before := items;
        items := items + [rows[k]];
        rest := rest - {k};
        forall k' | k' in rows && k' !in rest ensures exists i :: 0 <= i < |items| && items[i].url == k' {
          if k' == k {
            assert items[|items| - 1].url == k;
          } else {
            var i :| 0 <= i < |before| && before[i].url == k';
            assert items[i] == before[i];
          }
        }
      }
    }

    /**
     * scheduledCrawl(): start every row that is PENDING when the tick reads the
     * table, one after another; an exception escaping start ends the tick.
     */
    method ScheduledCrawl() returns (pending: seq<QueueItem>, raised: Option<string>)
      requires Valid()
      modifies this
      ensures Listing(RowsWithStatus(old(rows), Pending), pending)
      ensures Saved(State(), raised) == Dispatch(Settings(), old(State()), UrlsOf(pending))
      ensures Valid()
    {
      var all := FindAllQueueItems();
      pending := Filter(all, Pending);
      FilterListing(rows, all, Pending);
      var urls := UrlsOf(pending);
      var i := 0;
      while i < |pending|
        invariant i <= |pending|
        invariant Dispatch(Settings(), State(), urls[i..]) == Dispatch(Settings(), old(State()), urls)
        invariant Valid()
      {
        assert urls[i..][1..] == urls[i + 1..];
        raised := Start(pending[i].url);
        if raised.Some? {
          return;
        }
        i := i + 1;
      }
      raised := None;
    }
  }
}
