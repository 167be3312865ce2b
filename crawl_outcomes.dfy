/**
 * What a crawl of url leaves in url's own queue row, by the way it ended, and
 * how deep it reaches.
 *
 * Row updates in crawl go through findByUrl(url) on the url being crawled, so
 * a row is only ever rewritten, never created, by them; and the row of url is
 * not touched by the crawls of its links, which all start with url visited.
 */
module CrawlOutcomes {
  import opened Options
  import opened Urls
  import opened QueueItems
  import opened CrawlModel
  import opened CrawlProperties
  import opened CrawlScope

  /** `after` is `before` set to status and message, stamped with a clock reading in [lo, hi). */
  ghost predicate Marked(before: QueueItem, after: QueueItem, status: Status, message: string, lo: nat, hi: nat)
  {
    && after.lastCrawledAt.Some?
    && lo <= after.lastCrawledAt.value < hi
    && after == before.(status := status, lastMessage := Some(message), lastCrawledAt := after.lastCrawledAt)
  }

  /** The row of a crawled url, `before` and `after` the crawl, for each way the crawl can end. */
  ghost predicate Outcome(c: Config, before: QueueItem, after: QueueItem, e: Ending, lo: nat, hi: nat)
  {
    match e
    case Skipped => after == before
    case Restricted => after == before
    case Escaped => false
    case Halted => after == before.(status := InProgress, lastMessage := Some(InProgressMessage))
    case Interrupted => Marked(before, after, Failed, InterruptedPrefix + c.web.interruptMessage, lo, hi)
    case FetchFailed => Marked(before, after, Failed, FetchFailedMessage, lo, hi)
    case Finished => Marked(before, after, Completed, CompletedMessage, lo, hi)
    case Caught(m) => Marked(before, after, Failed, FailurePrefix + m, lo, hi)
  }

  /** The row is IN_PROGRESS with the in-progress message, as crawl leaves it before the delay. */
  ghost predicate Working(item: QueueItem)
  {
    item.status == InProgress && item.lastMessage == Some(InProgressMessage)
  }

  lemma OutcomeWiden(c: Config, before: QueueItem, after: QueueItem, e: Ending, lo: nat, lo2: nat, hi: nat)
    requires lo2 <= lo && Outcome(c, before, after, e, lo, hi)
    ensures Outcome(c, before, after, e, lo2, hi)
  {
  }

  /** An outcome reached after the row was marked IN_PROGRESS is one for the row as it was before. */
  lemma OutcomeRebase(c: Config, before: QueueItem, marked: QueueItem, after: QueueItem, e: Ending, lo: nat, hi: nat)
    requires marked == before.(status := InProgress, lastMessage := Some(InProgressMessage))
    requires !e.Skipped? && !e.Restricted?
    requires Outcome(c, marked, after, e, lo, hi)
    ensures Outcome(c, before, after, e, lo, hi)
  {
  }

  /** Updating url's row when it exists and its save does not fail. */
  lemma UpdateMarks(c: Config, w: World, url: string, status: Status, message: string, stamped: bool)
    requires Keyed(w.rows) && url in w.rows && url !in c.web.storeFaults
    ensures var r := UpdateRow(c, w, url, status, message, stamped);
            && r.error.None?
            && url in r.world.rows
            && (stamped ==> Marked(w.rows[url], r.world.rows[url], status, message, w.clock, r.world.clock))
            && (!stamped ==> r.world.rows[url] == w.rows[url].(status := status, lastMessage := Some(message)))
            && (!stamped ==> r.world.clock == w.clock)
  {
  }

  lemma FinishOutcome(c: Config, url: string, links: LinkRun)
    requires Keyed(links.world.rows) && url in links.world.rows && url !in c.web.storeFaults
    requires Working(links.world.rows[url])
    ensures var r := Finish(c, url, links);
            && r.raised.None?
            && url in r.world.rows
            && Outcome(c, links.world.rows[url], r.world.rows[url], r.ending, links.world.clock, r.world.clock)
  {
    if links.raised.Some? {
      UpdateMarks(c, links.world, url, Failed, FailurePrefix + links.raised.value, true);
    } else if !links.halted {
      UpdateMarks(c, links.world, url, Completed, CompletedMessage, true);
    }
  }

  lemma FetchOutcome(c: Config, w: World, level: int, url: string, visited: set<string>)
    requires level <= c.maxCrawlLevel
    requires Coherent(c.web) && Keyed(w.rows) && url in w.rows && url !in c.web.storeFaults
    requires Working(w.rows[url])
    ensures var r := Fetch(c, w, level, url, visited);
            && r.raised.None?
            && url in r.world.rows
            && Outcome(c, w.rows[url], r.world.rows[url], r.ending, w.clock, r.world.clock)
  {
    var w3 := w.(fetched := w.fetched + [url]);
    var v3 := visited + {url};
    if url !in c.web.pages {
      UpdateMarks(c, w3, url, Failed, FetchFailedMessage, true);
    } else {
      var links := Links(c, w3, level, url, c.web.pages[url], 0, v3);
      LinksConfined(c, w3, level, url, c.web.pages[url], 0, v3, BaseUrl(c.web.parse, url));
      LinksTally(c, w3, level, url, c.web.pages[url], 0, v3);
      FinishOutcome(c, url, links);
      var r := Finish(c, url, links);
      OutcomeWiden(c, w.rows[url], r.world.rows[url], r.ending, links.world.clock, w.clock, r.world.clock);
    }
  }

  lemma DelayOutcome(c: Config, w: World, level: int, url: string, visited: set<string>)
    requires level <= c.maxCrawlLevel
    requires Coherent(c.web) && Keyed(w.rows) && url in w.rows && url !in c.web.storeFaults
    requires Working(w.rows[url])
    ensures var r := Delay(c, w, level, url, visited);
            && r.raised.None?
            && url in r.world.rows
            && !r.ending.Skipped? && !r.ending.Restricted?
            && Outcome(c, w.rows[url], r.world.rows[url], r.ending, w.clock, r.world.clock)
  {
    if w.interrupted || url in c.web.interruptAt {
      UpdateMarks(c, w.(interrupted := true), url, Failed, InterruptedPrefix + c.web.interruptMessage, true);
    } else {
      var w1 := StopCheck(c, StopCheck(c, w, url, AfterDelay), url, BeforeRequest);
      if !w1.shutdown {
        FetchOutcome(c, w1, level, url, visited);
      }
    }
  }

  lemma VisitOutcome(c: Config, w: World, level: int, url: string, visited: set<string>)
    requires level <= c.maxCrawlLevel
    requires Coherent(c.web) && Keyed(w.rows) && url in w.rows && url !in c.web.storeFaults
    ensures var r := Visit(c, w, level, url, visited);
            && r.raised.None?
            && url in r.world.rows
            && Outcome(c, w.rows[url], r.world.rows[url], r.ending, w.clock, r.world.clock)
  {
    var marked := UpdateRow(c, w, url, InProgress, InProgressMessage, false);
    UpdateMarks(c, w, url, InProgress, InProgressMessage, false);
    var r := Delay(c, marked.world, level, url, visited);
    DelayOutcome(c, marked.world, level, url, visited);
    OutcomeRebase(c, w.rows[url], marked.world.rows[url], r.world.rows[url], r.ending, w.clock, r.world.clock);
  }

  /**
   * crawl(level, url, visited) on a url that has a row whose saves succeed:
   * the only exception that escapes it is a failed restricted-URL record, and
   * its row ends as the way it left says: untouched
   * when it was skipped or restricted; IN_PROGRESS when a stop was seen after
   * the delay, before the request or between links; FAILED with the matching
   * message when interrupted, when the request failed or when an exception was
   * caught; COMPLETED only when every link was processed.
   */
  lemma CrawlOutcome(c: Config, w: World, level: int, url: string, visited: set<string>)
    requires Coherent(c.web) && Keyed(w.rows) && url in w.rows && url !in c.web.storeFaults
    ensures var r := Crawl(c, w, level, url, visited);
            && (r.raised.Some? <==> r.ending.Restricted? && url in c.web.restrictFaults)
            && url in r.world.rows
            && Outcome(c, w.rows[url], r.world.rows[url], r.ending, w.clock, r.world.clock)
  {
    var w0 := StopCheck(c, w, url, Entry);
    if !(w0.shutdown || url in visited || level > c.maxCrawlLevel) {
      var robots := CheckRobots(c, w0, url);
      if robots.allowed {
        VisitOutcome(c, robots.world, level, url, visited);
        VisitOutcomeEnding(c, robots.world, level, url, visited);
      }
    }
  }

  /**
   * The three early returns of crawl: the stop flag, a url already visited, a
   * level past the limit. Nothing but the stop flag itself differs afterwards.
   */
  lemma CrawlSkips(c: Config, w: World, level: int, url: string, visited: set<string>)
    requires w.shutdown || (url, Entry) in c.web.stopAt || url in visited || level > c.maxCrawlLevel
    ensures var r := Crawl(c, w, level, url, visited);
            && r.ending == Skipped
            && r.raised.None?
            && r.visited == visited
            && r.world == w.(shutdown := r.world.shutdown)
  {
  }

  /**
   * A url robots.txt forbids: nothing is requested and the queue and the
   * visited set are as they were. When the restricted-URL repository accepts
   * the record, exactly one is appended, naming the url, the configured user
   * agent and the robots reason; when its save throws, the exception escapes
   * crawl and no record is kept.
   */
  lemma CrawlRestricts(c: Config, w: World, level: int, url: string, visited: set<string>)
    ensures var r := Crawl(c, w, level, url, visited);
            r.ending == Restricted ==>
              && r.visited == visited
              && r.world.rows == w.rows
              && r.world.fetched == w.fetched
              && (url !in c.web.restrictFaults ==>
                    && r.raised.None?
                    && r.world.restricted == w.restricted + [RestrictedUrl(url, c.userAgent, RobotsReason, w.clock)]
                    && r.world.clock == w.clock + 1)
              && (url in c.web.restrictFaults ==>
                    && r.raised == Some(c.web.restrictFaults[url])
                    && r.world.restricted == w.restricted
                    && r.world.clock == w.clock)
  {
    var w0 := StopCheck(c, w, url, Entry);
    if !(w0.shutdown || url in visited || level > c.maxCrawlLevel) {
      var robots := CheckRobots(c, w0, url);
      if robots.allowed {
        VisitOutcomeEnding(c, robots.world, level, url, visited);
      }
    }
  }

  /** A url robots.txt allows never ends as skipped or restricted. */
  lemma VisitOutcomeEnding(c: Config, w: World, level: int, url: string, visited: set<string>)
    requires level <= c.maxCrawlLevel
    ensures var e := Visit(c, w, level, url, visited).ending;
            !e.Skipped? && !e.Restricted?
  {
    var marked := UpdateRow(c, w, url, InProgress, InProgressMessage, false);
    if marked.error.None? {
      assert Visit(c, w, level, url, visited) == Delay(c, marked.world, level, url, visited);
      if !(marked.world.interrupted || url in c.web.interruptAt) {
        var w1 := StopCheck(c, StopCheck(c, marked.world, url, AfterDelay), url, BeforeRequest);
        if !w1.shutdown {
          assert Delay(c, marked.world, level, url, visited) == Fetch(c, w1, level, url, visited);
          if url in c.web.pages {
            var w3 := w1.(fetched := w1.fetched + [url]);
            var links := Links(c, w3, level, url, c.web.pages[url], 0, visited + {url});
            assert Finish(c, url, links).ending != Restricted;
          }
        }
      }
    }
  }

  /** At the deepest level the links of a page are not fetched: each same-base link is skipped as too deep. */
  lemma {:induction false} LinksAtDepthLimit(c: Config, w: World, level: int, url: string, links: seq<string>, i: nat,
                                             visited: set<string>)
    requires i <= |links| && level == c.maxCrawlLevel
    ensures Links(c, w, level, url, links, i, visited).world.fetched == w.fetched
    decreases |links| - i
  {
    if i < |links| {
      var w0 := StopCheck(c, w, url, BeforeLink(i));
      var next := links[i];
      if w0.shutdown {
      } else if !IsHttp(next) || next !in c.web.parse || next in visited {
        LinksAtDepthLimit(c, w0, level, url, links, i + 1, visited);
      } else if BaseUrl(c.web.parse, url) != BaseUrl(c.web.parse, next) {
        var saved := Discover(c, w0, BaseUrl(c.web.parse, next), BaseUrl(c.web.parse, url));
        if saved.error.None? {
          LinksAtDepthLimit(c, saved.world, level, url, links, i + 1, visited);
        }
      } else {
        var child := Crawl(c, w0, level + 1, next, visited);
        assert child.world.fetched == w.fetched;
        if child.raised.None? {
          LinksAtDepthLimit(c, child.world, level, url, links, i + 1, child.visited);
        }
      }
    }
  }

  /** A crawl at the deepest level requests its own url at most. */
  lemma CrawlAtDepthLimit(c: Config, w: World, url: string, visited: set<string>)
    ensures var r := Crawl(c, w, c.maxCrawlLevel, url, visited);
            r.world.fetched == w.fetched || r.world.fetched == w.fetched + [url]
  {
    var level := c.maxCrawlLevel;
    var w0 := StopCheck(c, w, url, Entry);
    if !(w0.shutdown || url in visited) {
      var robots := CheckRobots(c, w0, url);
      if robots.allowed {
        var marked := UpdateRow(c, robots.world, url, InProgress, InProgressMessage, false);
        if marked.error.None? {
          assert Visit(c, robots.world, level, url, visited) == Delay(c, marked.world, level, url, visited);
          if !(marked.world.interrupted || url in c.web.interruptAt) {
            var w1 := StopCheck(c, StopCheck(c, marked.world, url, AfterDelay), url, BeforeRequest);
            if !w1.shutdown {
              var w3 := w1.(fetched := w1.fetched + [url]);
              assert Delay(c, marked.world, level, url, visited) == Fetch(c, w1, level, url, visited);
              if url in c.web.pages {
                var links := Links(c, w3, level, url, c.web.pages[url], 0, visited + {url});
                LinksAtDepthLimit(c, w3, level, url, c.web.pages[url], 0, visited + {url});
                assert Finish(c, url, links).world.fetched == w3.fetched;
              }
            }
          }
        }
      }
    }
  }
}
