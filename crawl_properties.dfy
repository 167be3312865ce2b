/**
 * What a crawl does and does not do to the crawler's state, proved about the
 * functions of CrawlModel by induction over the crawl's recursion: crawl, the
 * visit of an allowed url, and the loop over the links of its page, which
 * crawls each same-domain link in turn.
 */
module CrawlProperties {
  import opened Options
  import opened Urls
  import opened QueueItems
  import opened CrawlModel
  import Robots

  /*
   * Tally: what a crawl only ever extends. The clock, the queue's keys, the
   * restricted log and the log of requests only grow; the registry of runs is
   * untouched; the stop flag and the interrupt status, once raised, stay
   * raised; a table whose rows are stored under their own url stays so.
   */

  ghost predicate Tally(w: World, w2: World)
  {
    && w.clock <= w2.clock
    && w.rows.Keys <= w2.rows.Keys
    && w.restricted <= w2.restricted
    && w.fetched <= w2.fetched
    && w2.active == w.active
    && (w.shutdown ==> w2.shutdown)
    && (w.interrupted ==> w2.interrupted)
    && (Keyed(w.rows) ==> Keyed(w2.rows))
  }

  lemma TallyTrans(w: World, w1: World, w2: World)
    requires Tally(w, w1) && Tally(w1, w2)
    ensures Tally(w, w2)
  {
  }

  lemma UpdateTally(c: Config, w: World, url: string, status: Status, message: string, stamped: bool)
    ensures Tally(w, UpdateRow(c, w, url, status, message, stamped).world)
  {
  }

  lemma RecoverTally(c: Config, w: World, url: string, visited: set<string>, message: string)
    ensures Tally(w, Recover(c, w, url, visited, message).world)
  {
    UpdateTally(c, w, url, Failed, FailurePrefix + message, true);
  }

  lemma InterruptTally(c: Config, w: World, url: string, visited: set<string>)
    ensures Tally(w, Interrupt(c, w, url, visited).world)
  {
    UpdateTally(c, w.(interrupted := true), url, Failed, InterruptedPrefix + c.web.interruptMessage, true);
  }

  lemma FetchFailureTally(c: Config, w: World, url: string, visited: set<string>)
    ensures Tally(w, FetchFailure(c, w, url, visited).world)
  {
    var failed := UpdateRow(c, w, url, Failed, FetchFailedMessage, true);
    UpdateTally(c, w, url, Failed, FetchFailedMessage, true);
    if failed.error.Some? {
      RecoverTally(c, failed.world, url, visited, failed.error.value);
    }
  }

  lemma FinishTally(c: Config, url: string, links: LinkRun)
    ensures Tally(links.world, Finish(c, url, links).world)
  {
    if links.raised.Some? {
      RecoverTally(c, links.world, url, links.visited, links.raised.value);
    } else if !links.halted {
      var done := UpdateRow(c, links.world, url, Completed, CompletedMessage, true);
      UpdateTally(c, links.world, url, Completed, CompletedMessage, true);
      if done.error.Some? {
        RecoverTally(c, done.world, url, links.visited, done.error.value);
      }
    }
  }

  lemma {:induction false} CrawlTally(c: Config, w: World, level: int, url: string, visited: set<string>)
    ensures Tally(w, Crawl(c, w, level, url, visited).world)
    decreases c.maxCrawlLevel + 1 - level, 4
  {
    var w0 := StopCheck(c, w, url, Entry);
    if !(w0.shutdown || url in visited || level > c.maxCrawlLevel) {
      var robots := CheckRobots(c, w0, url);
      if robots.allowed {
        VisitTally(c, robots.world, level, url, visited);
      }
    }
  }

  lemma {:induction false} VisitTally(c: Config, w: World, level: int, url: string, visited: set<string>)
    requires level <= c.maxCrawlLevel
    ensures Tally(w, Visit(c, w, level, url, visited).world)
    decreases c.maxCrawlLevel + 1 - level, 3
  {
    var marked := UpdateRow(c, w, url, InProgress, InProgressMessage, false);
    UpdateTally(c, w, url, InProgress, InProgressMessage, false);
    if marked.error.None? {
      DelayTally(c, marked.world, level, url, visited);
      TallyTrans(w, marked.world, Delay(c, marked.world, level, url, visited).world);
    }
  }

  lemma {:induction false} DelayTally(c: Config, w: World, level: int, url: string, visited: set<string>)
    requires level <= c.maxCrawlLevel
    ensures Tally(w, Delay(c, w, level, url, visited).world)
    decreases c.maxCrawlLevel + 1 - level, 2
  {
    if w.interrupted || url in c.web.interruptAt {
      InterruptTally(c, w, url, visited);
    } else {
      var w1 := StopCheck(c, StopCheck(c, w, url, AfterDelay), url, BeforeRequest);
      if !w1.shutdown {
        FetchTally(c, w1, level, url, visited);
      }
    }
  }

  lemma {:induction false} FetchTally(c: Config, w: World, level: int, url: string, visited: set<string>)
    requires level <= c.maxCrawlLevel
    ensures Tally(w, Fetch(c, w, level, url, visited).world)
    decreases c.maxCrawlLevel + 1 - level, 1
  {
    var w3 := w.(fetched := w.fetched + [url]);
    if url !in c.web.pages {
      FetchFailureTally(c, w3, url, visited + {url});
    } else {
      var links := Links(c, w3, level, url, c.web.pages[url], 0, visited + {url});
      LinksTally(c, w3, level, url, c.web.pages[url], 0, visited + {url});
      FinishTally(c, url, links);
    }
  }

  lemma {:induction false} LinksTally(c: Config, w: World, level: int, url: string, links: seq<string>, i: nat,
                                      visited: set<string>)
    requires i <= |links| && level <= c.maxCrawlLevel
    ensures Tally(w, Links(c, w, level, url, links, i, visited).world)
    decreases c.maxCrawlLevel + 1 - level, 0, |links| - i
  {
    if i < |links| {
      var w0 := StopCheck(c, w, url, BeforeLink(i));
      var next := links[i];
      if w0.shutdown {
      } else if !IsHttp(next) || next !in c.web.parse || next in visited {
        LinksTally(c, w0, level, url, links, i + 1, visited);
      } else if BaseUrl(c.web.parse, url) != BaseUrl(c.web.parse, next) {
        var saved := Discover(c, w0, BaseUrl(c.web.parse, next), BaseUrl(c.web.parse, url));
        if saved.error.None? {
          LinksTally(c, saved.world, level, url, links, i + 1, visited);
        }
      } else {
        var child := Crawl(c, w0, level + 1, next, visited);
        CrawlTally(c, w0, level + 1, next, visited);
        if child.raised.None? {
          LinksTally(c, child.world, level, url, links, i + 1, child.visited);
          TallyTrans(w, child.world, Links(c, child.world, level, url, links, i + 1, child.visited).world);
        }
      }
    }
  }

  /*
   * Sound: what holds of the crawler at every moment. Queue rows are stored
   * under their own url; every cached rule set is its host's robots.txt, and
   * the robots.txt of a cached host was fetched exactly once; every page
   * requested so far is one its host's robots.txt allows (or that robots.txt
   * could not be fetched or processed), and every restricted-URL record names
   * a URL its host's robots.txt forbids, with the configured user agent and the
   * robots reason.
   */

  ghost predicate Permitted(c: Config, u: string)
  {
    Robots.Permits(c.web.parse, c.web.robotsTxt, u)
  }

  ghost predicate Refused(c: Config, r: RestrictedUrl)
  {
    && !Robots.Permits(c.web.parse, c.web.robotsTxt, r.url)
    && r.reason == RobotsReason
    && r.userAgent == c.userAgent
  }

  ghost predicate Sound(c: Config, w: World)
  {
    && Keyed(w.rows)
    && Robots.Ledger(c.web.robotsTxt, w.robotsCache, w.robotsFetched)
    && (forall i :: 0 <= i < |w.fetched| ==> Permitted(c, w.fetched[i]))
    && (forall i :: 0 <= i < |w.restricted| ==> Refused(c, w.restricted[i]))
  }

  lemma UpdateSound(c: Config, w: World, url: string, status: Status, message: string, stamped: bool)
    requires Sound(c, w)
    ensures Sound(c, UpdateRow(c, w, url, status, message, stamped).world)
  {
  }

  /** A robots check keeps Sound, and its answer is what the url's host's robots.txt says. */
  lemma RobotsSound(c: Config, w: World, url: string)
    requires Sound(c, w)
    ensures var a := CheckRobots(c, w, url);
            && Sound(c, a.world)
            && (a.allowed <==> Permitted(c, url))
  {
    Robots.CheckKeepsLedger(c.web.parse, c.web.robotsTxt, w.robotsCache, w.robotsFetched, url);
  }

  lemma RestrictSound(c: Config, w: World, url: string)
    requires Sound(c, w) && !Permitted(c, url)
    ensures Sound(c, Restrict(c, w, url).world)
  {
    var w2 := Restrict(c, w, url).world;
    if url !in c.web.restrictFaults {
      assert Refused(c, w2.restricted[|w.restricted|]);
    }
  }

  lemma RecoverSound(c: Config, w: World, url: string, visited: set<string>, message: string)
    requires Sound(c, w)
    ensures Sound(c, Recover(c, w, url, visited, message).world)
  {
    UpdateSound(c, w, url, Failed, FailurePrefix + message, true);
  }

  lemma FetchFailureSound(c: Config, w: World, url: string, visited: set<string>)
    requires Sound(c, w)
    ensures Sound(c, FetchFailure(c, w, url, visited).world)
  {
    var failed := UpdateRow(c, w, url, Failed, FetchFailedMessage, true);
    UpdateSound(c, w, url, Failed, FetchFailedMessage, true);
    if failed.error.Some? {
      RecoverSound(c, failed.world, url, visited, failed.error.value);
    }
  }

  lemma FinishSound(c: Config, url: string, links: LinkRun)
    requires Sound(c, links.world)
    ensures Sound(c, Finish(c, url, links).world)
  {
    if links.raised.Some? {
      RecoverSound(c, links.world, url, links.visited, links.raised.value);
    } else if !links.halted {
      var done := UpdateRow(c, links.world, url, Completed, CompletedMessage, true);
      UpdateSound(c, links.world, url, Completed, CompletedMessage, true);
      if done.error.Some? {
        RecoverSound(c, done.world, url, links.visited, done.error.value);
      }
    }
  }

  lemma DiscoverSound(c: Config, w: World, baseNext: string, baseCurrent: string)
    requires Sound(c, w)
    ensures Sound(c, Discover(c, w, baseNext, baseCurrent).world)
  {
  }

  lemma {:induction false} CrawlSound(c: Config, w: World, level: int, url: string, visited: set<string>)
    requires Sound(c, w)
    ensures Sound(c, Crawl(c, w, level, url, visited).world)
    decreases c.maxCrawlLevel + 1 - level, 4
  {
    var w0 := StopCheck(c, w, url, Entry);
    if !(w0.shutdown || url in visited || level > c.maxCrawlLevel) {
      var robots := CheckRobots(c, w0, url);
      RobotsSound(c, w0, url);
      if robots.allowed {
        VisitSound(c, robots.world, level, url, visited);
      } else {
        RestrictSound(c, robots.world, url);
      }
    }
  }

  lemma {:induction false} VisitSound(c: Config, w: World, level: int, url: string, visited: set<string>)
    requires level <= c.maxCrawlLevel
    requires Sound(c, w) && Permitted(c, url)
    ensures Sound(c, Visit(c, w, level, url, visited).world)
    decreases c.maxCrawlLevel + 1 - level, 3
  {
    var marked := UpdateRow(c, w, url, InProgress, InProgressMessage, false);
    UpdateSound(c, w, url, InProgress, InProgressMessage, false);
    if marked.error.None? {
      DelaySound(c, marked.world, level, url, visited);
    }
  }

  lemma {:induction false} DelaySound(c: Config, w: World, level: int, url: string, visited: set<string>)
    requires level <= c.maxCrawlLevel
    requires Sound(c, w) && Permitted(c, url)
    ensures Sound(c, Delay(c, w, level, url, visited).world)
    decreases c.maxCrawlLevel + 1 - level, 2
  {
    if w.interrupted || url in c.web.interruptAt {
      UpdateSound(c, w.(interrupted := true), url, Failed, InterruptedPrefix + c.web.interruptMessage, true);
    } else {
      var w1 := StopCheck(c, StopCheck(c, w, url, AfterDelay), url, BeforeRequest);
      if !w1.shutdown {
        FetchSound(c, w1, level, url, visited);
      }
    }
  }

  lemma {:induction false} FetchSound(c: Config, w: World, level: int, url: string, visited: set<string>)
    requires level <= c.maxCrawlLevel
    requires Sound(c, w) && Permitted(c, url)
    ensures Sound(c, Fetch(c, w, level, url, visited).world)
    decreases c.maxCrawlLevel + 1 - level, 1
  {
    var w3 := w.(fetched := w.fetched + [url]);
    if url !in c.web.pages {
      FetchFailureSound(c, w3, url, visited + {url});
    } else {
      var links := Links(c, w3, level, url, c.web.pages[url], 0, visited + {url});
      LinksSound(c, w3, level, url, c.web.pages[url], 0, visited + {url});
      FinishSound(c, url, links);
    }
  }

  lemma {:induction false} LinksSound(c: Config, w: World, level: int, url: string, links: seq<string>, i: nat,
                                      visited: set<string>)
    requires i <= |links| && level <= c.maxCrawlLevel
    requires Sound(c, w)
    ensures Sound(c, Links(c, w, level, url, links, i, visited).world)
    decreases c.maxCrawlLevel + 1 - level, 0, |links| - i
  {
    if i < |links| {
      var w0 := StopCheck(c, w, url, BeforeLink(i));
      var next := links[i];
      if w0.shutdown {
      } else if !IsHttp(next) || next !in c.web.parse || next in visited {
        LinksSound(c, w0, level, url, links, i + 1, visited);
      } else if BaseUrl(c.web.parse, url) != BaseUrl(c.web.parse, next) {
        var saved := Discover(c, w0, BaseUrl(c.web.parse, next), BaseUrl(c.web.parse, url));
        DiscoverSound(c, w0, BaseUrl(c.web.parse, next), BaseUrl(c.web.parse, url));
        if saved.error.None? {
          LinksSound(c, saved.world, level, url, links, i + 1, visited);
        }
      } else {
        var child := Crawl(c, w0, level + 1, next, visited);
        CrawlSound(c, w0, level + 1, next, visited);
        if child.raised.None? {
          LinksSound(c, child.world, level, url, links, i + 1, child.visited);
        }
      }
    }
  }
}
