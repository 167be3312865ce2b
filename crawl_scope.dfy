/**
 * Where a crawl reaches, proved about the functions of CrawlModel by induction
 * over the crawl's recursion.
 *
 * Visits: request(url) is made only for urls that were not yet visited, each
 * at most once, and every url requested is in the visited set afterwards.
 *
 * Confined: a crawl rooted at a url of base B requests only urls of base B;
 * it leaves alone the rows of the urls already visited and the rows of every
 * other base; the only rows it creates are STOPPED rows for newly discovered
 * domains, found on B.
 */
module CrawlScope {
  import opened Options
  import opened Urls
  import opened QueueItems
  import opened CrawlModel
  import opened CrawlProperties

  /**
   * Going from w with visited set V to w2 with V2: V only grows; the requests
   * made in between are of urls outside V, now in V2, and no url twice.
   */
  ghost predicate Visits(w: World, w2: World, V: set<string>, V2: set<string>)
  {
    && V <= V2
    && w.fetched <= w2.fetched
    && (forall i :: |w.fetched| <= i < |w2.fetched| ==> w2.fetched[i] in V2 && w2.fetched[i] !in V)
    && (forall i, j :: |w.fetched| <= i < j < |w2.fetched| ==> w2.fetched[i] != w2.fetched[j])
  }

  lemma VisitsTrans(w: World, w1: World, w2: World, V: set<string>, V1: set<string>, V2: set<string>)
    requires Visits(w, w1, V, V1) && Visits(w1, w2, V1, V2)
    ensures Visits(w, w2, V, V2)
  {
    forall i | |w.fetched| <= i < |w2.fetched| ensures w2.fetched[i] in V2 && w2.fetched[i] !in V {
      if i < |w1.fetched| {
        assert w2.fetched[i] == w1.fetched[i];
      }
    }
    forall i, j | |w.fetched| <= i < j < |w2.fetched| ensures w2.fetched[i] != w2.fetched[j] {
      if i < |w1.fetched| {
        assert w2.fetched[i] == w1.fetched[i];
        if j < |w1.fetched| {
          assert w2.fetched[j] == w1.fetched[j];
        }
      }
    }
  }

  lemma FinishVisits(c: Config, url: string, links: LinkRun)
    ensures var r := Finish(c, url, links);
            Visits(links.world, r.world, links.visited, r.visited)
  {
  }

  lemma {:induction false} CrawlVisits(c: Config, w: World, level: int, url: string, visited: set<string>)
    ensures var r := Crawl(c, w, level, url, visited);
            Visits(w, r.world, visited, r.visited)
    decreases c.maxCrawlLevel + 1 - level, 4
  {
    var w0 := StopCheck(c, w, url, Entry);
    if !(w0.shutdown || url in visited || level > c.maxCrawlLevel) {
      var robots := CheckRobots(c, w0, url);
      if robots.allowed {
        VisitVisits(c, robots.world, level, url, visited);
      }
    }
  }

  lemma {:induction false} VisitVisits(c: Config, w: World, level: int, url: string, visited: set<string>)
    requires level <= c.maxCrawlLevel && url !in visited
    ensures var r := Visit(c, w, level, url, visited);
            Visits(w, r.world, visited, r.visited)
    decreases c.maxCrawlLevel + 1 - level, 3
  {
    var marked := UpdateRow(c, w, url, InProgress, InProgressMessage, false);
    if marked.error.None? {
      DelayVisits(c, marked.world, level, url, visited);
    }
  }

  lemma {:induction false} DelayVisits(c: Config, w: World, level: int, url: string, visited: set<string>)
    requires level <= c.maxCrawlLevel && url !in visited
    ensures var r := Delay(c, w, level, url, visited);
            Visits(w, r.world, visited, r.visited)
    decreases c.maxCrawlLevel + 1 - level, 2
  {
    if !(w.interrupted || url in c.web.interruptAt) {
      var w1 := StopCheck(c, StopCheck(c, w, url, AfterDelay), url, BeforeRequest);
      if !w1.shutdown {
        FetchVisits(c, w1, level, url, visited);
      }
    }
  }

  lemma {:induction false} FetchVisits(c: Config, w: World, level: int, url: string, visited: set<string>)
    requires level <= c.maxCrawlLevel && url !in visited
    ensures var r := Fetch(c, w, level, url, visited);
            Visits(w, r.world, visited, r.visited)
    decreases c.maxCrawlLevel + 1 - level, 1
  {
    var w3 := w.(fetched := w.fetched + [url]);
    var v3 := visited + {url};
    assert Visits(w, w3, visited, v3);
    if url in c.web.pages {
      var links := Links(c, w3, level, url, c.web.pages[url], 0, v3);
      LinksVisits(c, w3, level, url, c.web.pages[url], 0, v3);
      FinishVisits(c, url, links);
      VisitsTrans(w3, links.world, Finish(c, url, links).world, v3, links.visited, Finish(c, url, links).visited);
      VisitsTrans(w, w3, Finish(c, url, links).world, visited, v3, Finish(c, url, links).visited);
    }
  }

  lemma {:induction false} LinksVisits(c: Config, w: World, level: int, url: string, links: seq<string>, i: nat,
                                       visited: set<string>)
    requires i <= |links| && level <= c.maxCrawlLevel
    ensures var r := Links(c, w, level, url, links, i, visited);
            Visits(w, r.world, visited, r.visited)
    decreases c.maxCrawlLevel + 1 - level, 0, |links| - i
  {
    if i < |links| {
      var w0 := StopCheck(c, w, url, BeforeLink(i));
      var next := links[i];
      if w0.shutdown {
      } else if !IsHttp(next) || next !in c.web.parse || next in visited {
        LinksVisits(c, w0, level, url, links, i + 1, visited);
      } else if BaseUrl(c.web.parse, url) != BaseUrl(c.web.parse, next) {
        var saved := Discover(c, w0, BaseUrl(c.web.parse, next), BaseUrl(c.web.parse, url));
        if saved.error.None? {
          LinksVisits(c, saved.world, level, url, links, i + 1, visited);
        }
      } else {
        var child := Crawl(c, w0, level + 1, next, visited);
        CrawlVisits(c, w0, level + 1, next, visited);
        if child.raised.None? {
          var rest := Links(c, child.world, level, url, links, i + 1, child.visited);
          LinksVisits(c, child.world, level, url, links, i + 1, child.visited);
          VisitsTrans(w0, child.world, rest.world, visited, child.visited, rest.visited);
        }
      }
    }
  }

  /**
   * The row a crawl of base B creates for key k: a newly discovered domain,
   * keyed by its own base, found on B, STOPPED and awaiting approval.
   */
  ghost predicate Found(c: Config, item: QueueItem, k: string, base: string)
  {
    && item.url == k
    && item.status == Stopped
    && item.lastMessage == Some(DiscoveredMessage)
    && item.foundOnDomain == Some(base)
    && item.lastCrawledAt.None?
    && BaseUrl(c.web.parse, k) == k
    && k != base
  }

  /**
   * Going from w to w2 by crawling urls of base B with V visited: rows of
   * visited urls and of other bases keep every field; new rows are discovered
   * domains; every url requested has base B.
   */
  ghost predicate Confined(c: Config, w: World, w2: World, V: set<string>, base: string)
  {
    && w.fetched <= w2.fetched
    && w.rows.Keys <= w2.rows.Keys
    && (forall k :: k in w.rows && (k in V || BaseUrl(c.web.parse, k) != base) ==> w2.rows[k] == w.rows[k])
    && (forall k :: k in w2.rows && k !in w.rows ==> Found(c, w2.rows[k], k, base))
    && (forall i :: |w.fetched| <= i < |w2.fetched| ==> BaseUrl(c.web.parse, w2.fetched[i]) == base)
  }

  lemma ConfinedSame(c: Config, w: World, w2: World, V: set<string>, base: string)
    requires w2.rows == w.rows && w2.fetched == w.fetched
    ensures Confined(c, w, w2, V, base)
  {
  }

  lemma ConfinedTrans(c: Config, w: World, w1: World, w2: World, V: set<string>, V1: set<string>, base: string)
    requires Confined(c, w, w1, V, base) && Confined(c, w1, w2, V1, base) && V <= V1
    ensures Confined(c, w, w2, V, base)
  {
    forall k | k in w2.rows && k !in w.rows ensures Found(c, w2.rows[k], k, base) {
      if k in w1.rows {
        assert Found(c, w1.rows[k], k, base);
      }
    }
    forall i | |w.fetched| <= i < |w2.fetched| ensures BaseUrl(c.web.parse, w2.fetched[i]) == base {
      if i < |w1.fetched| {
        assert w2.fetched[i] == w1.fetched[i];
      }
    }
  }

  /** Marking the row of url touches that row alone, and only if it exists. */
  lemma UpdateFrame(c: Config, w: World, url: string, status: Status, message: string, stamped: bool)
    requires Keyed(w.rows)
    ensures var r := UpdateRow(c, w, url, status, message, stamped).world;
            && r.fetched == w.fetched
            && r.rows.Keys == w.rows.Keys
            && forall k :: k in w.rows && k != url ==> r.rows[k] == w.rows[k]
  {
    if url in w.rows {
      assert w.rows[url].url == url;
    }
  }

  lemma UpdateConfined(c: Config, w: World, url: string, status: Status, message: string, stamped: bool,
                       visited: set<string>, base: string)
    requires Keyed(w.rows) && url !in visited && BaseUrl(c.web.parse, url) == base
    ensures Confined(c, w, UpdateRow(c, w, url, status, message, stamped).world, visited, base)
  {
    UpdateFrame(c, w, url, status, message, stamped);
  }

  lemma RecoverConfined(c: Config, w: World, url: string, visited: set<string>, message: string,
                        V: set<string>, base: string)
    requires Keyed(w.rows) && url !in V && BaseUrl(c.web.parse, url) == base
    ensures Confined(c, w, Recover(c, w, url, visited, message).world, V, base)
  {
    UpdateConfined(c, w, url, Failed, FailurePrefix + message, true, V, base);
  }

  lemma InterruptConfined(c: Config, w: World, url: string, visited: set<string>, base: string)
    requires Keyed(w.rows) && url !in visited && BaseUrl(c.web.parse, url) == base
    ensures Confined(c, w, Interrupt(c, w, url, visited).world, visited, base)
  {
    UpdateConfined(c, w.(interrupted := true), url, Failed, InterruptedPrefix + c.web.interruptMessage, true, visited, base);
  }

  lemma FetchFailureConfined(c: Config, w: World, url: string, visited: set<string>, V: set<string>, base: string)
    requires Keyed(w.rows) && url !in V && BaseUrl(c.web.parse, url) == base
    ensures Confined(c, w, FetchFailure(c, w, url, visited).world, V, base)
  {
    var failed := UpdateRow(c, w, url, Failed, FetchFailedMessage, true);
    UpdateConfined(c, w, url, Failed, FetchFailedMessage, true, V, base);
    UpdateTally(c, w, url, Failed, FetchFailedMessage, true);
    if failed.error.Some? {
      RecoverConfined(c, failed.world, url, visited, failed.error.value, V, base);
      ConfinedTrans(c, w, failed.world, FetchFailure(c, w, url, visited).world, V, V, base);
    }
  }

  lemma FinishConfined(c: Config, url: string, links: LinkRun, V: set<string>, base: string)
    requires Keyed(links.world.rows) && url !in V && BaseUrl(c.web.parse, url) == base
    ensures Confined(c, links.world, Finish(c, url, links).world, V, base)
  {
    if links.raised.Some? {
      RecoverConfined(c, links.world, url, links.visited, links.raised.value, V, base);
    } else if !links.halted {
      var done := UpdateRow(c, links.world, url, Completed, CompletedMessage, true);
      UpdateConfined(c, links.world, url, Completed, CompletedMessage, true, V, base);
      UpdateTally(c, links.world, url, Completed, CompletedMessage, true);
      if done.error.Some? {
        RecoverConfined(c, done.world, url, links.visited, done.error.value, V, base);
        ConfinedTrans(c, links.world, done.world, Finish(c, url, links).world, V, V, base);
      }
    }
  }

  /**
   * A link to another base creates at most one row, that of the link's base:
   * a discovered domain when the base had no row, nothing when it had one.
   * Unless the save throws, the base has a row afterwards.
   */
  lemma DiscoverConfined(c: Config, w: World, url: string, next: string, visited: set<string>, base: string)
    requires Coherent(c.web) && next in c.web.parse
    requires BaseUrl(c.web.parse, url) == base && BaseUrl(c.web.parse, next) != base
    ensures var k := BaseUrl(c.web.parse, next);
            var saved := Discover(c, w, k, base);
            && Confined(c, w, saved.world, visited, base)
            && saved.world.rows.Keys <= w.rows.Keys + {k}
            && (k in w.rows ==> saved.world == w)
            && (saved.error.None? ==> k in saved.world.rows)
            && (k !in w.rows && saved.error.None? ==> Found(c, saved.world.rows[k], k, base))
  {
    assert SelfBased(c.web, next);
  }

  lemma {:induction false} CrawlConfined(c: Config, w: World, level: int, url: string, visited: set<string>,
                                         base: string)
    requires Coherent(c.web) && Keyed(w.rows) && BaseUrl(c.web.parse, url) == base
    ensures Confined(c, w, Crawl(c, w, level, url, visited).world, visited, base)
    decreases c.maxCrawlLevel + 1 - level, 4
  {
    var w0 := StopCheck(c, w, url, Entry);
    var r := Crawl(c, w, level, url, visited);
    if w0.shutdown || url in visited || level > c.maxCrawlLevel {
      ConfinedSame(c, w, r.world, visited, base);
    } else {
      var robots := CheckRobots(c, w0, url);
      if robots.allowed {
        VisitConfined(c, robots.world, level, url, visited, base);
        ConfinedSame(c, w, robots.world, visited, base);
        ConfinedTrans(c, w, robots.world, r.world, visited, visited, base);
      } else {
        ConfinedSame(c, w, r.world, visited, base);
      }
    }
  }

  lemma {:induction false} VisitConfined(c: Config, w: World, level: int, url: string, visited: set<string>,
                                         base: string)
    requires level <= c.maxCrawlLevel && url !in visited
    requires Coherent(c.web) && Keyed(w.rows) && BaseUrl(c.web.parse, url) == base
    ensures Confined(c, w, Visit(c, w, level, url, visited).world, visited, base)
    decreases c.maxCrawlLevel + 1 - level, 3
  {
    var marked := UpdateRow(c, w, url, InProgress, InProgressMessage, false);
    UpdateConfined(c, w, url, InProgress, InProgressMessage, false, visited, base);
    UpdateTally(c, w, url, InProgress, InProgressMessage, false);
    if marked.error.None? {
      DelayConfined(c, marked.world, level, url, visited, base);
      ConfinedTrans(c, w, marked.world, Delay(c, marked.world, level, url, visited).world, visited, visited, base);
    }
  }

  lemma {:induction false} DelayConfined(c: Config, w: World, level: int, url: string, visited: set<string>,
                                         base: string)
    requires level <= c.maxCrawlLevel && url !in visited
    requires Coherent(c.web) && Keyed(w.rows) && BaseUrl(c.web.parse, url) == base
    ensures Confined(c, w, Delay(c, w, level, url, visited).world, visited, base)
    decreases c.maxCrawlLevel + 1 - level, 2
  {
    if w.interrupted || url in c.web.interruptAt {
      InterruptConfined(c, w, url, visited, base);
    } else {
      var w1 := StopCheck(c, StopCheck(c, w, url, AfterDelay), url, BeforeRequest);
      if !w1.shutdown {
        FetchConfined(c, w1, level, url, visited, base);
      }
    }
  }

  lemma {:induction false} FetchConfined(c: Config, w: World, level: int, url: string, visited: set<string>,
                                         base: string)
    requires level <= c.maxCrawlLevel && url !in visited
    requires Coherent(c.web) && Keyed(w.rows) && BaseUrl(c.web.parse, url) == base
    ensures Confined(c, w, Fetch(c, w, level, url, visited).world, visited, base)
    decreases c.maxCrawlLevel + 1 - level, 1
  {
    var w3 := w.(fetched := w.fetched + [url]);
    var v3 := visited + {url};
    assert Confined(c, w, w3, visited, base);
    if url !in c.web.pages {
      FetchFailureConfined(c, w3, url, v3, visited, base);
      ConfinedTrans(c, w, w3, FetchFailure(c, w3, url, v3).world, visited, visited, base);
    } else {
      var links := Links(c, w3, level, url, c.web.pages[url], 0, v3);
      LinksConfined(c, w3, level, url, c.web.pages[url], 0, v3, base);
      LinksTally(c, w3, level, url, c.web.pages[url], 0, v3);
      FinishConfined(c, url, links, visited, base);
      ConfinedTrans(c, w, w3, links.world, visited, v3, base);
      ConfinedTrans(c, w, links.world, Finish(c, url, links).world, visited, visited, base);
    }
  }

  lemma {:induction false} LinksConfined(c: Config, w: World, level: int, url: string, links: seq<string>, i: nat,
                                         visited: set<string>, base: string)
    requires i <= |links| && level <= c.maxCrawlLevel
    requires Coherent(c.web) && Keyed(w.rows) && BaseUrl(c.web.parse, url) == base
    ensures Confined(c, w, Links(c, w, level, url, links, i, visited).world, visited, base)
    decreases c.maxCrawlLevel + 1 - level, 0, |links| - i, 1
  {
    if i < |links| {
      var w0 := StopCheck(c, w, url, BeforeLink(i));
      var next := links[i];
      if w0.shutdown {
      } else if !IsHttp(next) || next !in c.web.parse || next in visited {
        LinksConfined(c, w0, level, url, links, i + 1, visited, base);
      } else if BaseUrl(c.web.parse, url) != BaseUrl(c.web.parse, next) {
        DiscoverStepConfined(c, w0, level, url, links, i, visited, base);
      } else {
        CrawlStepConfined(c, w0, level, url, links, i, visited, base);
      }
    }
  }

  /** A link to another base: its row, then the rest of the links. */
  lemma {:induction false} DiscoverStepConfined(c: Config, w: World, level: int, url: string, links: seq<string>,
                                                i: nat, visited: set<string>, base: string)
    requires i < |links| && level <= c.maxCrawlLevel
    requires Coherent(c.web) && Keyed(w.rows) && BaseUrl(c.web.parse, url) == base
    requires links[i] in c.web.parse && BaseUrl(c.web.parse, links[i]) != base
    ensures var saved := Discover(c, w, BaseUrl(c.web.parse, links[i]), base);
            Confined(c, w, if saved.error.Some? then saved.world
                           else Links(c, saved.world, level, url, links, i + 1, visited).world, visited, base)
    decreases c.maxCrawlLevel + 1 - level, 0, |links| - i, 0
  {
    var saved := Discover(c, w, BaseUrl(c.web.parse, links[i]), base);
    DiscoverConfined(c, w, url, links[i], visited, base);
    if saved.error.None? {
      var rest := Links(c, saved.world, level, url, links, i + 1, visited);
      LinksConfined(c, saved.world, level, url, links, i + 1, visited, base);
      ConfinedTrans(c, w, saved.world, rest.world, visited, visited, base);
    }
  }

  /** A link of the same base: crawl it one level deeper, then the rest of the links. */
  lemma {:induction false} CrawlStepConfined(c: Config, w: World, level: int, url: string, links: seq<string>,
                                             i: nat, visited: set<string>, base: string)
    requires i < |links| && level <= c.maxCrawlLevel
    requires Coherent(c.web) && Keyed(w.rows) && BaseUrl(c.web.parse, url) == base
    requires BaseUrl(c.web.parse, links[i]) == base
    ensures var child := Crawl(c, w, level + 1, links[i], visited);
            Confined(c, w, if child.raised.Some? then child.world
                           else Links(c, child.world, level, url, links, i + 1, child.visited).world, visited, base)
    decreases c.maxCrawlLevel + 1 - level, 0, |links| - i, 0
  {
    var child := Crawl(c, w, level + 1, links[i], visited);
    CrawlConfined(c, w, level + 1, links[i], visited, base);
    if child.raised.None? {
      CrawlTally(c, w, level + 1, links[i], visited);
      CrawlVisits(c, w, level + 1, links[i], visited);
      var rest := Links(c, child.world, level, url, links, i + 1, child.visited);
      LinksConfined(c, child.world, level, url, links, i + 1, child.visited, base);
      ConfinedTrans(c, w, child.world, rest.world, visited, child.visited, base);
    }
  }
}
