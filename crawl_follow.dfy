/**
 * Which links a crawl follows, proved about the functions of CrawlModel by
 * induction over the crawl's recursion.
 *
 * Followable: a link is requested or recursed into only when it starts with
 * "http://" or "https://" and the URL parser accepts it; any other link is passed over without
 * a trace in the state.
 *
 * A link to another base is not requested: its base is queued instead, so a
 * page whose links were all processed leaves a row for the base of every
 * cross-base link it holds.
 *
 * A link of the same base is crawled one level deeper: below the depth limit,
 * a page whose links were all processed with no stop and no interrupt has
 * each of them visited, or recorded as forbidden by robots.txt.
 */
module CrawlFollow {
  import opened Options
  import opened Urls
  import opened QueueItems
  import opened CrawlModel
  import opened CrawlProperties
  import opened CrawlScope

  /** The test the loop over a page's links makes before anything else. */
  predicate Followable(c: Config, s: string)
  {
    IsHttp(s) && s in c.web.parse
  }

  /**
   * Going from w to w2: the requests made in between are of urls in root or
   * of followable links.
   */
  ghost predicate Followed(c: Config, w: World, w2: World, root: set<string>)
  {
    && w.fetched <= w2.fetched
    && forall i :: |w.fetched| <= i < |w2.fetched| ==> w2.fetched[i] in root || Followable(c, w2.fetched[i])
  }

  lemma FollowedTrans(c: Config, w: World, w1: World, w2: World, root: set<string>)
    requires Followed(c, w, w1, root) && Followed(c, w1, w2, root)
    ensures Followed(c, w, w2, root)
  {
    forall i | |w.fetched| <= i < |w2.fetched| ensures w2.fetched[i] in root || Followable(c, w2.fetched[i]) {
      if i < |w1.fetched| {
        assert w2.fetched[i] == w1.fetched[i];
      }
    }
  }

  /** A root that is itself a followable link can be dropped. */
  lemma FollowedDrop(c: Config, w: World, w2: World, url: string)
    requires Followed(c, w, w2, {url}) && Followable(c, url)
    ensures Followed(c, w, w2, {})
  {
  }

  /** Writes to the queue make no request. */
  lemma UpdateFollowed(c: Config, w: World, url: string, status: Status, message: string, stamped: bool,
                       root: set<string>)
    ensures Followed(c, w, UpdateRow(c, w, url, status, message, stamped).world, root)
  {
    UpdateTally(c, w, url, status, message, stamped);
  }

  lemma FinishFollowed(c: Config, url: string, links: LinkRun, root: set<string>)
    ensures Followed(c, links.world, Finish(c, url, links).world, root)
  {
    if links.raised.Some? {
      UpdateFollowed(c, links.world, url, Failed, FailurePrefix + links.raised.value, true, root);
    } else if !links.halted {
      var done := UpdateRow(c, links.world, url, Completed, CompletedMessage, true);
      UpdateFollowed(c, links.world, url, Completed, CompletedMessage, true, root);
      if done.error.Some? {
        UpdateFollowed(c, done.world, url, Failed, FailurePrefix + done.error.value, true, root);
        FollowedTrans(c, links.world, done.world, Finish(c, url, links).world, root);
      }
    }
  }

  lemma FetchFailureFollowed(c: Config, w: World, url: string, visited: set<string>, root: set<string>)
    ensures Followed(c, w, FetchFailure(c, w, url, visited).world, root)
  {
    var failed := UpdateRow(c, w, url, Failed, FetchFailedMessage, true);
    UpdateFollowed(c, w, url, Failed, FetchFailedMessage, true, root);
    if failed.error.Some? {
      UpdateFollowed(c, failed.world, url, Failed, FailurePrefix + failed.error.value, true, root);
      FollowedTrans(c, w, failed.world, FetchFailure(c, w, url, visited).world, root);
    }
  }

  /** crawl(level, url, visited) requests url itself and otherwise only followable links. */
  lemma {:induction false} CrawlFollowed(c: Config, w: World, level: int, url: string, visited: set<string>)
    ensures Followed(c, w, Crawl(c, w, level, url, visited).world, {url})
    decreases c.maxCrawlLevel + 1 - level, 4
  {
    var w0 := StopCheck(c, w, url, Entry);
    if !(w0.shutdown || url in visited || level > c.maxCrawlLevel) {
      var robots := CheckRobots(c, w0, url);
      if robots.allowed {
        VisitFollowed(c, robots.world, level, url, visited);
      }
    }
  }

  lemma {:induction false} VisitFollowed(c: Config, w: World, level: int, url: string, visited: set<string>)
    requires level <= c.maxCrawlLevel
    ensures Followed(c, w, Visit(c, w, level, url, visited).world, {url})
    decreases c.maxCrawlLevel + 1 - level, 3
  {
    var marked := UpdateRow(c, w, url, InProgress, InProgressMessage, false);
    UpdateFollowed(c, w, url, InProgress, InProgressMessage, false, {url});
    if marked.error.None? {
      DelayFollowed(c, marked.world, level, url, visited);
      FollowedTrans(c, w, marked.world, Delay(c, marked.world, level, url, visited).world, {url});
    }
  }

  lemma {:induction false} DelayFollowed(c: Config, w: World, level: int, url: string, visited: set<string>)
    requires level <= c.maxCrawlLevel
    ensures Followed(c, w, Delay(c, w, level, url, visited).world, {url})
    decreases c.maxCrawlLevel + 1 - level, 2
  {
    if w.interrupted || url in c.web.interruptAt {
      UpdateFollowed(c, w.(interrupted := true), url, Failed, InterruptedPrefix + c.web.interruptMessage, true, {url});
    } else {
      var w1 := StopCheck(c, StopCheck(c, w, url, AfterDelay), url, BeforeRequest);
      if !w1.shutdown {
        FetchFollowed(c, w1, level, url, visited);
      }
    }
  }

  lemma {:induction false} FetchFollowed(c: Config, w: World, level: int, url: string, visited: set<string>)
    requires level <= c.maxCrawlLevel
    ensures Followed(c, w, Fetch(c, w, level, url, visited).world, {url})
    decreases c.maxCrawlLevel + 1 - level, 1
  {
    var w3 := w.(fetched := w.fetched + [url]);
    var v3 := visited + {url};
    assert Followed(c, w, w3, {url});
    if url !in c.web.pages {
      FetchFailureFollowed(c, w3, url, v3, {url});
      FollowedTrans(c, w, w3, FetchFailure(c, w3, url, v3).world, {url});
    } else {
      var links := Links(c, w3, level, url, c.web.pages[url], 0, v3);
      LinksFollowed(c, w3, level, url, c.web.pages[url], 0, v3);
      assert Followed(c, w3, links.world, {url});
      FinishFollowed(c, url, links, {url});
      FollowedTrans(c, w3, links.world, Finish(c, url, links).world, {url});
      FollowedTrans(c, w, w3, Finish(c, url, links).world, {url});
    }
  }

  /** The loop over a page's links requests followable links only. */
  lemma {:induction false} LinksFollowed(c: Config, w: World, level: int, url: string, links: seq<string>, i: nat,
                                         visited: set<string>)
    requires i <= |links| && level <= c.maxCrawlLevel
    ensures Followed(c, w, Links(c, w, level, url, links, i, visited).world, {})
    decreases c.maxCrawlLevel + 1 - level, 0, |links| - i
  {
    if i < |links| {
      var w0 := StopCheck(c, w, url, BeforeLink(i));
      var next := links[i];
      if w0.shutdown {
      } else if !IsHttp(next) || next !in c.web.parse || next in visited {
        LinksFollowed(c, w0, level, url, links, i + 1, visited);
      } else if BaseUrl(c.web.parse, url) != BaseUrl(c.web.parse, next) {
        var saved := Discover(c, w0, BaseUrl(c.web.parse, next), BaseUrl(c.web.parse, url));
        if saved.error.None? {
          LinksFollowed(c, saved.world, level, url, links, i + 1, visited);
        }
      } else {
        var child := Crawl(c, w0, level + 1, next, visited);
        CrawlFollowed(c, w0, level + 1, next, visited);
        FollowedDrop(c, w0, child.world, next);
        if child.raised.None? {
          var rest := Links(c, child.world, level, url, links, i + 1, child.visited);
          LinksFollowed(c, child.world, level, url, links, i + 1, child.visited);
          FollowedTrans(c, w0, child.world, rest.world, {});
        }
      }
    }
  }

  /**
   * Links that are not http(s) or that the URL parser rejects are passed over:
   * a page made only of them changes nothing but the stop flag, which another
   * thread may raise meanwhile.
   */
  lemma {:induction false} LinksIgnoresUnfollowable(c: Config, w: World, level: int, url: string, links: seq<string>,
                                                    i: nat, visited: set<string>)
    requires i <= |links| && level <= c.maxCrawlLevel
    requires forall j :: i <= j < |links| ==> !Followable(c, links[j])
    ensures var r := Links(c, w, level, url, links, i, visited);
            && r.world == w.(shutdown := r.world.shutdown)
            && r.visited == visited
            && r.raised.None?
    decreases |links| - i
  {
    if i < |links| {
      var w0 := StopCheck(c, w, url, BeforeLink(i));
      if !w0.shutdown {
        assert !Followable(c, links[i]);
        LinksIgnoresUnfollowable(c, w0, level, url, links, i + 1, visited);
      }
    }
  }

  /**
   * When the loop over the links ran to the end, every followable link to
   * another base that was not crawled has a row for its base: the row it
   * created as a discovered domain, or the one that was there before.
   */
  lemma {:induction false} LinksQueuesDomains(c: Config, w: World, level: int, url: string, links: seq<string>,
                                              i: nat, visited: set<string>)
    requires i <= |links| && level <= c.maxCrawlLevel
    ensures var r := Links(c, w, level, url, links, i, visited);
            r.raised.None? && !r.halted ==>
              forall j :: i <= j < |links| && Followable(c, links[j]) && links[j] !in r.visited
                          && BaseUrl(c.web.parse, links[j]) != BaseUrl(c.web.parse, url) ==>
                            BaseUrl(c.web.parse, links[j]) in r.world.rows
    decreases |links| - i
  {
    if i < |links| {
      var w0 := StopCheck(c, w, url, BeforeLink(i));
      var next := links[i];
      if w0.shutdown {
      } else if !IsHttp(next) || next !in c.web.parse || next in visited {
        LinksQueuesDomains(c, w0, level, url, links, i + 1, visited);
        LinksVisits(c, w0, level, url, links, i + 1, visited);
      } else if BaseUrl(c.web.parse, url) != BaseUrl(c.web.parse, next) {
        var saved := Discover(c, w0, BaseUrl(c.web.parse, next), BaseUrl(c.web.parse, url));
        if saved.error.None? {
          LinksQueuesDomains(c, saved.world, level, url, links, i + 1, visited);
          LinksTally(c, saved.world, level, url, links, i + 1, visited);
        }
      } else {
        var child := Crawl(c, w0, level + 1, next, visited);
        if child.raised.None? {
          LinksQueuesDomains(c, child.world, level, url, links, i + 1, child.visited);
        }
      }
    }
  }

  /**
   * A crawl that ends COMPLETED processed every link of its page: each
   * followable link to another base that was not crawled has a row for its
   * base in the final table.
   */
  lemma CrawlQueuesDomains(c: Config, w: World, level: int, url: string, visited: set<string>)
    ensures var r := Crawl(c, w, level, url, visited);
            r.ending == Finished ==>
              && url in c.web.pages
              && forall j :: 0 <= j < |c.web.pages[url]| && Followable(c, c.web.pages[url][j])
                             && c.web.pages[url][j] !in r.visited
                             && BaseUrl(c.web.parse, c.web.pages[url][j]) != BaseUrl(c.web.parse, url) ==>
                               BaseUrl(c.web.parse, c.web.pages[url][j]) in r.world.rows
  {
    var w0 := StopCheck(c, w, url, Entry);
    if !(w0.shutdown || url in visited || level > c.maxCrawlLevel) {
      var robots := CheckRobots(c, w0, url);
      if robots.allowed {
        var marked := UpdateRow(c, robots.world, url, InProgress, InProgressMessage, false);
        if marked.error.None? {
          assert Visit(c, robots.world, level, url, visited) == Delay(c, marked.world, level, url, visited);
          if !(marked.world.interrupted || url in c.web.interruptAt) {
            var w1 := StopCheck(c, StopCheck(c, marked.world, url, AfterDelay), url, BeforeRequest);
            if !w1.shutdown {
              var w3 := w1.(fetched := w1.fetched + [url]);
              assert Delay(c, marked.world, level, url, visited) == Fetch(c, w1, level, url, visited);
              if url in c.web.pages {
                var links := Links(c, w3, level, url, c.web.pages[url], 0, visited + {url});
                LinksQueuesDomains(c, w3, level, url, c.web.pages[url], 0, visited + {url});
                UpdateTally(c, links.world, url, Completed, CompletedMessage, true);
              }
            }
          }
        }
      }
    }
  }

  /** Between w and w2 a restricted-URL record naming u was written. */
  ghost predicate RecordedSince(w: World, w2: World, u: string)
  {
    exists k :: |w.restricted| <= k < |w2.restricted| && w2.restricted[k].url == u
  }

  lemma RecordedWiden(w: World, w1: World, w2: World, w3: World, u: string)
    requires RecordedSince(w1, w2, u)
    requires |w.restricted| <= |w1.restricted| && w2.restricted <= w3.restricted
    ensures RecordedSince(w, w3, u)
  {
    var k :| |w1.restricted| <= k < |w2.restricted| && w2.restricted[k].url == u;
    assert w3.restricted[k] == w2.restricted[k];
  }

  /**
   * crawl(level, url, visited) on an unvisited url within the depth limit:
   * unless something escapes it or the stop flag or the interrupt status is
   * up afterwards, the url is visited, or robots.txt forbade it and a
   * restricted record names it.
   */
  lemma CrawlReaches(c: Config, w: World, level: int, url: string, visited: set<string>)
    requires level <= c.maxCrawlLevel && url !in visited
    ensures var r := Crawl(c, w, level, url, visited);
            r.raised.None? && !r.world.shutdown && !r.world.interrupted ==>
              url in r.visited || RecordedSince(w, r.world, url)
  {
    var w0 := StopCheck(c, w, url, Entry);
    if !w0.shutdown {
      var robots := CheckRobots(c, w0, url);
      if !robots.allowed {
        if url !in c.web.restrictFaults {
          var r := Crawl(c, w, level, url, visited);
          assert r.world.restricted[|w.restricted|].url == url;
        }
      } else {
        var marked := UpdateRow(c, robots.world, url, InProgress, InProgressMessage, false);
        if marked.error.None? {
          assert Visit(c, robots.world, level, url, visited) == Delay(c, marked.world, level, url, visited);
          if marked.world.interrupted || url in c.web.interruptAt {
            UpdateTally(c, marked.world.(interrupted := true), url, Failed, InterruptedPrefix + c.web.interruptMessage, true);
          } else {
            var w1 := StopCheck(c, StopCheck(c, marked.world, url, AfterDelay), url, BeforeRequest);
            if !w1.shutdown {
              var w3 := w1.(fetched := w1.fetched + [url]);
              assert Delay(c, marked.world, level, url, visited) == Fetch(c, w1, level, url, visited);
              if url in c.web.pages {
                LinksVisits(c, w3, level, url, c.web.pages[url], 0, visited + {url});
              }
            }
          }
        }
      }
    }
  }

  /**
   * Below the depth limit, when the loop over the links ran to the end with
   * neither the stop flag nor the interrupt status up, every followable link
   * of the same base was crawled: it is visited, or robots.txt forbade it and
   * a restricted record names it.
   */
  lemma {:induction false} LinksCrawlsSameBase(c: Config, w: World, level: int, url: string, links: seq<string>,
                                               i: nat, visited: set<string>)
    requires i <= |links| && level < c.maxCrawlLevel
    ensures var r := Links(c, w, level, url, links, i, visited);
            r.raised.None? && !r.halted && !r.world.shutdown && !r.world.interrupted ==>
              forall j :: i <= j < |links| && Followable(c, links[j])
                          && BaseUrl(c.web.parse, links[j]) == BaseUrl(c.web.parse, url) ==>
                            links[j] in r.visited || RecordedSince(w, r.world, links[j])
    decreases |links| - i
  {
    if i < |links| {
      var r := Links(c, w, level, url, links, i, visited);
      var w0 := StopCheck(c, w, url, BeforeLink(i));
      var next := links[i];
      if w0.shutdown {
      } else if !IsHttp(next) || next !in c.web.parse || next in visited {
        LinksCrawlsSameBase(c, w0, level, url, links, i + 1, visited);
        LinksVisits(c, w0, level, url, links, i + 1, visited);
        forall j | i < j < |links| && RecordedSince(w0, r.world, links[j]) ensures RecordedSince(w, r.world, links[j]) {
          RecordedWiden(w, w0, r.world, r.world, links[j]);
        }
      } else if BaseUrl(c.web.parse, url) != BaseUrl(c.web.parse, next) {
        var saved := Discover(c, w0, BaseUrl(c.web.parse, next), BaseUrl(c.web.parse, url));
        if saved.error.None? {
          LinksCrawlsSameBase(c, saved.world, level, url, links, i + 1, visited);
          forall j | i < j < |links| && RecordedSince(saved.world, r.world, links[j])
            ensures RecordedSince(w, r.world, links[j])
          {
            RecordedWiden(w, saved.world, r.world, r.world, links[j]);
          }
        }
      } else {
        var child := Crawl(c, w0, level + 1, next, visited);
        if child.raised.None? {
          CrawlReaches(c, w0, level + 1, next, visited);
          CrawlTally(c, w0, level + 1, next, visited);
          LinksCrawlsSameBase(c, child.world, level, url, links, i + 1, child.visited);
          LinksTally(c, child.world, level, url, links, i + 1, child.visited);
          LinksVisits(c, child.world, level, url, links, i + 1, child.visited);
          if RecordedSince(w0, child.world, next) {
            RecordedWiden(w, w0, child.world, r.world, next);
          }
          forall j | i < j < |links| && RecordedSince(child.world, r.world, links[j])
            ensures RecordedSince(w, r.world, links[j])
          {
            RecordedWiden(w, child.world, r.world, r.world, links[j]);
          }
        }
      }
    }
  }

  /**
   * A crawl below the depth limit that ends COMPLETED, with neither the stop
   * flag nor the interrupt status up, crawled every followable link of its
   * page on its own base: each is visited, or robots.txt forbade it and a
   * restricted record names it.
   */
  lemma CrawlCrawlsSameBase(c: Config, w: World, level: int, url: string, visited: set<string>)
    requires level < c.maxCrawlLevel
    ensures var r := Crawl(c, w, level, url, visited);
            r.ending == Finished && !r.world.shutdown && !r.world.interrupted ==>
              && url in c.web.pages
              && forall j :: 0 <= j < |c.web.pages[url]| && Followable(c, c.web.pages[url][j])
                             && BaseUrl(c.web.parse, c.web.pages[url][j]) == BaseUrl(c.web.parse, url) ==>
                               c.web.pages[url][j] in r.visited || RecordedSince(w, r.world, c.web.pages[url][j])
  {
    var r := Crawl(c, w, level, url, visited);
    var w0 := StopCheck(c, w, url, Entry);
    if !(w0.shutdown || url in visited) {
      var robots := CheckRobots(c, w0, url);
      if robots.allowed {
        var marked := UpdateRow(c, robots.world, url, InProgress, InProgressMessage, false);
        UpdateTally(c, robots.world, url, InProgress, InProgressMessage, false);
        if marked.error.None? {
          assert Visit(c, robots.world, level, url, visited) == Delay(c, marked.world, level, url, visited);
          if !(marked.world.interrupted || url in c.web.interruptAt) {
            var w1 := StopCheck(c, StopCheck(c, marked.world, url, AfterDelay), url, BeforeRequest);
            if !w1.shutdown {
              var w3 := w1.(fetched := w1.fetched + [url]);
              assert Delay(c, marked.world, level, url, visited) == Fetch(c, w1, level, url, visited);
              if url in c.web.pages {
                var page := c.web.pages[url];
                var links := Links(c, w3, level, url, page, 0, visited + {url});
                LinksCrawlsSameBase(c, w3, level, url, page, 0, visited + {url});
                UpdateTally(c, links.world, url, Completed, CompletedMessage, true);
                if r.ending == Finished {
                  assert r.world == UpdateRow(c, links.world, url, Completed, CompletedMessage, true).world;
                  forall j | 0 <= j < |page| && RecordedSince(w3, links.world, page[j])
                    ensures RecordedSince(w, r.world, page[j])
                  {
                    RecordedWiden(w, w3, links.world, r.world, page[j]);
                  }
                }
              }
            }
          }
        }
      }
    }
  }
}
