# search_engine crawl engine, modelled in Dafny

This project models the crawl engine of the `search_engine` Spring Boot
application. The engine has three parts:

- the `Crawler` service, with `start`, the recursive `crawl`, the robots.txt
  cache, base-URL extraction, the scheduled tick and the global stop flag;
- the `CrawlerQueueItem` rows of the crawl queue;
- the application's shutdown hook, which stops the crawlers and puts every
  row left `IN_PROGRESS` back to `PENDING`.

The project has three layers.

- **Class.** `CrawlerService.Crawler` is a class. Its fields are the state the
  service reads and writes:
  - the queue table and the restricted-URL log, which stand for the two
    repositories;
  - the robots cache, the static registry of active runs and the static stop
    flag;
  - the worker thread's interrupt status and the clock.

  Each of its methods is proved to compute a function of `CrawlModel` on the
  state it starts from (`State()`).
- **Functions.** `CrawlModel` states the behaviour of `crawl`, `start` and the
  `scheduledCrawl` loop as functions. They follow the code's branches, early
  returns, try/catch structure and messages.
- **Lemmas.** The properties are lemmas about those functions, proved by
  induction over the crawl's recursion:
  - `CrawlProperties`: what a crawl only extends, and the robots invariant
    `Sound`;
  - `CrawlScope`: no URL requested twice, and a run confined to its own base;
  - `CrawlFollow`: only http(s) links the URL parser accepts are followed, and
    every cross-base link of a completed page has its base queued;
  - `CrawlOutcomes`: the status of the crawled row for each way a crawl ends;
  - `Runs`: whole runs of `start` and of the scheduled tick;
  - `Application`: the shutdown requeue.

The engine depends on things it cannot see. Each is fixed as an oracle in
`CrawlModel.Web`:

- the URL parser (`parse`: the strings `new URL(s)` accepts, with protocol,
  host and port);
- the pages an HTTP GET returns with status 200, as their absolute link
  targets;
- what fetching and parsing each host's robots.txt gives: a rule set, or an
  exception other than `IOException`, which reaches the outer catch (a
  missing host is an `IOException`);
- the moments another thread calls `stop()`;
- the moments the worker is interrupted during the politeness delay;
- the queue rows whose save throws, with the exception's message;
- the URLs whose restricted-URL record cannot be saved, with the exception's
  message.

Timestamps are readings of a counter that advances on every `Instant.now()`.

On the depth limit, levels start at 1 (`crawl(1, …)`,
Crawler.java:91), and `crawl` returns at once when `level > maxCrawlLevel`
(Crawler.java:148-151). So with a limit of 1 only the start URL is requested,
and its same-domain links are skipped as too deep. `Runs.StartAtDepthOne`
states this.

`request` adds the URL to the visited set on success (Crawler.java:290).
`crawl` adds it again unconditionally right after the call (Crawler.java:198).
So the visited set after a request always holds the URL, and the model does
the same (`CrawlerService.Crawler.Request`, `CrawlerService.Crawler.Fetch`).

## Model

| member | source | states |
|---|---|---|
| Urls.DecimalRoundTrip | src/main/java/com/heldertheking/search_engine/crawler/Crawler.java:346-348 | the decimal rendering of a port (and of the epoch millis in a run's name) reads back as the same number |
| Urls.ParseBaseKeyRoundTrip | src/main/java/com/heldertheking/search_engine/crawler/Crawler.java:342-349 | the base key `protocol://host[:port]` of a well-formed URL determines its protocol, host and port: it parses back to the same components |
| Urls.SameBaseIffSameOrigin | src/main/java/com/heldertheking/search_engine/crawler/Crawler.java:216-218 | for URLs the parser accepts, equal base strings hold exactly when protocol, host and port are all equal (both directions) |
| Urls.BaseUrlOrigin | src/main/java/com/heldertheking/search_engine/crawler/Crawler.java:341-353 | getBaseUrl gives back a string the parser rejects unchanged; for a URL it accepts, the base names exactly its protocol, host and port, with ":" + port only for an explicit port |
| QueueItems.Build | src/main/java/com/heldertheking/search_engine/crawler/CrawlerQueueItem.java:22-25 | the builder keeps url, message and found-on domain; a status not given defaults to STOPPED; no timestamps are set |
| QueueItems.KeyedRowsAreUnique | src/main/java/com/heldertheking/search_engine/crawler/CrawlerQueueItem.java:15-20 | identity is by url alone, and in a table keyed by url two rows equal as entities are the same row |
| QueueItems.FindByUrl | src/main/java/com/heldertheking/search_engine/crawler/Crawler.java:166-171 | findByUrl finds a row exactly when the table has that key, and returns that row |
| QueueItems.Save | src/main/java/com/heldertheking/search_engine/crawler/CrawlerQueueItem.java:41-43 | save is an upsert by url: exactly one key is added or kept, other rows are unchanged, the saved fields are stored, createdAt is stamped on insert and never updated, a keyed table stays keyed |
| QueueItems.Filter | src/main/java/com/heldertheking/search_engine/crawler/Crawler.java:104-106 | the status filter keeps exactly the listed rows with that status |
| QueueItems.FilterListing | src/main/java/com/heldertheking/search_engine/crawler/Crawler.java:104-106 | filtering findAll by a status lists every row in that status exactly once and no other row |
| QueueItems.EmptyListing | src/main/java/com/heldertheking/search_engine/SearchEngineApplication.java:30-32 | findAll lists nothing exactly when the table is empty |
| Robots.Check | src/main/java/com/heldertheking/search_engine/crawler/Crawler.java:304-337 | fail-open robots check: a rejected URL allows without a fetch; a cached host decides from its rules; a miss fetches the url's host's robots.txt exactly once and caches exactly what it says (its rules, or allow-all when it cannot be fetched); any other exception allows and caches nothing; the cache only grows and never changes an entry; starting from a cache that agrees with robots.txt, it still agrees and the answer is allowed exactly when robots.txt permits the url |
| Robots.CheckKeepsLedger | src/main/java/com/heldertheking/search_engine/crawler/Crawler.java:309-329 | each check keeps the cache, robots.txt and the log of robots.txt fetches in step: every cached host holds what its robots.txt says and was fetched, every fetched host is cached unless its processing threw, and only such hosts are fetched twice |
| Robots.SecondCheckHitsCache | src/main/java/com/heldertheking/search_engine/crawler/Crawler.java:309 | a second check of a URL on the same host keeps the cache; it fetches again exactly when the host was not cached and its robots.txt processing throws, and otherwise answers from the cached rules |
| CrawlModel.Store | src/main/java/com/heldertheking/search_engine/SearchEngineApplication.java:37 | a save that throws raises exactly the faulty row's message and changes nothing; a successful save stores the item under its url with only that key added, keeps every other row, keeps createdAt and the clock on update, and stamps createdAt with the current reading on insert |
| CrawlModel.Discover | src/main/java/com/heldertheking/search_engine/crawler/Crawler.java:219-229 | a link to another domain leaves an existing row of that domain alone; otherwise it saves the discovered-domain row, and only that save can throw, changing nothing; without an exception the domain has a row afterwards |
| CrawlModel.SaveRow | src/main/java/com/heldertheking/search_engine/crawler/Crawler.java:221-228 | queueRepository.save changes only the queue and the clock, never removes a key and never moves the clock back |
| CrawlModel.UpdateRow | src/main/java/com/heldertheking/search_engine/crawler/Crawler.java:166-171 | findByUrl(url).ifPresent(set; save) changes only the queue and the clock, never removes a key and never moves the clock back |
| CrawlerService.Crawler.constructor | src/main/java/com/heldertheking/search_engine/crawler/Crawler.java:53-77 | a new crawler has an empty robots cache, registry and restricted log, the stop flag down, and satisfies the invariant |
| CrawlerService.Crawler.Stop | src/main/java/com/heldertheking/search_engine/crawler/Crawler.java:116-119 | stop raises the flag and changes nothing else |
| CrawlerService.Crawler.IsShutdown | src/main/java/com/heldertheking/search_engine/crawler/Crawler.java:121-123 | returns the flag |
| CrawlerService.Crawler.OnShutdown | src/main/java/com/heldertheking/search_engine/crawler/Crawler.java:125-129 | the bean's @PreDestroy raises the flag, changes nothing else and keeps the invariant |
| CrawlerService.Crawler.ReachCheckpoint | src/main/java/com/heldertheking/search_engine/crawler/Crawler.java:139-142 | reading the flag at a checkpoint sees a stop() that another thread made just before |
| CrawlerService.Crawler.Now | src/main/java/com/heldertheking/search_engine/crawler/Crawler.java:86-88 | each Instant.now() returns the current reading and advances the clock by one |
| CrawlerService.Crawler.SaveQueueItem | src/main/java/com/heldertheking/search_engine/crawler/Crawler.java:221-228 | the state after queueRepository.save is exactly CrawlModel.SaveRow of the state before |
| CrawlerService.Crawler.UpdateQueueItem | src/main/java/com/heldertheking/search_engine/crawler/Crawler.java:166-171 | the state after findByUrl(url).ifPresent(set; save) is exactly CrawlModel.UpdateRow of the state before |
| CrawlerService.Crawler.Fail | src/main/java/com/heldertheking/search_engine/crawler/Crawler.java:258-267 | the catch-all marks the row FAILED with "Crawling failed: " + message and a timestamp |
| CrawlerService.Crawler.IsUrlAllowedByRobots | src/main/java/com/heldertheking/search_engine/crawler/Crawler.java:304-337 | the answer and the new cache are exactly Robots.Check's |
| CrawlerService.Crawler.RecordRestricted | src/main/java/com/heldertheking/search_engine/crawler/Crawler.java:155-162 | the state and the exception after restrictedUrlRepository.save are exactly CrawlModel.Restrict: one record with the url, the configured user agent, the robots reason and a timestamp, or the save's exception and nothing written |
| CrawlerService.Crawler.Request | src/main/java/com/heldertheking/search_engine/crawler/Crawler.java:277-299 | request logs one fetch, returns the page's links when it is served with 200 and nothing otherwise, and adds the url to visited only on success |
| CrawlerService.Crawler.Crawl | src/main/java/com/heldertheking/search_engine/crawler/Crawler.java:138-164 | crawl computes exactly CrawlModel.Crawl: the early returns, the robots check and the restricted record |
| CrawlerService.Crawler.Visit | src/main/java/com/heldertheking/search_engine/crawler/Crawler.java:166-171 | marking the row IN_PROGRESS outside any try, and an exception from it escaping, is exactly CrawlModel.Visit |
| CrawlerService.Crawler.Delay | src/main/java/com/heldertheking/search_engine/crawler/Crawler.java:173-196 | the interrupted delay (FAILED, interrupt status restored) and the two stop checks are exactly CrawlModel.Delay |
| CrawlerService.Crawler.Fetch | src/main/java/com/heldertheking/search_engine/crawler/Crawler.java:197-257 | request, the link loop and the final status are exactly CrawlModel.Fetch |
| CrawlerService.Crawler.FetchFailure | src/main/java/com/heldertheking/search_engine/crawler/Crawler.java:249-256 | a null document marks the row FAILED with "Crawling failed"; an exception from that save goes to the catch-all |
| CrawlerService.Crawler.Finish | src/main/java/com/heldertheking/search_engine/crawler/Crawler.java:242-248 | after the loop: an exception goes to the catch-all, a stop leaves the row, otherwise COMPLETED with a timestamp |
| CrawlerService.Crawler.CrawlLinks | src/main/java/com/heldertheking/search_engine/crawler/Crawler.java:200-241 | the for-each over the links is exactly CrawlModel.Links from the first link: stop check, http filter, URL validation, visited check, discovery of other domains, recursion |
| CrawlerService.Crawler.Start | src/main/java/com/heldertheking/search_engine/crawler/Crawler.java:84-95 | start registers the run, crawls from level 1 with a fresh visited set, deregisters in finally, is exactly CrawlModel.Start and keeps the invariant |
| CrawlerService.Crawler.FindAllQueueItems | src/main/java/com/heldertheking/search_engine/crawler/Crawler.java:104 | findAll lists every row of the table exactly once |
| CrawlerService.Crawler.ScheduledCrawl | src/main/java/com/heldertheking/search_engine/crawler/Crawler.java:101-111 | the tick starts exactly the rows that were PENDING, one after another, and is exactly CrawlModel.Dispatch over their urls; it keeps the invariant |
| CrawlProperties.UpdateTally | src/main/java/com/heldertheking/search_engine/crawler/Crawler.java:166-171 | a row update only extends the state: clock, keys and logs grow, the registry is untouched, a keyed table stays keyed |
| CrawlProperties.FinishTally | src/main/java/com/heldertheking/search_engine/crawler/Crawler.java:242-267 | the final status write and the catch-all only extend the state |
| CrawlProperties.CrawlTally | src/main/java/com/heldertheking/search_engine/crawler/Crawler.java:138-268 | a whole crawl only extends the state: the clock, the queue's keys, the restricted log and the request log grow; the registry is untouched; a raised stop flag and a raised interrupt status stay raised; a keyed table stays keyed |
| CrawlProperties.VisitTally | src/main/java/com/heldertheking/search_engine/crawler/Crawler.java:166-268 | the same for the part after the robots check |
| CrawlProperties.DelayTally | src/main/java/com/heldertheking/search_engine/crawler/Crawler.java:173-268 | the same from the politeness delay on |
| CrawlProperties.FetchTally | src/main/java/com/heldertheking/search_engine/crawler/Crawler.java:197-268 | the same from the request on |
| CrawlProperties.LinksTally | src/main/java/com/heldertheking/search_engine/crawler/Crawler.java:200-241 | the same for the loop over the links |
| CrawlProperties.RobotsSound | src/main/java/com/heldertheking/search_engine/crawler/Crawler.java:304-337 | a robots check keeps the invariant (rows keyed, the cache agreeing with robots.txt, each cached host fetched once, every request and every restricted record as robots.txt says) and answers allowed exactly when robots.txt permits the url |
| CrawlProperties.RestrictSound | src/main/java/com/heldertheking/search_engine/crawler/Crawler.java:153-164 | a record is only written for a URL robots.txt refuses, with the configured user agent and the robots reason |
| CrawlProperties.UpdateSound | src/main/java/com/heldertheking/search_engine/crawler/Crawler.java:166-171 | a row update keeps the invariant |
| CrawlProperties.DiscoverSound | src/main/java/com/heldertheking/search_engine/crawler/Crawler.java:219-229 | queueing a discovered domain keeps the invariant |
| CrawlProperties.CrawlSound | src/main/java/com/heldertheking/search_engine/crawler/Crawler.java:138-268 | a whole crawl keeps the invariant: a page is requested only when robots.txt permits it, and every restricted record names a URL robots.txt refuses |
| CrawlProperties.VisitSound | src/main/java/com/heldertheking/search_engine/crawler/Crawler.java:166-268 | the same for the part after the robots check |
| CrawlProperties.DelaySound | src/main/java/com/heldertheking/search_engine/crawler/Crawler.java:173-268 | the same from the politeness delay on |
| CrawlProperties.FetchSound | src/main/java/com/heldertheking/search_engine/crawler/Crawler.java:197-268 | the same from the request on, given that the URL was allowed |
| CrawlProperties.LinksSound | src/main/java/com/heldertheking/search_engine/crawler/Crawler.java:200-241 | the same for the loop over the links |
| CrawlScope.CrawlVisits | src/main/java/com/heldertheking/search_engine/crawler/Crawler.java:143-146 | a crawl requests only URLs not yet visited, each at most once, and every URL it requests is visited afterwards |
| CrawlScope.VisitVisits | src/main/java/com/heldertheking/search_engine/crawler/Crawler.java:166-198 | the same after the robots check |
| CrawlScope.DelayVisits | src/main/java/com/heldertheking/search_engine/crawler/Crawler.java:173-198 | the same from the delay on |
| CrawlScope.FetchVisits | src/main/java/com/heldertheking/search_engine/crawler/Crawler.java:197-198 | the request of url is followed by url in visited, and the links never request it again |
| CrawlScope.LinksVisits | src/main/java/com/heldertheking/search_engine/crawler/Crawler.java:214 | the link loop requests only unvisited URLs, each once |
| CrawlScope.UpdateConfined | src/main/java/com/heldertheking/search_engine/crawler/Crawler.java:166-171 | a row update touches only the crawled url's row and requests nothing |
| CrawlScope.DiscoverConfined | src/main/java/com/heldertheking/search_engine/crawler/Crawler.java:219-229 | a link to another base creates at most one row, that of the link's base; a new one is STOPPED, "Discovered new domain…", found on the current base, keyed by its own base; an existing one leaves the state as it was; unless the save throws the base has a row afterwards |
| CrawlScope.FinishConfined | src/main/java/com/heldertheking/search_engine/crawler/Crawler.java:242-267 | the final status write touches only the crawled url's row |
| CrawlScope.CrawlConfined | src/main/java/com/heldertheking/search_engine/crawler/Crawler.java:216-234 | a crawl of a URL of base B requests only URLs of base B, leaves every row of visited URLs and of other bases unchanged, and creates only discovered-domain rows found on B |
| CrawlScope.VisitConfined | src/main/java/com/heldertheking/search_engine/crawler/Crawler.java:166-268 | the same after the robots check |
| CrawlScope.DelayConfined | src/main/java/com/heldertheking/search_engine/crawler/Crawler.java:173-268 | the same from the delay on |
| CrawlScope.FetchConfined | src/main/java/com/heldertheking/search_engine/crawler/Crawler.java:197-268 | the same from the request on |
| CrawlScope.LinksConfined | src/main/java/com/heldertheking/search_engine/crawler/Crawler.java:200-241 | the same for the loop over the links: another base only gets at most its discovered-domain row |
| CrawlFollow.CrawlFollowed | src/main/java/com/heldertheking/search_engine/crawler/Crawler.java:138-268 | a crawl requests nothing but its own url and links that start with "http://" or "https://" and that the URL parser accepts |
| CrawlFollow.VisitFollowed | src/main/java/com/heldertheking/search_engine/crawler/Crawler.java:166-268 | the same after the robots check |
| CrawlFollow.DelayFollowed | src/main/java/com/heldertheking/search_engine/crawler/Crawler.java:173-268 | the same from the delay on |
| CrawlFollow.FetchFollowed | src/main/java/com/heldertheking/search_engine/crawler/Crawler.java:197-268 | the same from the request on |
| CrawlFollow.LinksFollowed | src/main/java/com/heldertheking/search_engine/crawler/Crawler.java:200-241 | the link loop requests only http(s) links the URL parser accepts |
| CrawlFollow.LinksIgnoresUnfollowable | src/main/java/com/heldertheking/search_engine/crawler/Crawler.java:206-240 | links that are not http(s) or that the parser rejects are passed over: they change nothing but the stop flag, add nothing to visited and raise nothing |
| CrawlFollow.LinksQueuesDomains | src/main/java/com/heldertheking/search_engine/crawler/Crawler.java:216-229 | when the link loop runs to the end, every followable link to another base that was not visited has a row for its base in the final table |
| CrawlFollow.CrawlQueuesDomains | src/main/java/com/heldertheking/search_engine/crawler/Crawler.java:197-248 | a crawl that ends COMPLETED leaves a row for the base of every followable cross-base link of its page that was not visited |
| CrawlFollow.CrawlReaches | src/main/java/com/heldertheking/search_engine/crawler/Crawler.java:138-198 | a crawl of an unvisited url within the depth limit, with nothing escaping and neither the stop flag nor the interrupt status up afterwards, visits the url or, robots.txt forbidding it, writes a restricted record naming it |
| CrawlFollow.LinksCrawlsSameBase | src/main/java/com/heldertheking/search_engine/crawler/Crawler.java:200-241 | below the depth limit, a link loop that runs to the end with neither flag up recurses into every followable same-base link: each is visited afterwards or named by a new restricted record |
| CrawlFollow.CrawlCrawlsSameBase | src/main/java/com/heldertheking/search_engine/crawler/Crawler.java:197-248 | a crawl below the depth limit that ends COMPLETED with neither flag up visited every followable same-base link of its page, or recorded it as forbidden by robots.txt |
| CrawlOutcomes.UpdateMarks | src/main/java/com/heldertheking/search_engine/crawler/Crawler.java:243-247 | a row update that succeeds sets exactly status, message and (when stamped) a fresh lastCrawledAt |
| CrawlOutcomes.FinishOutcome | src/main/java/com/heldertheking/search_engine/crawler/Crawler.java:242-267 | after the links the url's row is COMPLETED, FAILED with the caught message, or left IN_PROGRESS when stopped |
| CrawlOutcomes.FetchOutcome | src/main/java/com/heldertheking/search_engine/crawler/Crawler.java:197-267 | after the request the url's row ends as its ending says: "Crawling failed" on no document, COMPLETED, caught, or halted |
| CrawlOutcomes.DelayOutcome | src/main/java/com/heldertheking/search_engine/crawler/Crawler.java:173-196 | an interrupted delay leaves the row FAILED with "Crawling interrupted: " + the message; a stop leaves it IN_PROGRESS |
| CrawlOutcomes.VisitOutcome | src/main/java/com/heldertheking/search_engine/crawler/Crawler.java:166-267 | once allowed, the row goes IN_PROGRESS and then ends as the ending says |
| CrawlOutcomes.CrawlOutcome | src/main/java/com/heldertheking/search_engine/crawler/Crawler.java:138-267 | when the url has a row and its saves succeed, only a failed restricted record escapes crawl, and the row is unchanged when skipped or restricted, IN_PROGRESS when halted, FAILED with the right message when interrupted, failed or caught, and COMPLETED only when every link was processed |
| CrawlOutcomes.CrawlSkips | src/main/java/com/heldertheking/search_engine/crawler/Crawler.java:139-151 | stop flag, a visited url or a level past the limit: crawl returns with nothing changed but the flag |
| CrawlOutcomes.CrawlRestricts | src/main/java/com/heldertheking/search_engine/crawler/Crawler.java:153-164 | a forbidden url requests nothing and leaves the queue and visited set alone; it appends exactly one record (url, user agent, "Disallowed by robots.txt", now), or, when that save throws, writes nothing and lets the exception escape |
| CrawlOutcomes.VisitOutcomeEnding | src/main/java/com/heldertheking/search_engine/crawler/Crawler.java:166-267 | a url robots.txt allows never ends as skipped or restricted |
| CrawlOutcomes.LinksAtDepthLimit | src/main/java/com/heldertheking/search_engine/crawler/Crawler.java:234 | at the deepest level the link loop requests nothing: every recursion is at a level past the limit |
| CrawlOutcomes.CrawlAtDepthLimit | src/main/java/com/heldertheking/search_engine/crawler/Crawler.java:148-151 | a crawl at the deepest level requests its own url at most |
| Runs.StartDeregisters | src/main/java/com/heldertheking/search_engine/crawler/Crawler.java:86-93 | after start the registry is what it was minus the run's own name, however the crawl ended |
| Runs.StartSound | src/main/java/com/heldertheking/search_engine/crawler/Crawler.java:84-95 | start keeps the crawler's invariant |
| Runs.StartFetchesOnce | src/main/java/com/heldertheking/search_engine/crawler/Crawler.java:91 | one run, with its fresh visited set, requests no URL twice |
| Runs.StartConfined | src/main/java/com/heldertheking/search_engine/crawler/Crawler.java:91 | one run requests only URLs of the start URL's base, keeps every row of other bases and creates only discovered-domain rows |
| Runs.StartFollowed | src/main/java/com/heldertheking/search_engine/crawler/Crawler.java:91 | one run requests nothing but its start URL and http(s) links the URL parser accepts |
| Runs.StartOutcome | src/main/java/com/heldertheking/search_engine/crawler/Crawler.java:84-95 | the start URL's own row ends as the crawl's ending says, and only a failed restricted record escapes start |
| Runs.StartAtDepthOne | src/main/java/com/heldertheking/search_engine/crawler/Crawler.java:91 | with max-crawl-level 1 a run requests the start URL at most |
| Runs.DispatchAfterShutdown | src/main/java/com/heldertheking/search_engine/crawler/Crawler.java:107-110 | a tick after the stop flag is up changes no row, restricted record or cache entry and requests nothing |
| Runs.DispatchSound | src/main/java/com/heldertheking/search_engine/crawler/Crawler.java:107-110 | a tick keeps the crawler's invariant |
| Application.Requeued | src/main/java/com/heldertheking/search_engine/SearchEngineApplication.java:34-36 | the rewritten row is PENDING with "Application was shutdown" and the new timestamp; url, createdAt and foundOnDomain are kept |
| Application.OnShutdown | src/main/java/com/heldertheking/search_engine/SearchEngineApplication.java:26-39 | the hook raises the stop flag, requeues exactly the rows that were IN_PROGRESS (each once), changes nothing but the queue, the clock and the flag, and keeps the invariant |
| Application.RequeueAll | src/main/java/com/heldertheking/search_engine/SearchEngineApplication.java:33-38 | the loop's effect on the queue and the clock is exactly Application.Requeue; the first failing save ends it |
| Application.RequeueOne | src/main/java/com/heldertheking/search_engine/SearchEngineApplication.java:34-37 | one round rewrites and saves one row |
| Application.InProgressListing | src/main/java/com/heldertheking/search_engine/SearchEngineApplication.java:30-32 | the rows read are exactly the IN_PROGRESS rows (both directions) |
| Application.InProgressSnapshot | src/main/java/com/heldertheking/search_engine/SearchEngineApplication.java:30-32 | every row read is the table's row for its url, as it was read |
| Application.RequeueFrame | src/main/java/com/heldertheking/search_engine/SearchEngineApplication.java:33-38 | requeueing adds and removes no row and keeps the table keyed |
| Application.RequeueUntouched | src/main/java/com/heldertheking/search_engine/SearchEngineApplication.java:33-38 | a row that was not read keeps every field |
| Application.RequeueFails | src/main/java/com/heldertheking/search_engine/SearchEngineApplication.java:37 | the hook ends with an exception exactly when one of the rows it read cannot be saved |
| Application.RequeueRewritesOrKeeps | src/main/java/com/heldertheking/search_engine/SearchEngineApplication.java:33-38 | a row that was read is either untouched (a save failed first) or rewritten to PENDING |
| Application.RequeueRewrites | src/main/java/com/heldertheking/search_engine/SearchEngineApplication.java:33-38 | when no save fails every row read is rewritten to PENDING with a fresh timestamp |
| Application.ShutdownRequeuesInProgress | src/main/java/com/heldertheking/search_engine/SearchEngineApplication.java:30-38 | when no save fails, exactly the IN_PROGRESS rows become PENDING with the shutdown message and a timestamp, every other row keeps every field, no row is added or removed, and none is left IN_PROGRESS |
| Application.SecondShutdownChangesNothing | src/main/java/com/heldertheking/search_engine/SearchEngineApplication.java:30-38 | a second run of the hook after a clean one finds nothing IN_PROGRESS and changes nothing |

## Left out

- HTTP and HTML are not modelled: Jsoup fetching, status codes and link extraction are the `pages` oracle; every failure of `request` is "no document".
- Parsing robots.txt (crawler-commons) is not modelled: `robotsTxt` gives each host's rule set directly, or that its processing throws something other than `IOException`; `isAllowed` is membership in a set of forbidden URLs.
- `java.net.URL` parsing is not modelled: `parse` gives the components of every string it accepts.
- The scope lemmas (`CrawlScope.CrawlConfined`, `Runs.StartConfined`, `CrawlOutcomes.CrawlOutcome`) assume `Coherent`: the parser gives a base key the same base again. `java.net.URL` guarantees this, and the model does not prove it.
- `Thread.sleep(500)` is not modelled as a duration: only the interrupt it can raise is modelled, and it comes from the `interruptAt` oracle.
- Concurrency is not modelled. `scheduledCrawl` calls `start` on `this`, which bypasses the `@Async` proxy, so the model runs the runs one after another. A `stop()` from another thread is an oracle event at each point where the flag is read. Runs interleaving on a thread pool, and the pool itself (`AsyncConfig`), are left out.
- Logging is not modelled, and neither is `Thread.currentThread().setName`.
- `getActiveCrawlers`, the REST controllers and the repositories' Spring wiring are not modelled. The repositories are the queue table and the restricted-URL log.
- `CrawlerRestrictedUrl` ids are not modelled: a record's id is its position in the log.
- Timestamps are not modelled as wall-clock instants: they are a counter that advances on every `Instant.now()`.
- CrawlModel.Start: the `Saved` result keeps the run's raised exception but not its ending. Outcomes by ending are stated on `CrawlModel.Crawl` (`Runs.StartOutcome` links the two).
- Robots.Check: `isAllowed` on cached rules is taken never to throw; an exception from it would also reach the outer catch and allow.
- Runs.StartOutcome: states the start URL's row only when the URL has a row and none of its queue saves throw, as `CrawlOutcomes.CrawlOutcome` does.
- CrawlOutcomes.CrawlOutcome: states the url's row only when the url has a row and none of its saves throw. When a save throws, `CrawlModel.Crawl` still gives the exact result, but no lemma summarises it.
- Application.ShutdownRequeuesInProgress: states the outcome only when no save fails. With a failing save, `Application.RequeueRewritesOrKeeps` and `Application.RequeueFails` state what happens.
- Queue save faults are per row and permanent: every save of a url's row (IN_PROGRESS, COMPLETED, "Crawling failed" and the catch-all's FAILED) throws or succeeds alike, so the paths where a later save of a row throws after its IN_PROGRESS save succeeded, and the catch-all then writes FAILED, are not reached by the model.
- The repository reads `findByUrl` and `findAll` are taken never to throw; `Application.RequeueFails` says the hook fails exactly when a save fails only under that assumption.
- Each host's robots.txt is fixed for the whole process: `CrawlProperties.CrawlSound`'s "robots.txt permits it" means robots.txt as first fetched, since a cached host is never re-read.
- CrawlFollow.CrawlCrawlsSameBase: states the recursion only for a crawl below the depth limit that ends COMPLETED with neither the stop flag nor the interrupt status up; a same-base link crawled while a stop was raised may be skipped without a trace.
