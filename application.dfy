/**
 * SearchEngineApplication.onShutdown: raise the crawler's stop flag, then put
 * every row that is IN_PROGRESS back to PENDING so that no work stays stranded
 * across a restart.
 */
module Application {
  import opened Options
  import opened QueueItems
  import opened CrawlModel
  import opened CrawlerService

  const ShutdownMessage := "Application was shutdown"

  /** The row `item` as onShutdown rewrites it at clock reading t. */
  function Requeued(item: QueueItem, t: nat): (r: QueueItem)
    ensures r.url == item.url && r.status == Pending && r.lastMessage == Some(ShutdownMessage)
    ensures r.lastCrawledAt == Some(t) && r.createdAt == item.createdAt && r.foundOnDomain == item.foundOnDomain
  {
    item.(status := Pending, lastMessage := Some(ShutdownMessage), lastCrawledAt := Some(t))
  }

  /**
   * The loop of onShutdown over the rows it read, on the queue table and the
   * clock: each row becomes PENDING with the shutdown message and a fresh
   * lastCrawledAt, and is saved; a save that throws ends the loop and the
   * exception leaves onShutdown.
   */
  function Requeue(faults: map<string, string>, rows: Table, clock: nat, items: seq<QueueItem>): Stored
    decreases |items|
  {
    if items == [] then Stored(rows, clock, None)
    else
      var s := Store(faults, rows, clock + 1, Requeued(items[0], clock));
      if s.error.Some? then s else Requeue(faults, s.rows, s.clock, items[1..])
  }

  /** onShutdown(): the rows it requeued, in the order findAll returned them, and the exception that ended it, if any. */
  method OnShutdown(crawler: Crawler) returns (requeued: seq<QueueItem>, failure: Option<string>)
    requires crawler.Valid()
    modifies crawler
    ensures Listing(RowsWithStatus(old(crawler.rows), InProgress), requeued)
    ensures var r := Requeue(crawler.web.storeFaults, old(crawler.rows), old(crawler.clock), requeued);
            && crawler.State() == old(crawler.State()).(shutdown := true, rows := r.rows, clock := r.clock)
            && failure == r.error
    ensures crawler.Valid()
  {
    crawler.Stop();
    var all := crawler.FindAllQueueItems();
    requeued := Filter(all, InProgress);
    FilterListing(crawler.rows, all, InProgress);
    InProgressSnapshot(crawler.rows, requeued);
    RequeueFrame(crawler.web.storeFaults, crawler.rows, crawler.clock, requeued);
    failure := RequeueAll(crawler, requeued);
  }

  /** The for-each loop of onShutdown: save each row as PENDING, stopping at the first save that throws. */
  method RequeueAll(crawler: Crawler, items: seq<QueueItem>) returns (failure: Option<string>)
    modifies crawler
    ensures var r := Requeue(crawler.web.storeFaults, old(crawler.rows), old(crawler.clock), items);
            && crawler.State() == old(crawler.State()).(rows := r.rows, clock := r.clock)
            && failure == r.error
  {
    var rest := items;
    while rest != []
      invariant Requeue(crawler.web.storeFaults, crawler.rows, crawler.clock, rest)
             == Requeue(crawler.web.storeFaults, old(crawler.rows), old(crawler.clock), items)
      invariant crawler.State() == old(crawler.State()).(rows := crawler.rows, clock := crawler.clock)
    {
      failure := RequeueOne(crawler, rest[0]);
      if failure.Some? {
        return;
      }
      rest := rest[1..];
    }
    failure := None;
  }

  /** The body of that loop for one row: PENDING, the shutdown message, lastCrawledAt now, then save. */
  method RequeueOne(crawler: Crawler, item: QueueItem) returns (failure: Option<string>)
    modifies crawler
    ensures var s := Store(crawler.web.storeFaults, old(crawler.rows), old(crawler.clock) + 1, Requeued(item, old(crawler.clock)));
            && crawler.State() == old(crawler.State()).(rows := s.rows, clock := s.clock)
            && failure == s.error
  {
    var updated := item.(status := Pending, lastMessage := Some(ShutdownMessage));
    var now := crawler.Now();
    updated := updated.(lastCrawledAt := Some(now));
    failure := crawler.SaveQueueItem(updated);
  }

  /** `after` is the row `before` as onShutdown rewrites it, stamped with a clock reading in [lo, hi). */
  ghost predicate RequeuedRow(before: QueueItem, after: QueueItem, lo: nat, hi: nat)
  {
    && after.lastCrawledAt.Some?
    && lo <= after.lastCrawledAt.value < hi
    && after == Requeued(before, after.lastCrawledAt.value)
  }

  /** `items` are rows of t as they were read: each stored under its url, no url twice. */
  ghost predicate Snapshot(t: Table, items: seq<QueueItem>)
  {
    && DistinctUrls(items)
    && forall i :: 0 <= i < |items| ==> items[i].url in t && t[items[i].url] == items[i]
  }

  /** After the first row is rewritten, the remaining ones are still as read, and none of them is the first. */
  lemma SnapshotTail(t: Table, items: seq<QueueItem>, now: nat, clock: nat)
    requires Snapshot(t, items) && items != []
    ensures Snapshot(Save(t, Requeued(items[0], now), clock), items[1..])
    ensures items[0].url !in UrlsOf(items[1..])
  {
    var rest := items[1..];
    var t1 := Save(t, Requeued(items[0], now), clock);
    forall i, j | 0 <= i < j < |rest| ensures rest[i].url != rest[j].url {
      assert rest[i] == items[i + 1] && rest[j] == items[j + 1];
    }
    forall i | 0 <= i < |rest| ensures rest[i].url in t1 && t1[rest[i].url] == rest[i] {
      assert rest[i] == items[i + 1];
    }
  }

  /** One round of the loop when the save succeeds: the first row is rewritten in place and the rest are still as read. */
  lemma RequeueStep(faults: map<string, string>, t: Table, clock: nat, items: seq<QueueItem>)
    requires Keyed(t) && Snapshot(t, items)
    requires items != [] && items[0].url !in faults
    ensures var s := Store(faults, t, clock + 1, Requeued(items[0], clock));
            && Requeue(faults, t, clock, items) == Requeue(faults, s.rows, s.clock, items[1..])
            && s == Stored(t[items[0].url := Requeued(items[0], clock)], clock + 1, None)
            && Keyed(s.rows)
            && Snapshot(s.rows, items[1..])
            && items[0].url !in UrlsOf(items[1..])
  {
    SnapshotTail(t, items, clock, clock + 1);
  }

  /** The requeue loop moves the clock forward and adds or removes no row. */
  lemma {:induction false} RequeueFrame(faults: map<string, string>, t: Table, clock: nat, items: seq<QueueItem>)
    requires Keyed(t) && Snapshot(t, items)
    ensures var r := Requeue(faults, t, clock, items);
            clock <= r.clock && Keyed(r.rows) && r.rows.Keys == t.Keys
    decreases |items|
  {
    if items != [] && items[0].url !in faults {
      RequeueStep(faults, t, clock, items);
      var s := Store(faults, t, clock + 1, Requeued(items[0], clock));
      RequeueFrame(faults, s.rows, s.clock, items[1..]);
    }
  }

  /** A row the loop did not read keeps every field. */
  lemma {:induction false} RequeueUntouched(faults: map<string, string>, t: Table, clock: nat, items: seq<QueueItem>, k: string)
    requires Keyed(t) && Snapshot(t, items)
    requires k in t && k !in UrlsOf(items)
    ensures k in Requeue(faults, t, clock, items).rows
    ensures Requeue(faults, t, clock, items).rows[k] == t[k]
    decreases |items|
  {
    if items != [] && items[0].url !in faults {
      assert UrlsOf(items)[0] == items[0].url;
      RequeueStep(faults, t, clock, items);
      var s := Store(faults, t, clock + 1, Requeued(items[0], clock));
      RequeueUntouched(faults, s.rows, s.clock, items[1..], k);
    }
  }

  /** The loop ends with an exception exactly when one of the rows it read cannot be saved. */
  lemma {:induction false} RequeueFails(faults: map<string, string>, t: Table, clock: nat, items: seq<QueueItem>)
    ensures Requeue(faults, t, clock, items).error.None? <==> forall i :: 0 <= i < |items| ==> items[i].url !in faults
    decreases |items|
  {
    if items != [] && items[0].url !in faults {
      var s := Store(faults, t, clock + 1, Requeued(items[0], clock));
      RequeueFails(faults, s.rows, s.clock, items[1..]);
      if Requeue(faults, t, clock, items).error.None? {
        forall i | 0 <= i < |items| ensures items[i].url !in faults {
          if i > 0 {
            assert items[i] == items[1..][i - 1];
          }
        }
      } else {
        var j :| 0 <= j < |items[1..]| && items[1..][j].url in faults;
        assert items[j + 1] == items[1..][j];
      }
    }
  }

  /** A row the loop read is either untouched (a save failed first) or rewritten to PENDING. */
  lemma {:induction false} RequeueRewritesOrKeeps(faults: map<string, string>, t: Table, clock: nat, items: seq<QueueItem>, k: string)
    requires Keyed(t) && Snapshot(t, items)
    requires k in UrlsOf(items)
    ensures var r := Requeue(faults, t, clock, items);
            k in t && k in r.rows && (r.rows[k] == t[k] || RequeuedRow(t[k], r.rows[k], clock, r.clock))
    decreases |items|
  {
    var i :| 0 <= i < |items| && UrlsOf(items)[i] == k;
    assert k in t;
    if items[0].url !in faults {
      RequeueStep(faults, t, clock, items);
      var s := Store(faults, t, clock + 1, Requeued(items[0], clock));
      RequeueFrame(faults, s.rows, s.clock, items[1..]);
      if k == items[0].url {
        RequeueUntouched(faults, s.rows, s.clock, items[1..], k);
      } else {
        assert UrlsOf(items[1..])[i - 1] == k;
        RequeueRewritesOrKeeps(faults, s.rows, s.clock, items[1..], k);
      }
    }
  }

  /** When no save fails, every row the loop read is rewritten to PENDING. */
  lemma {:induction false} RequeueRewrites(faults: map<string, string>, t: Table, clock: nat, items: seq<QueueItem>, k: string)
    requires Keyed(t) && Snapshot(t, items)
    requires k in UrlsOf(items)
    requires forall i :: 0 <= i < |items| ==> items[i].url !in faults
    ensures var r := Requeue(faults, t, clock, items);
            k in t && k in r.rows && RequeuedRow(t[k], r.rows[k], clock, r.clock)
    decreases |items|
  {
    var i :| 0 <= i < |items| && UrlsOf(items)[i] == k;
    assert k in t;
    RequeueStep(faults, t, clock, items);
    var s := Store(faults, t, clock + 1, Requeued(items[0], clock));
    RequeueFrame(faults, s.rows, s.clock, items[1..]);
    if k == items[0].url {
      RequeueUntouched(faults, s.rows, s.clock, items[1..], k);
    } else {
      assert UrlsOf(items[1..])[i - 1] == k;
      forall j | 0 <= j < |items[1..]| ensures items[1..][j].url !in faults {
        assert items[1..][j] == items[j + 1];
      }
      RequeueRewrites(faults, s.rows, s.clock, items[1..], k);
    }
  }

  /** Every row listed as IN_PROGRESS is the table's row for its url, as read. */
  lemma InProgressSnapshot(t: Table, requeued: seq<QueueItem>)
    requires Listing(RowsWithStatus(t, InProgress), requeued)
    ensures Snapshot(t, requeued)
  {
    forall i | 0 <= i < |requeued| ensures requeued[i].url in t && t[requeued[i].url] == requeued[i] {
      assert requeued[i].url in RowsWithStatus(t, InProgress);
    }
  }

  /** The rows listed as IN_PROGRESS are exactly the rows in that status. */
  lemma InProgressListing(t: Table, requeued: seq<QueueItem>, k: string)
    requires Listing(RowsWithStatus(t, InProgress), requeued)
    ensures k in UrlsOf(requeued) <==> k in t && t[k].status == InProgress
  {
    if k in t && t[k].status == InProgress {
      assert k in RowsWithStatus(t, InProgress);
      var i :| 0 <= i < |requeued| && requeued[i].url == k;
      assert UrlsOf(requeued)[i] == k;
    }
    if k in UrlsOf(requeued) {
      var i :| 0 <= i < |requeued| && UrlsOf(requeued)[i] == k;
      assert requeued[i].url in RowsWithStatus(t, InProgress);
    }
  }

  /**
   * onShutdown as a whole, when no save fails: exactly the rows that were
   * IN_PROGRESS are now PENDING with the shutdown message and a fresh
   * timestamp; every other row is unchanged in every field; no row is added or
   * removed, and none is left IN_PROGRESS.
   */
  lemma ShutdownRequeuesInProgress(faults: map<string, string>, t: Table, clock: nat, requeued: seq<QueueItem>)
    requires Keyed(t)
    requires Listing(RowsWithStatus(t, InProgress), requeued)
    requires forall k :: k in t && t[k].status == InProgress ==> k !in faults
    ensures var r := Requeue(faults, t, clock, requeued);
            && r.error.None?
            && r.rows.Keys == t.Keys
            && (forall k :: k in t && t[k].status != InProgress ==> r.rows[k] == t[k])
            && (forall k :: k in t && t[k].status == InProgress ==> RequeuedRow(t[k], r.rows[k], clock, r.clock))
            && KeysWithStatus(r.rows, InProgress) == {}
  {
    InProgressSnapshot(t, requeued);
    RequeueFrame(faults, t, clock, requeued);
    RequeueFails(faults, t, clock, requeued);
    var r := Requeue(faults, t, clock, requeued);
    forall i | 0 <= i < |requeued| ensures requeued[i].url !in faults {
      InProgressListing(t, requeued, requeued[i].url);
      assert UrlsOf(requeued)[i] == requeued[i].url;
    }
    forall k | k in t
      ensures t[k].status != InProgress ==> r.rows[k] == t[k]
      ensures t[k].status == InProgress ==> RequeuedRow(t[k], r.rows[k], clock, r.clock)
      ensures r.rows[k].status != InProgress
    {
      InProgressListing(t, requeued, k);
      if t[k].status == InProgress {
        RequeueRewrites(faults, t, clock, requeued, k);
      } else {
        RequeueUntouched(faults, t, clock, requeued, k);
      }
    }
  }

  /**
   * Run serially after one that met no failing save, a second onShutdown finds
   * nothing IN_PROGRESS and changes nothing.
   */
  lemma SecondShutdownChangesNothing(faults: map<string, string>, t: Table, clock: nat, first: seq<QueueItem>, second: seq<QueueItem>)
    requires Keyed(t)
    requires Listing(RowsWithStatus(t, InProgress), first)
    requires forall k :: k in t && t[k].status == InProgress ==> k !in faults
    requires var r := Requeue(faults, t, clock, first); Listing(RowsWithStatus(r.rows, InProgress), second)
    ensures second == []
    ensures var r := Requeue(faults, t, clock, first);
            Requeue(faults, r.rows, r.clock, second) == Stored(r.rows, r.clock, None)
  {
    ShutdownRequeuesInProgress(faults, t, clock, first);
    EmptyListing(RowsWithStatus(Requeue(faults, t, clock, first).rows, InProgress), second);
  }
}
