/**
 * The crawl queue: CrawlerQueueItem rows and the repository that stores them,
 * modelled as a table from URL (the primary key) to row.
 */
module QueueItems {
  import opened Options

  /** CrawlerQueueItem.CrawlerStatus. */
  datatype Status = Pending | InProgress | Completed | Failed | Stopped

  /**
   * One row of the crawl queue. `status` can never be null; the nullable
   * columns are Options. Timestamps are readings of the model's clock.
   */
  datatype QueueItem = QueueItem(
    url: string,
    status: Status,
    lastMessage: Option<string>,
    lastCrawledAt: Option<nat>,
    createdAt: Option<nat>,
    foundOnDomain: Option<string>)

  /** CrawlerQueueItem.builder()...build(): a status not given defaults to STOPPED. */
  function Build(url: string, status: Option<Status>, lastMessage: Option<string>,
                 foundOnDomain: Option<string>): (item: QueueItem)
    ensures item.url == url && item.lastMessage == lastMessage && item.foundOnDomain == foundOnDomain
    ensures status.None? ==> item.status == Stopped
    ensures status.Some? ==> item.status == status.value
    ensures item.lastCrawledAt.None? && item.createdAt.None?
  {
    QueueItem(url, if status.Some? then status.value else Stopped, lastMessage, None, None, foundOnDomain)
  }

  /** equals/hashCode: only the url is included. */
  predicate SameEntity(a: QueueItem, b: QueueItem)
  {
    a.url == b.url
  }

  /** The queue table, keyed by the primary key `url`. */
  type Table = map<string, QueueItem>

  /** Every row is stored under its own url. */
  ghost predicate Keyed(t: Table)
  {
    forall k :: k in t ==> t[k].url == k
  }

  /**
   * The primary key makes rows and entities coincide: in a keyed table two rows
   * that are equal as entities (same url) are the same row.
   */
  lemma KeyedRowsAreUnique(t: Table, a: QueueItem, b: QueueItem)
    requires Keyed(t)
    requires a in t.Values && b in t.Values
    requires SameEntity(a, b)
    ensures a == b
  {
    var ka :| ka in t && t[ka] == a;
    var kb :| kb in t && t[kb] == b;
    assert ka == a.url && kb == b.url;
  }

  function FindByUrl(t: Table, url: string): (r: Option<QueueItem>)
    ensures r.Some? <==> url in t
    ensures r.Some? ==> r.value == t[url]
  {
    if url in t then Some(t[url]) else None
  }

  /**
   * repository.save(item): an upsert keyed by url. `createdAt` is stamped with
   * `now` when the row is inserted and is never updated afterwards.
   */
  function Save(t: Table, item: QueueItem, now: nat): (r: Table)
    ensures r.Keys == t.Keys + {item.url}
    ensures forall k :: k in t && k != item.url ==> r[k] == t[k]
    ensures r[item.url].status == item.status && r[item.url].lastMessage == item.lastMessage
    ensures r[item.url].lastCrawledAt == item.lastCrawledAt && r[item.url].foundOnDomain == item.foundOnDomain
    ensures item.url in t ==> r[item.url].createdAt == t[item.url].createdAt
    ensures item.url !in t ==> r[item.url].createdAt == Some(now)
    ensures Keyed(t) ==> Keyed(r)
  {
    var created := if item.url in t then t[item.url].createdAt else Some(now);
    t[item.url := item.(createdAt := created)]
  }

  /** The urls of the rows in status s. */
  function KeysWithStatus(t: Table, s: Status): (keys: set<string>)
    ensures forall k :: k in keys <==> k in t && t[k].status == s
  {
    set k | k in t && t[k].status == s
  }

  /** The sub-table of rows in status s. */
  function RowsWithStatus(t: Table, s: Status): (r: Table)
    ensures r.Keys == KeysWithStatus(t, s)
    ensures forall k :: k in r ==> r[k] == t[k]
  {
    map k | k in t && t[k].status == s :: t[k]
  }

  /**
   * `items` is what findAll() returns for table t: every row exactly once,
   * in some order the repository chooses.
   */
  ghost predicate Listing(t: Table, items: seq<QueueItem>)
  {
    && (forall i :: 0 <= i < |items| ==> items[i].url in t && t[items[i].url] == items[i])
    && DistinctUrls(items)
    && (forall k :: k in t ==> exists i :: 0 <= i < |items| && items[i].url == k)
  }

  /** findAll() returns nothing exactly when the table is empty. */
  lemma EmptyListing(t: Table, items: seq<QueueItem>)
    requires Listing(t, items)
    ensures items == [] <==> t.Keys == {}
  {
    if items != [] {
      assert items[0].url in t;
    }
    if t.Keys != {} {
      var k :| k in t;
    }
  }

  /** stream().filter(item -> item.getStatus() == s).toList(): keeps the order. */
  function Filter(items: seq<QueueItem>, s: Status): (r: seq<QueueItem>)
    ensures forall x :: x in r <==> x in items && x.status == s
    ensures |r| <= |items|
  {
    if items == [] then []
    else if items[0].status == s then [items[0]] + Filter(items[1..], s)
    else Filter(items[1..], s)
  }

  /** The urls of a list of rows, in order. */
  function UrlsOf(items: seq<QueueItem>): (r: seq<string>)
    ensures |r| == |items| && forall i :: 0 <= i < |items| ==> r[i] == items[i].url
  {
    if items == [] then [] else [items[0].url] + UrlsOf(items[1..])
  }

  ghost predicate DistinctUrls(items: seq<QueueItem>)
  {
    forall i, j :: 0 <= i < j < |items| ==> items[i].url != items[j].url
  }

  lemma ConsDistinct(a: QueueItem, rest: seq<QueueItem>)
    requires DistinctUrls(rest)
    requires forall x :: x in rest ==> x.url != a.url
    ensures DistinctUrls([a] + rest)
  {
    var r := [a] + rest;
    forall i, j | 0 <= i < j < |r| ensures r[i].url != r[j].url {
      assert r[j] == rest[j - 1];
      if i > 0 {
        assert r[i] == rest[i - 1];
      }
    }
  }

  lemma {:induction false} FilterDistinct(items: seq<QueueItem>, s: Status)
    requires DistinctUrls(items)
    ensures DistinctUrls(Filter(items, s))
  {
    if items != [] {
      assert DistinctUrls(items[1..]) by {
        forall i, j | 0 <= i < j < |items[1..]| ensures items[1..][i].url != items[1..][j].url {
          assert items[1..][i] == items[i + 1] && items[1..][j] == items[j + 1];
        }
      }
      FilterDistinct(items[1..], s);
      if items[0].status == s {
        var rest := Filter(items[1..], s);
        forall x | x in rest ensures x.url != items[0].url {
          var k :| 0 <= k < |items[1..]| && items[1..][k] == x;
          assert items[k + 1] == x;
        }
        ConsDistinct(items[0], rest);
      }
    }
  }

  /**
   * Filtering a listing of the table by status gives a listing of exactly the
   * rows in that status: the scheduler and the shutdown hook see every such row
   * once and no other row.
   */
  lemma FilterListing(t: Table, items: seq<QueueItem>, s: Status)
    requires Listing(t, items)
    ensures Listing(RowsWithStatus(t, s), Filter(items, s))
  {
    var r := Filter(items, s);
    var u := RowsWithStatus(t, s);
    FilterDistinct(items, s);
    forall i | 0 <= i < |r| ensures r[i].url in u && u[r[i].url] == r[i] {
      assert r[i] in items;
    }
    forall k | k in u ensures exists i :: 0 <= i < |r| && r[i].url == k {
      var j :| 0 <= j < |items| && items[j].url == k;
      assert items[j] in r;
    }
  }
}
