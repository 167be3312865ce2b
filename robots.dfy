/**
 * The robots.txt cache of Crawler.isUrlAllowedByRobots: one rule set per host
 * key, fetched once and kept for the life of the process, failing open.
 *
 * Fetching and parsing robots.txt (Jsoup and crawler-commons) are not modelled:
 * `robotsTxt` says, per host key, what fetching and parsing its robots.txt
 * yields, and a host missing from it is one whose fetch raises an IOException.
 */
module Robots {
  import opened Options
  import opened Urls

  /** A parsed rule set: allow everything, or forbid a given set of URLs to our user agent. */
  datatype Rules = AllowAll | Parsed(disallowed: set<string>)

  /**
   * A robots.txt that was fetched: it parses to a rule set, or processing it
   * throws an exception other than an IOException, which reaches the outer catch.
   */
  datatype Fetched = Parses(rules: Rules) | Throws

  /** BaseRobotRules.isAllowed(url). */
  predicate Allows(rules: Rules, url: string)
  {
    rules.AllowAll? || url !in rules.disallowed
  }

  /** Host h's robots.txt can be fetched, but processing it throws. */
  predicate Broken(robotsTxt: map<string, Fetched>, h: string)
  {
    h in robotsTxt && robotsTxt[h].Throws?
  }

  /** The rules the crawler settles on for host h: its robots.txt's, or allow-all when it cannot be fetched. */
  function RulesOf(robotsTxt: map<string, Fetched>, h: string): Rules
    requires !Broken(robotsTxt, h)
  {
    if h in robotsTxt then robotsTxt[h].rules else AllowAll
  }

  /**
   * What the hosts' robots.txt say of url: a URL the parser rejects, or one of a
   * host whose robots.txt cannot be processed, is allowed (fail-open); otherwise
   * the host's rules decide.
   */
  predicate Permits(parse: map<string, Url>, robotsTxt: map<string, Fetched>, url: string)
  {
    url !in parse
    || Broken(robotsTxt, BaseKey(parse[url]))
    || Allows(RulesOf(robotsTxt, BaseKey(parse[url])), url)
  }

  /** Every cached rule set is the one its host's robots.txt gives. */
  ghost predicate Faithful(robotsTxt: map<string, Fetched>, cache: map<string, Rules>)
  {
    forall h :: h in cache ==> !Broken(robotsTxt, h) && cache[h] == RulesOf(robotsTxt, h)
  }

  /** The outcome of one check: the answer, the cache afterwards, and the host whose robots.txt was fetched. */
  datatype Verdict = Verdict(allowed: bool, cache: map<string, Rules>, fetched: Option<string>)

  /**
   * isUrlAllowedByRobots(url). A URL the parser rejects answers true (the catch-all).
   * A cached host answers from its rules. Otherwise robots.txt is fetched: when it
   * cannot be, allow-all is cached and the answer is true; when processing it
   * throws, nothing is cached and the answer is true; otherwise its rules are
   * cached and decide.
   */
  function Check(parse: map<string, Url>, robotsTxt: map<string, Fetched>,
                 cache: map<string, Rules>, url: string): (v: Verdict)
    // the cache is a memo: it only grows and never changes an entry
    ensures cache.Keys <= v.cache.Keys
    ensures forall h :: h in cache ==> v.cache[h] == cache[h]
    // a malformed URL fails open and leaves the cache alone
    ensures url !in parse ==> v.allowed && v.cache == cache && v.fetched.None?
    // a fetch happens exactly on a miss, for the url's host
    ensures v.fetched.Some? <==> url in parse && BaseKey(parse[url]) !in cache
    ensures v.fetched.Some? ==> v.fetched.value == BaseKey(parse[url])
    ensures v.fetched.None? ==> v.cache == cache
    // after a fetch the host's own rules are cached, unless processing its robots.txt threw
    ensures v.fetched.Some? && !Broken(robotsTxt, v.fetched.value) ==>
              v.cache == cache[v.fetched.value := RulesOf(robotsTxt, v.fetched.value)]
    ensures v.fetched.Some? && Broken(robotsTxt, v.fetched.value) ==> v.allowed && v.cache == cache
    // whenever the host is cached afterwards, its cached rules decide
    ensures url in parse && BaseKey(parse[url]) in v.cache ==> v.allowed == Allows(v.cache[BaseKey(parse[url])], url)
    // a faithful cache stays faithful, and then the answer is what the host's robots.txt says
    ensures Faithful(robotsTxt, cache) ==> Faithful(robotsTxt, v.cache)
    ensures Faithful(robotsTxt, cache) ==> (v.allowed <==> Permits(parse, robotsTxt, url))
  {
    if url !in parse then Verdict(true, cache, None)
    else
      var host := BaseKey(parse[url]);
      if host in cache then Verdict(Allows(cache[host], url), cache, None)
      else if host !in robotsTxt then Verdict(true, cache[host := AllowAll], Some(host))
      else match robotsTxt[host]
        case Throws => Verdict(true, cache, Some(host))
        case Parses(rules) => Verdict(Allows(rules, url), cache[host := rules], Some(host))
  }

  /**
   * The cache and the log of robots.txt fetches agree: the cache is faithful;
   * every cached host was fetched; a host fetched but not cached is one whose
   * robots.txt cannot be processed, and only such a host appears twice in the
   * log. So a cached host was fetched exactly once.
   */
  ghost predicate Ledger(robotsTxt: map<string, Fetched>, cache: map<string, Rules>, fetches: seq<string>)
  {
    && Faithful(robotsTxt, cache)
    && (forall h :: h in cache ==> h in fetches)
    && (forall h :: h in fetches ==> h in cache || Broken(robotsTxt, h))
    && (forall i, j :: 0 <= i < j < |fetches| && fetches[i] == fetches[j] ==> Broken(robotsTxt, fetches[i]))
  }

  function Record(fetches: seq<string>, v: Verdict): seq<string>
  {
    if v.fetched.Some? then fetches + [v.fetched.value] else fetches
  }

  /** Each check keeps the ledger: a host whose rules get cached has its robots.txt fetched exactly once. */
  lemma CheckKeepsLedger(parse: map<string, Url>, robotsTxt: map<string, Fetched>,
                         cache: map<string, Rules>, fetches: seq<string>, url: string)
    requires Ledger(robotsTxt, cache, fetches)
    ensures var v := Check(parse, robotsTxt, cache, url); Ledger(robotsTxt, v.cache, Record(fetches, v))
  {
    var v := Check(parse, robotsTxt, cache, url);
    if v.fetched.Some? {
      var h := v.fetched.value;
      var f := Record(fetches, v);
      if !Broken(robotsTxt, h) {
        assert h !in fetches;
      }
      forall i, j | 0 <= i < j < |f| && f[i] == f[j] ensures Broken(robotsTxt, f[i]) {
        if j == |fetches| {
          assert f[i] in fetches;
        } else {
          assert f[i] == fetches[i] && f[j] == fetches[j];
        }
      }
    }
  }

  /**
   * Two checks of URLs on the same host: the second fetches robots.txt again
   * only when the host was not cached and its robots.txt cannot be processed;
   * otherwise it answers from the rules the first one left in the cache.
   */
  lemma SecondCheckHitsCache(parse: map<string, Url>, robotsTxt: map<string, Fetched>,
                             cache: map<string, Rules>, u1: string, u2: string)
    requires u1 in parse && u2 in parse && BaseKey(parse[u1]) == BaseKey(parse[u2])
    ensures var host := BaseKey(parse[u1]);
            var v1 := Check(parse, robotsTxt, cache, u1);
            var v2 := Check(parse, robotsTxt, v1.cache, u2);
            && (v2.fetched.Some? <==> host !in cache && Broken(robotsTxt, host))
            && v2.cache == v1.cache
            && (v2.fetched.None? ==> v2.allowed == Allows(v1.cache[host], u2))
  {
  }
}
