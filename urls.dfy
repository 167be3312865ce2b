/**
 * Base URLs: the key `protocol://host[:port]` that Crawler.getBaseUrl derives
 * and that isUrlAllowedByRobots uses as the robots cache key.
 *
 * java.net.URL parsing is not modelled: a URL string is given already parsed
 * into the three components the crawler reads.
 */
module Urls {
  import opened Options

  /** getProtocol(), getHost() and getPort() of a parsed URL; a port of -1 (none given) is None. */
  datatype Url = Url(protocol: string, host: string, port: Option<nat>)

  predicate IsDigit(ch: char) { '0' <= ch <= '9' }

  predicate AllDigits(s: string) { forall i :: 0 <= i < |s| ==> IsDigit(s[i]) }

  function DigitChar(d: nat): (ch: char)
    requires d < 10
    ensures IsDigit(ch) && (ch as int) - ('0' as int) == d
  {
    (('0' as int) + d) as char
  }

  /** Java's decimal rendering of a non-negative int (string concatenation of a port). */
  function Decimal(n: nat): (s: string)
    ensures |s| > 0 && AllDigits(s)
    decreases n
  {
    if n < 10 then [DigitChar(n)] else Decimal(n / 10) + [DigitChar(n % 10)]
  }

  /** Reads a string of decimal digits back as a number. */
  function DecimalValue(s: string): nat
    requires AllDigits(s)
  {
    if |s| == 0 then 0 else 10 * DecimalValue(s[..|s| - 1]) + ((s[|s| - 1] as int) - ('0' as int))
  }

  lemma {:induction false} DecimalRoundTrip(n: nat)
    ensures DecimalValue(Decimal(n)) == n
    decreases n
  {
    if n >= 10 {
      var s := Decimal(n);
      assert s[..|s| - 1] == Decimal(n / 10);
      DecimalRoundTrip(n / 10);
    }
  }

  function PortSuffix(port: Option<nat>): string
  {
    match port
    case None => ""
    case Some(p) => ":" + Decimal(p)
  }

  /** `protocol + "://" + host`, with `":" + port` only when the URL names a port explicitly. */
  function BaseKey(u: Url): string
  {
    u.protocol + "://" + u.host + PortSuffix(u.port)
  }

  /**
   * getBaseUrl(urlStr): the base key of a string the parser accepts; a string it
   * rejects (MalformedURLException) falls back to the string itself.
   */
  function BaseUrl(parse: map<string, Url>, s: string): string
  {
    if s in parse then BaseKey(parse[s]) else s
  }

  /**
   * What java.net.URL guarantees of its components: a protocol holds no ':',
   * and a host holds a ':' only inside a bracketed IPv6 literal.
   */
  predicate WellFormed(u: Url)
  {
    (forall i :: 0 <= i < |u.protocol| ==> u.protocol[i] != ':')
    && ((forall i :: 0 <= i < |u.host| ==> u.host[i] != ':')
        || (|u.host| > 0 && u.host[|u.host| - 1] == ']'))
  }

  /** Index of the first ':' in s, or |s| when there is none. */
  function FirstColon(s: string): (i: nat)
    ensures i <= |s|
    ensures i < |s| ==> s[i] == ':'
    ensures forall j :: 0 <= j < i ==> s[j] != ':'
  {
    if |s| == 0 || s[0] == ':' then 0 else 1 + FirstColon(s[1..])
  }

  /** Index of the last ':' in s, if any. */
  function LastColon(s: string): (r: Option<nat>)
    ensures r.Some? ==> r.value < |s| && s[r.value] == ':'
    ensures r.Some? ==> forall j :: r.value < j < |s| ==> s[j] != ':'
    ensures r.None? ==> forall j :: 0 <= j < |s| ==> s[j] != ':'
  {
    if |s| == 0 then None
    else if s[|s| - 1] == ':' then Some(|s| - 1)
    else LastColon(s[..|s| - 1])
  }

  /** Splits `host[:port]` at its last ':' when only digits follow it. */
  function SplitPort(s: string): (string, Option<nat>)
  {
    match LastColon(s)
    case None => (s, None)
    case Some(j) =>
      if j + 1 < |s| && AllDigits(s[j + 1..]) then (s[..j], Some(DecimalValue(s[j + 1..])))
      else (s, None)
  }

  /** Reads a base key back into its components: the inverse of BaseKey. */
  function ParseBaseKey(key: string): Option<Url>
  {
    var i := FirstColon(key);
    if i + 3 <= |key| && key[i..i + 3] == "://" then
      var (host, port) := SplitPort(key[i + 3..]);
      Some(Url(key[..i], host, port))
    else None
  }

  lemma SplitPortOfKey(host: string, port: Option<nat>)
    requires (forall i :: 0 <= i < |host| ==> host[i] != ':') || (|host| > 0 && host[|host| - 1] == ']')
    ensures SplitPort(host + PortSuffix(port)) == (host, port)
  {
    var s := host + PortSuffix(port);
    match port {
      case None =>
        assert s == host;
        if LastColon(s).Some? {
          var j := LastColon(s).value;
          assert j < |host| - 1;
          assert !IsDigit(s[j + 1..][|s| - 1 - (j + 1)]);
        }
      case Some(p) =>
        var d := Decimal(p);
        assert s == host + ":" + d;
        assert s[|host|] == ':';
        var j := LastColon(s).value;
        assert j >= |host|;
        assert s[j + 1..] == d;
        assert s[..j] == host;
        DecimalRoundTrip(p);
    }
  }

  /** Round trip: the base key of a well-formed URL determines its protocol, host and port. */
  lemma ParseBaseKeyRoundTrip(u: Url)
    requires WellFormed(u)
    ensures ParseBaseKey(BaseKey(u)) == Some(u)
  {
    var key := BaseKey(u);
    var rest := u.host + PortSuffix(u.port);
    assert key == u.protocol + "://" + rest;
    assert key[|u.protocol|] == ':';
    var i := FirstColon(key);
    assert i == |u.protocol|;
    assert key[i..i + 3] == "://";
    assert key[..i] == u.protocol;
    assert key[i + 3..] == rest;
    SplitPortOfKey(u.host, u.port);
  }

  /**
   * getBaseUrl either gives back a string the parser rejected unchanged, or
   * gives a base that names exactly the protocol, host and port of the URL
   * it was computed from, with ":" + port only for an explicit port.
   */
  lemma BaseUrlOrigin(parse: map<string, Url>, s: string)
    ensures s !in parse ==> BaseUrl(parse, s) == s
    ensures s in parse && WellFormed(parse[s]) ==> ParseBaseKey(BaseUrl(parse, s)) == Some(parse[s])
    ensures s in parse && parse[s].port.None? ==> BaseUrl(parse, s) == parse[s].protocol + "://" + parse[s].host
  {
    if s in parse && WellFormed(parse[s]) {
      ParseBaseKeyRoundTrip(parse[s]);
    }
  }

  /**
   * crawl compares base keys as strings; for URLs the parser accepted this
   * is exactly "same protocol, same host, same port" (both directions).
   */
  lemma SameBaseIffSameOrigin(parse: map<string, Url>, s: string, t: string)
    requires s in parse && t in parse
    requires WellFormed(parse[s]) && WellFormed(parse[t])
    ensures BaseUrl(parse, s) == BaseUrl(parse, t) <==> parse[s] == parse[t]
  {
    if BaseUrl(parse, s) == BaseUrl(parse, t) {
      ParseBaseKeyRoundTrip(parse[s]);
      ParseBaseKeyRoundTrip(parse[t]);
    }
  }
}
