/**
 * The older URL service of services/shorturl.go. It stores the raw
 * forwarded-for chain with a visit and splits it only for the geo lookup,
 * and its statistics page fails on any sub-query error, "no rows" included.
 * Its `generateShortID` is the same as the one of services/url.go
 * (`UrlService.GenerateShortID`).
 */
module ShortUrlService {
  import opened GoErrors
  import opened GoHttp
  import opened GoStrings
  import Request
  import UrlService
  import Charts

  // ---- parseRequest --------------------------------------------------------

  /** `parseRequest`: the forwarded-for header when non-empty, else the peer address; and the user agent. */
  function ParseRequest(r: HttpRequest): (res: (string, string))
    ensures r.Get("X-Forwarded-For") != "" ==> res.0 == r.Get("X-Forwarded-For")
    ensures r.Get("X-Forwarded-For") == "" ==> res.0 == r.remoteAddr
    ensures res.1 == r.Get("User-Agent")
  {
    var forwarded := r.Get("X-Forwarded-For");
    (if forwarded == "" then r.remoteAddr else forwarded, r.Get("User-Agent"))
  }

  /** Both services read the client address and user agent from the same headers. */
  lemma ParseRequestAgrees(r: HttpRequest)
    ensures ParseRequest(r).0 == UrlService.ParseRequest(r).ipAddress
    ensures ParseRequest(r).1 == UrlService.ParseRequest(r).userAgent
  {
  }

  // ---- TrackRedirect -------------------------------------------------------

  /** The outside calls a redirect makes, in order. */
  datatype Effect =
    | TrackVisit(urlID: int, ipAddress: string, userAgent: string)
    | Locate(ip: string)
    | InsertVisitLocation(visitID: int, location: UrlService.IpLocation)

  /** The address given to the geo lookup: the text before the first comma, if any. */
  function GeoAddress(ipAddress: string): (ip: string)
    ensures ip == Request.RequestInfo(ipAddress, "", "", "").IpAddress()
  {
    if Contains(ipAddress, ",") then Split(ipAddress, ',')[0] else ipAddress
  }

  /**
   * `TrackRedirect`: the visit row is written with the raw address; only
   * after that is the address cut at its first comma for the geo lookup,
   * and a geo or location-insert failure is only logged. The location
   * insert's outcome is never read, so it is no input here.
   */
  method TrackRedirect(urlID: int, r: HttpRequest, visit: Result<int>,
                       locate: string -> Result<UrlService.IpLocation>)
    returns (err: Option<Error>, effects: seq<Effect>)
    ensures |effects| >= 1 && effects[0] == TrackVisit(urlID, ParseRequest(r).0, ParseRequest(r).1)
    ensures visit.Err? ==> err == Some(Wrap("failed to track redirect", visit.error)) && |effects| == 1
    ensures visit.Ok? ==> err == None
    ensures visit.Ok? ==> |effects| >= 2 && effects[1] == Locate(GeoAddress(ParseRequest(r).0))
    ensures visit.Ok? && locate(GeoAddress(ParseRequest(r).0)).Err? ==> |effects| == 2
    ensures visit.Ok? && locate(GeoAddress(ParseRequest(r).0)).Ok? ==>
      effects == [effects[0], effects[1],
                  InsertVisitLocation(visit.value, locate(GeoAddress(ParseRequest(r).0)).value)]
  {
    var ipAddress, userAgent := ParseRequest(r).0, ParseRequest(r).1;
    effects := [TrackVisit(urlID, ipAddress, userAgent)];
    if visit.Err? {
      return Some(Wrap("failed to track redirect", visit.error)), effects;
    }
    if Contains(ipAddress, ",") {
      ipAddress := Split(ipAddress, ',')[0];
    }
    effects := effects + [Locate(ipAddress)];
    var loc := locate(ipAddress);
    if loc.Err? {
      return None, effects;
    }
    effects := effects + [InsertVisitLocation(visit.value, loc.value)];
    // a failed location insert is logged and otherwise ignored
    return None, effects;
  }

  /** The stored address keeps every hop; the looked-up one has none past the first. */
  lemma StoredVersusLocated(ipAddress: string)
    ensures GeoAddress(ipAddress) <= ipAddress
    ensures ',' !in GeoAddress(ipAddress)
    ensures ',' in ipAddress ==> |GeoAddress(ipAddress)| < |ipAddress|
  {
    var ip := Request.RequestInfo(ipAddress, "", "", "").IpAddress();
    if ',' in ipAddress {
      assert ipAddress[|ip|] == ',';
    }
  }

  // ---- StatisticsDetail ----------------------------------------------------

  /** One row of this service's browser distribution query: the raw user agent. */
  datatype AgentRow = AgentRow(userAgent: string)

  /** What the user-agent parser reports about an agent string. */
  datatype Agent = Agent(name: string, version: string, platform: string, mobile: bool)

  /** A browser entry of the page (percentage left out). */
  datatype Browser = Browser(name: string, version: string, platform: string)

  datatype StatsStore = StatsStore(
    get: string -> Result<UrlService.UrlRow>,
    locationDistribution: (int, int) -> Result<seq<UrlService.LocationRow>>,
    browserDistribution: (int, int) -> Result<seq<AgentRow>>,
    totalVisit: int -> Result<int>,
    uniqueVisitCount: int -> Result<int>)

  /** `domain.URLStat` as this service fills it (device percentages left out). */
  datatype UrlStat = UrlStat(
    id: int, title: string, long: string, slug: string, createdAt: int,
    nrVisited: int, uniqueVisitors: int,
    locations: seq<string>,
    referrers: seq<Charts.Referrer>,
    browsers: seq<Browser>)

  /** Every sub-query error is wrapped with its context and is fatal. */
  function Wrapped<T>(r: Result<T>, context: string): (o: Result<T>)
    ensures o.Ok? <==> r.Ok?
    ensures o.Ok? ==> o.value == r.value
    ensures o.Err? ==> o.error == Wrap(context, r.error)
  {
    if r.Ok? then r else Err(Wrap(context, r.error))
  }

  /** Browser entries: each row's agent string run through the parser, in row order. */
  function Browsers(rows: seq<AgentRow>, parse: string -> Agent): (s: seq<Browser>)
    ensures |s| == |rows|
    ensures forall i :: 0 <= i < |rows| ==>
      s[i] == Browser(parse(rows[i].userAgent).name, parse(rows[i].userAgent).version, parse(rows[i].userAgent).platform)
  {
    if |rows| == 0 then []
    else
      var a := parse(rows[0].userAgent);
      [Browser(a.name, a.version, a.platform)] + Browsers(rows[1..], parse)
  }

  /** The errors of the sub-queries that failed. */
  function SubQueryErrors(store: StatsStore, authorID: int, urlID: int): (errs: set<Error>)
    ensures errs == {} <==>
      && store.locationDistribution(authorID, urlID).Ok?
      && store.browserDistribution(authorID, urlID).Ok?
      && store.totalVisit(urlID).Ok?
      && store.uniqueVisitCount(urlID).Ok?
  {
    (if store.locationDistribution(authorID, urlID).Err? then {Wrap("failed to get location distribution", store.locationDistribution(authorID, urlID).error)} else {})
    + (if store.browserDistribution(authorID, urlID).Err? then {Wrap("failed to get browser distribution", store.browserDistribution(authorID, urlID).error)} else {})
    + (if store.totalVisit(urlID).Err? then {Wrap("failed to get total visit", store.totalVisit(urlID).error)} else {})
    + (if store.uniqueVisitCount(urlID).Err? then {Wrap("failed to get unique visit count", store.uniqueVisitCount(urlID).error)} else {})
  }

  /**
   * `StatisticsDetail`: look the URL up, run the four sub-queries (one after
   * another here, concurrently in the source), fail with one of their errors
   * if any fails, "no rows" included; otherwise fill the page. Referrers are
   * always empty.
   */
  method StatisticsDetail(store: StatsStore, parse: string -> Agent, authorID: int, slug: string)
    returns (r: Result<UrlStat>)
    ensures store.get(slug).Err? ==> r == Err(Wrap("failed to get url", store.get(slug).error))
    ensures store.get(slug).Ok? ==>
      var urlID := store.get(slug).value.id;
      && (r.Err? <==> SubQueryErrors(store, authorID, urlID) != {})
      && (r.Err? ==> r.error in SubQueryErrors(store, authorID, urlID))
    ensures r.Ok? ==> store.get(slug).Ok?
    ensures r.Ok? && store.get(slug).Ok? ==>
      var url := store.get(slug).value;
      var s := r.value;
      && s.id == url.id && s.title == url.title && s.long == url.longUrl
      && s.slug == slug && s.createdAt == url.createdAt
      && s.nrVisited == store.totalVisit(url.id).value
      && s.uniqueVisitors == store.uniqueVisitCount(url.id).value
      && s.locations == UrlService.Countries(store.locationDistribution(authorID, url.id).value)
      && s.referrers == []
      && s.browsers == Browsers(store.browserDistribution(authorID, url.id).value, parse)
  {
    var url := store.get(slug);
    if url.Err? {
      return Err(Wrap("failed to get url", url.error));
    }
    var urlID := url.value.id;

    var ld := Wrapped(store.locationDistribution(authorID, urlID), "failed to get location distribution");
    if ld.Err? { return Err(ld.error); }
    var bd := Wrapped(store.browserDistribution(authorID, urlID), "failed to get browser distribution");
    if bd.Err? { return Err(bd.error); }
    var total := Wrapped(store.totalVisit(urlID), "failed to get total visit");
    if total.Err? { return Err(total.error); }
    var unique := Wrapped(store.uniqueVisitCount(urlID), "failed to get unique visit count");
    if unique.Err? { return Err(unique.error); }

    r := Ok(UrlStat(
      urlID, url.value.title, url.value.longUrl, slug, url.value.createdAt,
      total.value, unique.value,
      UrlService.Countries(ld.value),
      [],
      Browsers(bd.value, parse)));
  }

  /**
   * Where the two services differ: a sub-query answering "no rows" makes
   * this service's page fail, while the newer service treats it as empty.
   */
  lemma NoRowsIsFatalHere(store: StatsStore, authorID: int, urlID: int)
    requires store.totalVisit(urlID) == Err(Base(PgxErrNoRows))
    ensures SubQueryErrors(store, authorID, urlID) != {}
    ensures UrlService.NoRowsAsEmpty(store.totalVisit(urlID), 0, "failed to get total visit") == Ok(0)
  {
  }
}
