/**
 * The URL service of services/url.go: short identifiers, what is stored
 * about a redirect, and the assembly of a URL's statistics page from
 * several store queries, where "no rows" means "nothing yet".
 *
 * The store, the random source and the geo lookup are outside the model:
 * their answers are parameters. A store query is a function from its
 * arguments to a result, so the model can say which query was asked.
 */
module UrlService {
  import opened GoErrors
  import opened GoHttp
  import opened Request
  import Base64Url
  import TimeSeries
  import Charts

  /** Length of a generated short identifier. */
  const IdLength: int := 6

  // ---- generateShortID -----------------------------------------------------

  /**
   * `generateShortID(length)`: `length` random bytes, padded base64url
   * encoded, cut to `length` characters. `random` is what the random source
   * produced for a buffer of `length` bytes.
   */
  function GenerateShortID(length: nat, random: Result<seq<Base64Url.Byte>>): (r: Result<string>)
    requires random.Ok? ==> |random.value| == length
    ensures random.Err? ==> r == Err(random.error)
    ensures random.Ok? ==> r.Ok? && |r.value| == length && r.value <= Base64Url.Encode(random.value)
    ensures r.Ok? ==> '=' !in r.value && forall i :: 0 <= i < |r.value| ==> Base64Url.IsSymbol(r.value[i])
  {
    if random.Err? then Err(random.error)
    else
      var s := Base64Url.Encode(random.value);
      Base64Url.EncodeShape(random.value);
      assert length <= Base64Url.UnpaddedLength(length);
      var id := s[..length];
      assert forall i :: 0 <= i < |id| ==> id[i] == s[i];
      assert forall i :: 0 <= i < |id| ==> id[i] != '=';
      Ok(id)
  }

  /**
   * The identifier is the start of an encoding that decodes back to the
   * random bytes: no two distinct full encodings share it by accident of
   * padding.
   */
  lemma ShortIdDecodable(length: nat, bytes: seq<Base64Url.Byte>)
    requires |bytes| == length
    ensures var id := GenerateShortID(length, Ok(bytes)).value;
      exists full :: id <= full && Base64Url.Decode(full) == bytes
  {
    Base64Url.DecodeEncode(bytes);
    var full := Base64Url.Encode(bytes);
    assert GenerateShortID(length, Ok(bytes)).value <= full;
  }

  // ---- parseRequest --------------------------------------------------------

  /**
   * `parseRequest`: the forwarded-for header when it is non-empty, else the
   * peer address; the user agent and referer headers. Country is left
   * empty (the call passes three of the constructor's four arguments).
   */
  function ParseRequest(r: HttpRequest): (info: RequestInfo)
    ensures r.Get("X-Forwarded-For") != "" ==> info.ipAddress == r.Get("X-Forwarded-For")
    ensures r.Get("X-Forwarded-For") == "" ==> info.ipAddress == r.remoteAddr
    ensures info.UserAgent() == r.Get("User-Agent") && info.Referer() == r.Get("Referer")
    ensures info.Country() == ""
  {
    var forwarded := r.Get("X-Forwarded-For");
    var ip := if forwarded == "" then r.remoteAddr else forwarded;
    NewRequestInfo(ip, r.Get("User-Agent"), r.Get("Referer"), "")
  }

  // ---- TrackRedirect -------------------------------------------------------

  /** `domain.IPLocation`, without the coordinates. */
  datatype IpLocation = IpLocation(ip: string, country: string, countryCode: string, city: string)

  /** The outside calls a redirect makes, in order. */
  datatype Effect =
    | TrackVisit(urlID: int, request: RequestInfo)
    | Locate(ip: string)
    | InsertVisitLocation(visitID: int, location: IpLocation)

  /**
   * `TrackRedirect`: record the visit (required), then look up the client
   * address and record the location (both best effort: a failure is only
   * logged). `visit` is the store's answer to the visit insert (the new
   * visit's id), `locate` the geo lookup. The location insert's outcome is
   * never read, so it is no input here.
   */
  method TrackRedirect(urlID: int, r: HttpRequest, visit: Result<int>,
                       locate: string -> Result<IpLocation>)
    returns (err: Option<Error>, effects: seq<Effect>)
    ensures |effects| >= 1 && effects[0] == TrackVisit(urlID, ParseRequest(r))
    ensures visit.Err? ==> err == Some(Wrap("failed to track redirect", visit.error)) && |effects| == 1
    ensures visit.Ok? ==> err == None
    ensures visit.Ok? ==> |effects| >= 2 && effects[1] == Locate(ParseRequest(r).IpAddress())
    ensures visit.Ok? && locate(ParseRequest(r).IpAddress()).Err? ==> |effects| == 2
    ensures visit.Ok? && locate(ParseRequest(r).IpAddress()).Ok? ==>
      effects == [effects[0], effects[1],
                  InsertVisitLocation(visit.value, locate(ParseRequest(r).IpAddress()).value)]
  {
    var requestInfo := ParseRequest(r);
    effects := [TrackVisit(urlID, requestInfo)];
    if visit.Err? {
      return Some(Wrap("failed to track redirect", visit.error)), effects;
    }
    var ip := requestInfo.IpAddress();
    effects := effects + [Locate(ip)];
    var loc := locate(ip);
    if loc.Err? {
      return None, effects;
    }
    effects := effects + [InsertVisitLocation(visit.value, loc.value)];
    // a failed location insert is logged and otherwise ignored
    return None, effects;
  }

  // ---- StatisticsDetail ----------------------------------------------------

  /** The URL row the store returns. */
  datatype UrlRow = UrlRow(id: int, title: string, longUrl: string, shortUrl: string, createdAt: int)

  /** One row of the location distribution query. */
  datatype LocationRow = LocationRow(countryName: string)

  /** The read queries `StatisticsDetail` makes, each a function of its arguments. */
  datatype StatsStore = StatsStore(
    get: string -> Result<UrlRow>,
    locationDistribution: (int, int) -> Result<seq<LocationRow>>,
    browserDistribution: (int, int) -> Result<seq<Charts.BrowserRow>>,
    refererDistribution: (int, int) -> Result<seq<Charts.ReferrerRow>>,
    totalVisit: int -> Result<int>,
    uniqueVisitCount: int -> Result<int>,
    visitOverTime: (int, TimeSeries.Period, string) -> Result<seq<TimeSeries.Point>>)

  /** `domain.URLStat` as the statistics page fills it (percentages and charts of them left out). */
  datatype UrlStat = UrlStat(
    id: int, title: string, long: string, slug: string, createdAt: int,
    nrVisited: int, uniqueVisitors: int,
    locations: seq<string>,
    deviceChart: seq<Charts.TwoDimension>,
    browsers: seq<Charts.BrowserStats>,
    referrers: seq<Charts.Referrer>,
    referrersChart: seq<Charts.TwoDimension>,
    visitPerDay: seq<TimeSeries.Point>)

  /**
   * The rule every sub-query follows: rows are kept, "no rows" becomes the
   * empty value, any other error is wrapped with the query's context.
   */
  function NoRowsAsEmpty<T>(r: Result<T>, empty: T, context: string): (o: Result<T>)
    ensures o.Err? <==> r.Err? && !Is(r.error, PgxErrNoRows)
    ensures o.Ok? ==> o.value == (if r.Ok? then r.value else empty)
    ensures o.Err? ==> o.error == Wrap(context, r.error)
  {
    if r.Ok? then r
    else if Is(r.error, PgxErrNoRows) then Ok(empty)
    else Err(Wrap(context, r.error))
  }

  /** A wrapped sub-query error is still recognised by its sentinel, and "no rows" never escapes. */
  lemma NoRowsAsEmptyKeepsCause<T>(r: Result<T>, empty: T, context: string, target: Sentinel)
    requires NoRowsAsEmpty(r, empty, context).Err?
    ensures Is(NoRowsAsEmpty(r, empty, context).error, target) <==> Is(r.error, target)
    ensures !Is(NoRowsAsEmpty(r, empty, context).error, PgxErrNoRows)
  {
  }

  /** The hourly window of the page: from one day before the current hour to the current hour. */
  function DayWindow(now: int): (p: TimeSeries.Period)
    ensures p.until == TimeSeries.Truncate(now, TimeSeries.Hour)
    ensures p.since == p.until - TimeSeries.Day
  {
    var hour := TimeSeries.Truncate(now, TimeSeries.Hour);
    var since := hour - TimeSeries.Day;
    assert since % TimeSeries.Hour == 0 by {
      TimeSeries.DivModUnique(since, TimeSeries.Hour, hour / TimeSeries.Hour - 24, 0);
    }
    TimeSeries.Period(TimeSeries.Truncate(since, TimeSeries.Hour), hour)
  }

  /** The country names of the location rows, in order. */
  function Countries(rows: seq<LocationRow>): (s: seq<string>)
    ensures |s| == |rows| && forall i :: 0 <= i < |rows| ==> s[i] == rows[i].countryName
  {
    if |rows| == 0 then [] else [rows[0].countryName] + Countries(rows[1..])
  }

  /** The sub-query outcomes after the "no rows" rule, for the URL's id. */
  function LocationsOutcome(store: StatsStore, authorID: int, urlID: int): Result<seq<LocationRow>>
  {
    NoRowsAsEmpty(store.locationDistribution(authorID, urlID), [], "failed to get location distribution")
  }
  function BrowsersOutcome(store: StatsStore, authorID: int, urlID: int): Result<seq<Charts.BrowserRow>>
  {
    NoRowsAsEmpty(store.browserDistribution(authorID, urlID), [], "failed to get browser distribution")
  }
  function ReferersOutcome(store: StatsStore, authorID: int, urlID: int): Result<seq<Charts.ReferrerRow>>
  {
    NoRowsAsEmpty(store.refererDistribution(authorID, urlID), [], "failed to get referer distribution")
  }
  function TotalOutcome(store: StatsStore, urlID: int): Result<int>
  {
    NoRowsAsEmpty(store.totalVisit(urlID), 0, "failed to get total visit")
  }
  function UniqueOutcome(store: StatsStore, urlID: int): Result<int>
  {
    NoRowsAsEmpty(store.uniqueVisitCount(urlID), 0, "failed to get unique visit count")
  }
  function VisitsOutcome(store: StatsStore, urlID: int, now: int): Result<seq<TimeSeries.Point>>
  {
    // the source reuses the unique-visit message for this query
    NoRowsAsEmpty(store.visitOverTime(urlID, DayWindow(now), "hour"), [], "failed to get unique visit count")
  }

  /** The errors of the sub-queries that failed. */
  function SubQueryErrors(store: StatsStore, authorID: int, urlID: int, now: int): (errs: set<Error>)
    ensures errs == {} <==>
      && LocationsOutcome(store, authorID, urlID).Ok?
      && BrowsersOutcome(store, authorID, urlID).Ok?
      && ReferersOutcome(store, authorID, urlID).Ok?
      && TotalOutcome(store, urlID).Ok?
      && UniqueOutcome(store, urlID).Ok?
      && VisitsOutcome(store, urlID, now).Ok?
  {
    (if LocationsOutcome(store, authorID, urlID).Err? then {LocationsOutcome(store, authorID, urlID).error} else {})
    + (if BrowsersOutcome(store, authorID, urlID).Err? then {BrowsersOutcome(store, authorID, urlID).error} else {})
    + (if ReferersOutcome(store, authorID, urlID).Err? then {ReferersOutcome(store, authorID, urlID).error} else {})
    + (if TotalOutcome(store, urlID).Err? then {TotalOutcome(store, urlID).error} else {})
    + (if UniqueOutcome(store, urlID).Err? then {UniqueOutcome(store, urlID).error} else {})
    + (if VisitsOutcome(store, urlID, now).Err? then {VisitsOutcome(store, urlID, now).error} else {})
  }

  /**
   * `StatisticsDetail`: look the URL up, then run the six sub-queries. The
   * source runs them concurrently and returns the first error to arrive; the
   * model runs them one after another in source order, so it promises only
   * that the error is one of the failing sub-queries' errors.
   */
  method StatisticsDetail(store: StatsStore, authorID: int, slug: string, now: int)
    returns (r: Result<UrlStat>)
    ensures store.get(slug).Err? ==> r == Err(Wrap("failed to get url", store.get(slug).error))
    ensures store.get(slug).Ok? ==>
      var urlID := store.get(slug).value.id;
      && (r.Err? <==> SubQueryErrors(store, authorID, urlID, now) != {})
      && (r.Err? ==> r.error in SubQueryErrors(store, authorID, urlID, now))
    ensures r.Ok? ==> store.get(slug).Ok?
    ensures r.Ok? && store.get(slug).Ok? ==>
      var url := store.get(slug).value;
      var bd := BrowsersOutcome(store, authorID, url.id).value;
      var rd := ReferersOutcome(store, authorID, url.id).value;
      var s := r.value;
      && s.id == url.id && s.title == url.title && s.long == url.longUrl
      && s.slug == slug && s.createdAt == url.createdAt
      && s.nrVisited == TotalOutcome(store, url.id).value
      && s.uniqueVisitors == UniqueOutcome(store, url.id).value
      && s.locations == Countries(LocationsOutcome(store, authorID, url.id).value)
      && s.deviceChart == [Charts.TwoDimension("Desktop", Charts.DesktopCount(bd)),
                           Charts.TwoDimension("Mobile", Charts.MobileCount(bd))]
      && s.browsers == Charts.Browsers(bd)
      && s.referrers == Charts.Referers(rd)
      && Charts.IsRefererChart(rd, s.referrersChart)
      && s.visitPerDay == TimeSeries.Bucketize(VisitsOutcome(store, url.id, now).value, DayWindow(now), TimeSeries.Hour)
  {
    var url := store.get(slug);
    if url.Err? {
      return Err(Wrap("failed to get url", url.error));
    }
    var urlID := url.value.id;

    var ld := LocationsOutcome(store, authorID, urlID);
    if ld.Err? { return Err(ld.error); }
    var bd := BrowsersOutcome(store, authorID, urlID);
    if bd.Err? { return Err(bd.error); }
    var rd := ReferersOutcome(store, authorID, urlID);
    if rd.Err? { return Err(rd.error); }
    var total := TotalOutcome(store, urlID);
    if total.Err? { return Err(total.error); }
    var unique := UniqueOutcome(store, urlID);
    if unique.Err? { return Err(unique.error); }
    var visits := VisitsOutcome(store, urlID, now);
    if visits.Err? { return Err(visits.error); }

    var deviceChart := Charts.DevicesChart(bd.value);
    var referrersChart := Charts.RefererChart(rd.value);
    var visitPerDay := TimeSeries.VisitPerDay(visits.value, DayWindow(now), TimeSeries.Hour);
    r := Ok(UrlStat(
      urlID, url.value.title, url.value.longUrl, slug, url.value.createdAt,
      total.value, unique.value,
      Countries(ld.value),
      deviceChart,
      Charts.Browsers(bd.value),
      Charts.Referers(rd.value),
      referrersChart,
      visitPerDay));
  }

  /**
   * The page's visit series: 25 hourly points from one day before the
   * current hour to the current hour; all zero when the store had no rows.
   */
  lemma DayWindowSeries(data: seq<TimeSeries.Point>, now: int)
    ensures var w := DayWindow(now);
      var r := TimeSeries.Bucketize(data, w, TimeSeries.Hour);
      && |r| == 25
      && r[0].time == w.since && r[24].time == w.until
      && (forall k :: 0 <= k < 25 ==> r[k].time == w.since + k * TimeSeries.Hour)
      && (data == [] ==> forall k :: 0 <= k < 25 ==> r[k].count == 0)
  {
    var w := DayWindow(now);
    var h := TimeSeries.Hour;
    var start, end := TimeSeries.Truncate(w.since, h), TimeSeries.Truncate(w.until, h);
    assert w.until % h == 0 by {
      TimeSeries.DivModUnique(w.until, h, w.until / h, 0);
    }
    assert start == w.since;
    assert end == w.until by {
      TimeSeries.DivModUnique(w.until, h, w.until / h, 0);
    }
    TimeSeries.DivModUnique(end - start, h, 24, 0);
    TimeSeries.BucketizeShape(data, w, h);
  }
}
