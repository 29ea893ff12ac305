/**
 * The decisions of handlers/index.go: `validateURL`, the monthly quota
 * gate of `shorten` and the status chain of `redirect`.
 *
 * `IsValidURL` (handlers/validation.go) parses the URL with Go's `net/url`
 * package; it is a parameter here. The services' replies are parameters
 * too, and each handler returns its response with the calls it made.
 */
module Index {
  import opened GoErrors

  /** `domain.FreePlanLimit`: links a free account may create per month. */
  const FreePlanLimit: int := 10

  const StatusBadRequest: int := 400
  const StatusNotFound: int := 404
  const StatusInternalServerError: int := 500
  const StatusMovedPermanently: int := 301

  // ---- validateURL ---------------------------------------------------------

  /** `validateURL`: field name to error text; empty when the URL is acceptable. */
  function ValidateURL(url: string, isValidURL: string -> bool): (errs: map<string, string>)
    ensures errs.Keys <= {"long_url"}
    ensures errs == map[] <==> url != "" && isValidURL(url)
    ensures url == "" ==> errs == map["long_url" := "URL is required"]
    ensures url != "" && !isValidURL(url) ==> errs == map["long_url" := "invalid URL"]
  {
    if url == "" then
      var errs := map["long_url" := "URL is required"];
      assert "long_url" in errs;
      errs
    else if !isValidURL(url) then
      var errs := map["long_url" := "invalid URL"];
      assert "long_url" in errs;
      errs
    else map[]
  }

  /** The empty URL is refused whatever the URL parser would say. */
  lemma EmptyURLIgnoresParser(p: string -> bool, q: string -> bool)
    ensures ValidateURL("", p) == ValidateURL("", q)
  {
  }

  // ---- shorten -------------------------------------------------------------

  datatype ShortenCall = CountMonthlyURL(userID: int) | Shorten(url: string, title: string, userID: int)

  datatype ShortenReply =
    | Invalid(flash: string)        // 400 with the validation message flashed
    | ToLogin                       // HTMX redirect to "/auth"
    | CountFailed                   // 500 "internal server error"
    | QuotaReached                  // 200, "You have reached your monthly limit of URLs" flashed
    | ShortenFailed(err: Error)     // 500 with the error's text
    | Shortened(short: string, url: string)

  /** `shorten`: validation, then the user, then the monthly count, then the service. */
  function ShortenHandler(url: string, title: string, isValidURL: string -> bool, userID: Option<int>,
                          count: Result<int>, shorten: Result<string>): (r: (ShortenReply, seq<ShortenCall>))
    ensures url == "" || !isValidURL(url) ==> r == (Invalid(ValidateURL(url, isValidURL)["long_url"]), [])
    // the link is created only below the monthly quota
    ensures |r.1| == 2 <==>
      url != "" && isValidURL(url) && userID.Some? && count.Ok? && count.value < FreePlanLimit
    ensures |r.1| == 2 ==> r.1 == [CountMonthlyURL(userID.value), Shorten(url, title, userID.value)]
    ensures |r.1| <= 2 && forall i :: 0 <= i < |r.1| && r.1[i].Shorten? ==> i == 1
    ensures r.0 == QuotaReached <==>
      url != "" && isValidURL(url) && userID.Some? && count.Ok? && count.value >= FreePlanLimit
    ensures r.0.Shortened? ==> shorten.Ok? && r.0 == Shortened(shorten.value, url)
  {
    var errs := ValidateURL(url, isValidURL);
    if |errs| > 0 then
      (Invalid(errs["long_url"]), [])
    else if userID.None? then (ToLogin, [])
    else
      var counting := CountMonthlyURL(userID.value);
      if count.Err? then (CountFailed, [counting])
      else if count.value >= FreePlanLimit then (QuotaReached, [counting])
      else
        var calls := [counting, Shorten(url, title, userID.value)];
        if shorten.Err? then (ShortenFailed(shorten.error), calls)
        else (Shortened(shorten.value, url), calls)
  }

  /** The tenth link of the month is the last one: a count of 10 stops, 9 does not. */
  lemma QuotaBoundary(url: string, title: string, isValidURL: string -> bool, userID: int, shorten: Result<string>)
    requires url != "" && isValidURL(url)
    ensures ShortenHandler(url, title, isValidURL, Some(userID), Ok(FreePlanLimit), shorten).0 == QuotaReached
    ensures ShortenHandler(url, title, isValidURL, Some(userID), Ok(FreePlanLimit - 1), shorten).0 != QuotaReached
  {
  }

  // ---- redirect ------------------------------------------------------------

  /** `domain.URL` as `Expand` returns it. */
  datatype Url = Url(id: int, long: string, short: string)

  datatype RedirectReply =
    | BadRequest                 // 400 "bad request"
    | NotFound                   // 404 with the not-found page
    | ExpandFailed               // 500 "failed to expand url"
    | Moved(location: string, robotsTag: string)  // 301 with X-Robots-Tag

  /** The status code of a reply. */
  function Status(r: RedirectReply): (status: int)
    ensures status in {StatusBadRequest, StatusNotFound, StatusInternalServerError, StatusMovedPermanently}
  {
    match r
    case BadRequest => StatusBadRequest
    case NotFound => StatusNotFound
    case ExpandFailed => StatusInternalServerError
    case Moved(_, _) => StatusMovedPermanently
  }

  /**
   * `redirect`: the reply, whether `Expand` was called, and the URL id the
   * background tracking was launched with, if any.
   */
  function Redirect(id: string, expand: Result<Url>): (r: (RedirectReply, bool, Option<int>))
    ensures id == "" ==> r == (BadRequest, false, None)
    ensures r.1 <==> id != ""
    ensures id != "" && expand.Err? ==> r.2.None?
    ensures id != "" && expand.Err? && Is(expand.error, PgxErrNoRows) ==> Status(r.0) == StatusNotFound
    ensures id != "" && expand.Err? && !Is(expand.error, PgxErrNoRows) ==> Status(r.0) == StatusInternalServerError
    // a visit is tracked exactly when the visitor is sent on
    ensures r.2.Some? <==> r.0.Moved?
    ensures r.0.Moved? ==> expand.Ok? && r.0 == Moved(expand.value.long, "noindex") && r.2 == Some(expand.value.id)
  {
    if id == "" then (BadRequest, false, None)
    else if expand.Err? then
      if Is(expand.error, PgxErrNoRows) then (NotFound, true, None) else (ExpandFailed, true, None)
    else (Moved(expand.value.long, "noindex"), true, Some(expand.value.id))
  }

  /** A wrapped "no rows" error from the repository still gives 404. */
  lemma WrappedNoRowsIsNotFound(id: string, context: string)
    requires id != ""
    ensures Redirect(id, Err(Wrap(context, Base(PgxErrNoRows)))).0 == NotFound
  {
    assert Is(Wrap(context, Base(PgxErrNoRows)), PgxErrNoRows);
  }
}
