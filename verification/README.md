# Shortcut URL shortener — a Dafny model of its core rules

Shortcut is a URL shortener written in Go. A signed-in user shortens long
URLs to random six-character ids. Visitors are redirected and their visits
are recorded (address, user agent, referrer, country). Each link has a
statistics page: devices, browsers, referrers, countries, and clicks per
hour. Users page and sort their links, pick a Stripe plan, and keep their
session in a SQLite table.

This project models the self-contained logic of that program: the
decisions, the transformations and the state changes. It proves what the
code promises about them. HTTP, SQL, Stripe, OAuth and the browser are
outside the model. Their answers are parameters, so every outcome a
service can produce is covered.

Layout, one module per concern:

- Go library behaviour the core relies on:
  - `GoErrors`: error chains and `errors.Is`.
  - `GoStrings`: `Contains`, `Split`, `Join`, `ToLower` for the characters whose lower case is ASCII.
  - `GoStrconv`: `Itoa`/`Atoi` on 64-bit ints.
  - `Base64Url`: padded URL-safe base64, as in section 5 of RFC 4648.
  - `Sorting`: `slices.SortFunc` by an integer key.
  - `GoHttp`: header lookup.
- `services/url.go` is split in three:
  - `TimeSeries`: `visitPerDay`, `ClickOverTime`.
  - `Charts`: the device and referrer charts and lists.
  - `UrlService`: short ids, request parsing, visit tracking, the statistics page.
- `ShortUrlService` is the older `services/shorturl.go`.
- `Request` is `domain/request.go`.
- Pagination:
  - `Pagination` is `middleware/paginate.go`.
  - `HandlerPagination` and `Links` are `handlers/pagination.go` and `handlers/links.go`.
- `TitleExtractor` is `services/title_extractor.go`.
- `Icons`, `Subscription`, `Stripe`, `OAuth`, `Render`, `Authentication`, `Index`,
  `Statistics`, `Toast` and `SqliteSession` each model the file of the same name.

Time is an integer count of nanoseconds in `TimeSeries` and `UrlService`.
The session table keeps Unix seconds, as the source does.

## Model

| member | source | states |
|---|---|---|
| GoErrors.IsDependsOnlyOnRoot | handlers/render.go:36-40 | `errors.Is` through any number of `%w` wraps holds exactly when the innermost error is the target |
| GoErrors.Root | handlers/render.go:36-40 | the innermost error of a chain is never itself a wrap |
| GoStrings.ContainsChars | templates/components/icons.go:8-23 | every character of a substring that occurs is a character of the text |
| GoStrings.ContainsChar | services/shorturl.go:170 | a one-character substring occurs exactly when the character is in the string |
| GoStrings.ContainsWitness | services/shorturl.go:170 | an occurring substring has a position where it starts |
| GoStrings.ContainsPair | templates/components/icons.go:10 | an occurring pattern's first two characters stand side by side in the text |
| GoStrings.ContainsAt | templates/components/icons.go:8-23 | a substring found at some position is contained |
| GoStrings.IndexOf | services/shorturl.go:171 | the position of the first occurrence: the character is there and not before |
| GoStrings.Split | services/shorturl.go:171 | at least one piece; the first is the text up to the first separator, or the whole text |
| GoStrings.JoinSplit | services/shorturl.go:171 | joining the pieces with the separator gives back the text |
| GoStrings.SplitPiecesFree | services/shorturl.go:171 | no piece contains the separator |
| GoStrings.LowerChar | templates/components/icons.go:6 | ASCII capitals go to their lower case, the dotted capital I (U+0130) to 'i' and the Kelvin sign (U+212A) to 'k'; no capital, dotted I or Kelvin sign remains; other characters are kept |
| GoStrings.ToLower | templates/components/icons.go:6 | same length; each character lower-cased as `LowerChar` says |
| GoStrings.ToLowerIdempotent | templates/components/icons.go:6 | lower-casing twice is lower-casing once |
| GoStrconv.Itoa | handlers/statistics.go:37-38 | the decimal text of an integer is never empty |
| GoStrconv.Atoi | domain/subscription.go:70 | a parsed value is within the 64-bit range and comes from non-empty text |
| GoStrconv.ItoaAtoi | domain/subscription.go:70 | every 64-bit integer survives formatting then parsing |
| GoStrconv.ItoaAtoiOutOfRange | domain/subscription.go:70-72 | decimal text of an integer outside the 64-bit range is refused |
| GoStrconv.ItoaSign | handlers/statistics.go:37-38 | formatting writes '-' exactly for negatives and never a '+' |
| GoStrconv.DigitsRoundTrip | domain/subscription.go:70 | the digits of a natural number read back as that number |
| GoStrconv.NatDigits | handlers/statistics.go:37-38 | the digits of a natural number: non-empty, all digits, no leading zero |
| Base64Url.Encode | services/url.go:402 | padded encoding is 4 symbols per started group of 3 bytes |
| Base64Url.EncodeShape | services/url.go:402 | the encoding is alphabet symbols up to ceil(4n/3), then only '=' |
| Base64Url.DecodeEncode | services/url.go:402 | decoding undoes encoding, for every byte string |
| Base64Url.SymbolValue | services/url.go:402 | symbol values lie in 0..63 |
| Base64Url.SymbolInverse | services/url.go:402 | the value of the i-th symbol is i |
| Base64Url.GroupRoundTrip | services/url.go:402 | three bytes split into four 6-bit values and recombine |
| Base64Url.DecodeFullGroup | services/url.go:402 | one full group of four symbols decodes to its three bytes |
| Base64Url.DecodeOnePadded | services/url.go:402 | a final byte padded with "==" decodes to that byte |
| Base64Url.DecodeTwoPadded | services/url.go:402 | a final pair padded with "=" decodes to that pair |
| Sorting.SortByKey | handlers/links.go:194-209 | sorts the array in place: keys non-decreasing, same multiset of elements |
| Sorting.SwapDown | handlers/links.go:194-209 | exchanges two neighbours, keeping the multiset |
| GoHttp.HttpRequest.Get | services/url.go:410-415 | a header's value, or "" when it is absent |
| Request.RequestInfo.IpAddress | domain/request.go:25-31 | the address before the first comma: no comma in it, a prefix of the stored address, all of it when there is no comma, and the comma follows it otherwise |
| Request.NewRequestInfo | domain/request.go:16-40 | the constructor keeps its arguments: the user-agent, referer and country getters give them back, and the address getter does too when the address holds no comma |
| Request.IpAddressIdempotent | domain/request.go:25-31 | taking the client address of a client address changes nothing |
| Request.IpAddressExample | domain/request.go:25-31 | "1.2.3.4, 5.6.7.8" gives "1.2.3.4" |
| TimeSeries.Truncate | services/url.go:360-361 | rounds down to a multiple of the bucket size: r <= t < r + d |
| TimeSeries.Fill | services/url.go:367-379 | the first input point at that instant, or a zero point there |
| TimeSeries.VisitPerDay | services/url.go:358-383 | the loop computes the dense series `Bucketize` |
| TimeSeries.FillFirst | services/url.go:367-373 | the first point stamped at the instant wins over later ones |
| TimeSeries.FillAbsent | services/url.go:374-379 | with no point at the instant, the count is 0 |
| TimeSeries.BucketsShape | services/url.go:365-381 | (end - start) / trunc + 1 points, point k at start + k * trunc |
| TimeSeries.BucketsAscending | services/url.go:365-381 | bucket instants start at `start` and strictly increase |
| TimeSeries.BucketizeShape | services/url.go:358-383 | point count, instants from Since truncated to Until truncated, ascending |
| TimeSeries.BucketizeIdempotent | services/url.go:358-383 | filling an already dense series with the same period changes nothing |
| TimeSeries.DropsOffGrid | services/url.go:365-381 | an input point off the bucket grid or outside the period has no effect |
| TimeSeries.FillSkip | services/url.go:367-373 | a point at another instant does not affect the fill |
| TimeSeries.BucketsIgnore | services/url.go:365-381 | an input point off the grid leaves every bucket unchanged |
| TimeSeries.DivModUnique | services/url.go:360-361 | Euclidean division has one quotient and one remainder |
| TimeSeries.ModShift | services/url.go:360-361 | adding a multiple of d keeps the remainder |
| TimeSeries.MulLE | services/url.go:365 | multiplying by a positive bucket size keeps the order |
| TimeSeries.Granularity | services/url.go:335-347 | "week" and "month" chart per day; "day" and any other name per hour |
| TimeSeries.ClickOverTime | services/url.go:334-356 | a store error is wrapped and no series returned; otherwise the dense series at the matching bucket size |
| Charts.DeviceCountsSum | services/url.go:447-467 | every row counts once, as mobile or desktop |
| Charts.DevicesChart | services/url.go:447-467 | two entries, desktop first then mobile, with the counts by the mobile flag, summing to the row count |
| Charts.Sources | services/url.go:514-528 | the sources in the rows, both ways |
| Charts.Labels | services/url.go:514-528 | every caption of a chart is among its labels |
| Charts.ClicksBySource | services/url.go:515-520 | the map's keys are the sources; each value is that source's click total |
| Charts.MapEntries | services/url.go:521-526 | one entry per map key, captions distinct, each value the key's value, in any order |
| Charts.RefererChart | services/url.go:514-528 | one entry per distinct source with its summed clicks, in any order |
| Charts.RefererChartTotal | services/url.go:514-528 | the chart's values add up to the total clicks of the rows |
| Charts.ChartTotalIsClicksWithin | services/url.go:514-528 | a chart's total is the clicks of its labels |
| Charts.ClicksWithinSplit | services/url.go:515-520 | splitting one key off a key set splits its clicks |
| Charts.ClicksWithinAll | services/url.go:515-520 | a key set covering every source counts every click |
| Charts.ClicksWithinNone | services/url.go:515-520 | the empty key set counts no clicks |
| Charts.ClicksWithinOutside | services/url.go:515-520 | keys no row carries count no clicks |
| Charts.LabelsDistinctCard | services/url.go:521-526 | distinct captions: as many labels as entries |
| Charts.LabelsExclude | services/url.go:521-526 | a caption no entry carries is not a label |
| Charts.LabelsAppend | services/url.go:521-526 | appending an entry adds its caption |
| Charts.Browsers | services/url.go:469-484 | one entry per row, in row order, copying name, version, platform and the mobile flag |
| Charts.Referers | services/url.go:502-512 | one entry per row, in row order, copying source and clicks |
| Charts.ReferersAppend | services/url.go:502-512 | copying rows commutes with concatenating batches |
| Charts.ReferersTotal | services/url.go:502-528 | the referrer list and the referrer chart count the same clicks |
| UrlService.GenerateShortID | services/url.go:393-406 | a random-source error is returned; otherwise `length` URL-safe symbols, a prefix of the padded encoding, never '=' |
| UrlService.ShortIdDecodable | services/url.go:393-406 | a full-group id decodes back to the random bytes it was cut from |
| UrlService.ParseRequest | services/url.go:408-418 | X-Forwarded-For when present and non-empty, else the peer address; user agent and referer from their headers; country empty |
| UrlService.TrackRedirect | services/url.go:163-183 | the visit insert's error is wrapped and returned; the geo lookup uses the first forwarded address; a failing lookup or location insert is not an error; the calls made, in order |
| UrlService.NoRowsAsEmpty | services/url.go:232-238 | "no rows" becomes the empty value; another error is wrapped with the query's context; rows pass through |
| UrlService.NoRowsAsEmptyKeepsCause | services/url.go:232-238 | a wrapped error still matches its sentinel, and "no rows" never escapes |
| UrlService.DayWindow | services/url.go:308-311 | until is the current hour; since is one day earlier |
| UrlService.Countries | services/url.go:240-245 | one country name per row, in order |
| UrlService.SubQueryErrors | services/url.go:231-325 | empty exactly when every sub-query succeeds or answers "no rows" |
| UrlService.StatisticsDetail | services/url.go:209-332 | a lookup error is wrapped; the page fails exactly when a sub-query fails with an error other than "no rows", with one of those errors; otherwise every field is given by its rows (referrer chart as `IsRefererChart`, hourly series over `DayWindow`) |
| UrlService.DayWindowSeries | services/url.go:307-322 | the page's series has 25 hourly points from since to until, all zero when there were no rows |
| ShortUrlService.ParseRequest | services/shorturl.go:378-385 | the same address and user agent as the newer service |
| ShortUrlService.ParseRequestAgrees | services/shorturl.go:378-385 | both services pick the same address and user agent |
| ShortUrlService.GeoAddress | services/shorturl.go:170-172 | the part before the first comma, the same rule as `IpAddress` |
| ShortUrlService.TrackRedirect | services/shorturl.go:163-185 | the raw forwarded address is stored; only the geo lookup uses the first address |
| ShortUrlService.StoredVersusLocated | services/shorturl.go:163-185 | for a multi-hop address the stored address differs from the located one |
| ShortUrlService.Wrapped | services/shorturl.go:226-259 | every sub-query error is wrapped with its context; success passes through |
| ShortUrlService.Browsers | services/shorturl.go:264-330 | one browser entry per row, from the parsed user agent, in order |
| ShortUrlService.SubQueryErrors | services/shorturl.go:226-259 | empty exactly when all four sub-queries succeed |
| ShortUrlService.StatisticsDetail | services/shorturl.go:211-331 | any sub-query error, "no rows" included, fails the page with one of the errors; otherwise every field given, referrers empty |
| ShortUrlService.NoRowsIsFatalHere | services/shorturl.go:244-250 | "no rows" fails this service's page but is empty data for the newer one |
| Pagination.PaginationParams.Offset | middleware/paginate.go:25-35 | never negative; (page - 1) * page size from page 1 on, page size 10 when unset, not capped |
| Pagination.PaginationParams.Limit | middleware/paginate.go:37-47 | between 1 and 100: 10 when unset, capped at 100 |
| Pagination.Paginate | middleware/paginate.go:49-60 | at most `Limit` elements; none when the offset is past the end; otherwise the run from the offset |
| Pagination.PagesAdjacent | middleware/paginate.go:25-60 | for page sizes 1 to 100, pages p and p + 1 together are the run from page p's offset |
| Pagination.PagesSkipAboveHundred | middleware/paginate.go:25-60 | above 100 per page, pageSize - 100 elements between two pages appear on neither |
| Pagination.PositiveOr | middleware/paginate.go:73-87 | a query value that parses to a positive integer, else the default; always positive |
| Pagination.ParseParams | middleware/paginate.go:63-101 | page and page size are at least 1, from the query when valid |
| Pagination.ParseParamsDefaults | middleware/paginate.go:63-101 | with no query, page 1 of size 10 |
| Pagination.GetPaginationParams | middleware/paginate.go:104-110 | the stored parameters, or page 1 of size 10 |
| Pagination.GoDiv | middleware/paginate.go:141 | Go's truncating division for a positive divisor |
| Pagination.TotalPagesBounds | middleware/paginate.go:141 | the page count is the ceiling of total / page size |
| Pagination.WindowBounds | middleware/paginate.go:143-154 | shown pages lie in [1, totalPages]; at most five |
| Pagination.WindowCovers | middleware/paginate.go:143-154 | for an existing page, the window contains it and shows min(5, totalPages) pages |
| Pagination.PreviousLink | middleware/paginate.go:157-163 | present exactly from page 2 on, pointing at the page before |
| Pagination.NextLink | middleware/paginate.go:175-181 | present exactly before the last page, pointing at the page after |
| Pagination.GeneratePaginationLinks | middleware/paginate.go:139-188 | the loop builds the window's numbered links; previous and next links as above |
| Pagination.PageLinksShape | middleware/paginate.go:166-172 | numbered links in increasing order, each for its page with the same size, only the current one marked |
| Pagination.PageLinksCurrent | middleware/paginate.go:166-172 | for an existing page exactly one link is current |
| Pagination.HrefRoundTrip | middleware/paginate.go:63-101 | a link's query string parses back to its page and page size |
| HandlerPagination.PaginationQuery.Offset | handlers/pagination.go:14-24 | never negative, page size 10 when unset, not capped at 50 |
| HandlerPagination.PaginationQuery.Limit | handlers/pagination.go:26-36 | between 1 and 50 |
| HandlerPagination.OffsetIgnoresCap | handlers/pagination.go:14-36 | above 50 per page, page 2 starts past the 50 elements page 1 shows |
| Links.Paginate | handlers/links.go:18-29 | empty past the end; the rest of the list when the page runs over; otherwise `Limit` elements from the offset |
| Links.PaginateIsRun | handlers/links.go:18-29 | a page is a contiguous run of at most 50 elements |
| Links.Compare | handlers/links.go:176-181 | -1, 0 or +1 by the order of the instants |
| Links.ComparatorMatchesKey | handlers/links.go:175-209 | each comparator orders two links exactly as the integer key does |
| Links.SortKeyMeaning | handlers/links.go:194-209 | newest, oldest, most- and least-clicked order; unknown filters sort newest first |
| Links.SortUrls | handlers/links.go:194-209 | sorted by the filter's order; same elements |
| Links.ListPage | handlers/links.go:31-90 | the page is the middleware's slice, sorted; the sort acts within the page only |
| Links.PaginateBeforeSort | handlers/links.go:51-52 | with one link per page, page 1 shows the first stored link even when a newer one exists |
| TitleExtractor.Tokenizer.Next | services/title_extractor.go:25 | the next token and the position advanced, or the error token at the end |
| TitleExtractor.FindTitleTag | services/title_extractor.go:22-53 | the loop's outcome and final position are those of the scan specification |
| TitleExtractor.DrainToText | services/title_extractor.go:39-43 | the text of the next text token, or divergence when none follows |
| TitleExtractor.ScanLength | services/title_extractor.go:22-53 | a scan consumes no more tokens than there are |
| TitleExtractor.DrainLength | services/title_extractor.go:41-43 | the drain consumes no more tokens than there are |
| TitleExtractor.EmptyInput | services/title_extractor_test.go:17 | an empty page has title "" |
| TitleExtractor.NoTitleTag | services/title_extractor_test.go:18 | a page without head or title gives "" |
| TitleExtractor.ValidTitleTag | services/title_extractor_test.go:19 | the head's title text is returned |
| TitleExtractor.NoHeadNoTitle | services/title_extractor.go:22-53 | without a head start tag the result is "" |
| TitleExtractor.TitleBeforeHeadIgnored | services/title_extractor.go:39 | a title before the head is skipped |
| TitleExtractor.HeadEndStops | services/title_extractor.go:46-50 | a head end tag before any title ends the search with "" |
| TitleExtractor.TitleIsNextText | services/title_extractor.go:39-43 | inside the head, a title tag yields the next text token's text |
| TitleExtractor.DrainFindsText | services/title_extractor.go:41-43 | non-text tokens are skipped up to the first text |
| TitleExtractor.DrainDiverges | services/title_extractor.go:41-42 | the drain never ends exactly when no text token follows |
| Icons.GetSourceIcon | templates/components/icons.go:5-29 | always one of the ten fixed triples |
| Icons.FirstMatch | templates/components/icons.go:7-28 | the reference rule, walking the pattern table in order: the result is the fallback (link or globe) or the icon of a tier whose patterns occur in the text |
| Icons.FirstMatchLeast | templates/components/icons.go:7-23 | the first match is the icon of the least-index tier whose patterns occur |
| Icons.FirstMatchNone | templates/components/icons.go:24-27 | with no tier matching, "direct" and "" get the link icon and anything else the globe |
| Icons.SourceIconIsFirstMatch | templates/components/icons.go:5-29 | for every source, the icon is the table's first match on the lower-cased source |
| Icons.PriorityOrder | templates/components/icons.go:7-23 | the first tier that matches wins, whatever later tiers also match |
| Icons.TwitterSecond | templates/components/icons.go:10-11 | without "google", "twitter", "t.co" or "x.com" anywhere gives the Twitter icon |
| Icons.DirectMatchesNothing | templates/components/icons.go:8-23 | no pattern of the table occurs in "direct" |
| Icons.DottedCapitalILowers | templates/components/icons.go:6 | "G\u0130THUB.COM" lower-cases to "github.com" |
| Icons.GithubComTiers | templates/components/icons.go:8-23 | in "github.com" only the github tier matches |
| Icons.GithubComMissesEarly | templates/components/icons.go:8-11 | "google", "twitter", "t.co" and "x.com" do not occur in "github.com" |
| Icons.GithubComMissesLate | templates/components/icons.go:12-21 | the facebook to youtube patterns do not occur in "github.com" |
| Icons.DottedCapitalI | templates/components/icons.go:6-23 | a source spelt with the dotted capital I, "G\u0130THUB.COM", gets the GitHub icon |
| Icons.CaseInsensitive | templates/components/icons.go:6 | a source and its lower-case form get the same icon |
| Icons.GoogleFirst | templates/components/icons.go:8-9 | "google" anywhere in the source, in any case, gives the Google icon whatever else occurs |
| Icons.RedditGetsTwitter | templates/components/icons.go:10-17 | "reddit.com" contains "t.co", so it gets the Twitter icon |
| Icons.MissingChar | templates/components/icons.go:8-23 | a pattern with a character the source lacks does not match |
| Icons.DirectLinkSources | templates/components/icons.go:24-25 | "direct" in any case, and "", get the link icon |
| Icons.DirectLinkOnly | templates/components/icons.go:24-25 | only those sources get the link icon |
| Subscription.NewPlanFeature | domain/subscription.go:60-76 | promoted exactly for "promoted" = "true"; links is the parsed value when `Atoi` accepts it, else 0, always in int64 range |
| Subscription.OtherKeysIgnored | domain/subscription.go:60-76 | keys other than "promoted" and "links" make no difference |
| Subscription.EmptyMetadata | domain/subscription.go:60-76 | no metadata gives the zero feature set |
| Subscription.LinksRoundTrip | domain/subscription.go:68-73 | a count written in decimal is read back |
| Subscription.LinksUnparsable | domain/subscription.go:70-72 | a value `Atoi` refuses leaves the count at 0 |
| Subscription.LinksOverflow | domain/subscription.go:70-72 | a count outside the 64-bit range leaves 0 |
| Subscription.LinksExamples | domain/subscription.go:70-72 | "unlimited" gives 0; "+25" gives 25 |
| Subscription.PromotedExact | domain/subscription.go:63-66 | "True" does not promote; "true" does |
| Stripe.ToPlan | services/stripe.go:231-240 | the plan copies product id, name and description, price id, amount, currency, interval and the parsed features |
| Stripe.Plans | services/stripe.go:218-243 | no more plans than prices |
| Stripe.PlansFromOffered | services/stripe.go:219-229 | a plan is listed exactly when some recurring price of a live, active product produces it |
| Stripe.ListPlans | services/stripe.go:210-260 | an iterator error is wrapped and no plans returned; otherwise the offered plans, cheapest first |
| Stripe.CustomerRedirectURL | services/stripe.go:262-269 | "https://" or "http://" by the TLS flag, then the domain, then "/account" |
| Stripe.RedirectURLInjective | services/stripe.go:262-269 | different domains or TLS flags give different URLs |
| Stripe.GetSubscription | services/stripe.go:121-138 | a store error is returned; no active row gives `ErrNotSubscription` without asking Stripe; otherwise the first row's subscription |
| OAuth.IsValidProvider | domain/oauth.go:10-16 | exactly "github" and "google" are valid |
| OAuth.CaseSensitive | domain/oauth.go:10-16 | "GitHub" and "Google" are invalid |
| Render.ErrMap | handlers/render.go:29-34 | the status table has no entry for 500 |
| Render.ErrorStatus | handlers/render.go:24-45 | 200 for no error; a status whose target is in the chain; 500 exactly when no target matches; equal to the expected status by the chain's root |
| Render.WrapAll | handlers/render.go:36-40 | wrapping keeps the root of the chain |
| Render.WrapKeepsStatus | handlers/render.go:36-40 | wrapping depth does not change the status |
| Render.VerifyLoginFailureStatus | services/user.go:119-123 | the wrapped credentials error of login still gives 422 |
| Authentication.LoginAlerts | handlers/authentication.go:364-383 | invalid credentials first, then unknown user, else the generic alert |
| Authentication.AlertMatchesStatus | handlers/authentication.go:364-383 | a specific alert exactly when the status is 422; the generic one exactly when it is 500 |
| Authentication.Register | handlers/authentication.go:111-149 | empty name, email or password gives 400 before the confirmation is compared; the user is created only when every check passes; redirect home exactly on full success |
| Authentication.EditAccount | handlers/authentication.go:162-223 | no user gives 404; an empty field gives 422 without calling `UpdateUser`; the success toast exactly on full success |
| Authentication.EditPassword | handlers/authentication.go:225-311 | checks in order: user, empty passwords, mismatch, old password; `UpdatePassword` only after all pass; reswap and toast exactly on full success |
| Index.ValidateURL | handlers/index.go:152-166 | at most one entry, under "long_url"; "URL is required" for "", "invalid URL" when the parser refuses; empty exactly for a valid URL |
| Index.EmptyURLIgnoresParser | handlers/index.go:155-158 | the empty URL is refused without consulting the parser |
| Index.ShortenHandler | handlers/index.go:76-120 | the link is created exactly when the URL is valid, a user is signed in, and the month's count is below 10 |
| Index.QuotaBoundary | handlers/index.go:101-107 | a count of 10 stops; 9 does not |
| Index.Status | handlers/index.go:122-150 | every reply of `redirect` has one of four statuses |
| Index.Redirect | handlers/index.go:122-150 | empty id gives 400 without `Expand`; "no rows" gives 404, other errors 500, neither tracked; success tracks the URL's id and answers 301 with noindex |
| Index.WrappedNoRowsIsNotFound | handlers/index.go:129-135 | a wrapped "no rows" error still gives 404 |
| Statistics.ClickLabel | handlers/statistics.go:31-38 | "no click" up to 0, "1 click" for 1, otherwise the decimal count followed by " clicks" |
| Statistics.ClickLabelReadsBack | handlers/statistics.go:37-38 | the number in a plural label parses back to the count |
| Statistics.ClickLabelInjective | handlers/statistics.go:31-38 | different positive counts get different labels |
| Statistics.ClickLabelOneDiffers | handlers/statistics.go:34-38 | a plural label is never "1 click" |
| Statistics.NumberClicks | handlers/statistics.go:14-40 | not signed in goes to login; a statistics error gives 500; otherwise the label |
| Toast.New | handlers/toast/toast.go:22-32 | level, title and message copied; the wrapper is the first variadic argument, or "" |
| Toast.NewIgnoresExtraWrappers | handlers/toast/toast.go:28-30 | arguments after the first wrapper make no difference |
| Toast.InfoToast | handlers/toast/toast.go:34-36 | level "info" and no wrapper, whatever was passed |
| Toast.SuccessToast | handlers/toast/toast.go:38-40 | level "success" and no wrapper |
| Toast.WarningToast | handlers/toast/toast.go:42-44 | level "warning" and no wrapper |
| Toast.DangerToast | handlers/toast/toast.go:46-48 | level "danger" and no wrapper |
| Toast.HelpersDiffer | handlers/toast/toast.go:34-48 | the wrapper never reaches the toast; the four helpers use four levels |
| SqliteSession.SqliteStore.Get | db/sqlite_session.go:43-48 | the value under the key, or nil when absent |
| SqliteSession.SqliteStore.ID | db/sqlite_session.go:60-62 | always the id the store was made with |
| SqliteSession.SqliteStore.Set | db/sqlite_session.go:34-40 | `Get(k)` now gives v; every other key unchanged |
| SqliteSession.SqliteStore.Delete | db/sqlite_session.go:51-57 | the key is gone, whether it was there or not; every other key unchanged |
| SqliteSession.SqliteStore.Flush | db/sqlite_session.go:83-89 | the map is empty |
| SqliteSession.SqliteStore.Release | db/sqlite_session.go:66-80 | an empty session writes nothing; an encoding error writes nothing; otherwise the row gets the new data and expiry |
| SqliteSession.SqliteStore.constructor | db/sqlite_session.go:25-31 | the store holds the given id and map |
| SqliteSession.Updated | db/sqlite_session.go:77-78 | an update touches only the session's row, and only if it exists |
| SqliteSession.Survivors | db/sqlite_session.go:181-185 | exactly the rows not strictly older than the lifetime remain, unchanged |
| SqliteSession.Renamed | db/sqlite_session.go:165 | the old row moves to the new id; other rows unchanged |
| SqliteSession.WithRow | db/sqlite_session.go:158-163 | a missing row is inserted empty at `now`; an existing one is kept |
| SqliteSession.SqliteProvider.Exist | db/sqlite_session.go:137-144 | true exactly when the table has the row |
| SqliteSession.SqliteProvider.Count | db/sqlite_session.go:173-178 | the number of rows |
| SqliteSession.SqliteProvider.Read | db/sqlite_session.go:110-134 | a missing row is inserted empty; the session starts empty when the data is empty or `expiry + maxlifetime <= now`; otherwise the decoded map, or the decoding error |
| SqliteSession.SqliteProvider.Destroy | db/sqlite_session.go:147-150 | the row is gone; a missing row is not an error |
| SqliteSession.SqliteProvider.Regenerate | db/sqlite_session.go:153-170 | fails, changing nothing, when the new id exists; otherwise the old row, created if missing, moves to the new id and is read: a fresh store for the new id on the same table, empty or with the decoded map, or the decoding error |
| SqliteSession.SqliteProvider.GC | db/sqlite_session.go:181-185 | deletes exactly the rows with `now - expiry > maxlifetime` |
| SqliteSession.CollectedStartsEmpty | db/sqlite_session.go:124 | a row GC deletes is one `Read` treats as expired |
| SqliteSession.BoundaryRow | db/sqlite_session.go:124 | a row whose lifetime ends exactly now reads as expired but survives GC |
| SqliteSession.ReadInsertsOnce | db/sqlite_session.go:115-118 | inserting the missing row is done once |

## Left out

- HTTP plumbing is not modelled: routing, form parsing, templ rendering, flash cookies, HTMX headers other than those named above, and logging.
- Database drivers and SQL are not modelled. Store queries are function-typed parameters. SQL failures other than "no rows" and a missing row are not distinguished.
- Concurrency is not modelled:
  - The errgroup fan-out of both `StatisticsDetail` functions runs sequentially in source order. The model promises only that the error returned is one of the failing sub-queries' errors.
  - The detached tracking goroutine of `redirect` is represented only by the URL id it is launched with (the third component of `Index.Redirect`'s result); the tracking call itself is not modelled.
  - The `sync.RWMutex` of `SqliteStore` is not modelled.
- Floating point is not modelled: `browserDistribution`, `browserChart`, every percentage field, `Plan.Price` and `FormatPrice`.
  - `Stripe.ListPlans` sorts by the integer `UnitAmount`. `UnitAmount / 100` as a float64 orders the same way except for amounts beyond 2^53 cents.
- Foreign code is not modelled. Each piece becomes a parameter instead:
  - `crypto/rand`, as the bytes read or an error;
  - `html.Tokenizer`, as a token sequence;
  - `url.Parse` behind `IsValidURL`, as a predicate;
  - the user-agent parser, as a function;
  - the MaxMind and ipquery geo lookups, as a function;
  - the Stripe client, OAuth2 and argon2;
  - gob encoding of session maps, as `encode`/`decode` functions over opaque bytes.
- `ExtractTitle`'s HTTP request is not modelled; only `findTitleTag` is.
- `toURL` and `url.JoinPath` are not modelled: the statistics page keeps the slug, not the full short URL.
- Toast JSON encoding and the `HX-Trigger` header are not modelled: the helpers return the toast they would send.
- GoStrings.ToLower: only the characters whose lower case is ASCII are lowered (ASCII capitals, U+0130, U+212A); other non-ASCII capitals are kept. Every pattern `GetSourceIcon` tests is ASCII, so its result is unaffected. Invalid UTF-8 bytes, which Go turns into U+FFFD, are not modelled.
- Session keys and values are strings; in the source they are `interface{}`.
- Time zones are not modelled. `AddDate(0, 0, -1)` is modelled as 24 hours, which holds in UTC.
- UrlService.ParseRequest: services/url.go:417 passes three arguments to the four-argument `NewRequestInfo`. The model passes an empty country for the fourth.
- UrlService.GenerateShortID: services/shorturl.go:363-376 is the same code as services/url.go:393-406, so it is modelled once.
- Pagination.PaginationParams.Offset: computed on unbounded integers; Go's `int` would wrap for pages beyond 2^63 / pageSize.
- `compareInt` (handlers/links.go:182-184) subtracts Go `int`s, which can overflow for extreme visit counts; the model does not wrap.
- SqliteSession.SqliteProvider.Exist: the panic on a database error is not modelled.
- SqliteSession.SqliteProvider.Count: the panic on a database error is not modelled.
- SqliteSession.SqliteProvider.GC: uses the database clock; here it is the `now` parameter.
- The `logout`, `login`, OAuth flow and checkout handlers are outside the modelled core.
