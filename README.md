# yahoo-finance-api core, modelled in Dafny

This project models the deterministic core of the Go client library
`yahoofinanceapi`. The library is an HTTP client for Yahoo Finance, and its
core is the logic around the HTTP calls:

- **Search** (`search.go`). The default search parameters. The parameter set a
  search request carries. Trimming and rejecting the query. Clamping the quote
  count. Checking the reply. Reshaping raw quotes into search results.
- **History** (`history.go`). `HistoryQuery.SetDefault` fills in Range,
  Interval, Start, End and UserAgent, and rewrites a `YYYY-MM-DD` Start into
  Unix seconds. `GetHistory` builds the request parameters and checks the
  reply. `transformData` re-keys the parallel OHLCV arrays by the rendered time
  stamp: date-only for daily, weekly and monthly intervals, date and time
  otherwise. When two time stamps render to the same key, the later one wins.
- **Ticker** (`ticker.go`). A symbol with its own `History`. `Quote` returns
  the bar under the greatest key. `History` installs a query and returns the
  re-keyed bars. `OptionChain`, `OptionChainByExpiration` and `ExpirationDates`
  delegate to the option functions.
- **Options** (`option.go`). Fetching a chain, with an optional expiration
  date that is validated and sent as Unix seconds. Flattening the first expiry
  of a chain into option details with rendered dates. Listing the expiration
  dates.

The Go standard-library functions the core calls are modelled from their
documented behaviour. `text.dfy` covers `strings.TrimSpace`, `strconv.Itoa`
and `fmt.Sprintf("%d", …)`, `strconv.FormatBool`, `strings.HasSuffix`, Go's
string order and `sort.Strings`. It also defines readers in the manner of
`strconv.Atoi` and `strconv.ParseBool`. The Go code calls neither of them;
they only state round trips: that the written parameters can be read back, in
Search.DecodeBuildSearchURL, HistoryChart.Defaulted and
Options.GetOptionChainByExpiration. `calendar.dfy` covers
`time.Unix(ts, 0).Format` with the layouts `2006-01-02` and
`2006-01-02 15:04:05` in UTC, and `time.Parse("2006-01-02", …)`. It includes a
proleptic Gregorian calendar with proofs that, for time stamps in the years
0000 to 9999, the rendering of a date parses back to its midnight, and that
string order on the rendered keys is chronological order.

Every network request is a parameter. An HTTP reply is a `Reply<T>`: either
no response (a transport error), or a status code with a body that is
unreadable, malformed, or decoded into the payload type. The clock
(`time.Now`) and the random User-Agent choice (`rand.Intn`) are parameters
too. Where the Go code builds a parameter set (`SearchParams` for a
search, the history query, the option `date`), the method that makes the
request returns that set as it stands before `client.Get` adds the crumb.
`Ticker.Quote` and `Ticker.History` discard the set that `GetHistory` builds,
and `GetOptionChain` and `GetExpirationDates` build none, so these return no
parameters.

Files: `base.dfy` (Option, 64-bit range, replies), `text.dfy`, `calendar.dfy`,
`search.dfy`, `history.dfy`, `ticker.dfy`, `option.dfy`.

## Model

| member | source | states |
|---|---|---|
| Search.DefaultSearchParams | search.go:82-104 | the query and quote count are kept verbatim; newsCount and listsCount are 0, recommendCount is 5, lang is "en-US"; fuzzy query, clickback and lists are off; enhanced trivial query, crypto boost, private companies, research reports, cultural assets, logo URLs and navigation links are on; the query ids are "tss_match_phrase_query", "multi_quote_single_token_query" and "news_cie_vespa", so a default search always sends newsQueryId |
| Search.BuildSearchURL | search.go:107-132 | every known parameter is present, and newsQueryId only when it is non-empty; each value is the field's text: strings as they are, integers in decimal, booleans as "true"/"false" |
| Search.Encoded | search.go:112-131 | the text each parameter is set to: the string fields as they are, the integer fields through strconv.Itoa, the boolean fields through strconv.FormatBool |
| Search.DecodeBuildSearchURL | search.go:111-132 | nothing is lost in the parameter set: reading back integers with Atoi and booleans with ParseBool recovers exactly the search parameters |
| Search.Name | search.go:112-131 | the wire name of each parameter, as the Set calls spell it |
| Search.NameInjective | search.go:111-132 | the wire names of distinct parameters are distinct, so a set keyed by parameter is a set keyed by name |
| Search.ClampQuotesCount | search.go:181-186 | the count lies in 1..20; a count of at most 0 becomes 10, one above 20 becomes 20, any other is unchanged |
| Search.Normalized | search.go:175-186 | the parameters actually sent: the query trimmed of white space and the quote count clamped, every other field unchanged |
| Search.GetSearchResultsWithOptions | search.go:173-217 | a query that is blank after trimming gives "query cannot be empty", the zero response and no request; otherwise the request carries the trimmed query and the clamped count; a transport error, a status outside 200..299, an unreadable body and undecodable JSON each give their own error message and the zero response; a decoded 2xx reply is returned with no error |
| Search.GetSearchResults | search.go:160-163 | it sends the default parameters for the trimmed query and the clamped limit; there is no error exactly when the query is not blank and the reply is a decoded 2xx response, and then the response is the decoded value |
| Search.NormalizedDefault | search.go:160-186 | normalising the default parameters of a query and a limit gives the default parameters of the trimmed query and the clamped limit |
| Search.ToResult | search.go:222-237 | symbol, short name, long name, type (from quoteType), exchange and exchDisp are copied; the name is the short name when that is non-empty, else the long name; the name is empty exactly when both are |
| Search.TransformData | search.go:220-240 | one result per raw quote, in the same order, each the reshaping of its quote |
| HistoryChart.Defaulted | history.go:94-116 | Range becomes "1mo" only when Range and Start are both empty, else it is kept; an empty Interval becomes "1d", else it is kept; an empty Start stays empty; a Start that is a date becomes the plain decimal text (`%d`) of its midnight's Unix seconds, which reads back as that midnight; any other non-empty Start becomes "default"; an empty End becomes the plain decimal text of the current Unix time, else it is kept; an empty UserAgent becomes one of the User-Agent list, else it is kept |
| HistoryChart.StartRendering | history.go:101-108 | the seconds written for a date parse back to its midnight, which renders as that date, and they are never the text "default" |
| HistoryChart.DefaultedTwice | history.go:94-116 | for a User-Agent list without an empty string, a second SetDefault keeps Range, Interval, End and UserAgent, but turns every non-empty Start into "default" |
| HistoryChart.DefaultedSettles | history.go:94-116 | for a User-Agent list without an empty string, from the second SetDefault on, the query no longer changes |
| HistoryChart.HistoryQuery.constructor | history.go:86-92 | a query object holds exactly the given field values |
| HistoryChart.HistoryQuery.SetDefault | history.go:94-116 | updates the five fields in place to the defaulted query |
| HistoryChart.History.constructor | history.go:123-125 | a new History holds a fresh, empty query |
| HistoryChart.History.SetQuery | history.go:127-129 | installs a fresh copy of the given query |
| HistoryChart.History.GetHistory | history.go:131-160 | the query is defaulted first; interval, period1 and period2 are always sent, and range only when it is non-empty; a transport error is returned with the zero response; an unreadable or undecodable body ends the program with the decode message; an empty result gives "no data found for symbol: " and the symbol; otherwise the decoded response is returned |
| HistoryChart.History.TransformData | history.go:162-181 | the map is the re-keying of the first result: each time stamp's bar stored under its key in index order, so a later time stamp overwrites an earlier one with the same key |
| HistoryChart.Daily | history.go:167 | an interval is keyed by date alone exactly when it ends in "d", "wk" or "mo" |
| HistoryChart.Key | history.go:165-171 | the key of a time stamp is its "2006-01-02" rendering for a daily interval and its "2006-01-02 15:04:05" rendering otherwise |
| HistoryChart.Rekey | history.go:162-181 | the map transformData builds: the bar of each index of the first result stored under that index's key, in index order |
| HistoryChart.Bar | history.go:172-177 | the bar of index i: open, high, low, close and volume all taken from the first quote at the same index i as the time stamp it is stored for |
| HistoryChart.Complete | history.go:164-177 | the condition under which transformData does not panic: when the first result has a time stamp, it has a first quote whose open, high, low, close and volume arrays are each at least as long as the time stamps; a result without time stamps needs nothing |
| HistoryChart.RekeyNoTimestamps | history.go:164 | a first result without time stamps, even one without a quote, is accepted and re-keys to the empty map |
| HistoryChart.StoreKeys | history.go:164-178 | a key is in the map exactly when some stored time stamp has it |
| HistoryChart.StoreLastWins | history.go:172-177 | the bar under a key is the bar of the last index with that key |
| HistoryChart.StoreSize | history.go:164-178 | the map has at most as many entries as there are time stamps |
| HistoryChart.RekeyEntries | history.go:164-178 | for the re-keyed map of a result: at most one entry per time stamp, a key present exactly when a time stamp has it, and its bar taken from the same index as the last such time stamp |
| HistoryChart.KeyOrder | history.go:166-171 | for time stamps in four-digit years, daily keys compare as their days and other keys as their seconds, and two keys are equal exactly when their days (or seconds) are |
| Tickers.Ticker.constructor | ticker.go:11-15 | the symbol is stored verbatim, with a fresh history holding an empty query |
| Tickers.QuoteReady | ticker.go:19-33 | the condition under which Quote does not panic: a decoded chart with a first result is Complete and has at least one time stamp, so the sorted keys are non-empty and dates[len(dates)-1] exists |
| Tickers.HistoryReady | ticker.go:36-43 | the condition under which History does not panic: a decoded chart with a first result is Complete; no time stamp is needed |
| Tickers.IsLatestBar | ticker.go:29-33 | the bar Quote returns: the bar of an index i that is the last index with its key, and whose key is at least every key of the re-keyed map (the greatest key, which the sort puts last) |
| Tickers.Ticker.Quote | ticker.go:17-34 | the shared query is defaulted; a history error comes back with the zero bar; otherwise the bar returned is the one stored under the greatest key of the re-keyed map, as Tickers.IsLatestBar states it; the reply must satisfy Tickers.QuoteReady |
| Tickers.CollectKeys | ticker.go:25-28 | the collected keys are exactly the map's keys, each once, in whatever order iteration yields |
| Tickers.SortedLast | ticker.go:29-31 | after sorting, the last element is at least every element |
| Tickers.LatestOfSorted | ticker.go:25-33 | the last of the sorted keys of the re-keyed map is the greatest key, and the bar under it is the bar of the last time stamp with that key |
| Tickers.LatestBarIsLatest | ticker.go:31-33 | for four-digit years, the bar under the greatest key is the bar of the latest time stamp (latest day for daily intervals), and no later index has its key |
| Tickers.RekeyNonEmpty | ticker.go:25-31 | a result with a time stamp has a non-empty re-keyed map, so the last sorted key exists |
| Tickers.Ticker.History | ticker.go:36-43 | installs a fresh copy of the query, defaults it, returns no data on a history error, and otherwise returns the re-keyed bars of the first result, which are empty when that result has no time stamps |
| Tickers.Ticker.OptionChain | ticker.go:45-48 | returns the flattening of the fetched chain |
| Tickers.Ticker.OptionChainByExpiration | ticker.go:50-53 | for a valid date, the request carries exactly the parameter date, the plain decimal text of that date's midnight in Unix seconds; the flattening of the fetched chain is returned |
| Tickers.Ticker.ExpirationDates | ticker.go:55-58 | one rendered date per expiration time stamp of the fetched chain, in order |
| Options.GetOptionChain | option.go:176-191 | the decoded chain when the body decodes, and the zero response after any error; the status code is not checked |
| Options.GetOptionChainByExpiration | option.go:193-215 | an expiration that is not a YYYY-MM-DD date gives the zero response and no request; otherwise the only parameter, date, is the plain decimal text (Itoa) of the parsed midnight, which reads back as a midnight that renders as the expiration; the response is the fetched chain |
| Options.DateOfFormat | option.go:218 | for a time stamp in the years 0000 to 9999, the date rendered from it parses back to its midnight |
| Options.MapSeqAt | option.go:221-258 | an element-wise map keeps the length, and each output element is the image of the input element at the same index |
| Options.Detail | option.go:222-237 | the detail of a contract: every term copied, the expiration and last trade time stamps rendered as "2006-01-02" |
| Options.Flatten | option.go:217-265 | the output of transformData: the first expiry's date rendered, hasMiniOptions from the first result, and the details of its calls and puts in order |
| Options.TransformData | option.go:217-265 | the output is the flattening of the first expiry: the calls and puts mapped element-wise to details, the expiry rendered as a date, and hasMiniOptions taken from the first result |
| Options.DetailRenders | option.go:222-237 | a detail copies every term of its contract and renders the expiration and last trade date as dates |
| Options.RendersPresents | option.go:222-237 | a rendered detail shows dates that read back as the days of its time stamps, for time stamps in the years 0000 to 9999 |
| Options.FlattenedContracts | option.go:218-264 | the output has one detail per call and per put, in the same order; each copies its contract's terms and, for time stamps in the years 0000 to 9999, has dates naming the days of its time stamps; hasMiniOptions comes from the first result, and the expiration date names the day of the first expiry when that is in the years 0000 to 9999 |
| Options.GetExpirationDates | option.go:267-274 | one rendered date per expiration time stamp of the first result, in the same order |
| Options.ExpirationDatesOrder | option.go:270-273 | for time stamps in the years 0000 to 9999, each expiration date names the day of its time stamp, and one date sorts before another exactly when its day is earlier |
| Text.TrimSpace | search.go:175 | the result is the input with a run of leading and a run of trailing white space removed, and neither of its ends is white space |
| Text.IsSpace | search.go:175 | unicode.IsSpace, the characters strings.TrimSpace removes: tab, line feed, U+000B, U+000C, carriage return and space; U+0085 (NEL) and U+00A0 (NBSP); U+1680, U+2000 to U+200A, U+2028, U+2029, U+202F, U+205F and U+3000 |
| Text.TrimSpaceEmpty | search.go:175-178 | the trimmed query is empty exactly when every character is white space |
| Text.TrimSpaceIdempotent | search.go:175 | trimming twice is trimming once |
| Text.Itoa | search.go:114 | strconv.Itoa and fmt "%d": a minus sign for a negative number, then its shortest decimal digits |
| Text.ParseInt | history.go:107 | not called by the Go code: a reader, in the manner of strconv.Atoi, of the decimal text written at this line, used to state round trips: an optional sign and at least one digit, within the 64-bit range; anything else is rejected |
| Text.ItoaRoundTrip | search.go:114 | Atoi reads back the decimal text of every 64-bit integer |
| Text.FormatBool | search.go:117 | strconv.FormatBool: "true" or "false" |
| Text.ParseBool | search.go:117 | not called by the Go code: a reader, in the manner of strconv.ParseBool, of the text written at this line, used to state the search round trip: 1, t, T, TRUE, true, True are true; 0, f, F, FALSE, false, False are false; anything else is rejected |
| Text.BoolRoundTrip | search.go:117 | ParseBool reads back "true" and "false" |
| Text.HasSuffix | history.go:167 | strings.HasSuffix: the string ends in the suffix |
| Text.Less | ticker.go:29 | Go's string comparison: lexicographic order of the characters (for UTF-8 text the same as Go's byte order), a proper prefix first |
| Text.LessTotal | ticker.go:29 | Go's string order is total |
| Text.LessTransitive | ticker.go:29 | Go's string order is transitive |
| Text.LessConcat | history.go:166-171 | equal-length prefixes decide the order of two concatenations, and the suffixes break ties |
| Text.Insert | ticker.go:29 | inserting into a sorted sequence keeps it sorted and adds exactly that element |
| Text.SortStrings | ticker.go:29 | the result is sorted and a permutation of the input |
| Calendar.CivilFromDays | history.go:168 | the calendar date of a day number is a valid date with that day number |
| Calendar.CivilFromDaysOfDate | history.go:168 | converting a valid date to its day number and back gives the date |
| Calendar.PadInt | history.go:168 | Go's appendInt as Format uses it for a layout field: a minus sign for a negative value, then the decimal digits of its magnitude left-padded with '0' to the field width (four for the year, two for month, day, hours, minutes and seconds), never truncated |
| Calendar.FormatDate | history.go:168 | time.Unix(ts, 0).Format("2006-01-02") in UTC: the year padded to four digits, the month and day to two |
| Calendar.FormatDateTime | history.go:170 | time.Unix(ts, 0).Format("2006-01-02 15:04:05") in UTC: the date, a space, then hours, minutes and seconds of the day, each two digits |
| Calendar.ParseDate | history.go:102 | time.Parse("2006-01-02", s) then Unix(): four digits, "-", two digits, "-", two digits naming a real date; the result is the Unix seconds of its midnight |
| Calendar.FormatDateOrder | history.go:168 | for four-digit years, rendered dates compare as their days, and are equal exactly when their days are |
| Calendar.FormatDateTimeOrder | history.go:170 | for four-digit years, rendered date-times compare as their seconds, and are equal exactly when the seconds are |
| Calendar.ParseFormatDate | option.go:194 | for a time stamp in the years 0000 to 9999, parsing its rendered date gives its midnight |
| Calendar.FormatParseDate | history.go:102-107 | a text that parses as a date is the rendering of the parsed midnight, which lies in a four-digit year |
| Calendar.DecimalIsNotDate | history.go:101-108 | decimal seconds never parse as a date, which is why a second SetDefault writes "default" |

## Left out

- `client.go` is not part of this model: the HTTP transport, the cookie jar, the crumb handshake and the `sync.Once` singleton. A request is a parameter (`Reply<T>`). The parameter set a method returns is the one it builds, before `client.Get` adds the `crumb` parameter.
- `information.go` is not part of this model. It is one GET and a JSON decode.
- `USER_AGENTS` is not part of this model. The User-Agent list is a parameter, and `rand.Intn` is the index `pick` into it. HistoryChart.DefaultedTwice and HistoryChart.DefaultedSettles take the list to hold no empty string; with an empty User-Agent chosen, a later SetDefault would pick again.
- `time.Now` is the parameter `now`.
- JSON decoding and struct tags are left out. A body is unreadable, malformed, or decoded. Only the fields that the transforms read are modelled.
- Options.GetOptionChain: Go returns whatever was partly decoded before a JSON error. The model returns the zero response, because partial decoding is not modelled.
- `url.Values.Encode` (percent-encoding), `fmt.Sprintf` of the endpoint, and the base URL are left out. A request is its parameter map.
- Search.BuildSearchURL: the successive `Set` calls are modelled as one map comprehension. Every key is set once, so the order of the calls does not change the map, and one comprehension gives the same map.
- The search request as it goes on the wire is left out. `GetSearchResultsWithOptions` passes `client.Get` a URL that already ends in `?` and the encoded parameters, together with an empty `url.Values`. `client.get` then appends a second `?` and the crumb parameter, if there is one. After `Encode` sorts the keys, `recommendCount` comes last, so its value reaches the server as `5?crumb=…` (or `5?`), and the crumb never arrives as a parameter of its own. Search.GetSearchResultsWithOptions returns the parameter set that `buildSearchURL` encodes.
- Search parameter keys are the enumeration `SearchKey`, and `Name` gives their wire names. History and option parameters are keyed by their wire names.
- Prices and volatilities (`float64`) are `real`. They are only copied, never computed.
- `time.Unix(...).Format` uses the process's local zone. The model renders in UTC.
- HistoryChart.KeyOrder, Calendar.FormatDateOrder, Calendar.FormatDateTimeOrder, Calendar.ParseFormatDate, Options.DateOfFormat, Options.RendersPresents, Options.FlattenedContracts and Options.ExpirationDatesOrder hold for time stamps in years 0000 to 9999 only. Outside that range Go's rendering is not fixed-width, so string order is not chronological, and time.Parse cannot read the rendering back, as ParseDate cannot.
- Calendar.FormatDate and Calendar.FormatDateTime use exact integer arithmetic for every time stamp. Go's `time.Unix` adds a fixed offset in 64-bit arithmetic, which wraps for seconds near the int64 limits. The core only renders time stamps from the API, far from that range.
- Tickers.LatestBarIsLatest: relating the greatest key to the latest time stamp also needs four-digit years. For other years, Tickers.Ticker.Quote still returns the bar under the greatest key.
- `log.Fatalf` in GetHistory ends the program. The model returns the status `Exited` with the message. `slog`/`log.Printf` logging is left out.
- `sort.Strings` sorts in place. Text.SortStrings is an insertion sort on a sequence, returning a new sequence.
- Go iterates a map in random order. Quote takes the keys in an arbitrary order, by nondeterministic choice.
- Go panics on an index out of range. Here those panics are preconditions:
  - History.TransformData and Ticker.History need a decoded chart with a first result (HistoryChart.Complete, Tickers.HistoryReady). When that result has time stamps, it also needs a first quote whose five arrays are at least as long as the time stamps. A first result without time stamps needs no quote, and it re-keys to the empty map.
  - Quote needs the same, and also at least one time stamp (Tickers.QuoteReady), because it takes the last of the sorted keys.
  - The option flattening needs a non-empty result and a non-empty expiry list. The expiration dates need a non-empty result.
- The `Option` and `Search` structs hold only the shared client. Their methods are module-level members here, and a Ticker's `option` field is left out.
- `newSearch` and `NewOption` only fetch the client, so they are left out.
