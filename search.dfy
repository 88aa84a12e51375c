/** search.go: symbol search. The parameters of a search are normalised
    (query trimmed and required, quote count clamped), turned into the query
    parameters of a GET against /v1/finance/search, and the quotes of the
    decoded response are reshaped into search results. The `Search` struct
    only holds the shared HTTP client, so its methods are module-level
    methods here and the HTTP reply is a parameter. */
module Search {
  import opened Base
  import opened Text

  /** SearchParams */
  datatype SearchParams = SearchParams(
    query: string,
    quotesCount: Int64,
    newsCount: Int64,
    listsCount: Int64,
    enableFuzzyQuery: bool,
    enableEnhancedTrivialQuery: bool,
    enableCccBoost: bool,
    enablePrivateCompany: bool,
    enableResearchReports: bool,
    enableCulturalAssets: bool,
    enableLogoUrl: bool,
    enableNavLinks: bool,
    enableCb: bool,
    enableLists: bool,
    quotesQueryId: string,
    multiQuoteQueryId: string,
    newsQueryId: string,
    recommendCount: Int64,
    lang: string)

  /** One element of YahooSearchResponse.Quotes. */
  datatype RawQuote = RawQuote(
    symbol: string,
    shortName: string,
    longName: string,
    quoteType: string,
    exchange: string,
    exchDisp: string,
    typeDisp: string)

  /** YahooSearchResponse, restricted to the quotes the core reads. */
  datatype SearchResponse = SearchResponse(quotes: seq<RawQuote>)

  /** SearchResult; `resultType` is the Go field `Type`. */
  datatype SearchResult = SearchResult(
    symbol: string,
    name: string,
    shortName: string,
    longName: string,
    resultType: string,
    exchange: string,
    exchDisp: string)

  datatype SearchData = SearchData(results: seq<SearchResult>)

  const EmptyQueryError: string := "query cannot be empty"

  /** The zero YahooSearchResponse returned beside every error. */
  const EmptyResponse: SearchResponse := SearchResponse([])

  /** The query parameters buildSearchURL knows, in the order it sets them;
      `Name` is each one's name on the wire. */
  datatype SearchKey =
    | Q | Lang | QuotesCount | NewsCount | ListsCount | EnableFuzzyQuery
    | QuotesQueryId | MultiQuoteQueryId | EnableCb | EnableNavLinks
    | EnableEnhancedTrivialQuery | EnableResearchReports | EnableCulturalAssets
    | EnableLogoUrl | EnableLists | RecommendCount | EnableCccBoost
    | EnablePrivateCompany | NewsQueryId

  function Name(k: SearchKey): string {
    match k
    case Q => "q"
    case Lang => "lang"
    case QuotesCount => "quotesCount"
    case NewsCount => "newsCount"
    case ListsCount => "listsCount"
    case EnableFuzzyQuery => "enableFuzzyQuery"
    case QuotesQueryId => "quotesQueryId"
    case MultiQuoteQueryId => "multiQuoteQueryId"
    case EnableCb => "enableCb"
    case EnableNavLinks => "enableNavLinks"
    case EnableEnhancedTrivialQuery => "enableEnhancedTrivialQuery"
    case EnableResearchReports => "enableResearchReports"
    case EnableCulturalAssets => "enableCulturalAssets"
    case EnableLogoUrl => "enableLogoUrl"
    case EnableLists => "enableLists"
    case RecommendCount => "recommendCount"
    case EnableCccBoost => "enableCccBoost"
    case EnablePrivateCompany => "enablePrivateCompany"
    case NewsQueryId => "newsQueryId"
  }

  /** Distinct parameters have distinct wire names, so a parameter set keyed
      by SearchKey is one keyed by name. */
  lemma NameInjective(a: SearchKey, b: SearchKey)
    ensures Name(a) == Name(b) <==> a == b
  {
  }

  /** DefaultSearchParams: the query and count as given, the rest fixed for
      symbol lookup. */
  function DefaultSearchParams(query: string, quotesCount: Int64): (p: SearchParams)
    ensures p.query == query && p.quotesCount == quotesCount
    ensures p.newsCount == 0 && p.listsCount == 0 && p.recommendCount == 5
    ensures !p.enableFuzzyQuery && p.enableEnhancedTrivialQuery && p.lang == "en-US"
    ensures p.enableCccBoost && p.enablePrivateCompany
    ensures p.enableResearchReports && p.enableCulturalAssets && p.enableLogoUrl && p.enableNavLinks
    ensures !p.enableCb && !p.enableLists
    ensures p.quotesQueryId == "tss_match_phrase_query"
    ensures p.multiQuoteQueryId == "multi_quote_single_token_query"
    ensures p.newsQueryId == "news_cie_vespa"
  {
    SearchParams(
      query := query,
      quotesCount := quotesCount,
      newsCount := 0,
      listsCount := 0,
      enableFuzzyQuery := false,
      enableEnhancedTrivialQuery := true,
      enableCccBoost := true,
      enablePrivateCompany := true,
      enableResearchReports := true,
      enableCulturalAssets := true,
      enableLogoUrl := true,
      enableNavLinks := true,
      enableCb := false,
      enableLists := false,
      quotesQueryId := "tss_match_phrase_query",
      multiQuoteQueryId := "multi_quote_single_token_query",
      newsQueryId := "news_cie_vespa",
      recommendCount := 5,
      lang := "en-US")
  }

  // ---------------------------------------------------------------------------
  // The query parameters of a search request
  // ---------------------------------------------------------------------------

  predicate IsIntKey(k: SearchKey) {
    k.QuotesCount? || k.NewsCount? || k.ListsCount? || k.RecommendCount?
  }

  predicate IsBoolKey(k: SearchKey) {
    k.EnableFuzzyQuery? || k.EnableCb? || k.EnableNavLinks? || k.EnableEnhancedTrivialQuery?
    || k.EnableResearchReports? || k.EnableCulturalAssets? || k.EnableLogoUrl?
    || k.EnableLists? || k.EnableCccBoost? || k.EnablePrivateCompany?
  }

  /** A parameter set a reader can turn back into search parameters: every
      parameter but newsQueryId present, integers and booleans well formed. */
  predicate WellFormedQuery(values: map<SearchKey, string>) {
    && (forall k: SearchKey :: k != NewsQueryId ==> k in values)
    && (forall k | k in values && IsIntKey(k) :: ParseInt(values[k]).Some?)
    && (forall k | k in values && IsBoolKey(k) :: ParseBool(values[k]).Some?)
  }

  function IntAt(values: map<SearchKey, string>, k: SearchKey): Int64
    requires WellFormedQuery(values) && IsIntKey(k)
  {
    ParseInt(values[k]).value
  }

  function BoolAt(values: map<SearchKey, string>, k: SearchKey): bool
    requires WellFormedQuery(values) && IsBoolKey(k)
  {
    ParseBool(values[k]).value
  }

  /** How a reader of the request recovers the search parameters from its
      query parameters; a missing newsQueryId reads as "". */
  function DecodeSearchQuery(values: map<SearchKey, string>): Option<SearchParams> {
    if !WellFormedQuery(values) then None
    else
      Some(SearchParams(
        query := values[Q],
        quotesCount := IntAt(values, QuotesCount),
        newsCount := IntAt(values, NewsCount),
        listsCount := IntAt(values, ListsCount),
        enableFuzzyQuery := BoolAt(values, EnableFuzzyQuery),
        enableEnhancedTrivialQuery := BoolAt(values, EnableEnhancedTrivialQuery),
        enableCccBoost := BoolAt(values, EnableCccBoost),
        enablePrivateCompany := BoolAt(values, EnablePrivateCompany),
        enableResearchReports := BoolAt(values, EnableResearchReports),
        enableCulturalAssets := BoolAt(values, EnableCulturalAssets),
        enableLogoUrl := BoolAt(values, EnableLogoUrl),
        enableNavLinks := BoolAt(values, EnableNavLinks),
        enableCb := BoolAt(values, EnableCb),
        enableLists := BoolAt(values, EnableLists),
        quotesQueryId := values[QuotesQueryId],
        multiQuoteQueryId := values[MultiQuoteQueryId],
        newsQueryId := if NewsQueryId in values then values[NewsQueryId] else "",
        recommendCount := IntAt(values, RecommendCount),
        lang := values[Lang]))
  }

  /** The field an integer parameter is set from. */
  function IntField(params: SearchParams, k: SearchKey): Int64
    requires IsIntKey(k)
  {
    match k
    case QuotesCount => params.quotesCount
    case NewsCount => params.newsCount
    case ListsCount => params.listsCount
    case _ => params.recommendCount
  }

  /** The field a boolean parameter is set from. */
  function BoolField(params: SearchParams, k: SearchKey): bool
    requires IsBoolKey(k)
  {
    match k
    case EnableFuzzyQuery => params.enableFuzzyQuery
    case EnableCb => params.enableCb
    case EnableNavLinks => params.enableNavLinks
    case EnableEnhancedTrivialQuery => params.enableEnhancedTrivialQuery
    case EnableResearchReports => params.enableResearchReports
    case EnableCulturalAssets => params.enableCulturalAssets
    case EnableLogoUrl => params.enableLogoUrl
    case EnableLists => params.enableLists
    case EnableCccBoost => params.enableCccBoost
    case _ => params.enablePrivateCompany
  }

  /** The text buildSearchURL sets for each parameter: strings as they are,
      integers in decimal, booleans as "true"/"false". */
  function Encoded(params: SearchParams, k: SearchKey): string {
    match k
    case Q => params.query
    case Lang => params.lang
    case QuotesCount => Itoa(params.quotesCount)
    case NewsCount => Itoa(params.newsCount)
    case ListsCount => Itoa(params.listsCount)
    case EnableFuzzyQuery => FormatBool(params.enableFuzzyQuery)
    case QuotesQueryId => params.quotesQueryId
    case MultiQuoteQueryId => params.multiQuoteQueryId
    case EnableCb => FormatBool(params.enableCb)
    case EnableNavLinks => FormatBool(params.enableNavLinks)
    case EnableEnhancedTrivialQuery => FormatBool(params.enableEnhancedTrivialQuery)
    case EnableResearchReports => FormatBool(params.enableResearchReports)
    case EnableCulturalAssets => FormatBool(params.enableCulturalAssets)
    case EnableLogoUrl => FormatBool(params.enableLogoUrl)
    case EnableLists => FormatBool(params.enableLists)
    case RecommendCount => Itoa(params.recommendCount)
    case EnableCccBoost => FormatBool(params.enableCccBoost)
    case EnablePrivateCompany => FormatBool(params.enablePrivateCompany)
    case NewsQueryId => params.newsQueryId
  }

  /** buildSearchURL, up to the percent-encoding of the parameter set: every
      known parameter, newsQueryId only when it is non-empty, each set to its
      encoded text. */
  function BuildSearchURL(params: SearchParams): (values: map<SearchKey, string>)
    ensures forall k :: k in values <==> k != NewsQueryId || params.newsQueryId != ""
    ensures forall k | k in values :: values[k] == Encoded(params, k)
  {
    map k: SearchKey | k != NewsQueryId || params.newsQueryId != "" :: Encoded(params, k)
  }

  /** Nothing of the search parameters is lost on the way to the request: a
      reader recovers them all from the query parameters. */
  lemma {:induction false} DecodeBuildSearchURL(params: SearchParams)
    ensures DecodeSearchQuery(BuildSearchURL(params)) == Some(params)
  {
    BuildSearchURLWellFormed(params);
    TextFieldsAt(params);
    IntFieldsAt(params);
    BoolFieldsAt(params);
    MoreBoolFieldsAt(params);
  }

  lemma BuildSearchURLWellFormed(params: SearchParams)
    ensures WellFormedQuery(BuildSearchURL(params))
  {
    var values := BuildSearchURL(params);
    forall k | k in values && IsIntKey(k)
      ensures ParseInt(values[k]).Some?
    {
      EncodedInt(params, k);
    }
    forall k | k in values && IsBoolKey(k)
      ensures ParseBool(values[k]).Some?
    {
      EncodedBool(params, k);
    }
  }

  /** The text parameters carry their fields verbatim. */
  lemma TextFieldsAt(params: SearchParams)
    ensures var values := BuildSearchURL(params);
      && values[Q] == params.query && values[Lang] == params.lang
      && values[QuotesQueryId] == params.quotesQueryId
      && values[MultiQuoteQueryId] == params.multiQuoteQueryId
      && (if NewsQueryId in values then values[NewsQueryId] else "") == params.newsQueryId
  {
  }

  /** Each integer parameter reads back as its field. */
  lemma IntFieldsAt(params: SearchParams)
    requires WellFormedQuery(BuildSearchURL(params))
    ensures var values := BuildSearchURL(params);
      && IntAt(values, QuotesCount) == params.quotesCount && IntAt(values, NewsCount) == params.newsCount
      && IntAt(values, ListsCount) == params.listsCount && IntAt(values, RecommendCount) == params.recommendCount
  {
    EncodedInt(params, QuotesCount);
    EncodedInt(params, NewsCount);
    EncodedInt(params, ListsCount);
    EncodedInt(params, RecommendCount);
  }

  /** A boolean parameter reads back as the field it was set from. */
  lemma BoolFieldAt(params: SearchParams, k: SearchKey)
    requires WellFormedQuery(BuildSearchURL(params)) && IsBoolKey(k)
    ensures BoolAt(BuildSearchURL(params), k) == BoolField(params, k)
  {
    EncodedBool(params, k);
  }

  /** Each boolean parameter reads back as its field (first half). */
  lemma BoolFieldsAt(params: SearchParams)
    requires WellFormedQuery(BuildSearchURL(params))
    ensures var values := BuildSearchURL(params);
      && BoolAt(values, EnableFuzzyQuery) == params.enableFuzzyQuery && BoolAt(values, EnableCb) == params.enableCb
      && BoolAt(values, EnableNavLinks) == params.enableNavLinks
      && BoolAt(values, EnableEnhancedTrivialQuery) == params.enableEnhancedTrivialQuery
      && BoolAt(values, EnableResearchReports) == params.enableResearchReports
  {
    BoolFieldAt(params, EnableFuzzyQuery);
    BoolFieldAt(params, EnableCb);
    BoolFieldAt(params, EnableNavLinks);
    BoolFieldAt(params, EnableEnhancedTrivialQuery);
    BoolFieldAt(params, EnableResearchReports);
  }

  /** Each boolean parameter reads back as its field (second half). */
  lemma MoreBoolFieldsAt(params: SearchParams)
    requires WellFormedQuery(BuildSearchURL(params))
    ensures var values := BuildSearchURL(params);
      && BoolAt(values, EnableCulturalAssets) == params.enableCulturalAssets
      && BoolAt(values, EnableLogoUrl) == params.enableLogoUrl && BoolAt(values, EnableLists) == params.enableLists
      && BoolAt(values, EnableCccBoost) == params.enableCccBoost
      && BoolAt(values, EnablePrivateCompany) == params.enablePrivateCompany
  {
    BoolFieldAt(params, EnableCulturalAssets);
    BoolFieldAt(params, EnableLogoUrl);
    BoolFieldAt(params, EnableLists);
    BoolFieldAt(params, EnableCccBoost);
    BoolFieldAt(params, EnablePrivateCompany);
  }

  /** Each integer parameter reads back as the integer it was set from. */
  lemma EncodedInt(params: SearchParams, k: SearchKey)
    requires IsIntKey(k)
    ensures ParseInt(Encoded(params, k)) == Some(IntField(params, k))
  {
    ItoaRoundTrip(IntField(params, k));
  }

  /** Each boolean parameter reads back as the boolean it was set from. */
  lemma EncodedBool(params: SearchParams, k: SearchKey)
    requires IsBoolKey(k)
    ensures ParseBool(Encoded(params, k)) == Some(BoolField(params, k))
  {
    EncodedBoolText(params, k);
    BoolRoundTrip(BoolField(params, k));
  }

  lemma EncodedBoolText(params: SearchParams, k: SearchKey)
    requires IsBoolKey(k)
    ensures Encoded(params, k) == FormatBool(BoolField(params, k))
  {
    match k
    case EnableFuzzyQuery =>
    case EnableCb =>
    case EnableNavLinks =>
    case EnableEnhancedTrivialQuery =>
    case EnableResearchReports =>
    case EnableCulturalAssets =>
    case EnableLogoUrl =>
    case EnableLists =>
    case EnableCccBoost =>
    case EnablePrivateCompany =>
  }

  // ---------------------------------------------------------------------------
  // Normalisation and the request
  // ---------------------------------------------------------------------------

  /** The quote count actually requested: always within 1..20, the given
      count when it already is, 10 for a non-positive one and 20 for a larger
      one. */
  function ClampQuotesCount(n: Int64): (r: Int64)
    ensures 1 <= r <= 20
    ensures 1 <= n <= 20 ==> r == n
    ensures n <= 0 ==> r == 10
    ensures n > 20 ==> r == 20
  {
    if n <= 0 then 10 else if n > 20 then 20 else n
  }

  /** The parameters GetSearchResultsWithOptions sends for `params`. */
  function Normalized(params: SearchParams): SearchParams {
    params.(query := TrimSpace(params.query), quotesCount := ClampQuotesCount(params.quotesCount))
  }

  /** GetSearchResultsWithOptions. A query that is blank after trimming is
      refused before any request; otherwise the request carries the trimmed
      query and the clamped count, and the reply is checked for a transport
      error, a non-2xx status, an unreadable and an undecodable body, in that
      order. Every error comes with the zero response. */
  method GetSearchResultsWithOptions(params: SearchParams, reply: Reply<SearchResponse>)
    returns (request: Option<map<SearchKey, string>>, response: SearchResponse, err: Option<string>)
    ensures TrimSpace(params.query) == "" <==> request == None
    ensures request == None ==> response == EmptyResponse && err == Some(EmptyQueryError)
    ensures request.Some? ==> request.value == BuildSearchURL(Normalized(params))
    ensures request.Some? ==> match reply
      case NoResponse(e) => err == Some("failed to search symbols: " + e) && response == EmptyResponse
      case Response(status, body) =>
        if status < 200 || status >= 300 then
          err == Some("unexpected status code: " + Itoa(status)) && response == EmptyResponse
        else match body
          case Unreadable(e) => err == Some("failed to read response body: " + e) && response == EmptyResponse
          case Malformed(e) => err == Some("failed to parse JSON response: " + e) && response == EmptyResponse
          case Decoded(v) => err == None && response == v
  {
    var query := TrimSpace(params.query);
    if query == "" {
      return None, EmptyResponse, Some(EmptyQueryError);
    }
    var count := params.quotesCount;
    if count <= 0 {
      count := 10;
    }
    if count > 20 {
      count := 20;
    }
    assert count == ClampQuotesCount(params.quotesCount);
    var p := params.(query := query, quotesCount := count);
    assert p == Normalized(params);
    request := Some(BuildSearchURL(p));
    match reply {
      case NoResponse(e) =>
        response, err := EmptyResponse, Some("failed to search symbols: " + e);
      case Response(status, body) =>
        if status < 200 || status >= 300 {
          response, err := EmptyResponse, Some("unexpected status code: " + Itoa(status));
        } else {
          match body {
            case Unreadable(e) =>
              response, err := EmptyResponse, Some("failed to read response body: " + e);
            case Malformed(e) =>
              response, err := EmptyResponse, Some("failed to parse JSON response: " + e);
            case Decoded(v) =>
              response, err := v, None;
          }
        }
    }
  }

  /** GetSearchResults: the default parameters for the query and limit. */
  method GetSearchResults(query: string, limit: Int64, reply: Reply<SearchResponse>)
    returns (request: Option<map<SearchKey, string>>, response: SearchResponse, err: Option<string>)
    ensures TrimSpace(query) == "" <==> request == None
    ensures request == None ==> response == EmptyResponse && err == Some(EmptyQueryError)
    ensures request.Some? ==>
      request.value == BuildSearchURL(DefaultSearchParams(TrimSpace(query), ClampQuotesCount(limit)))
    ensures err == None <==>
      request.Some? && reply.Response? && 200 <= reply.status < 300 && reply.body.Decoded?
    ensures err == None ==> response == reply.body.value
  {
    request, response, err := GetSearchResultsWithOptions(DefaultSearchParams(query, limit), reply);
    NormalizedDefault(query, limit);
  }

  /** Normalising the default parameters only trims the query and clamps the
      count. */
  lemma NormalizedDefault(query: string, limit: Int64)
    ensures Normalized(DefaultSearchParams(query, limit))
         == DefaultSearchParams(TrimSpace(query), ClampQuotesCount(limit))
  {
  }

  // ---------------------------------------------------------------------------
  // Reshaping
  // ---------------------------------------------------------------------------

  /** The result for one quote: the quote's fields, with the short name as the
      display name when there is one and the long name otherwise. */
  function ToResult(q: RawQuote): (r: SearchResult)
    ensures r.symbol == q.symbol && r.shortName == q.shortName && r.longName == q.longName
    ensures r.resultType == q.quoteType && r.exchange == q.exchange && r.exchDisp == q.exchDisp
    ensures q.shortName != "" ==> r.name == q.shortName
    ensures q.shortName == "" ==> r.name == q.longName
    ensures r.name == "" <==> q.shortName == "" && q.longName == ""
  {
    var name := if q.shortName == "" then q.longName else q.shortName;
    SearchResult(
      symbol := q.symbol,
      name := name,
      shortName := q.shortName,
      longName := q.longName,
      resultType := q.quoteType,
      exchange := q.exchange,
      exchDisp := q.exchDisp)
  }

  /** Search.transformData: one result per quote, in the same order. */
  method TransformData(data: SearchResponse) returns (out: SearchData)
    ensures |out.results| == |data.quotes|
    ensures forall i :: 0 <= i < |data.quotes| ==> out.results[i] == ToResult(data.quotes[i])
  {
    var results: seq<SearchResult> := [];
    for i := 0 to |data.quotes|
      invariant |results| == i
      invariant forall k :: 0 <= k < i ==> results[k] == ToResult(data.quotes[k])
    {
      results := results + [ToResult(data.quotes[i])];
    }
    out := SearchData(results);
  }
}
