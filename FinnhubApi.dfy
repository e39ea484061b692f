/** The market-data client of src/utils/finnhubAPI.ts: the fixed mock quote
    table, the endpoint strings, the request URL and the outcome of one
    request. The HTTP exchange itself is an input (`Response`). */
module FinnhubApi {
  import opened Wrappers

  /** `StockQuote`: current price, change, percent change, high, low, open
      and previous close, as exact reals. */
  datatype Quote = Quote(c: real, d: real, dp: real, h: real, l: real, o: real, pc: real)

  const ApiKey: string := "demo"
  const BaseUrl: string := "https://finnhub.io/api/v1"

  /** The quote `getMockQuote` returns for a symbol outside its table. */
  const DefaultQuote: Quote := Quote(100.0, 0.0, 0.0, 105.0, 95.0, 102.0, 100.0)

  const MockTable: map<string, Quote> := map[
    "AAPL"  := Quote(192.40, -1.34, -0.69, 194.12, 191.75, 193.80, 193.74),
    "GOOGL" := Quote(2847.60, 23.45, 0.83, 2865.20, 2834.10, 2840.15, 2824.15),
    "TSLA"  := Quote(248.42, 12.89, 5.47, 252.30, 243.67, 245.20, 235.53),
    "MSFT"  := Quote(378.85, -2.45, -0.64, 382.40, 376.90, 380.25, 381.30),
    "NVDA"  := Quote(875.30, 45.67, 5.50, 890.12, 850.45, 860.20, 829.63)
  ]

  /** `getMockQuote`: total and deterministic. A listed symbol gets its
      row, any other the default quote; every quote it returns lies between
      its low and high, and its price is the previous close plus the
      change. */
  function MockQuote(symbol: string): (q: Quote)
    ensures symbol in MockTable ==> q == MockTable[symbol]
    ensures symbol !in MockTable ==> q == DefaultQuote
    ensures q.l <= q.c <= q.h
    ensures q.c == q.pc + q.d
  {
    if symbol in MockTable then MockTable[symbol] else DefaultQuote
  }

  lemma MockQuoteApple()
    ensures MockQuote("AAPL").c == 192.40
    ensures MockQuote("AAPL").dp == -0.69
  {
  }

  const QuotePath: string := "/quote?symbol="
  const ProfilePath: string := "/stock/profile2?symbol="
  const SentimentPath: string := "/news-sentiment?symbol="
  const RecommendationPath: string := "/stock/recommendation?symbol="
  const TokenParam: string := "&token="

  /** The endpoint of a symbol query: `path` followed by the symbol. */
  function Endpoint(path: string, symbol: string): (e: string)
    ensures |e| == |path| + |symbol|
    ensures e[..|path|] == path && e[|path|..] == symbol
  {
    path + symbol
  }

  /** `getCompanyNews`' endpoint, with both dates given. */
  function CompanyNewsEndpoint(symbol: string, from: string, to: string): (e: string)
    ensures |e| >= 21 && e[..21] == "/company-news?symbol="
  {
    "/company-news?symbol=" + symbol + "&from=" + from + "&to=" + to
  }

  /** The query a symbol endpoint was built from, if it has that path. */
  function SymbolOf(path: string, endpoint: string): (r: Option<string>)
    ensures r.Some? ==> Endpoint(path, r.value) == endpoint
  {
    if |path| <= |endpoint| && endpoint[..|path|] == path then
      assert endpoint == path + endpoint[|path|..];
      Some(endpoint[|path|..])
    else None
  }

  lemma SymbolRoundTrip(path: string, symbol: string)
    ensures SymbolOf(path, Endpoint(path, symbol)) == Some(symbol)
  {
  }

  /** `${baseUrl}${endpoint}&token=${apiKey}`. */
  function RequestUrl(endpoint: string): (url: string)
    ensures |url| == |BaseUrl| + |endpoint| + |TokenParam| + |ApiKey|
    ensures url[..|BaseUrl|] == BaseUrl
    ensures url[|BaseUrl|..|BaseUrl| + |endpoint|] == endpoint
    ensures url[|BaseUrl| + |endpoint|..] == TokenParam + ApiKey
  {
    BaseUrl + endpoint + TokenParam + ApiKey
  }

  /** The endpoint a request URL was built from, if it is one. */
  function EndpointOf(url: string): (r: Option<string>)
    ensures r.Some? ==> RequestUrl(r.value) == url
  {
    var suffix := TokenParam + ApiKey;
    if |BaseUrl| + |suffix| <= |url| && url[..|BaseUrl|] == BaseUrl && url[|url| - |suffix|..] == suffix then
      var e := url[|BaseUrl|..|url| - |suffix|];
      assert url == BaseUrl + e + suffix;
      Some(e)
    else None
  }

  lemma UrlRoundTrip(endpoint: string)
    ensures EndpointOf(RequestUrl(endpoint)) == Some(endpoint)
  {
    var url := RequestUrl(endpoint);
    var suffix := TokenParam + ApiKey;
    assert url[|url| - |suffix|..] == suffix;
    assert url[|BaseUrl|..|url| - |suffix|] == endpoint;
  }

  /** What `fetch` gave back: no response at all, or a status with a body
      that may fail to parse as JSON (`None`). */
  datatype Response<T> = NetworkFailure | Response(ok: bool, status: int, body: Option<T>)

  /** The error `fetchData` rethrows. */
  datatype FetchError = NetworkError | ApiError(status: int) | BadJson

  datatype Result<T> = Ok(value: T) | Err(error: FetchError)

  /** `fetchData`: the parsed body of an OK response; every failure is
      rethrown and no fallback value is produced. */
  function FetchData<T>(response: Response<T>): (r: Result<T>)
    ensures r.Ok? <==> response.Response? && response.ok && response.body.Some?
    ensures r.Ok? ==> r.value == response.body.value
    ensures response.Response? && !response.ok ==> r == Err(ApiError(response.status))
    ensures response.NetworkFailure? ==> r == Err(NetworkError)
  {
    match response
    case NetworkFailure => Err(NetworkError)
    case Response(ok, status, body) =>
      if !ok then Err(ApiError(status))
      else if body.None? then Err(BadJson)
      else Ok(body.value)
  }

  /** One request: the URL it asks for and what it yields. */
  datatype Call<T> = Call(url: string, result: Result<T>)

  /** `getQuote`: asks for the quote endpoint; a failure is an error, never
      the mock quote. */
  function GetQuote(symbol: string, response: Response<Quote>): (call: Call<Quote>)
    ensures EndpointOf(call.url) == Some(Endpoint(QuotePath, symbol))
    ensures call.result.Ok? <==> response.Response? && response.ok && response.body.Some?
    ensures call.result.Ok? ==> call.result.value == response.body.value
  {
    UrlRoundTrip(Endpoint(QuotePath, symbol));
    Call(RequestUrl(Endpoint(QuotePath, symbol)), FetchData(response))
  }

  /** `getCompanyProfile`. */
  function GetCompanyProfile<T>(symbol: string, response: Response<T>): (call: Call<T>)
    ensures EndpointOf(call.url) == Some(Endpoint(ProfilePath, symbol))
    ensures call.result.Ok? <==> response.Response? && response.ok && response.body.Some?
  {
    UrlRoundTrip(Endpoint(ProfilePath, symbol));
    Call(RequestUrl(Endpoint(ProfilePath, symbol)), FetchData(response))
  }

  /** `getNewsSentiment`. */
  function GetNewsSentiment<T>(symbol: string, response: Response<T>): (call: Call<T>)
    ensures EndpointOf(call.url) == Some(Endpoint(SentimentPath, symbol))
    ensures call.result.Ok? <==> response.Response? && response.ok && response.body.Some?
  {
    UrlRoundTrip(Endpoint(SentimentPath, symbol));
    Call(RequestUrl(Endpoint(SentimentPath, symbol)), FetchData(response))
  }

  /** `getRecommendations`. */
  function GetRecommendations<T>(symbol: string, response: Response<T>): (call: Call<T>)
    ensures EndpointOf(call.url) == Some(Endpoint(RecommendationPath, symbol))
    ensures call.result.Ok? <==> response.Response? && response.ok && response.body.Some?
  {
    UrlRoundTrip(Endpoint(RecommendationPath, symbol));
    Call(RequestUrl(Endpoint(RecommendationPath, symbol)), FetchData(response))
  }

  /** `getCompanyNews` with both dates supplied by the caller. */
  function GetCompanyNews<T>(symbol: string, from: string, to: string, response: Response<T>): (call: Call<T>)
    ensures EndpointOf(call.url) == Some(CompanyNewsEndpoint(symbol, from, to))
    ensures call.result.Ok? <==> response.Response? && response.ok && response.body.Some?
  {
    UrlRoundTrip(CompanyNewsEndpoint(symbol, from, to));
    Call(RequestUrl(CompanyNewsEndpoint(symbol, from, to)), FetchData(response))
  }
}
