/** backend/services/search.js: `searchWeb`, a web search through the Brave
    Search API. The API key, the request and its outcome are parameters. */
module Search {
  import opened Common

  /** One entry of the API's `web.results`. */
  datatype RawResult = RawResult(title: Value, url: Value, description: Value, age: Value)

  /** What a request yields: the results list, `None` when `web` or
      `web.results` is missing. */
  datatype ApiResponse = ApiResponse(results: Option<seq<RawResult>>)

  /** How a request fails: the API answered with a status (and perhaps a
      message in its body), the request got no answer, or something else
      was thrown. */
  datatype ApiFailure =
    | ErrorResponse(status: int, dataMessage: Option<string>, statusText: string)
    | NoResponse
    | Thrown(message: string)

  datatype FormattedResult = FormattedResult(position: nat, title: Value, url: Value, description: Value, age: Value)

  datatype SearchResponse = SearchResponse(query: string, totalResults: nat, results: seq<FormattedResult>)

  const MissingKey := "Brave Search API key is not set in environment variables."
  const InvalidQuery := "Invalid or empty search query."
  const NoDescription := "No description available"
  const InvalidKey := "Invalid Brave API key. Please check your BRAVE_API_KEY in .env file"
  const RateLimited := "Brave API rate limit exceeded. Try again later"
  const Unreachable := "No response from Brave API. Check your internet connection"

  /** `Math.min(Math.max(count, 1), 20)`. */
  function ResultCount(count: int): (n: int)
    ensures 1 <= n <= 20
    ensures 1 <= count <= 20 ==> n == count
    ensures count < 1 ==> n == 1
    ensures count > 20 ==> n == 20
  {
    Min(Max(count, 1), 20)
  }

  /** Result `i` of the API becomes entry `i + 1`, with the stock description
      when it has none and `null` when it has no age. */
  function FormatResult(raw: RawResult, index: nat): (f: FormattedResult)
    ensures f.position == index + 1 && f.title == raw.title && f.url == raw.url
    ensures Truthy(raw.description) ==> f.description == raw.description
    ensures !Truthy(raw.description) ==> f.description == Str(NoDescription)
    ensures Truthy(raw.age) ==> f.age == raw.age
    ensures !Truthy(raw.age) ==> f.age == Null
  {
    FormattedResult(index + 1, raw.title, raw.url, Or(raw.description, Str(NoDescription)), Or(raw.age, Null))
  }

  function Formatted(results: seq<RawResult>): (fs: seq<FormattedResult>)
    ensures |fs| == |results|
    ensures forall i :: 0 <= i < |fs| ==> fs[i] == FormatResult(results[i], i)
  {
    seq(|results|, i requires 0 <= i < |results| => FormatResult(results[i], i))
  }

  /** The message the `catch` block throws for a failed request. */
  function ErrorMessage(f: ApiFailure): string {
    match f
    case ErrorResponse(status, dataMessage, statusText) =>
      if status == 401 then InvalidKey
      else if status == 429 then RateLimited
      else
        var message := if dataMessage.Some? && dataMessage.value != "" then dataMessage.value else statusText;
        "Brave API error (" + IntToString(status) + "): " + message
    case NoResponse => Unreachable
    case Thrown(message) => message
  }

  /** The key is read from the environment; unset and empty both count as missing. */
  predicate HasKey(apiKey: Option<string>) {
    apiKey.Some? && apiKey.value != ""
  }

  /** A usable query is a string that is not all whitespace. */
  predicate ValidQuery(query: Value) {
    query.Str? && query.s != "" && |Trim(query.s)| != 0
  }

  /** `searchWeb(query, count)`: `request` performs the API call for the
      query and the clamped count. */
  function SearchWeb(apiKey: Option<string>, query: Value, count: int,
                     request: (string, int) -> Result<ApiResponse, ApiFailure>)
    : (r: Result<SearchResponse, string>)
    ensures !HasKey(apiKey) ==> r == Err(MissingKey)
    ensures HasKey(apiKey) && !ValidQuery(query) ==> r == Err(InvalidQuery)
    ensures r.Ok? ==> r.value.query == query.s && r.value.totalResults == |r.value.results|
  {
    if !HasKey(apiKey) then Err(MissingKey)
    else if !ValidQuery(query) then Err(InvalidQuery)
    else
      match request(query.s, ResultCount(count))
      case Err(f) => Err(ErrorMessage(f))
      case Ok(response) =>
        var results := if response.results.Some? then response.results.value else [];
        var formatted := Formatted(results);
        Ok(SearchResponse(query.s, |formatted|, formatted))
  }

  /** The request asks for the clamped count, and a successful search returns
      every result the API sent, numbered from 1 in order; a response
      without results is an empty search, not an error. */
  lemma SearchReturnsAllResults(apiKey: Option<string>, query: string, count: int,
                                request: (string, int) -> Result<ApiResponse, ApiFailure>)
    requires HasKey(apiKey) && ValidQuery(Str(query))
    requires request(query, ResultCount(count)).Ok?
    ensures var r := SearchWeb(apiKey, Str(query), count, request);
      var sent := request(query, ResultCount(count)).value.results;
      && r.Ok?
      && (sent.None? ==> r.value.totalResults == 0)
      && (sent.Some? ==>
            && r.value.totalResults == |sent.value|
            && forall i :: 0 <= i < |sent.value| ==>
                 r.value.results[i].position == i + 1 && r.value.results[i].url == sent.value[i].url)
  {
  }

  /** A failed request fails the search with the mapped message. */
  lemma SearchFailure(apiKey: Option<string>, query: Value, count: int,
                      request: (string, int) -> Result<ApiResponse, ApiFailure>)
    requires HasKey(apiKey) && ValidQuery(query)
    requires request(query.s, ResultCount(count)).Err?
    ensures SearchWeb(apiKey, query, count, request) == Err(ErrorMessage(request(query.s, ResultCount(count)).error))
  {
  }

  /** 401 and 429 have their own messages whatever the body says; no answer
      is a connection error; anything else passes through. */
  lemma ErrorMessages(message: Option<string>, statusText: string, other: string)
    ensures ErrorMessage(ErrorResponse(401, message, statusText)) == InvalidKey
    ensures ErrorMessage(ErrorResponse(429, message, statusText)) == RateLimited
    ensures ErrorMessage(NoResponse) == Unreachable
    ensures ErrorMessage(Thrown(other)) == other
  {
  }

  /** Any other status reports itself and the body's non-empty message. */
  lemma StatusErrorMessage(status: int, message: string, statusText: string)
    requires status != 401 && status != 429 && message != ""
    ensures ErrorMessage(ErrorResponse(status, Some(message), statusText))
      == "Brave API error (" + IntToString(status) + "): " + message
  {
  }

  /** The status is written in decimal: a 500 with message `boom`. */
  lemma ServerErrorExample(statusText: string)
    ensures ErrorMessage(ErrorResponse(500, Some("boom"), statusText)) == "Brave API error (500): boom"
  {
    StatusNumerals();
  }

  /** An empty message in the body counts as none: the status text is
      reported instead, after the status. */
  lemma EmptyMessageFallsBackToStatusText(status: int, statusText: string)
    requires status != 401 && status != 429
    ensures ErrorMessage(ErrorResponse(status, Some(""), statusText)) == ErrorMessage(ErrorResponse(status, None, statusText))
    ensures ErrorMessage(ErrorResponse(status, None, statusText))
      == "Brave API error (" + IntToString(status) + "): " + statusText
  {
  }

  lemma StatusNumerals()
    ensures IntToString(500) == "500"
  {
    assert NatToString(50) == "50";
    assert NatToString(500) == "500";
  }

  lemma WhitespaceQueryRejected(apiKey: Option<string>, count: int,
                                request: (string, int) -> Result<ApiResponse, ApiFailure>)
    requires HasKey(apiKey)
    ensures SearchWeb(apiKey, Str(" \t\n"), count, request) == Err(InvalidQuery)
    ensures SearchWeb(apiKey, Str(""), count, request) == Err(InvalidQuery)
    ensures SearchWeb(apiKey, Num(7), count, request) == Err(InvalidQuery)
  {
    TrimAllSpace(" \t\n");
  }
}
