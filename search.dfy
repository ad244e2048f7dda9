/** Query execution (WebExternalSearchProvider.ExecuteSearch): resolving the
    query's URI text, the single page fetch and its status check. The fetch
    itself is a function from the resolved URI to the response. */
module Search {
  import opened Wrappers
  import opened Model
  import opened Platform
  import opened Strings
  import opened WebResults

  const HttpPrefix: string := "http://"
  const HttpsPrefix: string := "https://"

  /** How the query's URI text resolves. */
  datatype Resolution = NoQueryText | Resolved(uri: Uri) | Unresolvable(text: string)

  /** FirstOrDefault() of the query's Uri parameter values. */
  function FirstUriValue(query: Query): Option<string> {
    if query.uriValues == [] then None else Some(query.uriValues[0])
  }

  /** The retry applies to a text without an http:// or https:// prefix, and
      succeeds when the text with "http://" in front is well-formed. */
  predicate HttpRetrySucceeds(text: string, p: Platform) {
    !StartsWith(text, HttpPrefix) && !StartsWith(text, HttpsPrefix) && p.isWellFormedAbsoluteUri(HttpPrefix + text)
  }

  /** A null or empty text gives nothing to fetch; a well-formed absolute text
      is used as it is; a text without an http:// or https:// prefix is tried
      once more with "http://" in front; anything else is an invalid query. */
  function ResolveQueryUri(uriText: Option<string>, p: Platform): (r: Resolution)
    ensures r.NoQueryText? <==> IsNullOrEmpty(uriText)
    ensures r.Resolved? ==> p.isWellFormedAbsoluteUri(r.uri.text)
    ensures r.Resolved? ==>
      r.uri.text == uriText.value ||
      (r.uri.text == HttpPrefix + uriText.value && !p.isWellFormedAbsoluteUri(uriText.value))
    ensures r.Unresolvable? ==> r.text == uriText.value && !p.isWellFormedAbsoluteUri(uriText.value)
    ensures uriText.Some? && p.isWellFormedAbsoluteUri(uriText.value) && uriText.value != "" ==>
      r == Resolved(Uri(uriText.value))
    ensures uriText.Some? && uriText.value != "" && !p.isWellFormedAbsoluteUri(uriText.value) ==>
      (if HttpRetrySucceeds(uriText.value, p) then r == Resolved(Uri(HttpPrefix + uriText.value))
       else r == Unresolvable(uriText.value))
  {
    if IsNullOrEmpty(uriText) then NoQueryText
    else
      var text := uriText.value;
      if p.isWellFormedAbsoluteUri(text) then Resolved(Uri(text))
      else if !StartsWith(text, HttpPrefix) && !StartsWith(text, HttpsPrefix) then
        if p.isWellFormedAbsoluteUri(HttpPrefix + text) then Resolved(Uri(HttpPrefix + text))
        else Unresolvable(text)
      else Unresolvable(text)
  }

  /** Resolving is idempotent: the text of a resolved URI resolves to itself. */
  lemma ResolveIdempotent(uriText: Option<string>, p: Platform)
    requires ResolveQueryUri(uriText, p).Resolved?
    ensures ResolveQueryUri(Some(ResolveQueryUri(uriText, p).uri.text), p) == ResolveQueryUri(uriText, p)
  {
    var u := ResolveQueryUri(uriText, p).uri;
    assert u.text != "" by {
      if u.text != uriText.value { assert |u.text| == |HttpPrefix| + |uriText.value|; }
    }
  }

  /** A text that already carries an http:// or https:// prefix is never
      retried: it resolves only when it is well-formed as it stands. */
  lemma PrefixedTextIsNotRetried(text: string, p: Platform)
    requires StartsWith(text, HttpPrefix) || StartsWith(text, HttpsPrefix)
    ensures ResolveQueryUri(Some(text), p) ==
      if p.isWellFormedAbsoluteUri(text) then Resolved(Uri(text)) else Unresolvable(text)
  {
  }

  /** The exceptions ExecuteSearch raises, with their messages. */
  datatype SearchError =
    | InvalidQueryUri(message: string)
    | CouldNotDownloadPage(statusCode: int, message: string)

  /** The outcome of executing one query: no results, one fetched page, or an
      exception. */
  datatype SearchOutcome = NoResults | Fetched(uri: Uri, response: RestResponse) | Failed(error: SearchError)

  function OrEmpty(s: Option<string>): string {
    if s.Some? then s.value else ""
  }

  /** The decision ExecuteSearch makes for a query, given the response the
      fetch of a URI would return. */
  function Execute(query: Query, p: Platform, fetch: Uri -> RestResponse): (r: SearchOutcome)
    ensures r.NoResults? <==> IsNullOrEmpty(FirstUriValue(query))
    ensures r.Fetched? ==>
      && ResolveQueryUri(FirstUriValue(query), p) == Resolved(r.uri)
      && r.response == fetch(r.uri)
      && r.response.statusCode == HttpOk
    ensures r.Failed? && r.error.CouldNotDownloadPage? ==>
      && ResolveQueryUri(FirstUriValue(query), p).Resolved?
      && r.error.statusCode == fetch(ResolveQueryUri(FirstUriValue(query), p).uri).statusCode != HttpOk
    ensures ResolveQueryUri(FirstUriValue(query), p).Resolved? ==> r.Fetched? || r.error.CouldNotDownloadPage?
  {
    match ResolveQueryUri(FirstUriValue(query), p)
    case NoQueryText => NoResults
    case Unresolvable(text) => Failed(InvalidQueryUri("Invalid query uri: " + text))
    case Resolved(uri) =>
      var response := fetch(uri);
      if response.statusCode != HttpOk then
        Failed(CouldNotDownloadPage(response.statusCode, "Could not download page: " + OrEmpty(response.errorMessage)))
      else
        Fetched(uri, response)
  }

  /** ExecuteSearch: yields no result, or exactly one new WebResult for the
      resolved URI and the fetched response, or raises the error. */
  method ExecuteSearch(query: Query, p: Platform, fetch: Uri -> RestResponse) returns (r: Result<seq<WebResult>, SearchError>)
    ensures Execute(query, p, fetch).NoResults? ==> r == Success([])
    ensures Execute(query, p, fetch).Failed? ==> r == Failure(Execute(query, p, fetch).error)
    ensures Execute(query, p, fetch).Fetched? ==>
      && r.Success? && |r.value| == 1 && fresh(r.value[0])
      && r.value[0].requestUri == Execute(query, p, fetch).uri
      && r.value[0].restResponse == WebRestResponse(Execute(query, p, fetch).response)
      && r.value[0].cachedOrganizationData.None?
  {
    var outcome := Execute(query, p, fetch);
    match outcome
    case NoResults =>
      r := Success([]);
    case Failed(e) =>
      r := Failure(e);
    case Fetched(uri, response) =>
      var result := new WebResult(uri, response);
      r := Success([result]);
  }
}
