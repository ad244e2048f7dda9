/** WebResult: the result of one page fetch, which parses the organization
    facts out of the page on first request and keeps them for later ones. */
module WebResults {
  import opened Wrappers
  import opened Model
  import opened Platform

  class WebResult {
    var requestUri: Uri
    var restResponse: WebRestResponse
    var cachedOrganizationData: Option<OrganizationData>
    /** How many times the parser has run on behalf of this result. */
    ghost var parseCount: nat

    /** Stores the request URI and wraps the response; nothing parsed yet. */
    constructor (requestUri: Uri, response: RestResponse)
      ensures this.requestUri == requestUri
      ensures restResponse == WebRestResponse(response)
      ensures cachedOrganizationData == None
      ensures parseCount == 0
    {
      this.requestUri := requestUri;
      this.restResponse := WebRestResponse(response);
      cachedOrganizationData := None;
      parseCount := 0;
    }

    /** Returns the cached facts if present; otherwise runs the parser once
        on this result's request URI and response and caches its output,
        which may be null, in which case the next call parses again. */
    method GetOrganizationWebsiteMetadata(p: Platform) returns (data: Option<OrganizationData>)
      modifies this`cachedOrganizationData, this`parseCount
      ensures requestUri == old(requestUri) && restResponse == old(restResponse)
      ensures old(cachedOrganizationData).Some? ==>
        data == old(cachedOrganizationData) && parseCount == old(parseCount)
      ensures old(cachedOrganizationData).None? ==>
        data == p.parse(requestUri, restResponse) && parseCount == old(parseCount) + 1
      ensures cachedOrganizationData == data
    {
      if cachedOrganizationData.Some? {
        return cachedOrganizationData;
      }
      cachedOrganizationData := p.parse(requestUri, restResponse);
      parseCount := parseCount + 1;
      data := cachedOrganizationData;
    }
  }

  /** Two calls in a row on a fresh result whose parse succeeds: both return
      the same facts and the parser runs once. */
  method ParseOnceThenCached(w: WebResult, p: Platform) returns (first: Option<OrganizationData>, second: Option<OrganizationData>)
    requires w.cachedOrganizationData.None?
    requires p.parse(w.requestUri, w.restResponse).Some?
    modifies w
    ensures first.Some? && first == second
    ensures w.parseCount == old(w.parseCount) + 1
  {
    first := w.GetOrganizationWebsiteMetadata(p);
    second := w.GetOrganizationWebsiteMetadata(p);
  }

  /** Two calls in a row when the parser returns null: nothing is cached and
      the parser runs on each call. */
  method NullParseIsRetried(w: WebResult, p: Platform) returns (first: Option<OrganizationData>, second: Option<OrganizationData>)
    requires w.cachedOrganizationData.None?
    requires p.parse(w.requestUri, w.restResponse).None?
    modifies w
    ensures first.None? && second.None? && w.cachedOrganizationData.None?
    ensures w.parseCount == old(w.parseCount) + 2
  {
    first := w.GetOrganizationWebsiteMetadata(p);
    second := w.GetOrganizationWebsiteMetadata(p);
  }
}
