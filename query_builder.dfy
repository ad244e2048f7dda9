/** Query construction (WebExternalSearchProvider.InternalBuildQueries): the
    entity-type gate, splitting the website values into segments, URI
    normalisation with set deduplication, and the filter against the results
    this provider already produced for the request. */
module QueryBuilder {
  import opened Wrappers
  import opened Model
  import opened Platform
  import opened Strings

  /** Configuration option names. */
  const AcceptedEntityTypeKey: string := "acceptedEntityType"
  const WebsiteKey: string := "websiteKey"
  /** The default vocabulary key holding an organization's websites. */
  const OrganizationWebsiteKey: string := "organization.website"

  /** The provider configuration: option name to the option's ToString(), or
      None where the configured object is null. */
  type Config = map<string, Option<string>>

  /** A NullReferenceException, raised while reading the named option. */
  datatype BuildError = NullReference(option: string)

  /* ---------------------------------------------------------------------
     Splitting on "," ";" "|" " " with StringSplitOptions.RemoveEmptyEntries
     --------------------------------------------------------------------- */

  predicate IsDelimiter(c: char) {
    c == ',' || c == ';' || c == '|' || c == ' '
  }

  predicate NoDelimiter(s: string) {
    forall i :: 0 <= i < |s| ==> !IsDelimiter(s[i])
  }

  /** The pending segment, unless it is empty. */
  function Flush(segment: string): seq<string> {
    if segment == [] then [] else [segment]
  }

  /** Splits s, where `segment` is the part of the current segment already read. */
  function SplitFrom(s: string, segment: string): (r: seq<string>)
    requires NoDelimiter(segment)
    ensures forall i :: 0 <= i < |r| ==> r[i] != [] && NoDelimiter(r[i])
    decreases |s|
  {
    if s == [] then Flush(segment)
    else if IsDelimiter(s[0]) then Flush(segment) + SplitFrom(s[1..], [])
    else SplitFrom(s[1..], segment + [s[0]])
  }

  /** s.Split(new[] { ",", ";", "|", " " }, RemoveEmptyEntries) */
  function Split(s: string): (r: seq<string>)
    ensures forall i :: 0 <= i < |r| ==> r[i] != [] && NoDelimiter(r[i])
  {
    SplitFrom(s, [])
  }

  lemma {:induction false} SplitFromAppend(a: string, d: char, b: string, segment: string)
    requires NoDelimiter(segment) && IsDelimiter(d)
    ensures SplitFrom(a + [d] + b, segment) == SplitFrom(a, segment) + Split(b)
    decreases |a|
  {
    var s := a + [d] + b;
    if a == [] {
      assert s[0] == d && s[1..] == b;
    } else {
      assert s[0] == a[0] && s[1..] == a[1..] + [d] + b;
      if IsDelimiter(a[0]) {
        SplitFromAppend(a[1..], d, b, []);
      } else {
        SplitFromAppend(a[1..], d, b, segment + [a[0]]);
      }
    }
  }

  /** A delimiter separates: what lies on either side is split on its own. */
  lemma SplitAppend(a: string, d: char, b: string)
    requires IsDelimiter(d)
    ensures Split(a + [d] + b) == Split(a) + Split(b)
  {
    SplitFromAppend(a, d, b, []);
  }

  lemma {:induction false} SplitFromWord(s: string, segment: string)
    requires NoDelimiter(segment) && NoDelimiter(s)
    ensures SplitFrom(s, segment) == Flush(segment + s)
    decreases |s|
  {
    if s == [] {
      assert segment + s == segment;
    } else {
      assert !IsDelimiter(s[0]);
      assert segment + s == (segment + [s[0]]) + s[1..];
      SplitFromWord(s[1..], segment + [s[0]]);
    }
  }

  /** A non-empty string without delimiters is one segment; with SplitAppend
      and Split("") == [] this determines Split on every string. */
  lemma SplitWord(s: string)
    requires s != [] && NoDelimiter(s)
    ensures Split(s) == [s]
  {
    SplitFromWord(s, []);
    assert [] + s == s;
  }

  /** Every segment of every website value, as a set (ToHashSetEx). */
  function Segments(websites: set<string>): set<string> {
    set w, seg | w in websites && seg in Split(w) :: seg
  }

  /* ---------------------------------------------------------------------
     The entity-type gate and the website values
     --------------------------------------------------------------------- */

  /** The provider's own Accepts: its accepted entity types are { Organization }. */
  predicate AcceptsByDefault(t: EntityType) {
    t == Organization
  }

  /** True when acceptedEntityType is configured with a non-blank value. */
  predicate HasCustomEntityType(config: Config) {
    AcceptedEntityTypeKey in config && !IsNullOrWhiteSpace(config[AcceptedEntityTypeKey])
  }

  /** Whether queries are built for an entity of type t. Reading a configured
      null acceptedEntityType calls ToString() on null. */
  function AcceptsRequest(config: Config, t: EntityType, p: Platform): Result<bool, BuildError> {
    if AcceptedEntityTypeKey in config && config[AcceptedEntityTypeKey].None? then
      Failure(NullReference(AcceptedEntityTypeKey))
    else if HasCustomEntityType(config) then
      Success(p.entityTypeIs(t, config[AcceptedEntityTypeKey].value))
    else
      Success(AcceptsByDefault(t))
  }

  /** QueryParameters.GetValue(key, new HashSet<string>()) */
  function GetValue(parameters: map<string, set<string>>, key: string): set<string> {
    if key in parameters then parameters[key] else {}
  }

  /** The website values: under the configured websiteKey when it is set and
      not blank, otherwise under the organization website key. */
  function WebsiteValues(config: Config, request: Request): set<string> {
    if WebsiteKey in config && !IsNullOrWhiteSpace(config[WebsiteKey]) then
      GetValue(request.queryParameters, config[WebsiteKey].value)
    else
      GetValue(request.queryParameters, OrganizationWebsiteKey)
  }

  /** The normalised values, null included, as a set. */
  function NormalizedValues(config: Config, request: Request, p: Platform): set<Option<string>> {
    set seg | seg in Segments(WebsiteValues(config, request)) :: p.normalizeHttpUri(seg)
  }

  /** The request-URI filter: null, or some prior result exists and either
      its request URI equals the value ignoring case or the value is a social
      profile URI. The social test sits inside the test on prior results. */
  predicate RequestUriFilter(value: Option<string>, prior: seq<Uri>, p: Platform) {
    || value.None?
    || exists i :: 0 <= i < |prior| &&
         (EqualsIgnoreCase(p.printUri(prior[i]), value.value) || p.isSocialProfileUri(value.value))
  }

  /** InternalBuildQueries with a non-null configuration. */
  function BuildQueries(config: Config, request: Request, p: Platform): (r: Result<set<Query>, BuildError>)
    ensures r.Failure? <==> AcceptedEntityTypeKey in config && config[AcceptedEntityTypeKey].None?
    ensures r.Success? && r.value != {} && HasCustomEntityType(config) ==>
      p.entityTypeIs(request.entityType, config[AcceptedEntityTypeKey].value)
    ensures r.Success? && r.value != {} && !HasCustomEntityType(config) ==>
      request.entityType == Organization
    ensures r.Success? ==> forall q :: q in r.value ==>
      && q.entityType == request.entityType
      && |q.uriValues| == 1
      && exists seg :: seg in Segments(WebsiteValues(config, request)) &&
           p.normalizeHttpUri(seg) == Some(q.uriValues[0])
  {
    var accepted :- AcceptsRequest(config, request.entityType, p);
    if !accepted then Success({})
    else
      var values := NormalizedValues(config, request, p);
      Success(set v | v in values && !RequestUriFilter(v, request.priorRequestUris, p)
                :: Query(request.entityType, [v.value]))
  }

  /** When the gate passes, a value is emitted exactly when it normalises
      from some segment and the filter keeps it. */
  lemma QueryEmittedIff(config: Config, request: Request, p: Platform, value: string)
    requires AcceptsRequest(config, request.entityType, p) == Success(true)
    ensures Query(request.entityType, [value]) in BuildQueries(config, request, p).value <==>
      && (exists seg :: seg in Segments(WebsiteValues(config, request)) && p.normalizeHttpUri(seg) == Some(value))
      && !RequestUriFilter(Some(value), request.priorRequestUris, p)
  {
    var q := Query(request.entityType, [value]);
    var values := NormalizedValues(config, request, p);
    if exists seg :: seg in Segments(WebsiteValues(config, request)) && p.normalizeHttpUri(seg) == Some(value) {
      var seg :| seg in Segments(WebsiteValues(config, request)) && p.normalizeHttpUri(seg) == Some(value);
      assert Some(value) in values;
    }
    if q in BuildQueries(config, request, p).value {
      var v :| v in values && !RequestUriFilter(v, request.priorRequestUris, p) && q == Query(request.entityType, [v.value]);
      assert v == Some(value);
    }
  }

  /** No emitted value matches, ignoring case, the request URI of a prior
      result; and once any prior result exists no social profile URI is
      emitted. */
  lemma PriorResultsExclude(config: Config, request: Request, p: Platform, q: Query, i: int)
    requires BuildQueries(config, request, p).Success?
    requires q in BuildQueries(config, request, p).value
    requires 0 <= i < |request.priorRequestUris|
    ensures |q.uriValues| == 1
    ensures !EqualsIgnoreCase(p.printUri(request.priorRequestUris[i]), q.uriValues[0])
    ensures !p.isSocialProfileUri(q.uriValues[0])
  {
    var values := NormalizedValues(config, request, p);
    var v :| v in values && !RequestUriFilter(v, request.priorRequestUris, p) && q == Query(request.entityType, [v.value]);
  }

  /** With no prior results only null values are dropped: every non-null
      normalised segment is emitted, social profile URIs included. */
  lemma NoPriorResultsKeepsEveryValue(config: Config, request: Request, p: Platform, seg: string)
    requires AcceptsRequest(config, request.entityType, p) == Success(true)
    requires request.priorRequestUris == []
    requires seg in Segments(WebsiteValues(config, request))
    requires p.normalizeHttpUri(seg).Some?
    ensures Query(request.entityType, [p.normalizeHttpUri(seg).value]) in BuildQueries(config, request, p).value
  {
    QueryEmittedIff(config, request, p, p.normalizeHttpUri(seg).value);
  }

  /* ---------------------------------------------------------------------
     A request such as "sitecore.com, linkedin.com/company/sitecore"
     --------------------------------------------------------------------- */

  lemma TwoSegments(site: string, profile: string)
    requires site != "" && NoDelimiter(site)
    requires profile != "" && NoDelimiter(profile)
    ensures Split(site + ", " + profile) == [site, profile]
  {
    assert site + ", " + profile == site + [','] + ([] + [' '] + profile);
    SplitAppend(site, ',', [] + [' '] + profile);
    SplitAppend([], ' ', profile);
    SplitWord(site);
    SplitWord(profile);
  }

  /** A website value "site, profile" for an organization with no prior
      results yields a query for the site and one for the profile, even when
      the profile normalises to a social profile URI. */
  lemma SocialProfileKeptWithoutPriorResults(request: Request, p: Platform, site: string, profile: string)
    requires request.entityType == Organization && request.priorRequestUris == []
    requires request.queryParameters == map[OrganizationWebsiteKey := {site + ", " + profile}]
    requires site != "" && NoDelimiter(site) && p.normalizeHttpUri(site).Some?
    requires profile != "" && NoDelimiter(profile) && p.normalizeHttpUri(profile).Some?
    requires p.isSocialProfileUri(p.normalizeHttpUri(profile).value)
    ensures BuildQueries(map[], request, p).Success?
    ensures Query(Organization, [p.normalizeHttpUri(site).value]) in BuildQueries(map[], request, p).value
    ensures Query(Organization, [p.normalizeHttpUri(profile).value]) in BuildQueries(map[], request, p).value
  {
    var text := site + ", " + profile;
    TwoSegments(site, profile);
    assert WebsiteValues(map[], request) == {text};
    assert site in Split(text) && profile in Split(text);
    NoPriorResultsKeepsEveryValue(map[], request, p, site);
    NoPriorResultsKeepsEveryValue(map[], request, p, profile);
  }
}
