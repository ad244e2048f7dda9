# Web enrichment provider — a Dafny model

This project models the decision logic of the CluedIn web enrichment
provider (`WebExternalSearchProvider`). The provider takes an organization
record with candidate website URLs. It decides which URLs to fetch, fetches
each page once, and merges the organization facts a parser extracts from the
page into one property bag with a fixed precedence. It also builds the
enrichment clue with an optional logo preview. The model has these parts:

- `wrappers.dfy` (`Wrappers`): `Option` and `Result`.
- `strings.dfy` (`Strings`): the string helpers the provider relies on.
  They are null-or-empty tests, .NET white space, case-insensitive
  equality, ordinal order, insertion sort and `string.Join`.
- `model.dfy` (`Model`): the data.
  - entity types, codes, URIs and the Website vocabulary keys;
  - the parser's organization facts, with their schema.org sub-record;
  - the HTTP response, the enrichment request, the search query and raw-data parts.
- `platform.dfy` (`Platform`): the library calls the provider makes into
  code that is not modelled. They are the URI utilities, `Uri`
  well-formedness, `EntityType.Is`, the social-key lookup, the website
  parser, `EntityCode.Key`, MD5 and Base64. Each is a total function in a
  `Platform` record passed to every operation, so every proof holds whatever
  they compute.
- `web_result.dfy` (`WebResults`): the `WebResult` class. It caches the
  parser's output on first use.
- `query_builder.dfy` (`QueryBuilder`): query construction.
  - the entity-type gate;
  - splitting website values on `,` `;` `|` and space;
  - URI normalisation into a set;
  - the filter against the request URIs of this request's earlier results.
- `search.dfy` (`Search`): query execution. It resolves the query text to a
  URI (as written, or with `http://` in front, or an error), checks the
  status, and yields one `WebResult`.
- `metadata_merge.dfy` (`MetadataMerge`): the merge stated on values.
  - the origin entity code, the aliases and the technologies text;
  - the property bag as four stages of overwrites: scraped fields,
    schema.org fields, social links, registry codes;
  - the precedence lemmas.
- `populate.dfy` (`Populate`): the `EntityMetadata` class.
  `PopulateMetadata` writes into it in place, with loops over the social
  links and the codes. Each write step is proved equal to its `MetadataMerge`
  stage.
- `clues.dfy` (`Clues`): the `Clue` class, `BuildClues` and
  `GetPrimaryEntityPreviewImage`. The logo download outcome and the base
  class's two preview downloads are parameters.

The page fetch is the parameter `fetch: Uri -> RestResponse` and the logo
download is `download: Uri -> LogoDownload`. Logging is not modelled. The
execution context's organization is a string parameter.

## Behaviour worth noting

What the code does in places where a reader might expect something else:

- **Social profiles.** The social-profile test sits inside the test for an
  earlier result (`src/WebExternalSearchProvider.cs:91-93`). With no earlier
  result a social profile URI is emitted (`QueryBuilder.SocialProfileKeptWithoutPriorResults`).
  Once an earlier result exists, no social profile URI is emitted.
- **Response URIs.** They are never compared. The filter reads only the
  request URI of earlier results.
- **Identity code.** It is not a hash of the query key. It is the
  Organization code of origin CluedIn/"website" whose value is the request's
  origin code value (`src/WebExternalSearchProvider.cs:259-269`).
- **Technology names.** They are sorted and joined but not deduplicated
  (`src/WebExternalSearchProvider.cs:306`).
- **Logo.** The logo is downloaded from the parsed logo URI as it is, with no
  resolution against the response URI. There is no content-type check: the
  preview is always labelled `image/jpeg` (`src/WebExternalSearchProvider.cs:184-201`).
- **Names.** `metadata.Name` is the request's name. `Website.Name` is the
  scraped page name.
- **TaxId.** It is written twice and ends holding the VAT id
  (`src/WebExternalSearchProvider.cs:343-344`). `VatId` itself is never written.

## Model

| member | source | states |
|---|---|---|
| Strings.InsertSorted | src/WebExternalSearchProvider.cs:306 | inserting into a sorted list keeps it sorted |
| Strings.InsertMultiset | src/WebExternalSearchProvider.cs:306 | insertion adds exactly the inserted name to the multiset of names |
| Strings.SortSorted | src/WebExternalSearchProvider.cs:306 | `OrderBy(t => t)` yields a sorted permutation of the names, every duplicate kept |
| Strings.LessEqTotal | src/WebExternalSearchProvider.cs:306 | the name order compares any two names |
| Strings.LessEqTransitive | src/WebExternalSearchProvider.cs:306 | the name order is transitive |
| Platform.PrintUri | src/WebExternalSearchProvider.cs:312 | `PrintIfAvailable` on a URI is null exactly when the URI is null |
| WebResults.WebResult.constructor | src/ExternalSearch.Providers.Web/Model/WebResult.cs:17-21 | stores the request URI, wraps the response, and starts with nothing cached |
| WebResults.WebResult.GetOrganizationWebsiteMetadata | src/ExternalSearch.Providers.Web/Model/WebResult.cs:26-36 | a cached value is returned without parsing; otherwise the parser runs once on this result's URI and response and its output, null included, is cached and returned; URI and response never change |
| WebResults.ParseOnceThenCached | src/ExternalSearch.Providers.Web/Model/WebResult.cs:28-35 | two calls on a fresh result whose parse succeeds return the same facts and parse once |
| WebResults.NullParseIsRetried | src/ExternalSearch.Providers.Web/Model/WebResult.cs:28-33 | when the parser returns null nothing is cached and each call parses again |
| QueryBuilder.AcceptsRequest | src/WebExternalSearchProvider.cs:80-87 | defines the entity-type gate: a null configured type fails, a configured type is tested with `EntityType.Is`, else the default accepted types; stated by `QueryBuilder.BuildQueries` |
| QueryBuilder.RequestUriFilter | src/WebExternalSearchProvider.cs:91-93 | defines the filter: null, or an earlier result exists and the value equals its request URI ignoring case or is a social profile URI; stated by `QueryBuilder.QueryEmittedIff` and `QueryBuilder.PriorResultsExclude` |
| QueryBuilder.WebsiteValues | src/WebExternalSearchProvider.cs:98-105 | defines the website values: the configured website key when it is set and not white space, else the organization website key; stated by `QueryBuilder.QueryEmittedIff` |
| QueryBuilder.Segments | src/WebExternalSearchProvider.cs:109 | defines the set of segments of all website values; stated by `QueryBuilder.Split` and `QueryBuilder.QueryEmittedIff` |
| QueryBuilder.NormalizedValues | src/WebExternalSearchProvider.cs:109-111 | defines the normalised values as a set; stated by `QueryBuilder.QueryEmittedIff` and `QueryBuilder.NoPriorResultsKeepsEveryValue` |
| QueryBuilder.SplitFrom | src/WebExternalSearchProvider.cs:109 | every segment is non-empty and free of the four delimiters |
| QueryBuilder.Split | src/WebExternalSearchProvider.cs:109 | `Split(..., RemoveEmptyEntries)` yields only non-empty segments without delimiters |
| QueryBuilder.SplitAppend | src/WebExternalSearchProvider.cs:109 | a delimiter separates: the parts on either side split on their own and the results concatenate |
| QueryBuilder.SplitWord | src/WebExternalSearchProvider.cs:109 | a non-empty string without delimiters is exactly one segment |
| QueryBuilder.TwoSegments | src/WebExternalSearchProvider.cs:109 | `"site, profile"` splits into exactly the site and the profile |
| QueryBuilder.BuildQueries | src/WebExternalSearchProvider.cs:78-116 | fails exactly when `acceptedEntityType` is configured as null; queries only for the configured type (via `EntityType.Is`) or, without one, only for Organization; each query has the request's type and one URI value normalised from some split segment |
| QueryBuilder.QueryEmittedIff | src/WebExternalSearchProvider.cs:89-114 | past the gate, a value is emitted if and only if it normalises from a segment and the filter keeps it |
| QueryBuilder.PriorResultsExclude | src/WebExternalSearchProvider.cs:89-93 | no emitted value equals, ignoring case, the request URI of an earlier result, and with an earlier result no social profile URI is emitted |
| QueryBuilder.NoPriorResultsKeepsEveryValue | src/WebExternalSearchProvider.cs:91-93 | with no earlier results every non-null normalised segment is emitted |
| QueryBuilder.SocialProfileKeptWithoutPriorResults | src/WebExternalSearchProvider.cs:89-114 | a website value `"site, profile"` with no earlier results yields queries for both, the social profile included |
| Search.FirstUriValue | src/WebExternalSearchProvider.cs:124 | defines the query text as the first URI value of the query, null when it has none; `Search.Execute` and `Search.ExecuteSearch` state what follows from it |
| Search.ResolveQueryUri | src/WebExternalSearchProvider.cs:124-141 | null or empty text gives nothing to fetch; a well-formed absolute text is used verbatim; otherwise a text without an `http://` or `https://` prefix whose `http://` form is well-formed resolves to that form, and every other text is unresolvable and reported as it was; a resolved URI is always well-formed |
| Search.ResolveIdempotent | src/WebExternalSearchProvider.cs:131-141 | the text of a resolved URI resolves to the same URI |
| Search.PrefixedTextIsNotRetried | src/WebExternalSearchProvider.cs:133-141 | text already starting with `http://` or `https://` resolves only if well-formed as it stands |
| Search.Execute | src/WebExternalSearchProvider.cs:124-157 | no results exactly for null or empty text; a fetched page has status 200 and is the fetch of the resolved URI; a download error carries a non-200 status; a resolved URI is always fetched |
| Search.ExecuteSearch | src/WebExternalSearchProvider.cs:122-158 | yields nothing, raises the error, or yields exactly one new web result whose request URI is the resolved URI, with nothing cached |
| MetadataMerge.OriginEntityCode | src/WebExternalSearchProvider.cs:259-269 | defines the origin entity code from the value of the request's origin entity code; its properties are stated by `MetadataMerge.OriginEntityCodeIdentity` |
| MetadataMerge.OriginEntityCodeIdentity | src/WebExternalSearchProvider.cs:259-269 | the code is an Organization code of origin CluedIn/"website", and two requests get the same code exactly when their origin code values are equal |
| MetadataMerge.Aliases | src/WebExternalSearchProvider.cs:294-304 | no aliases without schema.org, even with a copyright entity; with it, one alias for each of the legal name, the alternate name and the copyright entity that is non-empty, in that order: the legal name first, the alternate name right after it, the copyright entity last; none empty; each alias is one of the three names |
| MetadataMerge.TechnologyNamesInOrder | src/WebExternalSearchProvider.cs:306 | `Select(t => t.Name)` gives one name per technology, in order |
| MetadataMerge.TechnologiesText | src/WebExternalSearchProvider.cs:306 | defines the technologies text as the sorted names joined with `", "`; its properties are stated by `MetadataMerge.TechnologiesTextIsSortedJoin` |
| MetadataMerge.TechnologiesTextIsSortedJoin | src/WebExternalSearchProvider.cs:306 | the text joins a sorted permutation of all technology names, as many as there are technologies |
| MetadataMerge.ScrapedProperties | src/WebExternalSearchProvider.cs:308-321 | defines the scraped stage: twelve writes in source order; its values are stated by `MetadataMerge.ScrapedValues` and what survives by `MetadataMerge.ScrapedFieldsKept` |
| MetadataMerge.CountryText | src/WebExternalSearchProvider.cs:328 | defines the AddressCountry text: a country object's name, else the printed country value, null for no country; stated by `MetadataMerge.PostalFieldsFromPostalAddress` |
| MetadataMerge.AddressProperties | src/WebExternalSearchProvider.cs:323-336 | defines the address writes: a postal address writes AddressCountry, PostalCode and Address, a text address only Address, any other none; stated by `MetadataMerge.PostalValues` and `MetadataMerge.AddressPrecedence` |
| MetadataMerge.TickerSymbolOf | src/WebExternalSearchProvider.cs:345 | defines the ticker symbol as the symbol of a Corporation and null for any other organization; stated by `MetadataMerge.SchemaOrgValues` |
| MetadataMerge.SchemaOrgProperties | src/WebExternalSearchProvider.cs:323-348 | defines the schema.org stage: the address writes, then the registry fields; stated by `MetadataMerge.SchemaOrgValues` and `MetadataMerge.SchemaOrgFields` |
| MetadataMerge.WriteSocialLink | src/WebExternalSearchProvider.cs:352-362 | defines one social-link step: Unknown and unmapped links write nothing, a mapped one writes its printed URI; stated by `MetadataMerge.SkippedLinkWritesNothing` |
| MetadataMerge.ApplySocialLinks | src/WebExternalSearchProvider.cs:350-363 | defines the social-link stage as the steps in list order; stated by `MetadataMerge.SocialLinkLastWins` and `MetadataMerge.SocialLinksKeepOtherKeys` |
| MetadataMerge.WriteCode | src/WebExternalSearchProvider.cs:369-386 | defines one code step: `cvr` writes CVR, `googleAnalytics` writes GoogleAnalytics, any other writes nothing; stated by `MetadataMerge.UnrecognisedCodeWritesNothing` |
| MetadataMerge.ApplyCodes | src/WebExternalSearchProvider.cs:365-388 | defines the code stage as the steps in list order; stated by `MetadataMerge.CodeLastWins` and `MetadataMerge.CodesKeepOtherKeys` |
| MetadataMerge.MergeProperties | src/WebExternalSearchProvider.cs:306-388 | defines the whole bag as the four stages in order, the codes only when not null; its properties are stated by the `Merged…`, `…Kept…` and `…Fields…` lemmas |
| MetadataMerge.MergedLogo | src/WebExternalSearchProvider.cs:312 | the merged bag always holds Logo, as the printed logo URI: no later stage writes it |
| MetadataMerge.SocialLinksKeepOtherKeys | src/WebExternalSearchProvider.cs:350-363 | a key no mapped link is written under keeps its value: Unknown and unmapped links write nothing, and only organization social keys are written |
| MetadataMerge.SocialLinkLastWins | src/WebExternalSearchProvider.cs:350-363 | a social key holds the printed URI of the last link written under it |
| MetadataMerge.SkippedLinkWritesNothing | src/WebExternalSearchProvider.cs:352-362 | an Unknown or unmapped link changes nothing |
| MetadataMerge.CodesKeepOtherKeys | src/WebExternalSearchProvider.cs:365-388 | the codes write no key but CVR and GoogleAnalytics |
| MetadataMerge.AbsentCodeKeepsKey | src/WebExternalSearchProvider.cs:365-388 | without a `cvr` (or `googleAnalytics`) entry, CVR (or GoogleAnalytics) keeps its value |
| MetadataMerge.CodeLastWins | src/WebExternalSearchProvider.cs:367-376 | CVR and GoogleAnalytics hold the value of the last `cvr` and `googleAnalytics` entry |
| MetadataMerge.UnrecognisedCodeWritesNothing | src/WebExternalSearchProvider.cs:379-385 | `swift` and any other code change nothing |
| MetadataMerge.LaterStagesKeepWebsiteKey | src/WebExternalSearchProvider.cs:350-388 | social links and codes leave every Website key but CVR and GoogleAnalytics unchanged |
| MetadataMerge.ScrapedValues | src/WebExternalSearchProvider.cs:308-321 | the scraped stage writes URI as the printed request URI of the web result, WebsiteDescription as the scraped description, Title, Logo as the printed logo URI, the copyright entity, Name as the scraped page name, phone, fax, e-mail, Address as the scraped address, Country, and the technologies text |
| MetadataMerge.SchemaOrgValues | src/WebExternalSearchProvider.cs:337-345 | the schema.org stage writes the registry fields, TaxId twice so that it ends holding the VAT id, and the ticker symbol of a Corporation only |
| MetadataMerge.PostalValues | src/WebExternalSearchProvider.cs:325-331 | a postal address writes AddressCountry, PostalCode and Address from its parts |
| MetadataMerge.AddressPrecedence | src/WebExternalSearchProvider.cs:319-335 | Address is the postal street address, else the schema.org text address, else the scraped address |
| MetadataMerge.PostalFieldsFromPostalAddress | src/WebExternalSearchProvider.cs:325-331 | with a schema.org postal address the final AddressCountry is the country's name, else its printed value, and PostalCode is the address's |
| MetadataMerge.PostalFieldsKeptOtherwise | src/WebExternalSearchProvider.cs:322-336 | without a schema.org postal address AddressCountry and PostalCode keep their previous values |
| MetadataMerge.ScrapedFieldsKept | src/WebExternalSearchProvider.cs:308-321 | every scraped field other than Address, the technologies text included, holds in the final bag what the scraped stage wrote: no later stage overwrites it |
| MetadataMerge.SchemaOrgFields | src/WebExternalSearchProvider.cs:337-345 | with schema.org the registry fields are written, TaxId ends holding the VAT id, and TickerSymbol is set only for a Corporation |
| MetadataMerge.NeverWrittenKept | src/WebExternalSearchProvider.cs:296-388 | the Description, StreetAddress and VatId keys keep their previous values: no stage writes them |
| MetadataMerge.RegistryFieldsKeptWithoutSchemaOrg | src/WebExternalSearchProvider.cs:308-348 | without a schema.org organization the registry fields keep their previous values |
| MetadataMerge.MergedSocialLinks | src/WebExternalSearchProvider.cs:350-388 | in the final bag a social key holds the last link written under it; codes never touch it |
| MetadataMerge.MergedSocialKept | src/WebExternalSearchProvider.cs:308-388 | in the final bag a social key that no link is written under keeps its previous value |
| MetadataMerge.MergedCodeLastWins | src/WebExternalSearchProvider.cs:365-388 | in the final bag CVR and GoogleAnalytics hold the value of the last code entry of that name |
| MetadataMerge.MergedAbsentCode | src/WebExternalSearchProvider.cs:365-388 | CVR and GoogleAnalytics keep their previous values when the codes are null or hold no entry of that name |
| Populate.EntityMetadata.constructor | src/WebExternalSearchProvider.cs:249 | a new metadata part is empty |
| Populate.SetIdentity | src/WebExternalSearchProvider.cs:278-291 | type and name from the request, the origin code, URI and description from the facts, and the two codes appended in order |
| Populate.AddAliases | src/WebExternalSearchProvider.cs:294-304 | appends exactly `Aliases(data)` |
| Populate.WriteScrapedProperties | src/WebExternalSearchProvider.cs:308-321 | the twelve scraped writes give the scraped stage |
| Populate.WriteSchemaOrgProperties | src/WebExternalSearchProvider.cs:323-348 | the schema.org writes give the schema.org stage |
| Populate.WriteSocialLinks | src/WebExternalSearchProvider.cs:350-363 | the loop over the social links gives the social-link stage |
| Populate.WriteCodes | src/WebExternalSearchProvider.cs:365-388 | the loop over the codes gives the registry-code stage |
| Populate.WriteProperties | src/WebExternalSearchProvider.cs:306-388 | all property writes give the merged bag |
| Populate.Fill | src/WebExternalSearchProvider.cs:284-388 | every write PopulateMetadata makes once it has the facts, the preview image untouched |
| Populate.PopulateMetadata | src/WebExternalSearchProvider.cs:276-389 | with no parsed facts it fails before writing anything; otherwise: type and name from the request; the origin code; URI and description from the facts; both codes appended; the aliases appended; the merged bag; the web result's cache as `GetOrganizationWebsiteMetadata` leaves it |
| Populate.CreatedLogo | src/WebExternalSearchProvider.cs:312 | a populated metadata part holds Logo, as the printed logo URI |
| Populate.CreateMetadata | src/WebExternalSearchProvider.cs:247-254 | fails exactly when there are no parsed facts; otherwise a new metadata part holding the request's identity, the two codes, the aliases and the bag merged into an empty one, with no preview image; the web result's cache as `GetOrganizationWebsiteMetadata` leaves it |
| Clues.Clue.constructor | src/WebExternalSearchProvider.cs:172 | a clue for the code and organization, with empty entity data and no raw data (see Left out) |
| Clues.PreviewImage | src/WebExternalSearchProvider.cs:182-208 | a preview exists exactly when the logo is present and its download yields bytes; it is labelled JPEG, named `preview_` + the code's key, with the bytes' MD5 and Base64 |
| Clues.AttachPreview | src/WebExternalSearchProvider.cs:182-208 | the preview, when there is one, is appended to the raw data and set as preview image; otherwise nothing changes |
| Clues.BasePreviewPart | src/WebExternalSearchProvider.cs:177-178 | defines what the base class's preview download yields: nothing without a Logo key, else its outcome on the Logo value |
| Clues.AttachPreviews | src/WebExternalSearchProvider.cs:177-208 | the base class's part, then the directly downloaded preview, each appended to the raw data when present; the preview image is the direct preview, else the base part, else unchanged; the web result's cache is read again and not changed |
| Clues.BuildClue | src/WebExternalSearchProvider.cs:170-208 | fails exactly when there are no parsed facts; otherwise one new clue for the origin code and the organization, tagged with the provider id, whose entity data is created from the parsed facts, with raw data the base part then the preview, and preview image the preview, else the base part; the web result's cache as `GetOrganizationWebsiteMetadata` leaves it |
| Clues.BuildClues | src/WebExternalSearchProvider.cs:166-211 | exactly one clue for the origin code, from this provider, with the populated entity data; the base part and the preview are attached as raw data in that order and the preview wins as preview image, a failed download is swallowed; it fails only where PopulateMetadata fails, and leaves the cache as PopulateMetadata does |
| Clues.GetPrimaryEntityPreviewImage | src/WebExternalSearchProvider.cs:229-240 | fails exactly when there are no parsed facts; otherwise the base class's blob download of the Logo property of freshly created metadata, that is of the printed logo URI; the cache as `GetOrganizationWebsiteMetadata` leaves it |

## Left out

- Network I/O. The page GET with its headers (`src/WebExternalSearchProvider.cs:143-149`) is the `fetch` parameter. The logo download (184-203) is the `download` parameter.
- Clues.AttachPreviews: the base class's `DownloadPreviewImage` (178) is not part of this model. Its outcome on the Logo value is the parameter `downloadPreviewImage`, and its effect is taken to be appending that part to the clue's raw data and making it the preview image, nothing else.
- Clues.GetPrimaryEntityPreviewImage: the base class's `DownloadPreviewImageBlob` (234) is not part of this model. It is the parameter `downloadPreviewImageBlob`, and a null image is `None`.
- Clues.Clue.constructor: the host `Clue` class is not part of this model. A new clue is taken to start with empty entity data (no type, name, codes, aliases or properties, no preview image) and no raw data.
- `GetPrimaryEntityMetadata` (217-221) only calls `CreateMetadata`, which is modelled as `Populate.CreateMetadata`.
- Null inputs that the types here rule out are not modelled: a null website value in the request, which would throw at the split (109); an earlier result whose request URI is null, which would throw in the filter (92); a request without an origin entity code, which would throw when the origin code is built (261); and a technology with a null name, which `OrderBy` would sort first and `string.Join` would print as the empty string (306).
- `QueryBuilder.GetValue`: the host's `QueryParameters.GetValue(key, default)` is not part of this model. It is modelled as a map lookup that gives the empty set when the key is absent.
- `OrganizationWebsiteParser`, `UriUtility`, `Uri.IsWellFormedUriString`, `Uri.ToString`, `EntityType.Is`, `EntityCode.Key`, MD5 and Base64 are foreign calls. They are parameters in `Platform`.
- `QueryBuilder.AcceptsByDefault`: the base class's `Accepts` is not part of this model. It is modelled as membership in the accepted types `{ Organization }` (41).
- The two-argument `BuildQueries` (71-77) passes a null configuration that is then dereferenced, so it always fails. Only the configuration-taking path (396-399) is modelled.
- Logging and the log record (`WebExternalSearchProvider.Logging.cs`), the JSON serializer setup (53-60) and the pass-through overloads (391-429) are left out.
- Strings.SortSorted: `Sort` orders names ordinally. The .NET default comparer used by `OrderBy` is culture-sensitive, so the model may order some names differently.
- `Strings.EqualsIgnoreCase`: folds ASCII letters only. `InvariantCultureIgnoreCase` folds all of Unicode.
- `Populate.PopulateMetadata`: models `metadata.Codes` as a list that `Add` appends to. Whether the host collection drops a duplicate code is not visible here.
- The property bag stores a null value as `None` under its key. Whether the host dictionary keeps null entries is not visible here.
- Null `Technologies` or `SocialLinks` in the parsed facts, which would throw, are not modelled: both are sequences.
- `WebResults.WebResult`: the parameterless constructor used for deserialisation (`WebResult.cs:13-15`) is left out. `parseCount` is ghost bookkeeping that counts parser runs.
- `Uri` is kept as its text. The parsing and normalisation `new Uri(text)` performs is not modelled.
