/** The values the web enricher works on: entity types and codes, URIs, the
    Website vocabulary keys of the property bag, the request it enriches, the
    queries it emits, the HTTP response and the organization facts the
    external website parser extracts from it. */
module Model {
  import opened Wrappers

  newtype byte = x: int | 0 <= x < 256

  /** A CluedIn entity type such as "/Organization". */
  datatype EntityType = EntityType(code: string)

  const Organization: EntityType := EntityType("/Organization")

  /** CodeOrigin: a root origin, optionally made specific (CreateSpecific). */
  datatype CodeOrigin = CodeOrigin(root: string, specific: Option<string>)

  /** An entity code: type, origin and value. */
  datatype EntityCode = EntityCode(entityType: EntityType, origin: CodeOrigin, value: string)

  /** A System.Uri, kept as the text it was constructed from. */
  datatype Uri = Uri(text: string)

  /** The keys of the Website vocabulary (prefix "website"), plus the keys of
      the organization vocabulary that social links are mapped to. */
  datatype Key =
    | Description | Title | Logo | CopyrightEntity | WebsiteDescription | Name | URI
    | PhoneNumber | FaxNumber | ContactEmail | Address | Country | TechnologiesListText
    | AddressCountry | PostalCode | StreetAddress | FoundingDate | Duns | GlobalLocationNumber
    | IsicV4 | LeiCode | Naics | TaxId | VatId | TickerSymbol | CVR | GoogleAnalytics
    | OrganizationSocial(name: string)

  /** An entity's property bag; a C# dictionary entry may hold null. */
  type Properties = map<Key, Option<string>>

  /** The kind of a social link found on the page. */
  datatype SocialUriType = Unknown | Social(name: string)

  /** The value of a schema.org postal address's addressCountry: a Country
      object (whose Name may be null), some other value, or nothing. `printed`
      is what the value prints as. */
  datatype CountryValue =
    | CountryObject(countryName: Option<string>, printed: string)
    | OtherCountryValue(printed: string)
    | NoCountry

  /** The address of a schema.org organization. */
  datatype SchemaOrgAddress =
    | PostalAddress(addressCountry: CountryValue, postalCode: Option<string>, streetAddress: Option<string>)
    | TextAddress(text: string)
    | OtherAddress
    | NoAddress

  /** A schema.org Organization, or a Corporation with its ticker symbol. */
  datatype OrganizationKind = PlainOrganization | Corporation(tickerSymbol: Option<string>)

  datatype SchemaOrgOrganization = SchemaOrgOrganization(
    kind: OrganizationKind,
    legalName: Option<string>,
    alternateName: Option<string>,
    address: SchemaOrgAddress,
    foundingDate: Option<string>,
    duns: Option<string>,
    globalLocationNumber: Option<string>,
    isicV4: Option<string>,
    leiCode: Option<string>,
    naics: Option<string>,
    taxId: Option<string>,
    vatId: Option<string>)

  datatype Technology = Technology(name: string)

  /** What the website parser extracts from one fetched page. Social links and
      codes are dictionaries, listed in their enumeration order. */
  datatype OrganizationData = OrganizationData(
    requestUri: Option<Uri>,
    responseUri: Option<Uri>,
    name: Option<string>,
    websiteTitle: Option<string>,
    websiteDescription: Option<string>,
    logo: Option<Uri>,
    copyrightEntity: Option<string>,
    phoneNumber: Option<string>,
    faxNumber: Option<string>,
    contactEmail: Option<string>,
    address: Option<string>,
    country: Option<string>,
    schemaOrgOrganization: Option<SchemaOrgOrganization>,
    socialLinks: seq<(SocialUriType, Option<Uri>)>,
    codes: Option<seq<(string, Option<string>)>>,
    technologies: seq<Technology>)

  /** The HTTP response of the page fetch. */
  datatype RestResponse = RestResponse(
    statusCode: int,
    errorMessage: Option<string>,
    contentType: Option<string>,
    content: string,
    responseUri: Option<Uri>)

  /** The serialisable copy of a response that a web result keeps. */
  datatype WebRestResponse = WebRestResponse(response: RestResponse)

  const HttpOk: int := 200

  /** The part of an enrichment request the provider reads: the entity's
      type, name and origin code, its query parameters (vocabulary key to the
      set of values), and the request URI of each result this provider has
      already produced for the request. */
  datatype Request = Request(
    entityType: EntityType,
    name: Option<string>,
    originEntityCode: EntityCode,
    queryParameters: map<string, set<string>>,
    priorRequestUris: seq<Uri>)

  /** A raw-data part of a clue: its type, MIME type, file name, the MD5 of
      the bytes and the bytes themselves, both base64-encoded. */
  datatype RawDataPart = RawDataPart(
    partType: string,
    mimeType: string,
    fileName: string,
    rawDataMd5: string,
    rawData: string)

  /** A search query: the entity type and the values of its Uri parameter. */
  datatype Query = Query(entityType: EntityType, uriValues: seq<string>)
}
