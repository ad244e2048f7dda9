/** The entity metadata an enrichment result fills in, and the in-place
    population of it from a web result (WebExternalSearchProvider.
    PopulateMetadata and CreateMetadata). The property writes follow
    MetadataMerge.MergeProperties, which the lemmas there are about. */
module Populate {
  import opened Wrappers
  import opened Model
  import opened Platform
  import opened Strings
  import opened WebResults
  import opened MetadataMerge

  /** The entity metadata part: the fields PopulateMetadata sets, the codes
      and aliases it appends to, the property bag it writes into, and the
      preview image the clue builder may set. */
  class EntityMetadata {
    var entityType: Option<EntityType>
    var name: Option<string>
    var originEntityCode: Option<EntityCode>
    var uri: Option<Uri>
    var description: Option<string>
    var codes: seq<EntityCode>
    var aliases: seq<string>
    var properties: Properties
    var previewImage: Option<RawDataPart>

    /** An empty metadata part. */
    constructor ()
      ensures entityType == None && name == None && originEntityCode == None
      ensures uri == None && description == None
      ensures codes == [] && aliases == [] && properties == map[] && previewImage == None
    {
      entityType := None;
      name := None;
      originEntityCode := None;
      uri := None;
      description := None;
      codes := [];
      aliases := [];
      properties := map[];
      previewImage := None;
    }
  }

  /** The NullReferenceException raised when the parser found no
      organization facts in the page. */
  datatype PopulateError = NoOrganizationData

  /** The aliases block: legal name, alternate name and copyright entity,
      each appended only if non-empty, and only with a schema.org
      organization. */
  method AddAliases(metadata: EntityMetadata, data: OrganizationData)
    modifies metadata`aliases
    ensures metadata.aliases == old(metadata.aliases) + Aliases(data)
  {
    if data.schemaOrgOrganization.Some? {
      var org := data.schemaOrgOrganization.value;
      if !IsNullOrEmpty(org.legalName) {
        metadata.aliases := metadata.aliases + [org.legalName.value];
      }
      if !IsNullOrEmpty(org.alternateName) {
        metadata.aliases := metadata.aliases + [org.alternateName.value];
      }
      if !IsNullOrEmpty(data.copyrightEntity) {
        metadata.aliases := metadata.aliases + [data.copyrightEntity.value];
      }
      assert metadata.aliases ==
        old(metadata.aliases) + (NonEmpty(org.legalName) + NonEmpty(org.alternateName) + NonEmpty(data.copyrightEntity));
    }
  }

  /** The writes of the scraped page fields. */
  method WriteScrapedProperties(metadata: EntityMetadata, data: OrganizationData, requestUri: Uri, technologiesListText: string, p: Platform)
    modifies metadata`properties
    ensures metadata.properties == ScrapedProperties(old(metadata.properties), data, requestUri, technologiesListText, p)
  {
    metadata.properties := metadata.properties[URI := Some(p.printUri(requestUri))];
    metadata.properties := metadata.properties[WebsiteDescription := data.websiteDescription];
    metadata.properties := metadata.properties[Title := data.websiteTitle];
    metadata.properties := metadata.properties[Logo := PrintUri(p, data.logo)];
    metadata.properties := metadata.properties[CopyrightEntity := data.copyrightEntity];
    metadata.properties := metadata.properties[Name := data.name];
    metadata.properties := metadata.properties[PhoneNumber := data.phoneNumber];
    metadata.properties := metadata.properties[FaxNumber := data.faxNumber];
    metadata.properties := metadata.properties[ContactEmail := data.contactEmail];
    metadata.properties := metadata.properties[Address := data.address];
    metadata.properties := metadata.properties[Country := data.country];
    metadata.properties := metadata.properties[TechnologiesListText := Some(technologiesListText)];
  }

  /** The writes of the schema.org fields. */
  method WriteSchemaOrgProperties(metadata: EntityMetadata, org: SchemaOrgOrganization)
    modifies metadata`properties
    ensures metadata.properties == SchemaOrgProperties(old(metadata.properties), org)
  {
    match org.address {
      case PostalAddress(country, postalCode, street) =>
        metadata.properties := metadata.properties[AddressCountry := CountryText(country)];
        metadata.properties := metadata.properties[PostalCode := postalCode];
        metadata.properties := metadata.properties[Address := street];
      case TextAddress(text) =>
        metadata.properties := metadata.properties[Address := Some(text)];
      case OtherAddress =>
      case NoAddress =>
    }
    metadata.properties := metadata.properties[FoundingDate := org.foundingDate];
    metadata.properties := metadata.properties[Duns := org.duns];
    metadata.properties := metadata.properties[GlobalLocationNumber := org.globalLocationNumber];
    metadata.properties := metadata.properties[IsicV4 := org.isicV4];
    metadata.properties := metadata.properties[LeiCode := org.leiCode];
    metadata.properties := metadata.properties[Naics := org.naics];
    metadata.properties := metadata.properties[TaxId := org.taxId];
    metadata.properties := metadata.properties[TaxId := org.vatId];
    metadata.properties := metadata.properties[TickerSymbol := TickerSymbolOf(org.kind)];
  }

  /** The loop over the social links. */
  method WriteSocialLinks(metadata: EntityMetadata, links: seq<(SocialUriType, Option<Uri>)>, p: Platform)
    modifies metadata`properties
    ensures metadata.properties == ApplySocialLinks(old(metadata.properties), links, p)
  {
    var i := 0;
    while i < |links|
      invariant 0 <= i <= |links|
      invariant metadata.properties == ApplySocialLinks(old(metadata.properties), links[..i], p)
    {
      var link := links[i];
      assert links[..i + 1][..i] == links[..i];
      if link.0 != Unknown {
        var key := p.socialVocabularyKey(link.0);
        if key.Some? {
          metadata.properties := metadata.properties[OrganizationSocial(key.value) := PrintUri(p, link.1)];
        }
        // an unmapped link type is only logged
      }
      i := i + 1;
    }
    assert links[..|links|] == links;
  }

  /** The switch over the registry codes. */
  method WriteCodes(metadata: EntityMetadata, codes: seq<(string, Option<string>)>)
    modifies metadata`properties
    ensures metadata.properties == ApplyCodes(old(metadata.properties), codes)
  {
    var j := 0;
    while j < |codes|
      invariant 0 <= j <= |codes|
      invariant metadata.properties == ApplyCodes(old(metadata.properties), codes[..j])
    {
      var c := codes[j];
      assert codes[..j + 1][..j] == codes[..j];
      if c.0 == "cvr" {
        metadata.properties := metadata.properties[CVR := c.1];
      } else if c.0 == "googleAnalytics" {
        metadata.properties := metadata.properties[GoogleAnalytics := c.1];
      }
      // "swift" is not handled yet and any other code is only logged
      j := j + 1;
    }
    assert codes[..|codes|] == codes;
  }

  /** Every property write of PopulateMetadata, in source order. */
  method WriteProperties(metadata: EntityMetadata, data: OrganizationData, requestUri: Uri, technologiesListText: string, p: Platform)
    modifies metadata`properties
    ensures metadata.properties ==
      MergeProperties(old(metadata.properties), data, requestUri, technologiesListText, p)
  {
    WriteScrapedProperties(metadata, data, requestUri, technologiesListText, p);
    if data.schemaOrgOrganization.Some? {
      WriteSchemaOrgProperties(metadata, data.schemaOrgOrganization.value);
    }
    WriteSocialLinks(metadata, data.socialLinks, p);
    if data.codes.Some? {
      WriteCodes(metadata, data.codes.value);
    }
  }

  /** The identity fields and the two appended codes: the origin entity
      code built from the value of the request's origin entity code, then
      the request's own origin entity code. */
  method SetIdentity(metadata: EntityMetadata, request: Request, data: OrganizationData)
    modifies metadata`entityType, metadata`name, metadata`originEntityCode, metadata`uri, metadata`description, metadata`codes
    ensures metadata.entityType == Some(request.entityType)
    ensures metadata.name == request.name
    ensures metadata.originEntityCode == Some(OriginEntityCode(request))
    ensures metadata.uri == data.requestUri
    ensures metadata.description == data.websiteDescription
    ensures metadata.codes == old(metadata.codes) + [OriginEntityCode(request), request.originEntityCode]
  {
    var code := OriginEntityCode(request);
    metadata.entityType := Some(request.entityType);
    metadata.name := request.name;
    metadata.originEntityCode := Some(code);
    metadata.uri := data.requestUri;
    metadata.description := data.websiteDescription;
    metadata.codes := metadata.codes + [code];
    metadata.codes := metadata.codes + [request.originEntityCode];
  }

  /** Everything PopulateMetadata writes once it has the organization facts;
      technologiesListText is the joined technology names. */
  method Fill(metadata: EntityMetadata, request: Request, data: OrganizationData, requestUri: Uri, technologiesListText: string, p: Platform)
    modifies metadata
    ensures metadata.entityType == Some(request.entityType)
    ensures metadata.name == request.name
    ensures metadata.originEntityCode == Some(OriginEntityCode(request))
    ensures metadata.uri == data.requestUri
    ensures metadata.description == data.websiteDescription
    ensures metadata.codes == old(metadata.codes) + [OriginEntityCode(request), request.originEntityCode]
    ensures metadata.aliases == old(metadata.aliases) + Aliases(data)
    ensures metadata.properties == MergeProperties(old(metadata.properties), data, requestUri, technologiesListText, p)
    ensures metadata.previewImage == old(metadata.previewImage)
  {
    SetIdentity(metadata, request, data);
    AddAliases(metadata, data);
    WriteProperties(metadata, data, requestUri, technologiesListText, p);
  }

  /** PopulateMetadata: reads the web result's organization facts (parsing
      them if they are not cached yet). When there are none it fails before
      writing anything. Otherwise it sets the metadata's identity fields,
      appends the two codes and the aliases, and writes the property bag as
      MergeProperties describes. It returns the facts it used. */
  method PopulateMetadata(metadata: EntityMetadata, result: WebResult, request: Request, p: Platform)
    returns (r: Result<OrganizationData, PopulateError>)
    modifies metadata, result
    ensures result.requestUri == old(result.requestUri) && result.restResponse == old(result.restResponse)
    ensures old(result.cachedOrganizationData).Some? ==>
      result.cachedOrganizationData == old(result.cachedOrganizationData)
    ensures old(result.cachedOrganizationData).None? ==>
      result.cachedOrganizationData == p.parse(result.requestUri, result.restResponse)
    ensures r.Success? <==> result.cachedOrganizationData.Some?
    ensures r.Success? ==> r.value == result.cachedOrganizationData.value
    ensures r.Failure? ==> unchanged(metadata)
    ensures r.Success? ==>
      && metadata.entityType == Some(request.entityType)
      && metadata.name == request.name
      && metadata.originEntityCode == Some(OriginEntityCode(request))
      && metadata.uri == r.value.requestUri
      && metadata.description == r.value.websiteDescription
      && metadata.codes == old(metadata.codes) + [OriginEntityCode(request), request.originEntityCode]
      && metadata.aliases == old(metadata.aliases) + Aliases(r.value)
      && metadata.properties ==
           MergeProperties(old(metadata.properties), r.value, result.requestUri, TechnologiesText(r.value.technologies), p)
      && metadata.previewImage == old(metadata.previewImage)
  {
    var fetched := result.GetOrganizationWebsiteMetadata(p);
    if fetched.None? {
      return Failure(NoOrganizationData);
    }
    var data := fetched.value;
    var technologiesListText := TechnologiesText(data.technologies);
    Fill(metadata, request, data, result.requestUri, technologiesListText, p);
    r := Success(data);
  }

  /** A metadata part created empty and populated from the organization
      facts data of a web result whose request URI is requestUri. */
  ghost predicate CreatedFrom(m: EntityMetadata, request: Request, data: OrganizationData, requestUri: Uri, p: Platform)
    reads m`entityType, m`name, m`originEntityCode, m`uri, m`description, m`codes, m`aliases, m`properties
  {
    && m.entityType == Some(request.entityType)
    && m.name == request.name
    && m.originEntityCode == Some(OriginEntityCode(request))
    && m.uri == data.requestUri
    && m.description == data.websiteDescription
    && m.codes == [OriginEntityCode(request), request.originEntityCode]
    && m.aliases == Aliases(data)
    && m.properties == MergeProperties(map[], data, requestUri, TechnologiesText(data.technologies), p)
  }

  /** A populated metadata part always carries the Logo property, the
      printed logo URI. */
  lemma CreatedLogo(m: EntityMetadata, request: Request, data: OrganizationData, requestUri: Uri, p: Platform)
    requires CreatedFrom(m, request, data, requestUri, p)
    ensures Logo in m.properties && m.properties[Logo] == PrintUri(p, data.logo)
  {
    MergedLogo(map[], data, requestUri, TechnologiesText(data.technologies), p);
  }

  /** CreateMetadata: a new metadata part populated from the web result. */
  method CreateMetadata(result: WebResult, request: Request, p: Platform)
    returns (r: Result<EntityMetadata, PopulateError>)
    modifies result
    ensures result.requestUri == old(result.requestUri) && result.restResponse == old(result.restResponse)
    ensures old(result.cachedOrganizationData).Some? ==>
      result.cachedOrganizationData == old(result.cachedOrganizationData)
    ensures old(result.cachedOrganizationData).None? ==>
      result.cachedOrganizationData == p.parse(result.requestUri, result.restResponse)
    ensures r.Success? <==> result.cachedOrganizationData.Some?
    ensures r.Success? ==>
      && fresh(r.value)
      && CreatedFrom(r.value, request, result.cachedOrganizationData.value, result.requestUri, p)
      && r.value.previewImage == None
  {
    var metadata := new EntityMetadata();
    var populated := PopulateMetadata(metadata, result, request, p);
    if populated.Failure? {
      return Failure(populated.error);
    }
    r := Success(metadata);
  }
}
