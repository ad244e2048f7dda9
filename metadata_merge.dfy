/** The metadata merge of WebExternalSearchProvider.PopulateMetadata, stated
    on values: the origin entity code, the alias list, the technologies text,
    and the property bag after the fixed sequence of overwrites (scraped
    fields, then schema.org fields, then social links, then registry codes).
    The method that performs these writes in place is in module Populate. */
module MetadataMerge {
  import opened Wrappers
  import opened Model
  import opened Platform
  import opened Strings

  /* ---------------------------------------------------------------------
     Identity
     --------------------------------------------------------------------- */

  /** CodeOrigin.CluedIn.CreateSpecific("website") */
  const WebsiteCodeOrigin: CodeOrigin := CodeOrigin("CluedIn", Some("website"))

  /** GetOriginEntityCode: an Organization code of the website origin whose
      value is the value of the request's origin entity code. */
  function OriginEntityCode(request: Request): EntityCode {
    EntityCode(Organization, WebsiteCodeOrigin, request.originEntityCode.value)
  }

  /** The code is an Organization code of the website origin, and two
      requests get the same code exactly when their origin codes have the
      same value: nothing else of the request, the query or the fetched page
      enters it. */
  lemma OriginEntityCodeIdentity(r1: Request, r2: Request)
    ensures OriginEntityCode(r1).entityType == Organization
    ensures OriginEntityCode(r1).origin == CodeOrigin("CluedIn", Some("website"))
    ensures OriginEntityCode(r1) == OriginEntityCode(r2) <==>
      r1.originEntityCode.value == r2.originEntityCode.value
  {
  }

  /* ---------------------------------------------------------------------
     Aliases and technologies
     --------------------------------------------------------------------- */

  /** The value, when it is neither null nor empty. */
  function NonEmpty(s: Option<string>): (r: seq<string>)
    ensures r == [] <==> IsNullOrEmpty(s)
  {
    if IsNullOrEmpty(s) then [] else [s.value]
  }

  /** The aliases PopulateMetadata appends: only when a schema.org
      organization is present, its legal name, its alternate name and the
      page's copyright entity, in that order, each only if non-empty. */
  function Aliases(data: OrganizationData): (r: seq<string>)
    ensures data.schemaOrgOrganization.None? ==> r == []
    ensures |r| <= 3 && forall i :: 0 <= i < |r| ==> r[i] != ""
    ensures data.schemaOrgOrganization.Some? && !IsNullOrEmpty(data.schemaOrgOrganization.value.legalName) ==>
      |r| > 0 && r[0] == data.schemaOrgOrganization.value.legalName.value
    ensures data.schemaOrgOrganization.Some? ==>
      |r| == |NonEmpty(data.schemaOrgOrganization.value.legalName)| +
             |NonEmpty(data.schemaOrgOrganization.value.alternateName)| + |NonEmpty(data.copyrightEntity)|
    ensures data.schemaOrgOrganization.Some? && !IsNullOrEmpty(data.schemaOrgOrganization.value.alternateName) ==>
      var at := |NonEmpty(data.schemaOrgOrganization.value.legalName)|;
      at < |r| && r[at] == data.schemaOrgOrganization.value.alternateName.value
    ensures data.schemaOrgOrganization.Some? && !IsNullOrEmpty(data.copyrightEntity) ==>
      |r| > 0 && r[|r| - 1] == data.copyrightEntity.value
    ensures forall a :: a in r ==>
      Some(a) == data.copyrightEntity ||
      (data.schemaOrgOrganization.Some? &&
        (Some(a) == data.schemaOrgOrganization.value.legalName || Some(a) == data.schemaOrgOrganization.value.alternateName))
  {
    match data.schemaOrgOrganization
    case None => []
    case Some(org) =>
      NonEmpty(org.legalName) + NonEmpty(org.alternateName) + NonEmpty(data.copyrightEntity)
  }

  /** technologies.Select(t => t.Name) */
  function TechnologyNames(technologies: seq<Technology>): seq<string> {
    if technologies == [] then [] else [technologies[0].name] + TechnologyNames(technologies[1..])
  }

  /** The names are the technologies' names, one per technology, in order. */
  lemma {:induction false} TechnologyNamesInOrder(technologies: seq<Technology>)
    ensures |TechnologyNames(technologies)| == |technologies|
    ensures forall i :: 0 <= i < |technologies| ==> TechnologyNames(technologies)[i] == technologies[i].name
  {
    if technologies != [] {
      TechnologyNamesInOrder(technologies[1..]);
    }
  }

  /** string.Join(", ", names ordered by name), duplicates kept. */
  function TechnologiesText(technologies: seq<Technology>): string {
    Join(", ", Sort(TechnologyNames(technologies)))
  }

  /** The joined names are the technology names in sorted order, each name
      as many times as it occurs: nothing is deduplicated. */
  lemma TechnologiesTextIsSortedJoin(technologies: seq<Technology>)
    ensures exists names: seq<string> ::
      && TechnologiesText(technologies) == Join(", ", names)
      && Sorted(names)
      && multiset(names) == multiset(TechnologyNames(technologies))
      && |names| == |technologies|
  {
    var names := Sort(TechnologyNames(technologies));
    SortSorted(TechnologyNames(technologies));
    TechnologyNamesInOrder(technologies);
    assert |multiset(names)| == |names|;
    assert |multiset(TechnologyNames(technologies))| == |TechnologyNames(technologies)|;
  }

  /* ---------------------------------------------------------------------
     The property bag
     --------------------------------------------------------------------- */

  /** Key k is absent from both maps or holds the same value in both. */
  predicate SameAt(a: Properties, b: Properties, k: Key) {
    (k in a <==> k in b) && (k in a ==> a[k] == b[k])
  }

  /** The scraped page fields, written first; requestUri is the web result's
      and technologiesText is the joined technology names (TechnologiesText). */
  function ScrapedProperties(props: Properties, data: OrganizationData, requestUri: Uri, technologiesText: string, p: Platform): Properties {
    props
      [URI := Some(p.printUri(requestUri))]
      [WebsiteDescription := data.websiteDescription]
      [Title := data.websiteTitle]
      [Logo := PrintUri(p, data.logo)]
      [CopyrightEntity := data.copyrightEntity]
      [Name := data.name]
      [PhoneNumber := data.phoneNumber]
      [FaxNumber := data.faxNumber]
      [ContactEmail := data.contactEmail]
      [Address := data.address]
      [Country := data.country]
      [TechnologiesListText := Some(technologiesText)]
  }

  /** The printed addressCountry: a Country object's name, else the value as
      it prints. */
  function CountryText(c: CountryValue): Option<string> {
    match c
    case CountryObject(name, printed) => if name.Some? then name else Some(printed)
    case OtherCountryValue(printed) => Some(printed)
    case NoCountry => None
  }

  /** The ticker symbol, for a Corporation only. */
  function TickerSymbolOf(kind: OrganizationKind): Option<string> {
    match kind
    case Corporation(symbol) => symbol
    case PlainOrganization => None
  }

  /** The schema.org address: a postal address writes its country, postal
      code and street; a text address writes Address; any other value
      writes nothing. */
  function AddressProperties(props: Properties, address: SchemaOrgAddress): Properties {
    match address
    case PostalAddress(country, postalCode, street) =>
      props[AddressCountry := CountryText(country)][PostalCode := postalCode][Address := street]
    case TextAddress(text) => props[Address := Some(text)]
    case OtherAddress => props
    case NoAddress => props
  }

  /** The schema.org fields, written over the scraped ones. */
  function SchemaOrgProperties(props: Properties, org: SchemaOrgOrganization): Properties {
    AddressProperties(props, org.address)
      [FoundingDate := org.foundingDate]
      [Duns := org.duns]
      [GlobalLocationNumber := org.globalLocationNumber]
      [IsicV4 := org.isicV4]
      [LeiCode := org.leiCode]
      [Naics := org.naics]
      [TaxId := org.taxId]
      [TaxId := org.vatId]
      [TickerSymbol := TickerSymbolOf(org.kind)]
  }

  /** One social link: Unknown links and link types without a vocabulary key
      write nothing. */
  function WriteSocialLink(props: Properties, link: (SocialUriType, Option<Uri>), p: Platform): Properties {
    if link.0 == Unknown then props
    else match p.socialVocabularyKey(link.0)
      case Some(name) => props[OrganizationSocial(name) := PrintUri(p, link.1)]
      case None => props
  }

  /** The social links, written in order. */
  function ApplySocialLinks(props: Properties, links: seq<(SocialUriType, Option<Uri>)>, p: Platform): Properties
    decreases |links|
  {
    if links == [] then props
    else WriteSocialLink(ApplySocialLinks(props, links[..|links| - 1], p), links[|links| - 1], p)
  }

  /** The switch on a registry code: "cvr" and "googleAnalytics" are written;
      "swift" and any other code write nothing. */
  function WriteCode(props: Properties, code: (string, Option<string>)): Properties {
    if code.0 == "cvr" then props[CVR := code.1]
    else if code.0 == "googleAnalytics" then props[GoogleAnalytics := code.1]
    else props
  }

  /** The registry codes, written in order. */
  function ApplyCodes(props: Properties, codes: seq<(string, Option<string>)>): Properties
    decreases |codes|
  {
    if codes == [] then props
    else WriteCode(ApplyCodes(props, codes[..|codes| - 1]), codes[|codes| - 1])
  }

  /** The schema.org fields, written only when the page has a schema.org
      organization. */
  function SchemaOrgStage(props: Properties, data: OrganizationData): Properties {
    if data.schemaOrgOrganization.Some? then SchemaOrgProperties(props, data.schemaOrgOrganization.value)
    else props
  }

  /** The bag after the scraped fields and, when present, the schema.org
      fields are written. */
  function BeforeLinks(props: Properties, data: OrganizationData, requestUri: Uri, technologiesText: string, p: Platform): Properties {
    SchemaOrgStage(ScrapedProperties(props, data, requestUri, technologiesText, p), data)
  }

  /** The social links, then the registry codes when they are not null. */
  function LaterStages(before: Properties, data: OrganizationData, p: Platform): Properties {
    var social := ApplySocialLinks(before, data.socialLinks, p);
    if data.codes.Some? then ApplyCodes(social, data.codes.value) else social
  }

  /** The property bag after PopulateMetadata, from the one before it, where
      technologiesText is TechnologiesText(data.technologies). */
  function MergeProperties(props: Properties, data: OrganizationData, requestUri: Uri, technologiesText: string, p: Platform): Properties {
    LaterStages(BeforeLinks(props, data, requestUri, technologiesText, p), data, p)
  }

  /* ---------------------------------------------------------------------
     Social links
     --------------------------------------------------------------------- */

  /** The key a link is written under, if any. */
  predicate LinkWritesTo(link: (SocialUriType, Option<Uri>), p: Platform, name: string) {
    link.0 != Unknown && p.socialVocabularyKey(link.0) == Some(name)
  }

  /** A key that no link is written under keeps its value: Unknown links and
      unmapped link types change nothing, and only organization social keys
      are ever written. */
  lemma {:induction false} SocialLinksKeepOtherKeys(props: Properties, links: seq<(SocialUriType, Option<Uri>)>, p: Platform, k: Key)
    requires forall j, name :: 0 <= j < |links| && LinkWritesTo(links[j], p, name) ==> k != OrganizationSocial(name)
    ensures SameAt(props, ApplySocialLinks(props, links, p), k)
    decreases |links|
  {
    if links != [] {
      var init := links[..|links| - 1];
      SocialLinksKeepOtherKeys(props, init, p, k);
      var last := links[|links| - 1];
      if last.0 != Unknown && p.socialVocabularyKey(last.0).Some? {
        assert LinkWritesTo(links[|links| - 1], p, p.socialVocabularyKey(last.0).value);
      }
    }
  }

  /** The last link written under a key decides its value. */
  lemma {:induction false} SocialLinkLastWins(props: Properties, links: seq<(SocialUriType, Option<Uri>)>, p: Platform, i: int, name: string)
    requires 0 <= i < |links| && LinkWritesTo(links[i], p, name)
    requires forall j :: i < j < |links| ==> !LinkWritesTo(links[j], p, name)
    ensures OrganizationSocial(name) in ApplySocialLinks(props, links, p)
    ensures ApplySocialLinks(props, links, p)[OrganizationSocial(name)] == PrintUri(p, links[i].1)
    decreases |links|
  {
    if i < |links| - 1 {
      var init := links[..|links| - 1];
      SocialLinkLastWins(props, init, p, i, name);
      assert !LinkWritesTo(links[|links| - 1], p, name);
    }
  }

  /** A link of type Unknown, or of a type the lookup does not map, changes
      nothing. */
  lemma SkippedLinkWritesNothing(props: Properties, links: seq<(SocialUriType, Option<Uri>)>, p: Platform, link: (SocialUriType, Option<Uri>))
    requires link.0 == Unknown || p.socialVocabularyKey(link.0).None?
    ensures ApplySocialLinks(props, links + [link], p) == ApplySocialLinks(props, links, p)
  {
    assert (links + [link])[..|links|] == links;
  }

  /* ---------------------------------------------------------------------
     Registry codes
     --------------------------------------------------------------------- */

  /** Only CVR and GoogleAnalytics are ever written by the codes. */
  lemma {:induction false} CodesKeepOtherKeys(props: Properties, codes: seq<(string, Option<string>)>, k: Key)
    requires k != CVR && k != GoogleAnalytics
    ensures SameAt(props, ApplyCodes(props, codes), k)
    decreases |codes|
  {
    if codes != [] {
      CodesKeepOtherKeys(props, codes[..|codes| - 1], k);
    }
  }

  /** The vocabulary key of a recognised registry code name. */
  function RegistryKey(name: string): Key
    requires name == "cvr" || name == "googleAnalytics"
  {
    if name == "cvr" then CVR else GoogleAnalytics
  }

  /** A recognised code that does not occur keeps its key's value. */
  lemma {:induction false} AbsentCodeKeepsKey(props: Properties, codes: seq<(string, Option<string>)>, name: string)
    requires name == "cvr" || name == "googleAnalytics"
    requires forall j :: 0 <= j < |codes| ==> codes[j].0 != name
    ensures SameAt(props, ApplyCodes(props, codes), RegistryKey(name))
    decreases |codes|
  {
    if codes != [] {
      AbsentCodeKeepsKey(props, codes[..|codes| - 1], name);
      assert codes[|codes| - 1].0 != name;
    }
  }

  /** The last entry of a recognised code decides its key's value. */
  lemma {:induction false} CodeLastWins(props: Properties, codes: seq<(string, Option<string>)>, i: int)
    requires 0 <= i < |codes| && (codes[i].0 == "cvr" || codes[i].0 == "googleAnalytics")
    requires forall j :: i < j < |codes| ==> codes[j].0 != codes[i].0
    ensures RegistryKey(codes[i].0) in ApplyCodes(props, codes)
    ensures ApplyCodes(props, codes)[RegistryKey(codes[i].0)] == codes[i].1
    decreases |codes|
  {
    if i < |codes| - 1 {
      var init := codes[..|codes| - 1];
      assert init[i] == codes[i];
      CodeLastWins(props, init, i);
      assert codes[|codes| - 1].0 != codes[i].0;
    }
  }

  /** "swift" and every other code name but "cvr" and "googleAnalytics"
      change nothing. */
  lemma UnrecognisedCodeWritesNothing(props: Properties, codes: seq<(string, Option<string>)>, code: (string, Option<string>))
    requires code.0 != "cvr" && code.0 != "googleAnalytics"
    ensures ApplyCodes(props, codes + [code]) == ApplyCodes(props, codes)
  {
    assert (codes + [code])[..|codes|] == codes;
  }

  /* ---------------------------------------------------------------------
     Field precedence in the merged bag
     --------------------------------------------------------------------- */

  /** The keys the scraped stage writes. */
  predicate ScrapedKey(k: Key) {
    k == URI || k == WebsiteDescription || k == Title || k == Logo || k == CopyrightEntity || k == Name ||
    k == PhoneNumber || k == FaxNumber || k == ContactEmail || k == Address || k == Country || k == TechnologiesListText
  }

  /** The registry fields of a schema.org organization. */
  predicate RegistryField(k: Key) {
    k == FoundingDate || k == Duns || k == GlobalLocationNumber || k == IsicV4 || k == LeiCode ||
    k == Naics || k == TaxId || k == TickerSymbol
  }

  /** The keys the schema.org stage can write. */
  predicate SchemaOrgKey(k: Key) {
    k == AddressCountry || k == PostalCode || k == Address || RegistryField(k)
  }

  /** Website keys PopulateMetadata never writes. */
  predicate NeverWritten(k: Key) {
    k == Description || k == StreetAddress || k == VatId
  }

  lemma ScrapedKeepsOtherKeys(props: Properties, data: OrganizationData, requestUri: Uri, technologiesText: string, p: Platform, k: Key)
    requires !ScrapedKey(k)
    ensures SameAt(props, ScrapedProperties(props, data, requestUri, technologiesText, p), k)
  {
  }

  lemma AddressKeepsOtherKeys(props: Properties, address: SchemaOrgAddress, k: Key)
    requires k != AddressCountry && k != PostalCode && k != Address
    ensures SameAt(props, AddressProperties(props, address), k)
  {
  }

  lemma SchemaOrgKeepsOtherKeys(props: Properties, org: SchemaOrgOrganization, k: Key)
    requires !SchemaOrgKey(k)
    ensures SameAt(props, SchemaOrgProperties(props, org), k)
  {
    AddressKeepsOtherKeys(props, org.address, k);
  }

  /** The schema.org stage, present or not, leaves every key it cannot
      write. */
  lemma SchemaOrgStageKeepsKey(props: Properties, data: OrganizationData, k: Key)
    requires data.schemaOrgOrganization.Some? ==> !SchemaOrgKey(k)
    ensures SameAt(props, SchemaOrgStage(props, data), k)
  {
    if data.schemaOrgOrganization.Some? {
      SchemaOrgKeepsOtherKeys(props, data.schemaOrgOrganization.value, k);
    }
  }

  /** Without a postal address the schema.org stage leaves AddressCountry and
      PostalCode alone. */
  lemma NonPostalKeepsPostalFields(props: Properties, org: SchemaOrgOrganization)
    requires !org.address.PostalAddress?
    ensures SameAt(props, SchemaOrgProperties(props, org), AddressCountry)
    ensures SameAt(props, SchemaOrgProperties(props, org), PostalCode)
  {
  }

  /** The schema.org stage without a postal address, present or not, leaves
      AddressCountry and PostalCode alone. */
  lemma PostalStageKeepsPostalFields(props: Properties, data: OrganizationData)
    requires !(data.schemaOrgOrganization.Some? && data.schemaOrgOrganization.value.address.PostalAddress?)
    ensures SameAt(props, SchemaOrgStage(props, data), AddressCountry)
    ensures SameAt(props, SchemaOrgStage(props, data), PostalCode)
  {
    if data.schemaOrgOrganization.Some? {
      NonPostalKeepsPostalFields(props, data.schemaOrgOrganization.value);
    }
  }

  /** The address fields a postal address writes. */
  lemma PostalValues(props: Properties, org: SchemaOrgOrganization)
    requires org.address.PostalAddress?
    ensures var s := SchemaOrgProperties(props, org);
      && AddressCountry in s && s[AddressCountry] == CountryText(org.address.addressCountry)
      && PostalCode in s && s[PostalCode] == org.address.postalCode
      && Address in s && s[Address] == org.address.streetAddress
  {
  }

  /** The social-link and code stages leave every Website key other than CVR
      and GoogleAnalytics as they found it. */
  lemma LaterStagesKeepWebsiteKey(before: Properties, data: OrganizationData, p: Platform, k: Key)
    requires !k.OrganizationSocial? && k != CVR && k != GoogleAnalytics
    ensures SameAt(before, LaterStages(before, data, p), k)
  {
    SocialLinksKeepOtherKeys(before, data.socialLinks, p, k);
    if data.codes.Some? {
      CodesKeepOtherKeys(ApplySocialLinks(before, data.socialLinks, p), data.codes.value, k);
    }
  }

  /** Address: the postal street address when schema.org gives a postal
      address, else the schema.org text address, else the scraped address. */
  lemma AddressPrecedence(props: Properties, data: OrganizationData, requestUri: Uri, technologiesText: string, p: Platform)
    ensures Address in MergeProperties(props, data, requestUri, technologiesText, p)
    ensures data.schemaOrgOrganization.Some? && data.schemaOrgOrganization.value.address.PostalAddress? ==>
      MergeProperties(props, data, requestUri, technologiesText, p)[Address] == data.schemaOrgOrganization.value.address.streetAddress
    ensures data.schemaOrgOrganization.Some? && data.schemaOrgOrganization.value.address.TextAddress? ==>
      MergeProperties(props, data, requestUri, technologiesText, p)[Address] == Some(data.schemaOrgOrganization.value.address.text)
    ensures data.schemaOrgOrganization.None? ||
            data.schemaOrgOrganization.value.address.OtherAddress? ||
            data.schemaOrgOrganization.value.address.NoAddress? ==>
      MergeProperties(props, data, requestUri, technologiesText, p)[Address] == data.address
  {
    LaterStagesKeepWebsiteKey(BeforeLinks(props, data, requestUri, technologiesText, p), data, p, Address);
  }

  /** A schema.org postal address writes AddressCountry and PostalCode, and
      no later stage overwrites them. */
  lemma PostalFieldsFromPostalAddress(props: Properties, data: OrganizationData, requestUri: Uri, technologiesText: string, p: Platform)
    requires data.schemaOrgOrganization.Some? && data.schemaOrgOrganization.value.address.PostalAddress?
    ensures var postal := data.schemaOrgOrganization.value.address;
      var merged := MergeProperties(props, data, requestUri, technologiesText, p);
      && AddressCountry in merged && merged[AddressCountry] == CountryText(postal.addressCountry)
      && PostalCode in merged && merged[PostalCode] == postal.postalCode
  {
    var before := BeforeLinks(props, data, requestUri, technologiesText, p);
    LaterStagesKeepWebsiteKey(before, data, p, AddressCountry);
    LaterStagesKeepWebsiteKey(before, data, p, PostalCode);
    PostalValues(ScrapedProperties(props, data, requestUri, technologiesText, p), data.schemaOrgOrganization.value);
  }

  /** Without a schema.org postal address AddressCountry and PostalCode keep
      their previous values. */
  lemma PostalFieldsKeptOtherwise(props: Properties, data: OrganizationData, requestUri: Uri, technologiesText: string, p: Platform)
    requires !(data.schemaOrgOrganization.Some? && data.schemaOrgOrganization.value.address.PostalAddress?)
    ensures SameAt(props, MergeProperties(props, data, requestUri, technologiesText, p), AddressCountry)
    ensures SameAt(props, MergeProperties(props, data, requestUri, technologiesText, p), PostalCode)
  {
    var scraped := ScrapedProperties(props, data, requestUri, technologiesText, p);
    var before := BeforeLinks(props, data, requestUri, technologiesText, p);
    var merged := LaterStages(before, data, p);
    PostalStageKeepsPostalFields(scraped, data);
    ScrapedKeepsOtherKeys(props, data, requestUri, technologiesText, p, AddressCountry);
    LaterStagesKeepWebsiteKey(before, data, p, AddressCountry);
    SameAtTransitive(props, scraped, before, AddressCountry);
    SameAtTransitive(props, before, merged, AddressCountry);
    ScrapedKeepsOtherKeys(props, data, requestUri, technologiesText, p, PostalCode);
    LaterStagesKeepWebsiteKey(before, data, p, PostalCode);
    SameAtTransitive(props, scraped, before, PostalCode);
    SameAtTransitive(props, before, merged, PostalCode);
  }

  lemma SameAtTransitive(a: Properties, b: Properties, c: Properties, k: Key)
    requires SameAt(a, b, k) && SameAt(b, c, k)
    ensures SameAt(a, c, k)
  {
  }

  /** The schema.org stage leaves the scraped fields other than Address. */
  lemma ScrapedKeyBeforeLinks(props: Properties, data: OrganizationData, requestUri: Uri, technologiesText: string, p: Platform, k: Key)
    requires !SchemaOrgKey(k)
    ensures SameAt(ScrapedProperties(props, data, requestUri, technologiesText, p), BeforeLinks(props, data, requestUri, technologiesText, p), k)
  {
    SchemaOrgStageKeepsKey(ScrapedProperties(props, data, requestUri, technologiesText, p), data, k);
  }

  /** A key no later stage writes keeps its scraped value: in particular
      every scraped field other than Address. */
  lemma ScrapedKeyKept(props: Properties, data: OrganizationData, requestUri: Uri, technologiesText: string, p: Platform, k: Key)
    requires !SchemaOrgKey(k) && !k.OrganizationSocial? && k != CVR && k != GoogleAnalytics
    ensures SameAt(ScrapedProperties(props, data, requestUri, technologiesText, p), MergeProperties(props, data, requestUri, technologiesText, p), k)
  {
    var before := BeforeLinks(props, data, requestUri, technologiesText, p);
    ScrapedKeyBeforeLinks(props, data, requestUri, technologiesText, p, k);
    LaterStagesKeepWebsiteKey(before, data, p, k);
    SameAtTransitive(ScrapedProperties(props, data, requestUri, technologiesText, p), before, LaterStages(before, data, p), k);
  }

  /** The values the scraped stage writes. */
  lemma ScrapedValues(props: Properties, data: OrganizationData, requestUri: Uri, technologiesText: string, p: Platform)
    ensures var s := ScrapedProperties(props, data, requestUri, technologiesText, p);
      && URI in s && s[URI] == Some(p.printUri(requestUri))
      && WebsiteDescription in s && s[WebsiteDescription] == data.websiteDescription
      && Title in s && s[Title] == data.websiteTitle
      && Logo in s && s[Logo] == PrintUri(p, data.logo)
      && CopyrightEntity in s && s[CopyrightEntity] == data.copyrightEntity
      && Name in s && s[Name] == data.name
      && PhoneNumber in s && s[PhoneNumber] == data.phoneNumber
      && FaxNumber in s && s[FaxNumber] == data.faxNumber
      && ContactEmail in s && s[ContactEmail] == data.contactEmail
      && Address in s && s[Address] == data.address
      && Country in s && s[Country] == data.country
      && TechnologiesListText in s && s[TechnologiesListText] == Some(technologiesText)
  {
  }

  /** Only Address, of the scraped fields, is written again later. */
  lemma ScrapedKeyNotRewritten(k: Key)
    requires ScrapedKey(k) && k != Address
    ensures !SchemaOrgKey(k) && !k.OrganizationSocial? && k != CVR && k != GoogleAnalytics
  {
  }

  /** Every scraped field other than Address holds in the merged bag what the
      scraped stage wrote (ScrapedValues gives those values). */
  lemma ScrapedFieldsKept(props: Properties, data: OrganizationData, requestUri: Uri, technologiesText: string, p: Platform)
    ensures forall k :: ScrapedKey(k) && k != Address ==>
      SameAt(ScrapedProperties(props, data, requestUri, technologiesText, p), MergeProperties(props, data, requestUri, technologiesText, p), k)
  {
    forall k | ScrapedKey(k) && k != Address
      ensures SameAt(ScrapedProperties(props, data, requestUri, technologiesText, p), MergeProperties(props, data, requestUri, technologiesText, p), k)
    {
      ScrapedKeyNotRewritten(k);
      ScrapedKeyKept(props, data, requestUri, technologiesText, p, k);
    }
  }

  /** The Logo key is always present in the merged bag, holding the printed
      logo URI, null when the page has no logo. */
  lemma MergedLogo(props: Properties, data: OrganizationData, requestUri: Uri, technologiesText: string, p: Platform)
    ensures Logo in MergeProperties(props, data, requestUri, technologiesText, p)
    ensures MergeProperties(props, data, requestUri, technologiesText, p)[Logo] == PrintUri(p, data.logo)
  {
    ScrapedValues(props, data, requestUri, technologiesText, p);
    ScrapedKeyKept(props, data, requestUri, technologiesText, p, Logo);
  }

  /** The values the schema.org stage writes for the registry fields: TaxId
      is written twice and ends holding the VAT id. */
  lemma SchemaOrgValues(props: Properties, org: SchemaOrgOrganization)
    ensures var s := SchemaOrgProperties(props, org);
      && FoundingDate in s && s[FoundingDate] == org.foundingDate
      && Duns in s && s[Duns] == org.duns
      && GlobalLocationNumber in s && s[GlobalLocationNumber] == org.globalLocationNumber
      && IsicV4 in s && s[IsicV4] == org.isicV4
      && LeiCode in s && s[LeiCode] == org.leiCode
      && Naics in s && s[Naics] == org.naics
      && TaxId in s && s[TaxId] == org.vatId
      && TickerSymbol in s && s[TickerSymbol] == TickerSymbolOf(org.kind)
  {
  }

  /** A key neither the scraped nor the schema.org stage writes. */
  lemma BeforeLinksKeepsKey(props: Properties, data: OrganizationData, requestUri: Uri, technologiesText: string, p: Platform, k: Key)
    requires !ScrapedKey(k) && (data.schemaOrgOrganization.Some? ==> !SchemaOrgKey(k))
    ensures SameAt(props, BeforeLinks(props, data, requestUri, technologiesText, p), k)
  {
    var scraped := ScrapedProperties(props, data, requestUri, technologiesText, p);
    ScrapedKeepsOtherKeys(props, data, requestUri, technologiesText, p, k);
    SchemaOrgStageKeepsKey(scraped, data, k);
    SameAtTransitive(props, scraped, SchemaOrgStage(scraped, data), k);
  }

  /** With a schema.org organization its registry fields are written, and
      TaxId, written twice, ends holding the VAT id. */
  lemma SchemaOrgFields(props: Properties, data: OrganizationData, requestUri: Uri, technologiesText: string, p: Platform)
    requires data.schemaOrgOrganization.Some?
    ensures var org := data.schemaOrgOrganization.value;
      var merged := MergeProperties(props, data, requestUri, technologiesText, p);
      && FoundingDate in merged && merged[FoundingDate] == org.foundingDate
      && Duns in merged && merged[Duns] == org.duns
      && GlobalLocationNumber in merged && merged[GlobalLocationNumber] == org.globalLocationNumber
      && IsicV4 in merged && merged[IsicV4] == org.isicV4
      && LeiCode in merged && merged[LeiCode] == org.leiCode
      && Naics in merged && merged[Naics] == org.naics
      && TaxId in merged && merged[TaxId] == org.vatId
      && TickerSymbol in merged && merged[TickerSymbol] == TickerSymbolOf(org.kind)
  {
    var before := BeforeLinks(props, data, requestUri, technologiesText, p);
    SchemaOrgValues(ScrapedProperties(props, data, requestUri, technologiesText, p), data.schemaOrgOrganization.value);
    LaterStagesKeepWebsiteKey(before, data, p, FoundingDate);
    LaterStagesKeepWebsiteKey(before, data, p, Duns);
    LaterStagesKeepWebsiteKey(before, data, p, GlobalLocationNumber);
    LaterStagesKeepWebsiteKey(before, data, p, IsicV4);
    LaterStagesKeepWebsiteKey(before, data, p, LeiCode);
    LaterStagesKeepWebsiteKey(before, data, p, Naics);
    LaterStagesKeepWebsiteKey(before, data, p, TaxId);
    LaterStagesKeepWebsiteKey(before, data, p, TickerSymbol);
  }

  /** A key that is never written is written by no stage. */
  lemma NeverWrittenByAnyStage(k: Key)
    requires NeverWritten(k)
    ensures !ScrapedKey(k) && !SchemaOrgKey(k) && !k.OrganizationSocial? && k != CVR && k != GoogleAnalytics
  {
  }

  /** A registry field is written by the schema.org stage only. */
  lemma RegistryFieldOnlySchemaOrg(k: Key)
    requires RegistryField(k)
    ensures !ScrapedKey(k) && !k.OrganizationSocial? && k != CVR && k != GoogleAnalytics
  {
  }

  /** Description, StreetAddress and VatId are never written. */
  lemma NeverWrittenKept(props: Properties, data: OrganizationData, requestUri: Uri, technologiesText: string, p: Platform, k: Key)
    requires NeverWritten(k)
    ensures SameAt(props, MergeProperties(props, data, requestUri, technologiesText, p), k)
  {
    NeverWrittenByAnyStage(k);
    var before := BeforeLinks(props, data, requestUri, technologiesText, p);
    BeforeLinksKeepsKey(props, data, requestUri, technologiesText, p, k);
    LaterStagesKeepWebsiteKey(before, data, p, k);
    SameAtTransitive(props, before, LaterStages(before, data, p), k);
  }

  /** Without a schema.org organization the registry fields keep their
      values. */
  lemma RegistryFieldsKeptWithoutSchemaOrg(props: Properties, data: OrganizationData, requestUri: Uri, technologiesText: string, p: Platform, k: Key)
    requires RegistryField(k) && data.schemaOrgOrganization.None?
    ensures SameAt(props, MergeProperties(props, data, requestUri, technologiesText, p), k)
  {
    RegistryFieldOnlySchemaOrg(k);
    var before := BeforeLinks(props, data, requestUri, technologiesText, p);
    BeforeLinksKeepsKey(props, data, requestUri, technologiesText, p, k);
    LaterStagesKeepWebsiteKey(before, data, p, k);
    SameAtTransitive(props, before, LaterStages(before, data, p), k);
  }

  /** In the merged bag each organization social key holds the URI of the
      last link written under it, and codes never touch social keys. */
  lemma MergedSocialLinks(props: Properties, data: OrganizationData, requestUri: Uri, technologiesText: string, p: Platform, i: int, name: string)
    requires 0 <= i < |data.socialLinks| && LinkWritesTo(data.socialLinks[i], p, name)
    requires forall j :: i < j < |data.socialLinks| ==> !LinkWritesTo(data.socialLinks[j], p, name)
    ensures OrganizationSocial(name) in MergeProperties(props, data, requestUri, technologiesText, p)
    ensures MergeProperties(props, data, requestUri, technologiesText, p)[OrganizationSocial(name)] == PrintUri(p, data.socialLinks[i].1)
  {
    var before := BeforeLinks(props, data, requestUri, technologiesText, p);
    SocialLinkLastWins(before, data.socialLinks, p, i, name);
    if data.codes.Some? {
      CodesKeepOtherKeys(ApplySocialLinks(before, data.socialLinks, p), data.codes.value, OrganizationSocial(name));
    }
  }

  /** The later stages on their own: a recognised code with no entry keeps
      its key's value. */
  lemma LaterStagesAbsentCode(before: Properties, data: OrganizationData, p: Platform, name: string)
    requires name == "cvr" || name == "googleAnalytics"
    requires data.codes.Some? ==> forall j :: 0 <= j < |data.codes.value| ==> data.codes.value[j].0 != name
    ensures SameAt(before, LaterStages(before, data, p), RegistryKey(name))
  {
    SocialLinksKeepOtherKeys(before, data.socialLinks, p, RegistryKey(name));
    if data.codes.Some? {
      var social := ApplySocialLinks(before, data.socialLinks, p);
      AbsentCodeKeepsKey(social, data.codes.value, name);
      SameAtTransitive(before, social, ApplyCodes(social, data.codes.value), RegistryKey(name));
    }
  }

  /** In the merged bag CVR and GoogleAnalytics keep their previous values
      when the codes are null or hold no entry of that name. */
  lemma MergedAbsentCode(props: Properties, data: OrganizationData, requestUri: Uri, technologiesText: string, p: Platform, name: string)
    requires name == "cvr" || name == "googleAnalytics"
    requires data.codes.Some? ==> forall j :: 0 <= j < |data.codes.value| ==> data.codes.value[j].0 != name
    ensures SameAt(props, MergeProperties(props, data, requestUri, technologiesText, p), RegistryKey(name))
  {
    var before := BeforeLinks(props, data, requestUri, technologiesText, p);
    BeforeLinksKeepsKey(props, data, requestUri, technologiesText, p, RegistryKey(name));
    LaterStagesAbsentCode(before, data, p, name);
    SameAtTransitive(props, before, LaterStages(before, data, p), RegistryKey(name));
  }

  /** In the merged bag a social key that no link is written under keeps its
      previous value: no stage writes it. */
  lemma MergedSocialKept(props: Properties, data: OrganizationData, requestUri: Uri, technologiesText: string, p: Platform, name: string)
    requires forall j :: 0 <= j < |data.socialLinks| ==> !LinkWritesTo(data.socialLinks[j], p, name)
    ensures SameAt(props, MergeProperties(props, data, requestUri, technologiesText, p), OrganizationSocial(name))
  {
    var k := OrganizationSocial(name);
    var before := BeforeLinks(props, data, requestUri, technologiesText, p);
    var social := ApplySocialLinks(before, data.socialLinks, p);
    BeforeLinksKeepsKey(props, data, requestUri, technologiesText, p, k);
    SocialLinksKeepOtherKeys(before, data.socialLinks, p, k);
    SameAtTransitive(props, before, social, k);
    if data.codes.Some? {
      CodesKeepOtherKeys(social, data.codes.value, k);
      SameAtTransitive(props, social, ApplyCodes(social, data.codes.value), k);
    }
  }

  /** In the merged bag CVR and GoogleAnalytics hold the value of the last
      code entry of that name. */
  lemma MergedCodeLastWins(props: Properties, data: OrganizationData, requestUri: Uri, technologiesText: string, p: Platform, i: int)
    requires data.codes.Some? && 0 <= i < |data.codes.value|
    requires data.codes.value[i].0 == "cvr" || data.codes.value[i].0 == "googleAnalytics"
    requires forall j :: i < j < |data.codes.value| ==> data.codes.value[j].0 != data.codes.value[i].0
    ensures RegistryKey(data.codes.value[i].0) in MergeProperties(props, data, requestUri, technologiesText, p)
    ensures MergeProperties(props, data, requestUri, technologiesText, p)[RegistryKey(data.codes.value[i].0)] == data.codes.value[i].1
  {
    var before := BeforeLinks(props, data, requestUri, technologiesText, p);
    CodeLastWins(ApplySocialLinks(before, data.socialLinks, p), data.codes.value, i);
  }
}
