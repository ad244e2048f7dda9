/** The library calls the provider makes into code that is not part of this
    model (CluedIn's UriUtility and EntityType, System.Uri, the website
    parser, hashing and encoding). Each is a total function supplied by the
    caller, so every property proved here holds whatever they compute. */
module Platform {
  import opened Wrappers
  import opened Model

  datatype Platform = Platform(
    /** UriUtility.NormalizeHttpUri; may return null. */
    normalizeHttpUri: string -> Option<string>,
    /** UriUtility.IsSocialProfileUri */
    isSocialProfileUri: string -> bool,
    /** Uri.IsWellFormedUriString(text, UriKind.Absolute) */
    isWellFormedAbsoluteUri: string -> bool,
    /** EntityType.Is(typeName) */
    entityTypeIs: (EntityType, string) -> bool,
    /** UriUtility.GetCluedInOrganizationSocialVocabularyKey; null when unmapped. */
    socialVocabularyKey: SocialUriType -> Option<string>,
    /** Uri.ToString, which PrintIfAvailable uses */
    printUri: Uri -> string,
    /** OrganizationWebsiteParser.Parse; may return null. */
    parse: (Uri, WebRestResponse) -> Option<OrganizationData>,
    /** EntityCode.Key */
    codeKey: EntityCode -> string,
    /** FileHashUtility.GetMD5Base64String */
    md5Base64: seq<byte> -> string,
    /** Convert.ToBase64String */
    base64: seq<byte> -> string)

  /** PrintIfAvailable on a nullable Uri. */
  function PrintUri(p: Platform, u: Option<Uri>): (r: Option<string>)
    ensures r.Some? <==> u.Some?
  {
    match u
    case Some(uri) => Some(p.printUri(uri))
    case None => None
  }
}
