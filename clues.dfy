/** Clue building (WebExternalSearchProvider.BuildClues): one clue per web
    result, carrying the populated entity metadata and, when the logo can be
    downloaded, the logo as a preview image. */
module Clues {
  import opened Wrappers
  import opened Model
  import opened Platform
  import opened WebResults
  import opened MetadataMerge
  import opened Populate

  /** WebExternalSearchConstants.ProviderId, the provider's Id. */
  const ProviderId: string := "41FD7617-F9AD-45AA-A20A-04F2C26BDDC6"
  const PreviewImagePartType: string := "/RawData/PreviewImage"
  /** MimeType.Jpeg.Code */
  const JpegMimeType: string := "image/jpeg"

  /** What opening and reading the logo URL gives: an exception, or the bytes
      StreamUtilies.ReadFully returns, which may be null. */
  datatype LogoDownload = DownloadFailed | Downloaded(bytes: Option<seq<byte>>)

  /** A clue: the entity code it is about, the organization it belongs to,
      the provider that produced it, its entity data and its raw-data
      details. */
  class Clue {
    var code: EntityCode
    var organization: string
    var originProviderDefinitionId: Option<string>
    var entityData: EntityMetadata
    var rawData: seq<RawDataPart>

    constructor (code: EntityCode, organization: string)
      ensures this.code == code && this.organization == organization
      ensures originProviderDefinitionId == None && rawData == []
      ensures fresh(entityData)
      ensures entityData.entityType == None && entityData.name == None && entityData.originEntityCode == None
      ensures entityData.uri == None && entityData.description == None
      ensures entityData.codes == [] && entityData.aliases == [] && entityData.properties == map[]
      ensures entityData.previewImage == None
    {
      this.code := code;
      this.organization := organization;
      originProviderDefinitionId := None;
      entityData := new EntityMetadata();
      rawData := [];
    }
  }

  /** The preview image part BuildClues attaches: present exactly when the
      page has a logo whose download yields bytes, labelled JPEG whatever
      the bytes are, named after the clue's code, with the bytes' MD5 and the
      bytes themselves base64-encoded. A missing logo, an exception or null
      bytes give no part. */
  function PreviewImage(logo: Option<Uri>, download: Uri -> LogoDownload, code: EntityCode, p: Platform): (r: Option<RawDataPart>)
    ensures r.Some? <==> logo.Some? && download(logo.value).Downloaded? && download(logo.value).bytes.Some?
    ensures r.Some? ==>
      var bytes := download(logo.value).bytes.value;
      && r.value.partType == PreviewImagePartType
      && r.value.mimeType == JpegMimeType
      && r.value.fileName == "preview_" + p.codeKey(code)
      && r.value.rawDataMd5 == p.md5Base64(bytes)
      && r.value.rawData == p.base64(bytes)
  {
    if logo.None? then None
    else match download(logo.value)
      case DownloadFailed => None
      case Downloaded(bytes) =>
        if bytes.None? then None
        else Some(RawDataPart(PreviewImagePartType, JpegMimeType, "preview_" + p.codeKey(code),
                              p.md5Base64(bytes.value), p.base64(bytes.value)))
  }

  /** Attaches the logo preview, when there is one, both as a raw-data part
      of the clue and as the entity data's preview image. */
  method AttachPreview(clue: Clue, logo: Option<Uri>, download: Uri -> LogoDownload, code: EntityCode, p: Platform)
    modifies clue`rawData, clue.entityData`previewImage
    ensures var preview := PreviewImage(logo, download, code, p);
      && clue.rawData == old(clue.rawData) + (if preview.Some? then [preview.value] else [])
      && clue.entityData.previewImage == (if preview.Some? then preview else old(clue.entityData.previewImage))
  {
    if logo.Some? {
      var outcome := download(logo.value);
      if outcome.Downloaded? && outcome.bytes.Some? {
        var part := RawDataPart(PreviewImagePartType, JpegMimeType, "preview_" + p.codeKey(code),
                                p.md5Base64(outcome.bytes.value), p.base64(outcome.bytes.value));
        clue.rawData := clue.rawData + [part];
        clue.entityData.previewImage := Some(part);
      }
    }
    // A null logo makes the download throw; every exception here is swallowed.
  }

  /** What the base class's DownloadPreviewImage attaches, given the bag:
      it is called only when the Logo key is present, with that key's
      value. */
  function BasePreviewPart(props: Properties, downloadPreviewImage: Option<string> -> Option<RawDataPart>): Option<RawDataPart> {
    if Logo in props then downloadPreviewImage(props[Logo]) else None
  }

  /** The two preview downloads, in order: the base class's on the Logo
      property, then the direct one on the logo URI of the organization
      facts, which are read again from the result's cache. Each part
      produced is attached as a raw-data part of the clue and becomes the
      entity data's preview image, so the direct one wins when both
      succeed. */
  method AttachPreviews(clue: Clue, result: WebResult, ghost data: OrganizationData, p: Platform,
                        downloadPreviewImage: Option<string> -> Option<RawDataPart>, download: Uri -> LogoDownload)
    requires result.cachedOrganizationData == Some(data)
    modifies result`cachedOrganizationData, result`parseCount, clue`rawData, clue.entityData`previewImage
    ensures result.cachedOrganizationData == Some(data)
    ensures var base := BasePreviewPart(clue.entityData.properties, downloadPreviewImage);
      var preview := PreviewImage(data.logo, download, clue.code, p);
      && clue.rawData == old(clue.rawData) + (if base.Some? then [base.value] else []) + (if preview.Some? then [preview.value] else [])
      && clue.entityData.previewImage == (if preview.Some? then preview else if base.Some? then base else old(clue.entityData.previewImage))
  {
    if Logo in clue.entityData.properties {
      var base := downloadPreviewImage(clue.entityData.properties[Logo]);
      if base.Some? {
        clue.rawData := clue.rawData + [base.value];
        clue.entityData.previewImage := base;
      }
    }
    var fetched := result.GetOrganizationWebsiteMetadata(p);
    AttachPreview(clue, fetched.value.logo, download, clue.code, p);
  }

  /** The clue BuildClues returns: a new clue for the origin entity code,
      tagged with the provider, whose entity data PopulateMetadata fills in,
      with both previews attached. */
  method BuildClue(result: WebResult, request: Request, p: Platform, organization: string,
                   downloadPreviewImage: Option<string> -> Option<RawDataPart>, download: Uri -> LogoDownload)
    returns (r: Result<Clue, PopulateError>)
    modifies result
    ensures result.requestUri == old(result.requestUri) && result.restResponse == old(result.restResponse)
    ensures old(result.cachedOrganizationData).Some? ==>
      result.cachedOrganizationData == old(result.cachedOrganizationData)
    ensures old(result.cachedOrganizationData).None? ==>
      result.cachedOrganizationData == p.parse(result.requestUri, result.restResponse)
    ensures r.Success? <==> result.cachedOrganizationData.Some?
    ensures r.Success? ==>
      var data := result.cachedOrganizationData.value;
      var code := OriginEntityCode(request);
      var base := BasePreviewPart(r.value.entityData.properties, downloadPreviewImage);
      var preview := PreviewImage(data.logo, download, code, p);
      && fresh(r.value) && fresh(r.value.entityData)
      && r.value.code == code
      && r.value.organization == organization
      && r.value.originProviderDefinitionId == Some(ProviderId)
      && CreatedFrom(r.value.entityData, request, data, result.requestUri, p)
      && r.value.entityData.previewImage == (if preview.Some? then preview else base)
      && r.value.rawData == (if base.Some? then [base.value] else []) + (if preview.Some? then [preview.value] else [])
  {
    var clue := new Clue(OriginEntityCode(request), organization);
    clue.originProviderDefinitionId := Some(ProviderId);
    var populated := PopulateMetadata(clue.entityData, result, request, p);
    if populated.Failure? {
      return Failure(populated.error);
    }
    AttachPreviews(clue, result, populated.value, p, downloadPreviewImage, download);
    r := Success(clue);
  }

  /** BuildClues: exactly one clue, for the origin entity code, whose entity
      data PopulateMetadata fills in. The base class's preview download runs
      on the Logo property, which the merge always writes; then the logo is
      read again directly and, when that yields bytes, its preview is
      attached too and becomes the preview image. It fails only where
      PopulateMetadata fails. */
  method BuildClues(result: WebResult, request: Request, p: Platform, organization: string,
                    downloadPreviewImage: Option<string> -> Option<RawDataPart>, download: Uri -> LogoDownload)
    returns (r: Result<seq<Clue>, PopulateError>)
    modifies result
    ensures result.requestUri == old(result.requestUri) && result.restResponse == old(result.restResponse)
    ensures old(result.cachedOrganizationData).Some? ==>
      result.cachedOrganizationData == old(result.cachedOrganizationData)
    ensures old(result.cachedOrganizationData).None? ==>
      result.cachedOrganizationData == p.parse(result.requestUri, result.restResponse)
    ensures r.Success? <==> result.cachedOrganizationData.Some?
    ensures r.Success? ==> |r.value| == 1
    ensures r.Success? ==>
      var data := result.cachedOrganizationData.value;
      var code := OriginEntityCode(request);
      var base := BasePreviewPart(r.value[0].entityData.properties, downloadPreviewImage);
      var preview := PreviewImage(data.logo, download, code, p);
      && fresh(r.value[0]) && fresh(r.value[0].entityData)
      && r.value[0].code == code
      && r.value[0].organization == organization
      && r.value[0].originProviderDefinitionId == Some(ProviderId)
      && CreatedFrom(r.value[0].entityData, request, data, result.requestUri, p)
      && r.value[0].entityData.previewImage == (if preview.Some? then preview else base)
      && r.value[0].rawData == (if base.Some? then [base.value] else []) + (if preview.Some? then [preview.value] else [])
  {
    var built := BuildClue(result, request, p, organization, downloadPreviewImage, download);
    if built.Failure? {
      return Failure(built.error);
    }
    r := Success([built.value]);
  }

  /** GetPrimaryEntityPreviewImage: the metadata is created afresh, and the
      base class's blob download runs on its Logo property; with no Logo key
      there is no image. Since the merge always writes Logo, the image is
      the blob download of the printed logo URI. It fails only where
      CreateMetadata fails. */
  method GetPrimaryEntityPreviewImage<Image>(result: WebResult, request: Request, p: Platform,
                                             downloadPreviewImageBlob: Option<string> -> Option<Image>)
    returns (r: Result<Option<Image>, PopulateError>)
    modifies result
    ensures result.requestUri == old(result.requestUri) && result.restResponse == old(result.restResponse)
    ensures old(result.cachedOrganizationData).Some? ==>
      result.cachedOrganizationData == old(result.cachedOrganizationData)
    ensures old(result.cachedOrganizationData).None? ==>
      result.cachedOrganizationData == p.parse(result.requestUri, result.restResponse)
    ensures r.Success? <==> result.cachedOrganizationData.Some?
    ensures r.Success? ==> r.value == downloadPreviewImageBlob(PrintUri(p, result.cachedOrganizationData.value.logo))
  {
    var metadata := CreateMetadata(result, request, p);
    if metadata.Failure? {
      return Failure(metadata.error);
    }
    CreatedLogo(metadata.value, request, result.cachedOrganizationData.value, result.requestUri, p);
    if Logo in metadata.value.properties {
      r := Success(downloadPreviewImageBlob(metadata.value.properties[Logo]));
    } else {
      r := Success(None);
    }
  }
}
