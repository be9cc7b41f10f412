/** The admin page that designs an organization's invoice header
    (src/pages/AdminOrganizationDesign.tsx): loading the stored header
    settings with their defaults, choosing an image file, uploading it to the
    asset store, and saving the settings. The API calls, the storage upload,
    the clock and the local preview URL are inputs. */
module AdminOrganizationDesign {

  import opened Shared
  import opened Text
  import PdfGenerator

  const MaxFileSize: int := 5 * 1024 * 1024
  const NotAnImageError: string := "Veuillez sélectionner une image"
  const TooLargeError: string := "L'image ne doit pas dépasser 5MB"
  const UploadFailedError: string := "Erreur lors de l'upload"
  const UploadedMessage: string := "Image uploadée avec succès"
  const UploadFirstError: string := "Veuillez d'abord cliquer sur \"Uploader\" pour envoyer l'image"
  const NoImageError: string := "Veuillez uploader une image ou coller une URL"
  const SavedMessage: string := "En-tête enregistré avec succès !"
  const UploadFolder: string := "invoice-headers/"

  const DefaultHeight: real := 60.0
  const DefaultWidth: real := 100.0
  const DefaultPosition: string := "center"

  /** A file picked in the browser. */
  datatype FileInfo = FileInfo(name: string, mimeType: string, size: int)

  /** The settings body the page saves. */
  datatype SettingsPayload = SettingsPayload(logoUrl: string, headerHeight: real, headerWidth: real,
                                             headerPosition: string)

  /** An image of at most 5 MB. */
  predicate AcceptsFile(f: FileInfo) {
    StartsWith(f.mimeType, "image/") && f.size <= MaxFileSize
  }

  /** What the form shows for stored settings (the same record the PDF
      renderer reads, `logo_url` being its image URL): each unset, empty or
      zero field falls back to its default. */
  function Loaded(s: PdfGenerator.HeaderSettings): (r: SettingsPayload)
    ensures r.headerHeight != 0.0 && r.headerWidth != 0.0 && r.headerPosition != ""
    ensures (s.headerHeight.None? || s.headerHeight.value == 0.0) ==> r.headerHeight == DefaultHeight
    ensures s.headerHeight.Some? && s.headerHeight.value != 0.0 ==> r.headerHeight == s.headerHeight.value
    ensures (s.headerWidth.None? || s.headerWidth.value == 0.0) ==> r.headerWidth == DefaultWidth
    ensures s.headerWidth.Some? && s.headerWidth.value != 0.0 ==> r.headerWidth == s.headerWidth.value
    ensures !Truthy(s.headerPosition) ==> r.headerPosition == DefaultPosition
    ensures Truthy(s.headerPosition) ==> r.headerPosition == s.headerPosition.value
    ensures Truthy(s.headerImageUrl) ==> r.logoUrl == s.headerImageUrl.value
    ensures !Truthy(s.headerImageUrl) ==> r.logoUrl == ""
  {
    SettingsPayload(OrDefault(s.headerImageUrl, ""),
                    if s.headerHeight.Some? && s.headerHeight.value != 0.0 then s.headerHeight.value else DefaultHeight,
                    if s.headerWidth.Some? && s.headerWidth.value != 0.0 then s.headerWidth.value else DefaultWidth,
                    OrDefault(s.headerPosition, DefaultPosition))
  }

  /** The stored record a saved body becomes. */
  function Stored(p: SettingsPayload): PdfGenerator.HeaderSettings {
    PdfGenerator.HeaderSettings(Some(p.logoUrl), Some(p.headerHeight), Some(p.headerWidth), Some(p.headerPosition))
  }

  /** `invoice-headers/<orgId>-header-<now>.<extension>`, the extension being
      the file name's last dot-separated segment. */
  function UploadPath(orgId: string, fileName: string, now: nat): string {
    UploadFolder + orgId + "-header-" + NatToDecimal(now) + "." + AfterLastDot(fileName)
  }

  /** The upload path lies in the header folder and is named after the
      organization. */
  lemma UploadPathFolder(orgId: string, fileName: string, now: nat)
    ensures StartsWith(UploadPath(orgId, fileName, now), UploadFolder + orgId + "-header-")
  {
    var head := UploadFolder + orgId + "-header-";
    var tail := NatToDecimal(now) + "." + AfterLastDot(fileName);
    assert UploadPath(orgId, fileName, now) == head + tail;
    assert (head + tail)[..|head|] == head;
  }

  /** The upload path keeps the file's extension: the text after its last
      '.', or the whole name when it has none. */
  lemma UploadPathExtension(orgId: string, fileName: string, now: nat)
    ensures AfterLastDot(UploadPath(orgId, fileName, now)) == AfterLastDot(fileName)
    ensures '.' !in fileName ==> AfterLastDot(UploadPath(orgId, fileName, now)) == fileName
  {
    var prefix := UploadFolder + orgId + "-header-" + NatToDecimal(now);
    AfterLastDotOfSuffix(prefix, AfterLastDot(fileName));
    AfterLastDotIsLastSegment(fileName);
  }

  class DesignPage {
    const orgId: Option<string>
    var orgName: string
    var loading: bool
    var saving: bool
    var uploading: bool
    var error: string
    var success: string
    var headerImageUrl: string
    var selectedFile: Option<FileInfo>
    var previewUrl: string
    var headerHeight: real
    var headerWidth: real
    var headerPosition: string

    /** A selected file has always passed the type and size checks. */
    ghost predicate Valid()
      reads this
    {
      selectedFile.Some? ==> AcceptsFile(selectedFile.value)
    }

    constructor (orgId: Option<string>)
      ensures Valid() && this.orgId == orgId
      ensures orgName == "" && loading && !saving && !uploading && error == "" && success == ""
      ensures headerImageUrl == "" && selectedFile.None? && previewUrl == ""
      ensures headerHeight == DefaultHeight && headerWidth == DefaultWidth && headerPosition == DefaultPosition
    {
      this.orgId := orgId;
      orgName := "";
      loading := true;
      saving := false;
      uploading := false;
      error := "";
      success := "";
      headerImageUrl := "";
      selectedFile := None;
      previewUrl := "";
      headerHeight := DefaultHeight;
      headerWidth := DefaultWidth;
      headerPosition := DefaultPosition;
    }

    /** The body the form would save now. */
    function Current(): SettingsPayload
      reads this
    {
      SettingsPayload(headerImageUrl, headerHeight, headerWidth, headerPosition)
    }

    /** `loadData`: nothing without an organization id; otherwise the name,
        then the settings; the first failure stops the sequence and shows its
        message; loading ends either way. */
    method LoadData(org: Result<string>, settings: Result<PdfGenerator.HeaderSettings>)
      modifies this`orgName, this`loading, this`error, this`headerImageUrl, this`headerHeight,
               this`headerWidth, this`headerPosition
      ensures !Truthy(orgId) ==> unchanged(this)
      ensures Truthy(orgId) ==> !loading
      ensures Truthy(orgId) && org.Err? ==>
                error == org.message && orgName == old(orgName) && Current() == old(Current())
      ensures Truthy(orgId) && org.Ok? ==> orgName == org.value
      ensures Truthy(orgId) && org.Ok? && settings.Err? ==>
                error == settings.message && Current() == old(Current())
      ensures Truthy(orgId) && org.Ok? && settings.Ok? ==>
                error == old(error) && Current() == Loaded(settings.value)
    {
      if orgId.None? || orgId.value == "" {
        return;
      }
      match org {
        case Err(message) =>
          error := message;
        case Ok(name) =>
          orgName := name;
          match settings {
            case Err(message) =>
              error := message;
            case Ok(s) =>
              headerImageUrl := OrDefault(s.headerImageUrl, "");
              headerHeight := if s.headerHeight.Some? && s.headerHeight.value != 0.0 then s.headerHeight.value else 60.0;
              headerWidth := if s.headerWidth.Some? && s.headerWidth.value != 0.0 then s.headerWidth.value else 100.0;
              headerPosition := OrDefault(s.headerPosition, "center");
          }
      }
      loading := false;
    }

    /** `handleFileSelect`: a non-image or an image over 5 MB is refused with
        its own message; an accepted file is selected and previewed. */
    method HandleFileSelect(file: Option<FileInfo>, objectUrl: string)
      requires Valid()
      modifies this`error, this`selectedFile, this`previewUrl
      ensures Valid()
      ensures file.None? ==> unchanged(this)
      ensures file.Some? && !StartsWith(file.value.mimeType, "image/") ==>
                error == NotAnImageError && selectedFile == old(selectedFile) && previewUrl == old(previewUrl)
      ensures file.Some? && StartsWith(file.value.mimeType, "image/") && file.value.size > MaxFileSize ==>
                error == TooLargeError && selectedFile == old(selectedFile) && previewUrl == old(previewUrl)
      ensures file.Some? && AcceptsFile(file.value) ==>
                selectedFile == file && error == "" && previewUrl == objectUrl
    {
      if file.None? {
        return;
      }
      var f := file.value;
      if !StartsWith(f.mimeType, "image/") {
        error := NotAnImageError;
        return;
      }
      if f.size > 5 * 1024 * 1024 {
        error := TooLargeError;
        return;
      }
      selectedFile := file;
      error := "";
      previewUrl := objectUrl;
    }

    /** `handleUpload`: nothing without a selected file and an organization
        id; otherwise the file goes to its timestamped path, and on success
        the public URL becomes the header image and the selection is cleared.
        Returns the path uploaded to, if any. */
    method HandleUpload(now: nat, upload: Status, publicUrl: string) returns (path: Option<string>)
      requires Valid()
      modifies this`uploading, this`error, this`headerImageUrl, this`previewUrl, this`selectedFile, this`success
      ensures Valid()
      ensures selectedFile.None? ==> old(selectedFile).None? || upload.Done?
      ensures old(selectedFile).None? || !Truthy(orgId) ==> path.None? && unchanged(this)
      ensures old(selectedFile).Some? && Truthy(orgId) ==>
                && path == Some(UploadPath(orgId.value, old(selectedFile).value.name, now))
                && !uploading
      ensures old(selectedFile).Some? && Truthy(orgId) && upload.Done? ==>
                && headerImageUrl == publicUrl && previewUrl == "" && selectedFile.None?
                && success == UploadedMessage && error == ""
      ensures old(selectedFile).Some? && Truthy(orgId) && upload.Failed? ==>
                && error == MessageOr(upload.message, UploadFailedError)
                && headerImageUrl == old(headerImageUrl) && selectedFile == old(selectedFile)
                && success == old(success) && previewUrl == old(previewUrl)
    {
      path := None;
      if selectedFile.None? || orgId.None? || orgId.value == "" {
        return;
      }
      uploading := true;
      error := "";
      path := Some(UploadPath(orgId.value, selectedFile.value.name, now));
      match upload {
        case Failed(message) =>
          error := MessageOr(message, UploadFailedError);
        case Done =>
          headerImageUrl := publicUrl;
          previewUrl := "";
          selectedFile := None;
          success := UploadedMessage;
      }
      uploading := false;
    }

    /** `handleSubmit`: nothing without an organization id; a file chosen but
        not uploaded, or no image URL at all, is refused with its own message
        and nothing is sent; otherwise the current settings are saved. Returns
        the body sent, if any. */
    method HandleSubmit(response: Status) returns (sent: Option<SettingsPayload>)
      modifies this`saving, this`error, this`success, this`previewUrl
      ensures !Truthy(orgId) ==> sent.None? && unchanged(this)
      ensures Truthy(orgId) ==> !saving
      ensures sent.Some? <==> Truthy(orgId) && headerImageUrl != ""
      ensures sent.Some? ==> sent.value == Current() && sent.value.logoUrl != ""
      ensures Truthy(orgId) && headerImageUrl == "" ==>
                error == (if selectedFile.Some? then UploadFirstError else NoImageError) && success == ""
                && previewUrl == old(previewUrl)
      ensures sent.Some? && response.Done? ==> success == SavedMessage && previewUrl == "" && error == ""
      ensures sent.Some? && response.Failed? ==>
                error == response.message && success == "" && previewUrl == old(previewUrl)
    {
      sent := None;
      if orgId.None? || orgId.value == "" {
        return;
      }
      saving := true;
      error := "";
      success := "";
      if selectedFile.Some? && headerImageUrl == "" {
        error := UploadFirstError;
        saving := false;
        return;
      }
      if headerImageUrl == "" {
        error := NoImageError;
        saving := false;
        return;
      }
      sent := Some(SettingsPayload(headerImageUrl, headerHeight, headerWidth, headerPosition));
      match response {
        case Failed(message) =>
          error := message;
        case Done =>
          previewUrl := "";
          success := SavedMessage;
      }
      saving := false;
    }
  }

  /** Saving what was loaded and loading it again shows the same form, as
      long as an image URL was set. */
  lemma LoadSaveLoad(s: PdfGenerator.HeaderSettings)
    requires Truthy(s.headerImageUrl)
    ensures Loaded(Stored(Loaded(s))) == Loaded(s)
  {
  }

  /** A saved body reads back unchanged. */
  lemma SaveLoad(p: SettingsPayload)
    requires p.logoUrl != "" && p.headerHeight != 0.0 && p.headerWidth != 0.0 && p.headerPosition != ""
    ensures Loaded(Stored(p)) == p
  {
  }

  /** The form and the PDF renderer agree on the width and the position for
      any stored settings, and on the height whenever it is set and non-zero;
      for an unset or zero height the form shows 60 px while the PDF draws 40 px. */
  lemma FormMatchesPdf(s: PdfGenerator.HeaderSettings)
    ensures Loaded(s).headerWidth == PdfGenerator.HeaderWidthPercent(s.headerWidth)
    ensures Loaded(s).headerPosition == PdfGenerator.HeaderPosition(s.headerPosition)
    ensures s.headerHeight.Some? && s.headerHeight.value != 0.0 ==>
              Loaded(s).headerHeight == PdfGenerator.HeaderHeightPx(s.headerHeight)
    ensures (s.headerHeight.None? || s.headerHeight.value == 0.0) ==>
              Loaded(s).headerHeight == 60.0 && PdfGenerator.HeaderHeightPx(s.headerHeight) == 40.0
  {
  }

  /** Two uploads of files with different extensions never share a path. */
  lemma UploadPathsDifferByExtension(orgId: string, a: string, b: string, now: nat)
    requires AfterLastDot(a) != AfterLastDot(b)
    ensures UploadPath(orgId, a, now) != UploadPath(orgId, b, now)
  {
    UploadPathExtension(orgId, a, now);
    UploadPathExtension(orgId, b, now);
  }
}
