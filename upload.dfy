/** The upload route of app/api/upload/route.ts: the guards on the session and the submitted
    file (presence, then type, then size), the input key it derives, and the upload. */
module Upload {
  import opened Common
  import opened Storage
  import opened Extension

  /** `MAX_SIZE_BYTES`: 10 MB. */
  const MaxSizeBytes: nat := 10 * 1024 * 1024

  /** `ALLOWED_TYPES`. */
  const AllowedTypes: seq<string> := ["image/jpeg", "image/png", "image/webp"]

  datatype UploadedFile = UploadedFile(mimeType: string, size: nat, body: seq<byte>)

  /** `formData.get("file")`: no entry, a text entry, or a file. */
  datatype FormEntry = Missing | TextEntry(text: string) | FileEntry(file: UploadedFile)

  const NoFile := HttpError(400, "No file provided")
  const InvalidType := HttpError(400, "Invalid file type. Use JPG, PNG, or WEBP.")
  const TooLarge := HttpError(400, "File too large. Maximum size is 10MB.")

  /** The extension of an allowed type: jpeg gives jpg, png and webp keep their names. */
  function AllowedExtension(mimeType: string): string {
    if mimeType == "image/jpeg" then "jpg" else if mimeType == "image/png" then "png" else "webp"
  }

  lemma ExtensionOfAllowed(mimeType: string)
    requires mimeType in AllowedTypes
    ensures ExtensionOf(mimeType) == Ok(AllowedExtension(mimeType))
  {
    assert mimeType == AllowedTypes[0] || mimeType == AllowedTypes[1] || mimeType == AllowedTypes[2];
    if mimeType == "image/jpeg" {
      JpegExtension();
    } else if mimeType == "image/png" {
      PngExtension();
    } else {
      WebpExtension();
    }
  }

  /** An accepted upload: the key to store under and what to store. */
  datatype PlannedUpload = PlannedUpload(key: string, body: seq<byte>, mimeType: string)

  /** The guards of the route, in their order, and the input key of an accepted file.
      `fileId` is the `nanoid()` the file is named after. A text entry has no `type`, so a
      non-empty one fails the type check; an empty one counts as no file. */
  function PlanUpload(userId: Option<string>, entry: FormEntry, fileId: string): (r: Result<PlannedUpload, HttpError>)
    ensures !SignedIn(userId) ==> r == Err(Unauthorized)
    ensures SignedIn(userId) && (entry.Missing? || entry == TextEntry("")) ==> r == Err(NoFile)
    ensures SignedIn(userId) && entry.TextEntry? && entry.text != "" ==> r == Err(InvalidType)
    ensures SignedIn(userId) && entry.FileEntry? && entry.file.mimeType !in AllowedTypes ==> r == Err(InvalidType)
    ensures SignedIn(userId) && entry.FileEntry? && entry.file.mimeType in AllowedTypes && entry.file.size > MaxSizeBytes
            ==> r == Err(TooLarge)
    ensures r.Ok? <==> SignedIn(userId) && entry.FileEntry? && entry.file.mimeType in AllowedTypes
                       && entry.file.size <= MaxSizeBytes
    ensures r.Ok? ==> && r.value.body == entry.file.body && r.value.mimeType == entry.file.mimeType
                      && ExtensionOf(entry.file.mimeType).Ok?
                      && r.value.key == GetStorageKey(userId.value, fileId + "." + ExtensionOf(entry.file.mimeType).value, Input)
  {
    if !SignedIn(userId) then Err(Unauthorized)
    else
      match entry
      case Missing => Err(NoFile)
      case TextEntry(text) => if text == "" then Err(NoFile) else Err(InvalidType)
      case FileEntry(file) =>
        var u := userId.value;
        if file.mimeType !in AllowedTypes then Err(InvalidType)
        else if file.size > MaxSizeBytes then Err(TooLarge)
        else
          ExtensionOfAllowed(file.mimeType);
          var ext := AllowedExtension(file.mimeType);
          Ok(PlannedUpload(GetStorageKey(u, fileId + "." + ext, Input), file.body, file.mimeType))
  }

  /** The key of an accepted file reads back as `input/<userId>/<fileId>.<ext>`. */
  lemma UploadKeyShape(userId: string, file: UploadedFile, fileId: string)
    requires '/' !in userId
    requires PlanUpload(Some(userId), FileEntry(file), fileId).Ok?
    ensures ParseStorageKey(PlanUpload(Some(userId), FileEntry(file), fileId).value.key)
            == Some(KeyParts(Input, userId, fileId + "." + AllowedExtension(file.mimeType)))
  {
    ExtensionOfAllowed(file.mimeType);
    StorageKeyRoundTrip(userId, fileId + "." + AllowedExtension(file.mimeType), Input);
  }

  /** The type check comes before the size check: an oversized file of a wrong type is
      refused for its type. */
  lemma TypeCheckedBeforeSize(userId: string, file: UploadedFile, fileId: string)
    requires userId != ""
    requires file.mimeType !in AllowedTypes && file.size > MaxSizeBytes
    ensures PlanUpload(Some(userId), FileEntry(file), fileId) == Err(InvalidType)
  {
  }

  /** A file of exactly 10485760 bytes passes the size check. */
  lemma SizeLimitInclusive(userId: string, body: seq<byte>, fileId: string)
    requires userId != ""
    ensures PlanUpload(Some(userId), FileEntry(UploadedFile("image/png", 10485760, body)), fileId).Ok?
    ensures PlanUpload(Some(userId), FileEntry(UploadedFile("image/png", 10485761, body)), fileId) == Err(TooLarge)
  {
  }

  /** The route's reply: an error, `{ url, key }`, or an exception the framework answers
      with a bare 500. */
  datatype UploadResponse = UploadRejected(error: HttpError) | Uploaded(url: string, key: string) | UploadCrashed(thrown: Thrown)

  /** `POST /api/upload`. `sendError` is what the storage `send` rejected with, if anything. */
  method HandleUpload(spaces: Spaces, userId: Option<string>, entry: FormEntry, fileId: string, sendError: Option<Thrown>)
    returns (resp: UploadResponse)
    modifies spaces
    ensures PlanUpload(userId, entry, fileId).Err? ==>
              resp == UploadRejected(PlanUpload(userId, entry, fileId).error) && spaces.objects == old(spaces.objects)
    ensures PlanUpload(userId, entry, fileId).Ok? ==>
              var p := PlanUpload(userId, entry, fileId).value;
              if sendError.None? then
                && resp == Uploaded(GetPublicUrl(spaces.config, p.key), p.key)
                && spaces.objects == old(spaces.objects)[p.key := SpacesObject(p.body, p.mimeType, true)]
              else
                resp == UploadCrashed(sendError.value) && spaces.objects == old(spaces.objects)
  {
    var plan := PlanUpload(userId, entry, fileId);
    if plan.Err? {
      return UploadRejected(plan.error);
    }
    var p := plan.value;
    var url := spaces.UploadToSpaces(p.key, p.body, p.mimeType, sendError);
    if url.Err? {
      return UploadCrashed(url.error);
    }
    resp := Uploaded(url.value, p.key);
  }
}
