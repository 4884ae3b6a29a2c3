/** The file extension derived from a MIME type, written the same way in the upload route
    and in the upscale job: `type.split("/")[1].replace("jpeg", "jpg")`. */
module Extension {
  import opened Common
  import opened Strings

  /** What V8 throws when `split("/")[1]` is undefined and `.replace` is called on it. */
  const NoSubtypeMessage := "Cannot read properties of undefined (reading 'replace')"

  function ExtensionOf(mimeType: string): (r: Result<string, Thrown>)
    ensures r.Err? <==> '/' !in mimeType
    ensures r.Err? ==> r.error == ErrorObject(NoSubtypeMessage)
    ensures r.Ok? ==> '/' !in r.value
    ensures r.Ok? ==> r.value == ReplaceFirst(SplitSecond(mimeType, '/').value, "jpeg", "jpg")
  {
    match SplitSecond(mimeType, '/')
    case None => Err(ErrorObject(NoSubtypeMessage))
    case Some(subtype) =>
      ReplaceFirstAvoids(subtype, "jpeg", "jpg", '/');
      Ok(ReplaceFirst(subtype, "jpeg", "jpg"))
  }

  /** The extension of `major/minor` when neither part has a separator. */
  lemma ExtensionOfParts(major: string, minor: string)
    requires '/' !in major && '/' !in minor
    ensures ExtensionOf(major + "/" + minor) == Ok(ReplaceFirst(minor, "jpeg", "jpg"))
  {
    assert major + "/" + minor == major + ['/'] + minor;
    IndexOfAfterPrefix(major, '/', minor);
    assert (major + ['/'] + minor)[|major| + 1..] == minor;
  }

  lemma JpegExtension()
    ensures ExtensionOf("image/jpeg") == Ok("jpg")
  {
    assert "image/jpeg" == "image" + "/" + "jpeg";
    ExtensionOfParts("image", "jpeg");
    assert Find("jpeg", "jpeg") == Some(0);
    assert ReplaceFirst("jpeg", "jpeg", "jpg") == "jpg";
  }

  lemma PngExtension()
    ensures ExtensionOf("image/png") == Ok("png")
  {
    assert "image/png" == "image" + "/" + "png";
    ExtensionOfParts("image", "png");
    assert Find("png", "jpeg") == None;
  }

  lemma WebpExtension()
    ensures ExtensionOf("image/webp") == Ok("webp")
  {
    assert "image/webp" == "image" + "/" + "webp";
    ExtensionOfParts("image", "webp");
    assert "webp"[..4] != "jpeg" by { assert "webp"[0] != "jpeg"[0]; }
    assert "webp"[1..] == "ebp";
    assert Find("ebp", "jpeg") == None;
    assert Find("webp", "jpeg") == None;
  }

  /** The three accepted upload types give jpg, png and webp. */
  lemma KnownExtensions()
    ensures ExtensionOf("image/jpeg") == Ok("jpg")
    ensures ExtensionOf("image/png") == Ok("png")
    ensures ExtensionOf("image/webp") == Ok("webp")
  {
    JpegExtension();
    PngExtension();
    WebpExtension();
  }
}
