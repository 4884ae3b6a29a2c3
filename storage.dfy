/** Object storage of lib/storage.ts: the key layout `<kind>/<userId>/<filename>`, the public
    URL of a key (through the CDN endpoint when one is configured, else the direct Spaces
    URL), and the bucket as a class whose upload stores one object and answers its URL. */
module Storage {
  import opened Common
  import opened Strings

  datatype Kind = Input | Output

  function KindName(k: Kind): string {
    match k
    case Input => "input"
    case Output => "output"
  }

  /** `getStorageKey(userId, filename, type)`: the kind, the user id and the file name, in
      that order, each after a separator but the first. */
  function GetStorageKey(userId: string, filename: string, kind: Kind): (key: string)
    ensures var n := |KindName(kind)|;
            && |key| == n + |userId| + |filename| + 2
            && key[..n] == KindName(kind) && key[n] == '/'
            && key[n + 1..n + 1 + |userId|] == userId && key[n + 1 + |userId|] == '/'
            && key[n + 2 + |userId|..] == filename
  {
    KindName(kind) + "/" + userId + "/" + filename
  }

  datatype KeyParts = KeyParts(kind: Kind, userId: string, filename: string)

  /** Reads a key back into its kind, user id and file name (everything after the second
      separator is the file name). */
  function ParseStorageKey(key: string): Option<KeyParts> {
    match SplitFirst(key, '/')
    case None => None
    case Some((head, rest)) =>
      var kind := if head == "input" then Some(Input) else if head == "output" then Some(Output) else None;
      match SplitFirst(rest, '/')
      case None => None
      case Some((userId, filename)) => if kind.None? then None else Some(KeyParts(kind.value, userId, filename))
  }

  /** A key built for a user id without a separator reads back into what built it. */
  lemma StorageKeyRoundTrip(userId: string, filename: string, kind: Kind)
    requires '/' !in userId
    ensures ParseStorageKey(GetStorageKey(userId, filename, kind)) == Some(KeyParts(kind, userId, filename))
  {
    var a, b := KindName(kind), userId + "/" + filename;
    assert GetStorageKey(userId, filename, kind) == a + ['/'] + b;
    SplitFirstConcat(a, '/', b);
    SplitFirstConcat(userId, '/', filename);
  }

  /** So distinct (kind, user, file) triples never share a key. */
  lemma StorageKeyInjective(u1: string, f1: string, k1: Kind, u2: string, f2: string, k2: Kind)
    requires '/' !in u1 && '/' !in u2
    requires GetStorageKey(u1, f1, k1) == GetStorageKey(u2, f2, k2)
    ensures u1 == u2 && f1 == f2 && k1 == k2
  {
    StorageKeyRoundTrip(u1, f1, k1);
    StorageKeyRoundTrip(u2, f2, k2);
  }

  /** An input key and an output key never coincide, whatever the user ids and file names. */
  lemma InputOutputKeysDiffer(u1: string, f1: string, u2: string, f2: string)
    ensures GetStorageKey(u1, f1, Input) != GetStorageKey(u2, f2, Output)
  {
    assert GetStorageKey(u1, f1, Input)[0] == 'i';
    assert GetStorageKey(u2, f2, Output)[0] == 'o';
  }

  lemma StorageKeysPinned()
    ensures GetStorageKey("user123", "abc.jpg", Input) == "input/user123/abc.jpg"
    ensures GetStorageKey("user123", "abc.jpg", Output) == "output/user123/abc.jpg"
  {
  }

  /** `DO_SPACES_CDN_ENDPOINT` (None when unset), `DO_SPACES_BUCKET`, `DO_SPACES_ENDPOINT`. */
  datatype SpacesConfig = SpacesConfig(cdnEndpoint: Option<string>, bucket: string, endpoint: string)

  /** `if (cdnEndpoint)`: set and not the empty string. */
  predicate CdnConfigured(cfg: SpacesConfig) {
    cfg.cdnEndpoint.Some? && cfg.cdnEndpoint.value != ""
  }

  /** `getPublicUrl(key)`: a base URL, a separator, then the key itself. */
  function GetPublicUrl(cfg: SpacesConfig, key: string): (url: string)
    ensures |url| > |key| && url[|url| - |key| - 1..] == "/" + key
    ensures CdnConfigured(cfg) ==> url[..|url| - |key| - 1] == cfg.cdnEndpoint.value
    ensures !CdnConfigured(cfg) ==> url[..|url| - |key| - 1] == cfg.endpoint + "/" + cfg.bucket
  {
    if CdnConfigured(cfg) then cfg.cdnEndpoint.value + "/" + key
    else cfg.endpoint + "/" + cfg.bucket + "/" + key
  }

  /** An empty CDN setting behaves as an unset one. */
  lemma EmptyCdnIsUnset(cfg: SpacesConfig, key: string)
    requires cfg.cdnEndpoint == Some("")
    ensures GetPublicUrl(cfg, key) == GetPublicUrl(cfg.(cdnEndpoint := None), key)
  {
  }

  /** A stored object: its body, its content type, and the public-read ACL it is put with. */
  datatype SpacesObject = SpacesObject(body: seq<byte>, contentType: string, publicRead: bool)

  /** The Spaces bucket. */
  class Spaces {
    const config: SpacesConfig
    var objects: map<string, SpacesObject>

    constructor (config: SpacesConfig, objects: map<string, SpacesObject>)
      ensures this.config == config && this.objects == objects
    {
      this.config := config;
      this.objects := objects;
    }

    /** `uploadToSpaces(key, body, contentType)`. `sendError` is what the S3 `send` rejected
        with, if it did; the upload then throws it and stores nothing. */
    method UploadToSpaces(key: string, body: seq<byte>, contentType: string, sendError: Option<Thrown>)
      returns (r: Result<string, Thrown>)
      modifies this
      ensures sendError.None? ==>
                && objects == old(objects)[key := SpacesObject(body, contentType, true)]
                && r == Ok(GetPublicUrl(config, key))
      ensures sendError.Some? ==> objects == old(objects) && r == Err(sendError.value)
    {
      if sendError.Some? {
        return Err(sendError.value);
      }
      objects := objects[key := SpacesObject(body, contentType, true)];
      r := Ok(GetPublicUrl(config, key));
    }
  }
}
