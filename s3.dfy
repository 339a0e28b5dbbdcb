/**
 * backend/internal/infrastructure/aws/s3.go: the checks an image upload
 * passes before it is sent to S3, the object key it is stored under, the
 * public URL of an object, the presign expiry default and how a failed
 * HEAD request is classified.
 *
 * The AWS SDK is not modelled: what it answers (the upload's location, the
 * HEAD error, the presigned URL) is a parameter, and so are the generated
 * UUID and the content type `http.DetectContentType` sniffs from the bytes.
 */
module S3 {
  import opened Wrappers
  import Text
  import AppErrors

  type Duration = int

  const Minute: Duration := 60 * 1_000_000_000

  /** The largest accepted upload: 10 MiB. */
  const MaxUploadSize: int := 10 * 1024 * 1024

  const ValidExtensions: seq<string> := [".jpg", ".jpeg", ".png", ".webp", ".gif"]

  const ValidContentTypes: seq<string> := ["image/jpeg", "image/png", "image/webp", "image/gif"]

  /** The client's settings; the SDK handles it holds are not modelled. */
  datatype S3Client = S3Client(bucket: string, region: string)

  datatype UploadResult = UploadResult(key: string, url: string, bucket: string, size: int, mimeType: string)

  /** What the multipart header says about the file. */
  datatype FileHeader = FileHeader(filename: string, size: int)

  /** What `io.ReadAll` gives back. */
  datatype ReadOutcome = ReadBytes(bytes: seq<bv8>) | ReadFailed(error: AppErrors.Error)

  /** What the S3 uploader answers. */
  datatype SendOutcome = Sent(location: string) | SendFailed(error: AppErrors.Error)

  /** The object put to S3: its bucket, key, body, content type and the original name kept as metadata. */
  datatype PutRequest = PutRequest(bucket: string, key: string, body: seq<bv8>, contentType: string,
                                   acl: string, originalFilename: string)

  datatype Outcome<T> = Ok(value: T) | Err(error: AppErrors.AppError)

  /**
   * `filepath.Ext` with '/' as the separator: the suffix of the last path
   * element that starts at its last dot, or "" when that element has no dot.
   */
  function Ext(path: string): (r: string)
    ensures |r| <= |path| && r == path[|path| - |r|..]
    ensures r != "" ==> r[0] == '.' && forall i :: 1 <= i < |r| ==> r[i] != '.' && r[i] != '/'
    ensures r == "" ==> forall i :: 0 <= i < |path| && path[i] == '.' ==> exists j :: i < j < |path| && path[j] == '/'
  {
    if path == [] then ""
    else
      var init, c := path[..|path| - 1], path[|path| - 1];
      assert path == init + [c];
      if c == '/' then ""
      else if c == '.' then "."
      else
        var e := Ext(init);
        if e == "" then "" else e + [c]
  }

  /** An extension is its own extension. */
  lemma {:induction false} ExtIdempotent(path: string)
    ensures Ext(Ext(path)) == Ext(path)
  {
    var e := Ext(path);
    if e != "" {
      ExtOfDotted(e);
    }
  }

  /** A string that starts with a dot and has no other dot and no slash is its own extension. */
  lemma {:induction false} ExtOfDotted(e: string)
    requires e != "" && e[0] == '.'
    requires forall i :: 1 <= i < |e| ==> e[i] != '.' && e[i] != '/'
    ensures Ext(e) == e
  {
    if |e| > 1 {
      var init, c := e[..|e| - 1], e[|e| - 1];
      assert c != '.' && c != '/';
      ExtOfDotted(init);
      assert e == init + [c];
    }
  }

  /** Text put in front of a path with an extension does not change that extension. */
  lemma {:induction false} ExtAppend(a: string, b: string)
    requires Ext(b) != ""
    ensures Ext(a + b) == Ext(b)
  {
    var c := b[|b| - 1];
    assert (a + b)[..|a + b| - 1] == a + b[..|b| - 1];
    if c != '/' && c != '.' {
      ExtAppend(a, b[..|b| - 1]);
    }
  }

  /** A last path element without a dot has no extension, whatever precedes it. */
  lemma {:induction false} ExtAfterSlash(a: string, name: string)
    requires forall i :: 0 <= i < |name| ==> name[i] != '.' && name[i] != '/'
    ensures Ext(a + "/" + name) == ""
  {
    if name != [] {
      assert (a + "/" + name)[..|a + "/" + name| - 1] == a + "/" + name[..|name| - 1];
      ExtAfterSlash(a, name[..|name| - 1]);
    }
  }

  /** The whitelist test of `isValidImageType`, on the lower-cased extension. */
  predicate ImageExtension(lower: Text.CaseMap, filename: string) {
    Text.MapRunes(lower, Ext(filename)) in ValidExtensions
  }

  /** `isValidImageType`: its loop over the extension whitelist, proved to decide `ImageExtension`. */
  method IsValidImageType(lower: Text.CaseMap, filename: string) returns (ok: bool)
    ensures ok <==> ImageExtension(lower, filename)
  {
    var ext := Text.MapRunes(lower, Ext(filename));
    var i := 0;
    while i < |ValidExtensions|
      invariant 0 <= i <= |ValidExtensions|
      invariant ext !in ValidExtensions[..i]
    {
      if ext == ValidExtensions[i] {
        return true;
      }
      assert ValidExtensions[..i + 1] == ValidExtensions[..i] + [ValidExtensions[i]];
      i := i + 1;
    }
    assert ValidExtensions[..i] == ValidExtensions;
    return false;
  }

  /** `isValidContentType`: its loop over the MIME whitelist, proved to accept exactly the four image types. */
  method IsValidContentType(contentType: string) returns (ok: bool)
    ensures ok <==> contentType in ValidContentTypes
  {
    var i := 0;
    while i < |ValidContentTypes|
      invariant 0 <= i <= |ValidContentTypes|
      invariant contentType !in ValidContentTypes[..i]
    {
      if contentType == ValidContentTypes[i] {
        return true;
      }
      assert ValidContentTypes[..i + 1] == ValidContentTypes[..i] + [ValidContentTypes[i]];
      i := i + 1;
    }
    assert ValidContentTypes[..i] == ValidContentTypes;
    return false;
  }

  /**
   * `GenerateUploadKey`, and the key `UploadFile` builds the same way: the
   * folder without its surrounding slashes, a slash, the UUID and the
   * original file's extension, its case kept.
   */
  function GenerateUploadKey(folder: string, originalFilename: string, uuid: string): (key: string)
    ensures key == Text.Trim(folder, '/') + "/" + uuid + Ext(originalFilename)
    ensures Text.Trim(folder, '/') + "/" <= key
  {
    Text.Trim(folder, '/') + "/" + uuid + Ext(originalFilename)
  }

  /**
   * For a UUID with neither a dot nor a slash in it, the key's extension is
   * the original file's: the key keeps the type it was accepted for.
   */
  lemma ExtOfUploadKey(folder: string, originalFilename: string, uuid: string)
    requires forall i :: 0 <= i < |uuid| ==> uuid[i] != '.' && uuid[i] != '/'
    ensures Ext(GenerateUploadKey(folder, originalFilename, uuid)) == Ext(originalFilename)
  {
    var ext := Ext(originalFilename);
    var stem := Text.Trim(folder, '/') + "/" + uuid;
    assert GenerateUploadKey(folder, originalFilename, uuid) == stem + ext;
    if ext == "" {
      assert stem + ext == stem;
      ExtAfterSlash(Text.Trim(folder, '/'), uuid);
    } else {
      ExtIdempotent(originalFilename);
      ExtAppend(stem, ext);
    }
  }

  /**
   * `UploadFile`: the result, and the object sent to S3 when there is one.
   * In order: the extension must be whitelisted, the size at most 10 MiB,
   * the file readable and the sniffed content type whitelisted; the first
   * check that fails answers and nothing is sent.  Otherwise the file is
   * sent publicly readable, and the sender's failure is an internal error.
   */
  function UploadFile(lower: Text.CaseMap, client: S3Client, header: FileHeader, folder: string, uuid: string,
                      read: ReadOutcome, detect: seq<bv8> -> string, send: SendOutcome)
    : (r: (Outcome<UploadResult>, Option<PutRequest>))
    ensures !ImageExtension(lower, header.filename) ==>
      r == (Err(AppErrors.NewValidationError("Invalid file type", "Only JPEG, PNG, and WebP images are allowed")), None)
    ensures ImageExtension(lower, header.filename) && header.size > MaxUploadSize ==>
      r == (Err(AppErrors.NewValidationError("File too large", "File size must be less than 10MB")), None)
    ensures ImageExtension(lower, header.filename) && header.size <= MaxUploadSize && read.ReadFailed? ==>
      r == (Err(AppErrors.WrapInternalError(read.error, "Failed to read file content")), None)
    ensures ImageExtension(lower, header.filename) && header.size <= MaxUploadSize && read.ReadBytes? ==>
      var contentType := detect(read.bytes);
      var key := GenerateUploadKey(folder, header.filename, uuid);
      if contentType !in ValidContentTypes then
        r == (Err(AppErrors.NewValidationError("Invalid content type", "File must be a valid image")), None)
      else
        r.1 == Some(PutRequest(client.bucket, key, read.bytes, contentType, "public-read", header.filename)) &&
        r.0 == match send
          case SendFailed(e) => Err(AppErrors.WrapInternalError(e, "Failed to upload file to S3"))
          case Sent(location) => Ok(UploadResult(key, location, client.bucket, header.size, contentType))
  {
    if !ImageExtension(lower, header.filename) then
      (Err(AppErrors.NewValidationError("Invalid file type", "Only JPEG, PNG, and WebP images are allowed")), None)
    else if header.size > MaxUploadSize then
      (Err(AppErrors.NewValidationError("File too large", "File size must be less than 10MB")), None)
    else
      var key := GenerateUploadKey(folder, header.filename, uuid);
      match read
      case ReadFailed(e) => (Err(AppErrors.WrapInternalError(e, "Failed to read file content")), None)
      case ReadBytes(bytes) =>
        var contentType := detect(bytes);
        if contentType !in ValidContentTypes then
          (Err(AppErrors.NewValidationError("Invalid content type", "File must be a valid image")), None)
        else
          var request := PutRequest(client.bucket, key, bytes, contentType, "public-read", header.filename);
          match send
          case SendFailed(e) => (Err(AppErrors.WrapInternalError(e, "Failed to upload file to S3")), Some(request))
          case Sent(location) => (Ok(UploadResult(key, location, client.bucket, header.size, contentType)), Some(request))
  }

  /**
   * Whatever is sent to S3 passed every check: a whitelisted extension, at
   * most 10 MiB, a whitelisted sniffed type, and the key the UUID and the
   * folder give; a successful upload reports what was sent.
   */
  lemma UploadOnlyAfterChecks(lower: Text.CaseMap, client: S3Client, header: FileHeader, folder: string, uuid: string,
                              read: ReadOutcome, detect: seq<bv8> -> string, send: SendOutcome)
    ensures var (result, sent) := UploadFile(lower, client, header, folder, uuid, read, detect, send);
      (sent.Some? <==> ImageExtension(lower, header.filename) && header.size <= MaxUploadSize &&
                       read.ReadBytes? && detect(read.bytes) in ValidContentTypes) &&
      (sent.Some? ==> sent.value.key == GenerateUploadKey(folder, header.filename, uuid) &&
                      sent.value.contentType in ValidContentTypes && sent.value.body == read.bytes) &&
      (result.Ok? <==> sent.Some? && send.Sent?) &&
      (result.Ok? ==> result.value.key == sent.value.key && result.value.mimeType == sent.value.contentType &&
                      result.value.size == header.size && result.value.size <= MaxUploadSize &&
                      result.value.bucket == client.bucket) &&
      (result.Err? && sent.None? ==> result.error.statusCode in {400, 500})
  {
  }

  /** The size limit is inclusive: a file of exactly 10 MiB passes the size check. */
  lemma ExactlyTenMiBPassesSizeCheck(lower: Text.CaseMap, client: S3Client, filename: string, folder: string, uuid: string,
                                     bytes: seq<bv8>, detect: seq<bv8> -> string, location: string)
    requires ImageExtension(lower, filename) && detect(bytes) in ValidContentTypes
    ensures UploadFile(lower, client, FileHeader(filename, MaxUploadSize), folder, uuid, ReadBytes(bytes), detect, Sent(location)).0.Ok?
    ensures UploadFile(lower, client, FileHeader(filename, MaxUploadSize + 1), folder, uuid, ReadBytes(bytes), detect, Sent(location)).0.error.message
      == "File too large"
  {
  }

  /** The extension is checked before the size: an oversized file of a refused type is refused for its type. */
  lemma TypeCheckedBeforeSize(lower: Text.CaseMap, client: S3Client, header: FileHeader, folder: string, uuid: string,
                              read: ReadOutcome, detect: seq<bv8> -> string, send: SendOutcome)
    requires !ImageExtension(lower, header.filename) && header.size > MaxUploadSize
    ensures UploadFile(lower, client, header, folder, uuid, read, detect, send).0.error.message == "Invalid file type"
  {
  }

  /** The presign expiry: zero means 15 minutes, any other value is kept. */
  function PresignExpiry(expires: Duration): (d: Duration)
    ensures expires == 0 ==> d == 15 * Minute
    ensures expires != 0 ==> d == expires
  {
    if expires == 0 then 15 * Minute else expires
  }

  /** What the SDK's `Presign` answers. */
  datatype Presigned = PresignedURL(url: string) | PresignFailed(error: AppErrors.Error)

  /**
   * `GetPresignedURL` and `GetPresignedUploadURL`: the request is presigned
   * for `PresignExpiry(expires)`, and a signing failure is an internal error
   * with the given message.
   */
  function Presign(expires: Duration, presign: Duration -> Presigned, failure: string): (r: Outcome<string>)
    ensures presign(PresignExpiry(expires)).PresignedURL? ==> r == Ok(presign(PresignExpiry(expires)).url)
    ensures presign(PresignExpiry(expires)).PresignFailed? ==>
      r == Err(AppErrors.WrapInternalError(presign(PresignExpiry(expires)).error, failure)) && r.error.statusCode == 500
  {
    match presign(PresignExpiry(expires))
    case PresignedURL(url) => Ok(url)
    case PresignFailed(e) => Err(AppErrors.WrapInternalError(e, failure))
  }

  function GetPresignedURL(expires: Duration, presign: Duration -> Presigned): (r: Outcome<string>)
    ensures r == Presign(expires, presign, "Failed to generate presigned URL")
    ensures expires == 0 ==> r.Ok? ==> r.value == presign(15 * Minute).url
  {
    Presign(expires, presign, "Failed to generate presigned URL")
  }

  function GetPresignedUploadURL(expires: Duration, presign: Duration -> Presigned): (r: Outcome<string>)
    ensures r == Presign(expires, presign, "Failed to generate presigned upload URL")
    ensures expires == 0 ==> r.Ok? ==> r.value == presign(15 * Minute).url
  {
    Presign(expires, presign, "Failed to generate presigned upload URL")
  }

  /** The test both HEAD callers apply to an error: its text mentions "404" or "NotFound". */
  predicate NotFoundText(err: AppErrors.Error) {
    Text.Contains(AppErrors.ErrorText(err), "404") || Text.Contains(AppErrors.ErrorText(err), "NotFound")
  }

  /**
   * `FileExists`: true when the HEAD request succeeds; false and no error
   * when it fails with a not-found text; false and an internal error
   * otherwise.
   */
  function FileExists(headError: Option<AppErrors.Error>): (r: (bool, Option<AppErrors.AppError>))
    ensures r.0 <==> headError.None?
    ensures r.1.Some? <==> headError.Some? && !NotFoundText(headError.value)
    ensures r.1.Some? ==> r.1.value == AppErrors.WrapInternalError(headError.value, "Failed to check if file exists")
  {
    match headError
    case None => (true, None)
    case Some(e) =>
      if NotFoundText(e) then (false, None)
      else (false, Some(AppErrors.WrapInternalError(e, "Failed to check if file exists")))
  }

  /** `GetFileInfo`'s error: "File not found" (404) for a not-found text, an internal error otherwise. */
  function FileInfoError(headError: AppErrors.Error): (e: AppErrors.AppError)
    ensures NotFoundText(headError) ==> e == AppErrors.NewNotFoundError("File") && e.statusCode == 404
    ensures !NotFoundText(headError) ==> e == AppErrors.WrapInternalError(headError, "Failed to get file info") && e.statusCode == 500
  {
    if NotFoundText(headError) then AppErrors.NewNotFoundError("File")
    else AppErrors.WrapInternalError(headError, "Failed to get file info")
  }

  /** The two HEAD callers classify alike: a quiet "does not exist" exactly when file info answers 404. */
  lemma HeadClassificationsAgree(headError: AppErrors.Error)
    ensures FileExists(Some(headError)) == (false, None) <==> FileInfoError(headError).statusCode == 404
  {
  }

  /** An S3 error whose text carries the HTTP status 404 is never reported as a failure. */
  lemma StatusTextIsNotFound(prefix: string, suffix: string)
    ensures FileExists(Some(AppErrors.Plain(prefix + "404" + suffix))) == (false, None)
  {
    assert Text.OccursAt(prefix + "404" + suffix, "404", |prefix|) by {
      assert (prefix + "404" + suffix)[|prefix|..|prefix| + 3] == "404";
    }
  }

  /** `ListFiles`: zero keys asked for means 100. */
  function ListFilesMaxKeys(maxKeys: int): (n: int)
    ensures maxKeys == 0 ==> n == 100
    ensures maxKeys != 0 ==> n == maxKeys
  {
    if maxKeys == 0 then 100 else maxKeys
  }

  /** The host-and-scheme part of the client's public URLs. */
  function PublicURLBase(client: S3Client): string {
    "https://" + client.bucket + ".s3." + client.region + ".amazonaws.com/"
  }

  /** `GetPublicURL`: the virtual-hosted-style URL of the object. */
  function GetPublicURL(client: S3Client, key: string): (url: string)
    ensures PublicURLBase(client) <= url
    ensures url[|PublicURLBase(client)|..] == key
  {
    PublicURLBase(client) + key
  }

  /** Different keys of one client have different public URLs. */
  lemma PublicURLInjective(client: S3Client, a: string, b: string)
    requires GetPublicURL(client, a) == GetPublicURL(client, b)
    ensures a == b
  {
    assert a == GetPublicURL(client, a)[|PublicURLBase(client)|..];
  }
}
