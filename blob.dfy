/**
 * The image URL policy of the blob store helpers (lib/blob.ts): the
 * content-type-to-extension table, the blob-URL test, the upload's
 * null-on-failure contract with its generated file name, and the
 * pass-through/fallback rule of `processImageUrl`.
 *
 * The network is replaced by its answers: the image fetch is a `FetchOutcome`,
 * the store's `put` a `PutOutcome`, and `Date.now()` a `timestamp` parameter.
 */
module Blob {
  import opened Wrappers
  import opened Text

  // ---------------------------------------------------------------------------
  // Content type to extension
  // ---------------------------------------------------------------------------

  /** The own entries of the `extensions` table. */
  function TableEntry(contentType: string): Option<string> {
    if contentType == "image/jpeg" then Some("jpg")
    else if contentType == "image/jpg" then Some("jpg")
    else if contentType == "image/png" then Some("png")
    else if contentType == "image/gif" then Some("gif")
    else if contentType == "image/webp" then Some("webp")
    else if contentType == "image/svg+xml" then Some("svg")
    else None
  }

  predicate IsKnownExtension(ext: string) {
    ext in {"jpg", "png", "gif", "webp", "svg"}
  }

  /** The extension: the table's entry, `"jpg"` for any content type it does not list. */
  function FileExtension(contentType: string): (r: string)
    ensures IsKnownExtension(r)
    ensures TableEntry(contentType).Some? ==> r == TableEntry(contentType).value
    ensures TableEntry(contentType).None? ==> r == "jpg"
  {
    TableEntry(contentType).GetOr("jpg")
  }

  /** The six listed content types map per the table; both JPEG spellings give `jpg`. */
  lemma FileExtensionTable()
    ensures FileExtension("image/jpeg") == FileExtension("image/jpg") == "jpg"
    ensures FileExtension("image/png") == "png"
    ensures FileExtension("image/gif") == "gif"
    ensures FileExtension("image/webp") == "webp"
    ensures FileExtension("image/svg+xml") == "svg"
  {
  }

  /**
   * The names `Object.prototype` supplies to every object literal: reading
   * `extensions[name]` finds these even though the table does not list them.
   */
  predicate IsInheritedMember(name: string) {
    name in {"constructor", "hasOwnProperty", "isPrototypeOf", "propertyIsEnumerable",
             "toLocaleString", "toString", "valueOf", "__proto__",
             "__defineGetter__", "__defineSetter__", "__lookupGetter__", "__lookupSetter__"}
  }

  /** How an inherited member reads once it is interpolated into a template string. */
  function InheritedText(name: string): (r: string)
    requires IsInheritedMember(name)
    ensures !IsKnownExtension(r)
  {
    if name == "__proto__" then "[object Object]"
    else if name == "constructor" then "function Object() { [native code] }"
    else "function " + name + "() { [native code] }"
  }

  /**
   * `extensions[contentType] || 'jpg'` as written, interpolated into the file
   * name: the inherited members are truthy, so they replace the default.
   */
  function FileExtensionAsWritten(contentType: string): string {
    if TableEntry(contentType).Some? then TableEntry(contentType).value
    else if IsInheritedMember(contentType) then InheritedText(contentType)
    else "jpg"
  }

  /** The two readings agree on every content type that is not an inherited member name. */
  lemma AsWrittenAgreesOffPrototype(contentType: string)
    requires !IsInheritedMember(contentType)
    ensures FileExtensionAsWritten(contentType) == FileExtension(contentType)
  {
  }

  /** A server answering `content-type: constructor` yields an extension outside the table. */
  lemma AsWrittenLeavesTable()
    ensures FileExtensionAsWritten("constructor") == "function Object() { [native code] }"
    ensures !IsKnownExtension(FileExtensionAsWritten("constructor"))
    ensures !IsKnownExtension(FileExtensionAsWritten("toString"))
  {
  }

  // ---------------------------------------------------------------------------
  // Blob URLs
  // ---------------------------------------------------------------------------

  const BlobHost := "blob.vercel-storage.com"

  /** `url.includes('blob.vercel-storage.com')`. */
  function IsBlobUrl(url: string): (r: bool)
    ensures r <==> Text.Occurs(url, BlobHost)
  {
    ContainsIffOccurs(url, BlobHost);
    Contains(url, BlobHost)
  }

  /** A blob URL is truthy: the empty string holds no host. */
  lemma BlobUrlNonEmpty(url: string)
    ensures IsBlobUrl(url) ==> |url| >= |BlobHost|
  {
    if IsBlobUrl(url) {
      var i :| 0 <= i && IsPrefixAt(BlobHost, url, i);
    }
  }

  /** Any URL that embeds the host, wherever it sits, is a blob URL. */
  lemma HostMakesBlobUrl(before: string, after: string)
    ensures IsBlobUrl(before + BlobHost + after)
  {
    ContainsInfix(before, BlobHost, after);
  }

  // ---------------------------------------------------------------------------
  // Upload
  // ---------------------------------------------------------------------------

  /** The answer to `fetch(imageUrl)`: a throw, a non-ok status, or a body with its content-type header. */
  datatype FetchOutcome = FetchThrew | FetchNotOk | Fetched(contentType: Option<string>)

  /** The answer to `put(...)`: a throw, or the stored blob's url. */
  datatype PutOutcome = PutThrew | Stored(url: string)

  /** `response.headers.get('content-type') || 'image/jpeg'`. */
  function ContentType(header: Option<string>): (r: string)
    ensures Truthy(header) ==> r == header.value
    ensures !Truthy(header) ==> r == "image/jpeg"
  {
    Or(header, "image/jpeg")
  }

  /** The generated name, `image-<timestamp>.<extension>`. */
  function GeneratedFilename(timestamp: nat, contentType: string): (r: string)
    ensures IsPrefix("image-", r)
    ensures var ext := FileExtension(contentType);
      |r| > |ext| && r[|r| - |ext|..] == ext && r[|r| - |ext| - 1] == '.'
  {
    "image-" + NatToString(timestamp) + "." + FileExtension(contentType)
  }

  /**
   * The name `image-${Date.now()}.${getFileExtension(contentType)}` builds
   * from the lookup as written is the generated name for every content type
   * that is not an `Object.prototype` member name.
   */
  lemma GeneratedFilenameOffPrototype(timestamp: nat, contentType: string)
    requires !IsInheritedMember(contentType)
    ensures GeneratedFilename(timestamp, contentType) ==
      "image-" + NatToString(timestamp) + "." + FileExtensionAsWritten(contentType)
  {
    AsWrittenAgreesOffPrototype(contentType);
  }

  /** `filename || generated name`. */
  function FinalFilename(filename: Option<string>, timestamp: nat, contentType: string): (r: string)
    ensures Truthy(filename) ==> r == filename.value
    ensures !Truthy(filename) ==> r == GeneratedFilename(timestamp, contentType)
  {
    Or(filename, GeneratedFilename(timestamp, contentType))
  }

  /** With no name given and no content-type header, the name ends in `.jpg`. */
  lemma DefaultFilenameIsJpeg(timestamp: nat)
    ensures FinalFilename(None, timestamp, ContentType(None)) == "image-" + NatToString(timestamp) + ".jpg"
  {
  }

  /** `uploadImageToBlob`: the stored url, or `None` when the fetch is not ok or any step throws. */
  function UploadImageToBlob(fetched: FetchOutcome, stored: PutOutcome): (r: Option<string>)
    ensures r.Some? <==> fetched.Fetched? && stored.Stored?
    ensures r.Some? ==> r.value == stored.url
  {
    match fetched
    case FetchThrew => None
    case FetchNotOk => None
    case Fetched(_) =>
      match stored
      case PutThrew => None
      case Stored(url) => Some(url)
  }

  /** The name the upload stores under, when it gets as far as `put`. */
  function UploadFilename(filename: Option<string>, timestamp: nat, fetched: FetchOutcome): (r: Option<string>)
    ensures r.Some? <==> fetched.Fetched?
    ensures fetched.Fetched? ==> r == Some(FinalFilename(filename, timestamp, ContentType(fetched.contentType)))
  {
    match fetched
    case Fetched(header) => Some(FinalFilename(filename, timestamp, ContentType(header)))
    case _ => None
  }

  // ---------------------------------------------------------------------------
  // processImageUrl
  // ---------------------------------------------------------------------------

  /**
   * `processImageUrl`: a blob URL is returned as it is and nothing is
   * uploaded; otherwise the upload's url when it is truthy, else the original.
   * `upload` is what `uploadImageToBlob` answers for this URL.
   */
  function ProcessImageUrl(url: string, upload: Option<string>): (r: string)
    ensures IsBlobUrl(url) ==> r == url
    ensures !IsBlobUrl(url) && Truthy(upload) ==> r == upload.value
    ensures !IsBlobUrl(url) && !Truthy(upload) ==> r == url
  {
    if IsBlobUrl(url) then url else Or(upload, url)
  }

  /** Whether `processImageUrl` calls the upload at all. */
  predicate Uploads(url: string) {
    !IsBlobUrl(url)
  }

  /** The result is always the original URL or the upload's answer. */
  lemma ProcessedIsOneOfTwo(url: string, upload: Option<string>)
    ensures ProcessImageUrl(url, upload) == url ||
            (upload.Some? && ProcessImageUrl(url, upload) == upload.value)
  {
  }

  /** For a blob URL the upload's answer does not matter: there is no upload. */
  lemma BlobUrlIgnoresUpload(url: string, u1: Option<string>, u2: Option<string>)
    requires IsBlobUrl(url)
    ensures !Uploads(url)
    ensures ProcessImageUrl(url, u1) == ProcessImageUrl(url, u2) == url
  {
  }

  /**
   * Idempotence: when the upload answers with a blob URL, processing the
   * result again takes the pass-through branch, whatever a second upload would say.
   */
  lemma ProcessIdempotent(url: string, upload: Option<string>, again: Option<string>)
    requires upload.Some? ==> IsBlobUrl(upload.value)
    requires !IsBlobUrl(url) ==> upload.Some?
    ensures !Uploads(ProcessImageUrl(url, upload))
    ensures ProcessImageUrl(ProcessImageUrl(url, upload), again) == ProcessImageUrl(url, upload)
  {
    if !IsBlobUrl(url) {
      BlobUrlNonEmpty(upload.value);
    }
  }

  /** A failed upload of a non-blob URL leaves it to be uploaded again next time. */
  lemma FailedUploadFallsBack(url: string, fetched: FetchOutcome, stored: PutOutcome)
    requires !IsBlobUrl(url)
    requires fetched.FetchNotOk? || fetched.FetchThrew? || stored.PutThrew?
    ensures ProcessImageUrl(url, UploadImageToBlob(fetched, stored)) == url
    ensures Uploads(ProcessImageUrl(url, UploadImageToBlob(fetched, stored)))
  {
  }
}
