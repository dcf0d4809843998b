/**
 * The self-uploading image component (components/BlobImage.tsx): three
 * pieces of state — the shown source, a loading flag and an error — driven by
 * the mount effect's URL classification, the upload's answer and the image's
 * load error, and a render rule that picks one of three screens.
 *
 * The request to the upload endpoint is replaced by its answer (`UploadAnswer`).
 */
module BlobImageComponent {
  import opened Wrappers
  import opened Text

  // ---------------------------------------------------------------------------
  // URL classification in the effect
  // ---------------------------------------------------------------------------

  /** What the mount effect does with a source. */
  datatype Route = UseHosted | Upload | UseDirect

  predicate IsHosted(src: string) {
    Contains(src, "blob.vercel-storage.com") || IsPrefix("data:", src)
  }

  predicate IsRemoteNotionImage(src: string) {
    Contains(src, "notion.so") || Contains(src, "amazonaws.com")
  }

  /** The effect's branches: hosted or inline first, then Notion's hosts, else direct. */
  function RouteOf(src: string): (r: Route)
    ensures r == UseHosted <==> IsHosted(src)
    ensures r == Upload <==> !IsHosted(src) && IsRemoteNotionImage(src)
    ensures r == UseDirect <==> !IsHosted(src) && !IsRemoteNotionImage(src)
  {
    if IsHosted(src) then UseHosted
    else if IsRemoteNotionImage(src) then Upload
    else UseDirect
  }

  /** The hosted test comes first: a blob URL that also names a Notion host is not uploaded. */
  lemma HostedWinsOverNotion(before: string, after: string)
    ensures RouteOf(before + "blob.vercel-storage.com" + after) == UseHosted
  {
    ContainsInfix(before, "blob.vercel-storage.com", after);
  }

  /** Inline data URLs are never uploaded. */
  lemma DataUrlsAreNotUploaded(rest: string)
    ensures RouteOf("data:" + rest) == UseHosted
  {
    assert ("data:" + rest)[..5] == "data:";
  }

  // ---------------------------------------------------------------------------
  // Render rule
  // ---------------------------------------------------------------------------

  /** The three screens: the error placeholder, the loading placeholder, or the image with its optional caption. */
  datatype Screen = FailedPlaceholder | LoadingPlaceholder | Picture(src: string, caption: Option<string>)

  /** `if (error) … if (isLoading) … <Image/>{caption && <p/>}`. */
  function ScreenOf(imageSrc: string, isLoading: bool, error: Option<string>, caption: Option<string>): (r: Screen)
    ensures Truthy(error) <==> r == FailedPlaceholder
    ensures !Truthy(error) && isLoading <==> r == LoadingPlaceholder
    ensures r.Picture? <==> !Truthy(error) && !isLoading
    ensures r.Picture? ==> r.src == imageSrc
    ensures r.Picture? ==> (r.caption.Some? <==> Truthy(caption))
    ensures r.Picture? && r.caption.Some? ==> r.caption == caption
  {
    if Truthy(error) then FailedPlaceholder
    else if isLoading then LoadingPlaceholder
    else Picture(imageSrc, if Truthy(caption) then caption else None)
  }

  /** The message `onError` stores. */
  const LoadFailedMessage := "Failed to load image"

  /** The answer of the upload endpoint: a url, a non-ok status, or a throw. */
  datatype UploadAnswer = Uploaded(url: string) | UploadRejected | UploadThrew

  /** The source shown once an upload has settled: the new url, else back to the original. */
  function SettledSource(src: string, answer: UploadAnswer): (r: string)
    ensures answer.Uploaded? ==> r == answer.url
    ensures !answer.Uploaded? ==> r == src
  {
    match answer
    case Uploaded(url) => url
    case _ => src
  }

  /** The source shown once the component has settled, for every route. */
  function ShownSource(src: string, answer: UploadAnswer): (r: string)
    ensures RouteOf(src) != Upload ==> r == src
    ensures RouteOf(src) == Upload && answer.Uploaded? ==> r == answer.url
    ensures RouteOf(src) == Upload && !answer.Uploaded? ==> r == src
    ensures r == src || (answer.Uploaded? && r == answer.url)
  {
    if RouteOf(src) == Upload then SettledSource(src, answer) else src
  }

  // ---------------------------------------------------------------------------
  // The component's state
  // ---------------------------------------------------------------------------

  class BlobImage {
    const src: string
    const caption: Option<string>
    var imageSrc: string
    var isLoading: bool
    var error: Option<string>

    /** `useState(src)`, `useState(true)`, `useState(null)`. */
    constructor(src: string, caption: Option<string>)
      ensures this.src == src && this.caption == caption
      ensures imageSrc == src && isLoading && error.None?
    {
      this.src := src;
      this.caption := caption;
      imageSrc := src;
      isLoading := true;
      error := None;
    }

    function Screen(): Screen
      reads this
    {
      ScreenOf(imageSrc, isLoading, error, caption)
    }

    /**
     * The mount effect. It answers whether it started an upload; otherwise
     * it shows the source directly and stops loading.
     */
    method RunEffect() returns (startsUpload: bool)
      modifies this
      ensures startsUpload <==> RouteOf(src) == Upload
      ensures startsUpload ==> imageSrc == old(imageSrc) && isLoading == old(isLoading)
      ensures !startsUpload ==> imageSrc == src && !isLoading
      ensures error == old(error)
    {
      var route := RouteOf(src);
      if route == UseHosted {
        imageSrc := src;
        isLoading := false;
        return false;
      }
      if route == Upload {
        startsUpload := true;
      } else {
        imageSrc := src;
        isLoading := false;
        startsUpload := false;
      }
    }

    /** `uploadToBlob` once the endpoint has answered: `try`/`catch`, then `finally`. */
    method FinishUpload(answer: UploadAnswer)
      modifies this
      ensures imageSrc == SettledSource(src, answer)
      ensures !isLoading
      ensures error == old(error)
    {
      match answer {
        case Uploaded(url) =>
          imageSrc := url;
        case UploadRejected =>
          imageSrc := src;
        case UploadThrew =>
          imageSrc := src;
      }
      isLoading := false;
    }

    /** The image's `onError` handler. */
    method OnImageError()
      modifies this
      ensures error == Some(LoadFailedMessage)
      ensures imageSrc == old(imageSrc) && isLoading == old(isLoading)
      ensures Screen() == FailedPlaceholder
    {
      error := Some(LoadFailedMessage);
    }
  }

  /**
   * A component's life up to rest: mount, run the effect, and settle the
   * upload if one was started. Loading has ended on every path, and the
   * picture shows the settled source.
   */
  method Mount(src: string, caption: Option<string>, answer: UploadAnswer) returns (c: BlobImage)
    ensures fresh(c)
    ensures c.src == src && c.caption == caption
    ensures !c.isLoading && c.error.None?
    ensures c.imageSrc == ShownSource(src, answer)
    ensures c.Screen() == Picture(ShownSource(src, answer), if Truthy(caption) then caption else None)
  {
    c := new BlobImage(src, caption);
    var uploading := c.RunEffect();
    if uploading {
      c.FinishUpload(answer);
    }
  }

  /**
   * The image element exists only once loading has ended, so a load error
   * comes after the component has settled: it replaces the picture of the
   * settled source with the error placeholder, and the source stays as it was.
   */
  method SettleThenFail(src: string, caption: Option<string>, answer: UploadAnswer) returns (c: BlobImage)
    ensures fresh(c)
    ensures !c.isLoading && c.imageSrc == ShownSource(src, answer)
    ensures c.error == Some(LoadFailedMessage)
    ensures c.Screen() == FailedPlaceholder
  {
    c := Mount(src, caption, answer);
    assert c.Screen().Picture?;
    c.OnImageError();
  }
}
