/**
 * The banner-image state shared by the create and edit pages: the chosen
 * file, the URL shown as a preview, and the outcome of an upload.
 */
module Banners {
  import opened JsValues

  /** A file picked in the browser; only its identity matters. */
  datatype File = File(name: string)

  /**
   * The `bannerUrl` state: either a URL that came from the store (or the
   * initial empty string), or a local `blob:` URL made by
   * `URL.createObjectURL` to preview a chosen file.
   */
  datatype Banner = Remote(url: string) | Preview(file: File, objectUrl: string)

  /** The string the state variable holds. */
  function UrlOf(b: Banner): string {
    match b
    case Remote(u) => u
    case Preview(_, u) => u
  }

  /** Upload to the blob store followed by `getDownloadURL`. */
  datatype Upload = UploadFailed | Uploaded(url: string)

  /** A preview URL is only ever shown together with the file it previews. */
  predicate PreviewBacked(image: Option<File>, banner: Banner) {
    banner.Preview? ==> image == Some(banner.file)
  }

  /**
   * `handleBannerChange`: when the file input holds a file, remember it and
   * show its preview; when it holds none (the dialog was cancelled), keep
   * both the chosen image and the preview as they were.
   */
  function ChooseBanner(image: Option<File>, banner: Banner, picked: Option<File>, objectUrl: string)
    : (r: (Option<File>, Banner))
    ensures picked.None? ==> r == (image, banner)
    ensures picked.Some? ==> r == (picked, Preview(picked.value, objectUrl))
    ensures PreviewBacked(image, banner) ==> PreviewBacked(r.0, r.1)
  {
    if picked.Some? then (picked, Preview(picked.value, objectUrl)) else (image, banner)
  }
}
