/**
 * The edit-post page: loading the post into the form, the optional new
 * banner upload, and the partial update of title, content and banner.
 */
module EditBlog {
  import opened JsValues
  import opened Posts
  import opened Banners

  /** The page's state variables; the page starts out loading. */
  datatype Form = Form(
    title: string,
    content: string,
    bannerImage: Option<File>,
    bannerUrl: Banner,
    error: string,
    loading: bool)

  const Initial := Form("", "", None, Remote(""), "", true)

  const NotFoundError := "Blog not found"
  const RequiredError := "Title and content are required."
  const UpdateFailed := "Failed to update blog."

  /** The three fields `updateDoc` overwrites; every other field of the post is kept. */
  datatype Patch = Patch(title: string, content: string, bannerUrl: string)

  /** One submit: the form afterwards, the uploaded banner URL, the patch written, and whether the page navigated. */
  datatype Outcome = Outcome(form: Form, uploaded: Option<string>, written: Option<Patch>, navigated: bool)

  /**
   * `fetchBlog`. A found post fills title, content and banner; a missing
   * one sets the error and leaves the inputs empty; either way `loading`
   * drops. The read has no error handling: when it fails the promise is
   * rejected before `loading` is lowered and the page keeps loading.
   */
  function Load(f: Form, fetched: Fetch<Post>): (r: Form)
    ensures fetched.Found? ==>
      r == f.(title := fetched.doc.title, content := fetched.doc.content,
              bannerUrl := Remote(fetched.doc.bannerUrl), loading := false)
    ensures fetched.NotFound? ==> r == f.(error := NotFoundError, loading := false)
    ensures fetched.FetchFailed? ==> r == f
    ensures r.bannerImage == f.bannerImage
  {
    match fetched
    case Found(d) => f.(title := d.title, content := d.content, bannerUrl := Remote(d.bannerUrl), loading := false)
    case NotFound => f.(error := NotFoundError, loading := false)
    case FetchFailed => f
  }

  /**
   * `handleUpdateBlog`. Empty title or content sets the "required" error.
   * Otherwise the banner URL is the one in state, unless a new file was
   * chosen: then the current user's uid is read (a signed-out caller makes
   * it throw) and the file is uploaded first. Any failure sets the "failed"
   * error. `loading` is untouched and the error is not cleared on success.
   * Nothing checks that the caller wrote the post.
   */
  function Update(f: Form, uid: Option<string>, upload: Upload, writeOk: bool): (r: Outcome)
    ensures f.title == "" || f.content == "" ==> r == Outcome(f.(error := RequiredError), None, None, false)
    ensures r.form == f || r.form == f.(error := RequiredError) || r.form == f.(error := UpdateFailed)
    ensures r.uploaded.Some? <==>
      f.title != "" && f.content != "" && f.bannerImage.Some? && uid.Some? && upload.Uploaded?
    ensures r.uploaded.Some? ==> r.uploaded == Some(upload.url)
    ensures r.written.Some? <==>
      && f.title != "" && f.content != "" && writeOk
      && (f.bannerImage.Some? ==> uid.Some? && upload.Uploaded?)
    ensures r.written.Some? ==>
      && r.written.value.title == f.title && r.written.value.content == f.content
      && r.written.value.bannerUrl == (if f.bannerImage.Some? then upload.url else UrlOf(f.bannerUrl))
    ensures r.navigated <==> r.written.Some?
    ensures r.written.Some? ==> r.form == f
    ensures f.title != "" && f.content != "" && r.written.None? ==> r.form == f.(error := UpdateFailed)
  {
    if f.title == "" || f.content == "" then Outcome(f.(error := RequiredError), None, None, false)
    else
      var failed := f.(error := UpdateFailed);
      if f.bannerImage.Some? && (uid.None? || upload.UploadFailed?) then Outcome(failed, None, None, false)
      else
        var uploaded := if f.bannerImage.Some? then Some(upload.url) else None;
        var url := if f.bannerImage.Some? then upload.url else UrlOf(f.bannerUrl);
        if !writeOk then Outcome(failed, uploaded, None, false)
        else Outcome(f, uploaded, Some(Patch(f.title, f.content, url)), true)
  }

  /** `handleBannerChange` */
  function BannerChange(f: Form, picked: Option<File>, objectUrl: string): (r: Form)
    ensures picked.None? ==> r == f
    ensures picked.Some? ==> r == f.(bannerImage := picked, bannerUrl := Preview(picked.value, objectUrl))
    ensures PreviewBacked(f.bannerImage, f.bannerUrl) ==> PreviewBacked(r.bannerImage, r.bannerUrl)
  {
    var (image, banner) := ChooseBanner(f.bannerImage, f.bannerUrl, picked, objectUrl);
    f.(bannerImage := image, bannerUrl := banner)
  }

  /** `updateDoc` merges: the patch's three fields change and the rest of the post is kept. */
  function ApplyPatch(p: Post, w: Patch): (r: Post)
    ensures r.title == w.title && r.content == w.content && r.bannerUrl == w.bannerUrl
    ensures r.(title := p.title, content := p.content, bannerUrl := p.bannerUrl) == p
  {
    p.(title := w.title, content := w.content, bannerUrl := w.bannerUrl)
  }

  /**
   * Editing keeps the author, the creation time and both counters, so the
   * displayed likes and comment count are those from before the edit.
   */
  lemma EditKeepsCounters(p: Post, f: Form, uid: Option<string>, upload: Upload)
    requires Update(f, uid, upload, true).written.Some?
    ensures var q := ApplyPatch(p, Update(f, uid, upload, true).written.value);
      && q.id == p.id && q.authorId == p.authorId && q.authorName == p.authorName
      && q.createdAt == p.createdAt
      && q.likesCount == p.likesCount && q.commentsCount == p.commentsCount
      && q.title == f.title && q.content == f.content
  {
  }

  /**
   * The object URL of a preview is never written: while every preview is
   * backed by the chosen file, the written banner is either the URL the
   * upload returned or a URL that came from the store.
   */
  lemma PreviewNeverPersisted(f: Form, uid: Option<string>, upload: Upload, writeOk: bool)
    requires PreviewBacked(f.bannerImage, f.bannerUrl)
    ensures var r := Update(f, uid, upload, writeOk);
      r.written.Some? ==>
        || (f.bannerImage.Some? && upload == Uploaded(r.written.value.bannerUrl))
        || (f.bannerUrl.Remote? && r.written.value.bannerUrl == f.bannerUrl.url)
  {
  }

  /**
   * Any signed-in user gets the same update: the uid only names the
   * uploaded banner, and without a new banner even a signed-out caller
   * reaches the write.
   */
  lemma UpdateIgnoresOwnership(f: Form, uid1: string, uid2: string, upload: Upload, writeOk: bool)
    ensures Update(f, Some(uid1), upload, writeOk) == Update(f, Some(uid2), upload, writeOk)
    ensures f.bannerImage.None? ==> Update(f, None, upload, writeOk) == Update(f, Some(uid1), upload, writeOk)
  {
  }

  /** A post that is not there shows "Blog not found" over an empty form, which then refuses to submit. */
  lemma MissingPostRefusesUpdate(uid: Option<string>, upload: Upload, writeOk: bool)
    ensures var f := Load(Initial, NotFound);
      && f.error == NotFoundError && !f.loading && f.title == "" && f.content == ""
      && Update(f, uid, upload, writeOk).written.None?
      && Update(f, uid, upload, writeOk).form.error == RequiredError
  {
  }

  class EditBlogPage {
    var title: string
    var content: string
    var bannerImage: Option<File>
    var bannerUrl: Banner
    var error: string
    var loading: bool

    function View(): Form
      reads this
    {
      Form(title, content, bannerImage, bannerUrl, error, loading)
    }

    /** Every preview on the page shows the file that was chosen. */
    predicate Valid()
      reads this
    {
      PreviewBacked(bannerImage, bannerUrl)
    }

    constructor ()
      ensures View() == Initial && Valid()
    {
      title, content, bannerImage, bannerUrl := "", "", None, Remote("");
      error, loading := "", true;
    }

    method FetchBlog(fetched: Fetch<Post>)
      requires Valid()
      modifies this
      ensures View() == Load(old(View()), fetched) && Valid()
    {
      match fetched
      case Found(d) =>
        title, content, bannerUrl := d.title, d.content, Remote(d.bannerUrl);
        loading := false;
      case NotFound =>
        error := NotFoundError;
        loading := false;
      case FetchFailed =>
    }

    method SetTitle(s: string)
      modifies this
      ensures View() == old(View()).(title := s)
    {
      title := s;
    }

    method SetContent(s: string)
      modifies this
      ensures View() == old(View()).(content := s)
    {
      content := s;
    }

    method HandleBannerChange(picked: Option<File>, objectUrl: string)
      requires Valid()
      modifies this
      ensures View() == BannerChange(old(View()), picked, objectUrl) && Valid()
    {
      if picked.Some? {
        bannerImage := picked;
        bannerUrl := Preview(picked.value, objectUrl);
      }
    }

    method HandleUpdateBlog(uid: Option<string>, upload: Upload, writeOk: bool)
      returns (uploaded: Option<string>, written: Option<Patch>, navigated: bool)
      requires Valid()
      modifies this
      ensures Outcome(View(), uploaded, written, navigated) == Update(old(View()), uid, upload, writeOk)
      ensures Valid()
    {
      uploaded, written, navigated := None, None, false;
      if title == "" || content == "" {
        error := RequiredError;
        return;
      }
      var imageUrl := UrlOf(bannerUrl);
      if bannerImage.Some? {
        if uid.None? || upload.UploadFailed? {
          error := UpdateFailed;
          return;
        }
        uploaded := Some(upload.url);
        imageUrl := upload.url;
      }
      if writeOk {
        written := Some(Patch(title, content, imageUrl));
        navigated := true;
      } else {
        error := UpdateFailed;
      }
    }
  }
}
