/**
 * The create-post page: validation of the form, the upload of the banner
 * before the document write, the record written, and the `error` and
 * `loading` state around the attempt.
 */
module CreateBlog {
  import opened JsValues
  import opened Posts
  import opened Banners

  /** The page's state variables. */
  datatype Form = Form(
    title: string,
    content: string,
    bannerImage: Option<File>,
    bannerUrl: Banner,
    author: string,
    error: string,
    loading: bool)

  const Initial := Form("", "", None, Remote(""), "", "", false)

  const RequiredError := "Title, content, banner image, and author are required."
  const CreateFailed := "Failed to create blog."

  /** The document `handleCreateBlog` adds to the `blogs` collection. */
  datatype BlogRecord = BlogRecord(
    title: string,
    content: string,
    bannerUrl: string,
    authorId: string,
    authorName: string,
    author: string,
    createdAt: Timestamp,
    likes: int)

  /**
   * One submit: the form afterwards, the URL of the banner stored in the
   * blob store (if the upload happened), the record written (if the write
   * happened) and whether the page navigated home.
   */
  datatype Outcome = Outcome(form: Form, uploaded: Option<string>, written: Option<BlogRecord>, navigated: bool)

  /** The four inputs the handler insists on: every string non-empty and a file chosen. */
  predicate Complete(f: Form)
    ensures Complete(f) ==> f.bannerImage.Some?
  {
    f.title != "" && f.content != "" && f.bannerImage.Some? && f.author != ""
  }

  /** The record literal: the inputs as entered, the uploaded URL, the caller's uid, and `likes: 0`. */
  function Record(f: Form, uid: string, url: string, now: Timestamp): (r: BlogRecord)
    ensures r.title == f.title && r.content == f.content && r.bannerUrl == url
    ensures r.authorId == uid && r.authorName == f.author && r.author == f.author
    ensures r.createdAt == now && r.likes == 0
  {
    BlogRecord(f.title, f.content, url, uid, f.author, f.author, now, 0)
  }

  /**
   * `handleCreateBlog`. An incomplete form sets the "required" error and
   * nothing else happens. Otherwise `loading` is raised for the attempt;
   * the current user's uid is read (a signed-out caller makes it throw),
   * the banner is uploaded, and only then is the record written. Any
   * failure sets the "failed" error; `loading` is lowered in every case.
   * On success the page navigates home and the error is left as it was.
   */
  function Create(f: Form, uid: Option<string>, upload: Upload, writeOk: bool, now: Timestamp): (r: Outcome)
    ensures !Complete(f) ==> r == Outcome(f.(error := RequiredError), None, None, false)
    ensures Complete(f) ==> !r.form.loading && r.form == f.(error := r.form.error, loading := false)
    ensures r.uploaded.Some? <==> Complete(f) && uid.Some? && upload.Uploaded?
    ensures r.uploaded.Some? ==> r.uploaded == Some(upload.url)
    ensures r.written.Some? <==> r.uploaded.Some? && writeOk
    ensures r.written.Some? ==>
      var w := r.written.value;
      && w.title == f.title && w.content == f.content
      && w.bannerUrl == upload.url && w.authorId == uid.value
      && w.authorName == f.author && w.author == f.author
      && w.createdAt == now && w.likes == 0
    ensures r.navigated <==> r.written.Some?
    ensures r.written.Some? ==> r.form.error == f.error
    ensures Complete(f) && r.written.None? ==> r.form.error == CreateFailed
  {
    if !Complete(f) then Outcome(f.(error := RequiredError), None, None, false)
    else
      var failed := f.(error := CreateFailed, loading := false);
      if uid.None? || upload.UploadFailed? then Outcome(failed, None, None, false)
      else if !writeOk then Outcome(failed, Some(upload.url), None, false)
      else Outcome(f.(loading := false), Some(upload.url), Some(Record(f, uid.value, upload.url, now)), true)
  }

  /**
   * The part of `handleCreateBlog` that runs before its first `await`: an
   * incomplete form gets the "required" error, a complete one raises
   * `loading`, which disables the submit button for the attempt.
   */
  function Begin(f: Form): (r: Form)
    ensures !Complete(f) ==> r == f.(error := RequiredError)
    ensures Complete(f) ==> r == f.(loading := true) && r.loading
  {
    if Complete(f) then f.(loading := true) else f.(error := RequiredError)
  }

  /**
   * The attempt runs with `loading` raised and ends with it lowered: the
   * awaited part, started from the state `Begin` leaves, gives the same
   * outcome as the whole handler.
   */
  lemma BeginThenCreate(f: Form, uid: Option<string>, upload: Upload, writeOk: bool, now: Timestamp)
    requires Complete(f)
    ensures Begin(f).loading && Complete(Begin(f))
    ensures Create(Begin(f), uid, upload, writeOk, now) == Create(f, uid, upload, writeOk, now)
    ensures !Create(Begin(f), uid, upload, writeOk, now).form.loading
  {
  }

  /** `handleBannerChange` */
  function BannerChange(f: Form, picked: Option<File>, objectUrl: string): (r: Form)
    ensures picked.None? ==> r == f
    ensures picked.Some? ==> r == f.(bannerImage := picked, bannerUrl := Preview(picked.value, objectUrl))
  {
    var (image, banner) := ChooseBanner(f.bannerImage, f.bannerUrl, picked, objectUrl);
    f.(bannerImage := image, bannerUrl := banner)
  }

  /**
   * The document as the store then holds it. The record has `likes` but
   * neither `likesCount` nor `commentsCount`: both counters are missing.
   */
  function Stored(id: string, w: BlogRecord): (r: Post)
    ensures r.id == id && r.createdAt == Some(w.createdAt)
    ensures r.likes == Num(w.likes) && r.likesCount.Absent? && r.commentsCount.Absent?
  {
    Post(id, w.title, w.content, w.bannerUrl, w.authorId, w.authorName, w.author, Some(w.createdAt),
         Num(w.likes), Absent, Absent)
  }

  /**
   * A successful create followed by reading the post back: the title,
   * content, author and banner are what was entered and uploaded, and both
   * counters display as 0, through the `|| 0` defaults rather than the
   * `likes: 0` field, which no page reads.
   */
  lemma CreateThenRead(f: Form, uid: string, url: string, now: Timestamp, id: string)
    requires Complete(f)
    ensures var o := Create(f, Some(uid), Uploaded(url), true, now);
      && o.written.Some?
      && var p := Stored(id, o.written.value);
      && p.title == f.title && p.content == f.content && p.authorName == f.author
      && p.authorId == uid && p.bannerUrl == url
      && p.likesCount == Absent && p.commentsCount == Absent
      && DefaultedShown(p.likesCount) == Number(0) && DefaultedShown(p.commentsCount) == Number(0)
  {
  }

  /** The upload comes first: when the write then fails the uploaded banner is left without a post. */
  lemma FailedWriteOrphansBanner(f: Form, uid: string, url: string, now: Timestamp)
    requires Complete(f)
    ensures var o := Create(f, Some(uid), Uploaded(url), false, now);
      o.uploaded == Some(url) && o.written.None? && o.form.error == CreateFailed && !o.form.loading
  {
  }

  class CreateBlogPage {
    var title: string
    var content: string
    var bannerImage: Option<File>
    var bannerUrl: Banner
    var author: string
    var error: string
    var loading: bool

    function View(): Form
      reads this
    {
      Form(title, content, bannerImage, bannerUrl, author, error, loading)
    }

    constructor ()
      ensures View() == Initial
    {
      title, content, bannerImage, bannerUrl := "", "", None, Remote("");
      author, error, loading := "", "", false;
    }

    method SetTitle(s: string)
      modifies this
      ensures View() == old(View()).(title := s)
    {
      title := s;
    }

    method SetContent(s: string)
      modifies this
      ensures View() == old(View()).(content := s)
    {
      content := s;
    }

    method SetAuthor(s: string)
      modifies this
      ensures View() == old(View()).(author := s)
    {
      author := s;
    }

    method HandleBannerChange(picked: Option<File>, objectUrl: string)
      modifies this
      ensures View() == BannerChange(old(View()), picked, objectUrl)
    {
      if picked.Some? {
        bannerImage := picked;
        bannerUrl := Preview(picked.value, objectUrl);
      }
    }

    /** `handleCreateBlog` up to its first `await`; returns whether the attempt goes on. */
    method BeginCreate() returns (proceed: bool)
      modifies this
      ensures View() == Begin(old(View()))
      ensures proceed <==> Complete(old(View()))
    {
      if title == "" || content == "" || bannerImage.None? || author == "" {
        error := RequiredError;
        return false;
      }
      loading := true;
      return true;
    }

    /** The awaited rest of `handleCreateBlog`: uid, upload, write, and `loading` lowered in `finally`. */
    method FinishCreate(uid: Option<string>, upload: Upload, writeOk: bool, now: Timestamp)
      returns (uploaded: Option<string>, written: Option<BlogRecord>, navigated: bool)
      requires Complete(View()) && loading
      modifies this
      ensures Outcome(View(), uploaded, written, navigated) == Create(old(View()), uid, upload, writeOk, now)
      ensures !loading
    {
      uploaded, written, navigated := None, None, false;
      if uid.None? || upload.UploadFailed? {
        error := CreateFailed;
      } else {
        uploaded := Some(upload.url);
        if writeOk {
          written := Some(BlogRecord(title, content, upload.url, uid.value, author, author, now, 0));
          navigated := true;
        } else {
          error := CreateFailed;
        }
      }
      loading := false;
    }

    /** `handleCreateBlog` from submit to the end of the attempt. */
    method HandleCreateBlog(uid: Option<string>, upload: Upload, writeOk: bool, now: Timestamp)
      returns (uploaded: Option<string>, written: Option<BlogRecord>, navigated: bool)
      modifies this
      ensures Outcome(View(), uploaded, written, navigated) == Create(old(View()), uid, upload, writeOk, now)
    {
      ghost var f := View();
      var proceed := BeginCreate();
      if !proceed {
        return None, None, false;
      }
      BeginThenCreate(f, uid, upload, writeOk, now);
      uploaded, written, navigated := FinishCreate(uid, upload, writeOk, now);
    }
  }
}
