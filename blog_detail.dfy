/**
 * The blog-detail page: one post, its comments, the comment form and the
 * like button. Every handler is a step of a state machine over the page
 * state; each store call is a parameter saying whether it succeeded, and
 * the writes that reached the store are returned beside the new state.
 *
 * The pure functions below say what one step does; the class
 * `BlogDetailPage` holds the same state in fields and performs each step
 * statement by statement, proved equal to the function.
 */
module BlogDetail {
  import opened JsValues
  import opened Posts

  /** A write that reached the store. */
  datatype Write =
    | CreateComment(comment: Comment)
    | SetCommentsCount(blogId: string, count: Count)
    | SetLikesCount(blogId: string, count: Count)
    | SetCommentText(commentId: string, text: string)
    | RemoveComment(commentId: string)

  /** The page's state variables. */
  datatype Page = Page(
    blog: Option<Post>,
    loading: bool,
    error: string,
    comments: seq<Comment>,
    newComment: string,
    userName: string,
    userEmail: string,
    editCommentId: Option<string>,
    user: Option<User>)

  /** One handler run: the state afterwards and the writes that succeeded, in order. */
  datatype Step = Step(page: Page, writes: seq<Write>)

  const Anonymous := "Anonymous"
  const BlogNotFound := "Blog not found."
  const BlogLoadFailed := "Failed to load blog details."

  const Initial := Page(None, true, "", [], "", "", "", None, None)

  // ---------------------------------------------------------------------------
  // Loading (the mount effect)
  // ---------------------------------------------------------------------------

  /** `fetchBlogDetails`: a found post gets a creation date (now when it has none); loading ends in every case. */
  function LoadBlog(p: Page, fetched: Fetch<Post>, now: Timestamp): (r: Page)
    ensures !r.loading
    ensures r == p.(blog := r.blog, error := r.error, loading := false)
    ensures fetched.Found? ==>
      && r.blog.Some? && r.blog.value.id == fetched.doc.id
      && r.blog.value.createdAt.Some?
      && (fetched.doc.createdAt.Some? ==> r.blog == Some(fetched.doc))
      && (fetched.doc.createdAt.None? ==> r.blog.value.createdAt == Some(now))
      && r.blog.value.(createdAt := fetched.doc.createdAt) == fetched.doc
      && r.error == p.error
    ensures fetched.NotFound? ==> r.blog == p.blog && r.error == BlogNotFound
    ensures fetched.FetchFailed? ==> r.blog == p.blog && r.error == BlogLoadFailed
  {
    match fetched
    case Found(d) =>
      var created := if d.createdAt.Some? then d.createdAt.value else now;
      p.(blog := Some(d.(createdAt := Some(created))), loading := false)
    case NotFound => p.(error := BlogNotFound, loading := false)
    case FetchFailed => p.(error := BlogLoadFailed, loading := false)
  }

  /**
   * `fetchComments`: the comments of the post named in the route, queried
   * from the `comments` collection; a failed query leaves the list as it was.
   */
  function LoadComments(p: Page, id: string, store: Option<seq<Comment>>): (r: Page)
    ensures store.None? ==> r == p
    ensures store.Some? ==>
      && r == p.(comments := r.comments)
      && |r.comments| <= |store.value|
      && (forall c :: c in r.comments <==> c in store.value && c.blogId == id)
  {
    if store.Some? then
      CommentsOnExactly(store.value, id);
      p.(comments := CommentsOn(store.value, id))
    else p
  }

  /**
   * The auth listener: a signed-in user fills the name and email inputs
   * (an empty display name reads as "Anonymous"); a sign-out report
   * changes nothing, so the previous user stays.
   */
  function AuthChanged(p: Page, current: Option<User>): (r: Page)
    ensures current.None? ==> r == p
    ensures current.Some? ==>
      && r.user == current && r.userEmail == current.value.email
      && (current.value.displayName != "" ==> r.userName == current.value.displayName)
      && (current.value.displayName == "" ==> r.userName == Anonymous)
    ensures r == p.(user := r.user, userName := r.userName, userEmail := r.userEmail)
  {
    if current.Some? then
      var u := current.value;
      p.(user := current, userName := if u.displayName != "" then u.displayName else Anonymous, userEmail := u.email)
    else p
  }

  // ---------------------------------------------------------------------------
  // Comments
  // ---------------------------------------------------------------------------

  /** `user ? user.uid : null` */
  function UidOf(user: Option<User>): (r: Option<string>)
    ensures r.Some? <==> user.Some?
    ensures r.Some? ==> r.value == user.value.uid
  {
    if user.Some? then Some(user.value.uid) else None
  }

  /**
   * The comment `handleAddComment` builds: the name input or "Anonymous",
   * the email input, the text as typed (untrimmed), the post's id, the
   * user's uid or null, and the id the store assigned.
   */
  function NewComment(p: Page, blogId: string, id: string, now: Timestamp): (c: Comment)
    ensures c.id == id && c.blogId == blogId && c.createdAt == now
    ensures c.comment == p.newComment && c.email == p.userEmail
    ensures p.userName != "" ==> c.name == p.userName
    ensures p.userName == "" ==> c.name == Anonymous
    ensures c.userId.Some? <==> p.user.Some?
    ensures p.user.Some? ==> c.userId == Some(p.user.value.uid)
  {
    Comment(id, if p.userName != "" then p.userName else Anonymous, p.userEmail, p.newComment, blogId, UidOf(p.user), now)
  }

  /** The inputs a fully successful add clears. */
  function ClearInputs(p: Page): Page {
    p.(newComment := "", userName := "", userEmail := "")
  }

  /**
   * `handleAddComment`. A comment that is blank after trimming is refused
   * with nothing changed. Otherwise (the page always has a post when the
   * form is shown; without one, `blog.id` throws first) the comment write
   * is attempted: if it fails nothing changes; if it succeeds the comment
   * is appended. Then the counter write `(blog.commentsCount || 0) + 1`,
   * computed from the value the page holds: if it fails the appended
   * comment stays but the counter and the inputs do not change; if it
   * succeeds the page's counter takes the written value and the three
   * inputs are cleared.
   */
  function AddComment(p: Page, commentOk: bool, newId: string, counterOk: bool, now: Timestamp): (r: Step)
    ensures Trim(p.newComment) == [] || p.blog.None? || !commentOk ==> r == Step(p, [])
    ensures Trim(p.newComment) != [] && p.blog.Some? && commentOk && !counterOk ==>
      var c := NewComment(p, p.blog.value.id, newId, now);
      r == Step(p.(comments := p.comments + [c]), [CreateComment(c)])
    ensures Trim(p.newComment) != [] && p.blog.Some? && commentOk && counterOk ==>
      var b := p.blog.value;
      var c := NewComment(p, b.id, newId, now);
      var count := Num(OrZero(b.commentsCount) + 1);
      r == Step(ClearInputs(p).(comments := p.comments + [c], blog := Some(b.(commentsCount := count))),
                [CreateComment(c), SetCommentsCount(b.id, count)])
  {
    if Trim(p.newComment) == [] || p.blog.None? || !commentOk then Step(p, [])
    else
      var b := p.blog.value;
      var c := NewComment(p, b.id, newId, now);
      var appended := p.(comments := p.comments + [c]);
      if !counterOk then Step(appended, [CreateComment(c)])
      else
        var count := Bumped(b.commentsCount);
        Step(ClearInputs(appended).(blog := Some(b.(commentsCount := count))),
             [CreateComment(c), SetCommentsCount(b.id, count)])
  }

  /** `handleEditComment`: enter edit mode for `c` with its text in the input. */
  function EditComment(p: Page, c: Comment): (r: Page)
    ensures r.editCommentId == Some(c.id) && r.newComment == c.comment
    ensures r == p.(editCommentId := r.editCommentId, newComment := r.newComment)
  {
    p.(editCommentId := Some(c.id), newComment := c.comment)
  }

  /** `prevComments.map(c => c.id === id ? { ...c, comment: text } : c)` */
  function ReplaceText(cs: seq<Comment>, id: string, text: string): (r: seq<Comment>)
    ensures |r| == |cs|
    ensures forall i :: 0 <= i < |r| ==> r[i].id == cs[i].id
    ensures forall i :: 0 <= i < |r| && cs[i].id != id ==> r[i] == cs[i]
    ensures forall i :: 0 <= i < |r| && cs[i].id == id ==> r[i] == cs[i].(comment := text)
  {
    seq(|cs|, i requires 0 <= i < |cs| => if cs[i].id == id then cs[i].(comment := text) else cs[i])
  }

  /**
   * `handleUpdateComment`: without an id under edit the store reference
   * cannot be built and nothing happens; a failed write changes nothing;
   * a successful write replaces the text of the comments with that id,
   * leaves edit mode and clears the input. No blank check, no ownership
   * check, no counter change.
   */
  function UpdateComment(p: Page, writeOk: bool): (r: Step)
    ensures p.editCommentId.None? || !writeOk ==> r == Step(p, [])
    ensures p.editCommentId.Some? && writeOk ==>
      && r.page == p.(comments := r.page.comments, editCommentId := None, newComment := "")
      && r.page.comments == ReplaceText(p.comments, p.editCommentId.value, p.newComment)
      && r.writes == [SetCommentText(p.editCommentId.value, p.newComment)]
    ensures |r.page.comments| == |p.comments| && r.page.blog == p.blog
  {
    if p.editCommentId.None? || !writeOk then Step(p, [])
    else
      var id := p.editCommentId.value;
      Step(p.(comments := ReplaceText(p.comments, id, p.newComment), editCommentId := None, newComment := ""),
           [SetCommentText(id, p.newComment)])
  }

  /** The test `c => c.id !== id` of the delete handler's filter. */
  function OtherThan(id: string): Comment -> bool {
    (c: Comment) => c.id != id
  }

  /** `prevComments.filter(c => c.id !== id)` */
  function Without(cs: seq<Comment>, id: string): (r: seq<Comment>)
    ensures |r| <= |cs|
  {
    Filter(cs, OtherThan(id))
  }

  /**
   * `handleDeleteComment`: a failed delete changes nothing; otherwise the
   * comments with that id leave the list, then the counter write
   * `blog.commentsCount - 1` (no floor at zero, no default: a missing
   * counter becomes NaN). When that write fails the comment is gone but
   * the counter is unchanged.
   */
  function DeleteComment(p: Page, id: string, deleteOk: bool, counterOk: bool): (r: Step)
    ensures !deleteOk ==> r == Step(p, [])
    ensures deleteOk ==>
      && r.page.comments == Without(p.comments, id)
      && r.page == p.(comments := r.page.comments, blog := r.page.blog)
      && (p.blog.Some? && counterOk ==>
            && r.page.blog == Some(p.blog.value.(commentsCount := Decremented(p.blog.value.commentsCount)))
            && r.writes == [RemoveComment(id), SetCommentsCount(p.blog.value.id, Decremented(p.blog.value.commentsCount))])
      && (p.blog.None? || !counterOk ==> r.page.blog == p.blog && r.writes == [RemoveComment(id)])
  {
    if !deleteOk then Step(p, [])
    else
      var removed := p.(comments := Without(p.comments, id));
      if p.blog.None? || !counterOk then Step(removed, [RemoveComment(id)])
      else
        var b := p.blog.value;
        var count := Decremented(b.commentsCount);
        Step(removed.(blog := Some(b.(commentsCount := count))), [RemoveComment(id), SetCommentsCount(b.id, count)])
  }

  /** The form's `onSubmit`: update when an id is under edit (a non-empty string is truthy), add otherwise. */
  predicate Editing(p: Page)
    ensures Editing(p) ==> p.editCommentId.Some?
  {
    p.editCommentId.Some? && p.editCommentId.value != ""
  }

  function Submit(p: Page, writeOk: bool, newId: string, counterOk: bool, now: Timestamp): (r: Step)
    ensures Editing(p) ==> r == UpdateComment(p, writeOk)
    ensures !Editing(p) ==> r == AddComment(p, writeOk, newId, counterOk, now)
    ensures Editing(p) ==>
      && |r.page.comments| == |p.comments| && r.page.blog == p.blog
      && forall w :: w in r.writes ==> w.SetCommentText?
    ensures !Editing(p) ==>
      && r.page.editCommentId == p.editCommentId
      && |p.comments| <= |r.page.comments| <= |p.comments| + 1
      && forall w :: w in r.writes ==> w.CreateComment? || w.SetCommentsCount?
  {
    if Editing(p) then UpdateComment(p, writeOk) else AddComment(p, writeOk, newId, counterOk, now)
  }

  /** Edit and delete controls show only to the signed-in author: a comment without a user id is never editable. */
  predicate CanModify(user: Option<User>, c: Comment)
    ensures CanModify(user, c) ==> user.Some? && c.userId.Some?
  {
    user.Some? && c.userId == Some(user.value.uid)
  }

  // ---------------------------------------------------------------------------
  // Likes
  // ---------------------------------------------------------------------------

  /**
   * `handleLike`: only with a post and a signed-in user; writes
   * `(likesCount || 0) + 1`. The write is awaited outside any try, so a
   * failed write leaves the page as it was. No per-user de-duplication.
   */
  function Like(p: Page, writeOk: bool): (r: Step)
    ensures p.blog.None? || p.user.None? || !writeOk ==> r == Step(p, [])
    ensures p.blog.Some? && p.user.Some? && writeOk ==>
      var b := p.blog.value;
      && r.page == p.(blog := Some(b.(likesCount := Num(OrZero(b.likesCount) + 1))))
      && r.writes == [SetLikesCount(b.id, Num(OrZero(b.likesCount) + 1))]
  {
    if p.blog.Some? && p.user.Some? && writeOk then
      var b := p.blog.value;
      var count := Bumped(b.likesCount);
      Step(p.(blog := Some(b.(likesCount := count))), [SetLikesCount(b.id, count)])
    else Step(p, [])
  }

  // ---------------------------------------------------------------------------
  // Properties of sequences of steps
  // ---------------------------------------------------------------------------

  /**
   * A comment made only of white space (or empty) is refused whatever the
   * outcome of the writes would be, and one with any other character goes
   * on to the comment write.
   */
  lemma BlankCommentRefused(p: Page, commentOk: bool, newId: string, counterOk: bool, now: Timestamp)
    ensures AllWhitespace(p.newComment) ==> AddComment(p, commentOk, newId, counterOk, now) == Step(p, [])
    ensures !AllWhitespace(p.newComment) && p.blog.Some? && commentOk ==>
      var w := AddComment(p, commentOk, newId, counterOk, now).writes;
      w != [] && w[0] == CreateComment(NewComment(p, p.blog.value.id, newId, now))
  {
    TrimEmptyIffBlank(p.newComment);
  }

  /** The ownership gate hides the controls from everyone on an anonymous comment, and from every other user. */
  lemma OwnershipGate(user: Option<User>, c: Comment)
    ensures c.userId.None? ==> !CanModify(user, c)
    ensures CanModify(user, c) <==> user.Some? && c.userId.Some? && c.userId.value == user.value.uid
  {
  }

  /** Entering edit mode makes the next submit an update of that comment, as long as its id is non-empty. */
  lemma EditSelectsUpdate(p: Page, c: Comment, writeOk: bool, newId: string, counterOk: bool, now: Timestamp)
    requires c.id != ""
    ensures Submit(EditComment(p, c), writeOk, newId, counterOk, now) == UpdateComment(EditComment(p, c), writeOk)
  {
  }

  predicate UniqueIds(cs: seq<Comment>) {
    forall i, j :: 0 <= i < j < |cs| ==> cs[i].id != cs[j].id
  }

  /** Editing a comment and submitting its text unchanged leaves the list as it was and leaves edit mode. */
  lemma EditThenUpdateKeepsComments(p: Page, c: Comment)
    requires c in p.comments && UniqueIds(p.comments)
    ensures var r := UpdateComment(EditComment(p, c), true);
      r.page.comments == p.comments && r.page.editCommentId.None? && r.page.newComment == ""
      && r.writes == [SetCommentText(c.id, c.comment)]
  {
    var cs := p.comments;
    var k :| 0 <= k < |cs| && cs[k] == c;
    var r := ReplaceText(cs, c.id, c.comment);
    forall i | 0 <= i < |cs|
      ensures r[i] == cs[i]
    {
      if cs[i].id == c.id {
        assert i == k;
      }
    }
  }

  /** The filter keeps exactly the comments whose id differs. */
  lemma WithoutMembers(cs: seq<Comment>, id: string)
    ensures forall c :: c in Without(cs, id) <==> c in cs && c.id != id
  {
    FilterMembers(cs, OtherThan(id));
  }

  /** A filter keeps a list with no such id intact. */
  lemma WithoutAbsent(cs: seq<Comment>, id: string)
    requires forall c :: c in cs ==> c.id != id
    ensures Without(cs, id) == cs
  {
    FilterAll(cs, OtherThan(id));
  }

  /** With unique ids, deleting a present id removes exactly one comment. */
  lemma {:induction false} WithoutUnique(cs: seq<Comment>, id: string)
    requires UniqueIds(cs)
    requires exists c :: c in cs && c.id == id
    ensures |Without(cs, id)| == |cs| - 1
  {
    if cs[0].id == id {
      forall c | c in cs[1..] ensures c.id != id {
        var j :| 0 <= j < |cs[1..]| && cs[1..][j] == c;
        assert cs[0].id != cs[j + 1].id;
      }
      WithoutAbsent(cs[1..], id);
    } else {
      var c :| c in cs && c.id == id;
      assert c in cs[1..] by {
        var j :| 0 <= j < |cs| && cs[j] == c;
        assert j != 0;
        assert cs[1..][j - 1] == c;
      }
      WithoutUnique(cs[1..], id);
    }
  }

  /** The post's counter agrees with the comments the page holds. */
  predicate InSync(p: Page) {
    p.blog.Some? && p.blog.value.commentsCount == Num(|p.comments|)
  }

  /** A fully successful add keeps the counter in step with the list. */
  lemma AddKeepsInSync(p: Page, newId: string, now: Timestamp)
    requires InSync(p) && Trim(p.newComment) != []
    ensures InSync(AddComment(p, true, newId, true, now).page)
  {
  }

  /** An add whose counter write fails leaves the counter one behind the list. */
  lemma AddCounterFailureDrifts(p: Page, newId: string, now: Timestamp)
    requires InSync(p) && Trim(p.newComment) != []
    ensures var q := AddComment(p, true, newId, false, now).page;
      q.blog == p.blog && |q.comments| == |p.comments| + 1 && !InSync(q)
  {
  }

  /** A fully successful delete of a present comment keeps the counter in step with the list. */
  lemma DeleteKeepsInSync(p: Page, id: string)
    requires InSync(p) && UniqueIds(p.comments)
    requires exists c :: c in p.comments && c.id == id
    ensures InSync(DeleteComment(p, id, true, true).page)
  {
    WithoutUnique(p.comments, id);
  }

  /** The handler does not check that the id is present: deleting an unknown id still lowers the counter. */
  lemma DeleteUnknownDrifts(p: Page, id: string)
    requires InSync(p)
    requires forall c :: c in p.comments ==> c.id != id
    ensures var q := DeleteComment(p, id, true, true).page;
      q.comments == p.comments && q.blog.Some? && q.blog.value.commentsCount == Num(|p.comments| - 1) && !InSync(q)
  {
    WithoutAbsent(p.comments, id);
  }

  /** No floor at zero: deleting with a zero counter writes -1; with no counter it writes NaN. */
  lemma DeleteHasNoFloor(p: Page, id: string)
    requires p.blog.Some?
    ensures p.blog.value.commentsCount == Num(0) ==>
      DeleteComment(p, id, true, true).writes == [RemoveComment(id), SetCommentsCount(p.blog.value.id, Num(-1))]
    ensures p.blog.value.commentsCount == Absent ==>
      DeleteComment(p, id, true, true).writes == [RemoveComment(id), SetCommentsCount(p.blog.value.id, NaN)]
  {
  }

  /** Adding a comment and then deleting it (ids being fresh) restores the list and leaves the counter at its defaulted value. */
  lemma AddThenDeleteRestores(p: Page, newId: string, now: Timestamp)
    requires Trim(p.newComment) != [] && p.blog.Some?
    requires forall c :: c in p.comments ==> c.id != newId
    ensures var q := DeleteComment(AddComment(p, true, newId, true, now).page, newId, true, true).page;
      q.comments == p.comments && q.blog == Some(p.blog.value.(commentsCount := Num(OrZero(p.blog.value.commentsCount))))
  {
    var added := AddComment(p, true, newId, true, now).page;
    var c := NewComment(p, p.blog.value.id, newId, now);
    assert added.comments == p.comments + [c];
    FilterAppend(p.comments, [c], OtherThan(newId));
    WithoutAbsent(p.comments, newId);
    assert Without([c], newId) == [];
  }

  /** Type `text` into the comment box and submit it with every write succeeding, for each text in turn. */
  function PostComments(p: Page, texts: seq<string>, ids: seq<string>, now: Timestamp): Page
    requires |ids| == |texts|
    decreases |texts|
  {
    if texts == [] then p
    else PostComments(AddComment(p.(newComment := texts[0]), true, ids[0], true, now).page, texts[1..], ids[1..], now)
  }

  /** Each successful add raises the counter by exactly one and appends one comment, so n adds raise it by n. */
  lemma {:induction false} CommentsCountTracksAdds(p: Page, texts: seq<string>, ids: seq<string>, now: Timestamp)
    requires |ids| == |texts| && p.blog.Some?
    decreases |texts|
    requires forall i :: 0 <= i < |texts| ==> Trim(texts[i]) != []
    ensures var q := PostComments(p, texts, ids, now);
      && q.blog.Some?
      && OrZero(q.blog.value.commentsCount) == OrZero(p.blog.value.commentsCount) + |texts|
      && q.blog.value.likesCount == p.blog.value.likesCount
      && |q.comments| == |p.comments| + |texts|
      && q.comments[..|p.comments|] == p.comments
  {
    if texts != [] {
      var next := AddComment(p.(newComment := texts[0]), true, ids[0], true, now).page;
      assert forall i :: 0 <= i < |texts[1..]| ==> Trim(texts[1..][i]) != [] by {
        forall i | 0 <= i < |texts[1..]| ensures Trim(texts[1..][i]) != [] {
          assert texts[1..][i] == texts[i + 1];
        }
      }
      CommentsCountTracksAdds(next, texts[1..], ids[1..], now);
      var q := PostComments(next, texts[1..], ids[1..], now);
      assert q.comments[..|p.comments|] == q.comments[..|next.comments|][..|p.comments|];
    }
  }

  /** Press the like button n times with every write succeeding. */
  function LikeTimes(p: Page, n: nat): Page
    decreases n
  {
    if n == 0 then p else LikeTimes(Like(p, true).page, n - 1)
  }

  /** Likes are not de-duplicated: n likes by the same signed-in user add n. */
  lemma {:induction false} LikesAccumulate(p: Page, n: nat)
    requires p.blog.Some? && p.user.Some?
    decreases n
    ensures var q := LikeTimes(p, n);
      && q.blog.Some? && q.user == p.user && q.comments == p.comments
      && OrZero(q.blog.value.likesCount) == OrZero(p.blog.value.likesCount) + n
      && q.blog.value.commentsCount == p.blog.value.commentsCount
  {
    if n > 0 {
      LikesAccumulate(Like(p, true).page, n - 1);
    }
  }

  // ---------------------------------------------------------------------------
  // The page component, field by field
  // ---------------------------------------------------------------------------

  class BlogDetailPage {
    var blog: Option<Post>
    var loading: bool
    var error: string
    var comments: seq<Comment>
    var newComment: string
    var userName: string
    var userEmail: string
    var editCommentId: Option<string>
    var user: Option<User>

    function View(): Page
      reads this
    {
      Page(blog, loading, error, comments, newComment, userName, userEmail, editCommentId, user)
    }

    constructor ()
      ensures View() == Initial
    {
      blog, loading, error := None, true, "";
      comments, newComment, userName, userEmail := [], "", "", "";
      editCommentId, user := None, None;
    }

    method FetchBlogDetails(fetched: Fetch<Post>, now: Timestamp)
      modifies this
      ensures View() == LoadBlog(old(View()), fetched, now)
    {
      match fetched {
        case Found(d) =>
          var created := if d.createdAt.Some? then d.createdAt.value else now;
          blog := Some(d.(createdAt := Some(created)));
        case NotFound =>
          error := BlogNotFound;
        case FetchFailed =>
          error := BlogLoadFailed;
      }
      loading := false;
    }

    method FetchComments(id: string, store: Option<seq<Comment>>)
      modifies this
      ensures View() == LoadComments(old(View()), id, store)
    {
      if store.Some? {
        comments := CommentsOn(store.value, id);
      }
    }

    method OnAuthStateChanged(current: Option<User>)
      modifies this
      ensures View() == AuthChanged(old(View()), current)
    {
      if current.Some? {
        user := current;
        userName := if current.value.displayName != "" then current.value.displayName else Anonymous;
        userEmail := current.value.email;
      }
    }

    method HandleAddComment(commentOk: bool, newId: string, counterOk: bool, now: Timestamp) returns (writes: seq<Write>)
      modifies this
      ensures View() == AddComment(old(View()), commentOk, newId, counterOk, now).page
      ensures writes == AddComment(old(View()), commentOk, newId, counterOk, now).writes
    {
      var p := View();
      writes := [];
      if Trim(p.newComment) == [] || p.blog.None? || !commentOk {
        // blank input is refused with an alert; a missing post throws at `blog.id`;
        // a failed comment write lands in the catch
        return;
      }
      var b := blog.value;
      var data := NewComment(p, b.id, newId, now);
      comments := comments + [data];
      writes := [CreateComment(data)];
      if !counterOk {
        assert View() == p.(comments := p.comments + [data]);
        return;
      }
      var count := Num(OrZero(b.commentsCount) + 1);
      writes := [CreateComment(data), SetCommentsCount(b.id, count)];
      blog := Some(b.(commentsCount := count));
      newComment := "";
      userName := "";
      userEmail := "";
      assert View() == ClearInputs(p).(comments := p.comments + [data], blog := Some(b.(commentsCount := count)));
    }

    method SetUserName(s: string)
      modifies this
      ensures View() == old(View()).(userName := s)
    {
      userName := s;
    }

    method SetUserEmail(s: string)
      modifies this
      ensures View() == old(View()).(userEmail := s)
    {
      userEmail := s;
    }

    method SetNewComment(s: string)
      modifies this
      ensures View() == old(View()).(newComment := s)
    {
      newComment := s;
    }

    method HandleEditComment(c: Comment)
      modifies this
      ensures View() == EditComment(old(View()), c)
    {
      editCommentId := Some(c.id);
      newComment := c.comment;
    }

    method HandleUpdateComment(writeOk: bool) returns (writes: seq<Write>)
      modifies this
      ensures Step(View(), writes) == UpdateComment(old(View()), writeOk)
    {
      writes := [];
      if editCommentId.None? || !writeOk {
        return;
      }
      var id := editCommentId.value;
      writes := [SetCommentText(id, newComment)];
      comments := ReplaceText(comments, id, newComment);
      editCommentId := None;
      newComment := "";
    }

    method HandleDeleteComment(id: string, deleteOk: bool, counterOk: bool) returns (writes: seq<Write>)
      modifies this
      ensures Step(View(), writes) == DeleteComment(old(View()), id, deleteOk, counterOk)
    {
      writes := [];
      if !deleteOk {
        return;
      }
      writes := [RemoveComment(id)];
      comments := Without(comments, id);
      if blog.None? || !counterOk {
        return;
      }
      var count := Decremented(blog.value.commentsCount);
      writes := [RemoveComment(id), SetCommentsCount(blog.value.id, count)];
      blog := Some(blog.value.(commentsCount := count));
    }

    method HandleSubmit(writeOk: bool, newId: string, counterOk: bool, now: Timestamp) returns (writes: seq<Write>)
      modifies this
      ensures Step(View(), writes) == Submit(old(View()), writeOk, newId, counterOk, now)
    {
      if editCommentId.Some? && editCommentId.value != "" {
        writes := HandleUpdateComment(writeOk);
      } else {
        writes := HandleAddComment(writeOk, newId, counterOk, now);
      }
    }

    method HandleLike(writeOk: bool) returns (writes: seq<Write>)
      modifies this
      ensures Step(View(), writes) == Like(old(View()), writeOk)
    {
      writes := [];
      if blog.Some? && user.Some? {
        var count := Num(OrZero(blog.value.likesCount) + 1);
        if !writeOk {
          return;
        }
        writes := [SetLikesCount(blog.value.id, count)];
        blog := Some(blog.value.(likesCount := count));
      }
    }
  }
}
