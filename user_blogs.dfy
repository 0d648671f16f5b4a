/**
 * The "your posts" page: the posts whose `authorId` is the signed-in
 * user's uid, each with its `commentsCount` recomputed by counting the
 * comments that point at it, kept live by a snapshot listener; and the
 * confirm-gated delete.
 */
module UserBlogs {
  import opened JsValues
  import opened Posts

  /** The test of `where('authorId', '==', uid)`. */
  function WrittenBy(uid: string): Post -> bool {
    (p: Post) => p.authorId == uid
  }

  /** The `where('authorId', '==', uid)` query over the `blogs` collection, in store order. */
  function ByAuthor(posts: seq<Post>, uid: string): (r: seq<Post>)
    ensures |r| <= |posts|
  {
    Filter(posts, WrittenBy(uid))
  }

  /**
   * The snapshot callback's map: each document as `{ id, ...data }` with
   * `commentsCount` replaced by the size of its comments query.
   */
  function Listing(docs: seq<Post>, comments: seq<Comment>): (r: seq<Post>)
    ensures |r| == |docs|
    ensures forall i :: 0 <= i < |r| ==> r[i].(commentsCount := docs[i].commentsCount) == docs[i]
    ensures forall i :: 0 <= i < |r| ==> r[i].commentsCount == Num(|CommentsOn(comments, docs[i].id)|)
  {
    seq(|docs|, i requires 0 <= i < |docs| => docs[i].(commentsCount := Num(|CommentsOn(comments, docs[i].id)|)))
  }

  /** The page's state variables. */
  datatype State = State(blogs: seq<Post>, loading: bool)

  const Initial := State([], true)

  /** How one snapshot delivery ends: counted, a comments query failed, or the listener reported an error. */
  datatype Delivery = Counted | CountFailed | ListenerError

  /**
   * The effect on mount. With no signed-in user `loading` drops and
   * nothing is queried. Otherwise a snapshot of the store is listed; when
   * one of the per-post comment queries fails the whole `Promise.all`
   * rejects and nothing is set, so the page keeps loading; a listener
   * error only lowers `loading`.
   */
  function Mount(s: State, user: Option<User>, store: seq<Post>, comments: seq<Comment>, d: Delivery): (r: State)
    ensures user.None? ==> r == s.(loading := false)
    ensures user.Some? && d == Counted ==> r == State(Listing(ByAuthor(store, user.value.uid), comments), false)
    ensures user.Some? && d == CountFailed ==> r == s
    ensures user.Some? && d == ListenerError ==> r == s.(loading := false)
  {
    if user.None? then s.(loading := false)
    else match d
      case Counted => State(Listing(ByAuthor(store, user.value.uid), comments), false)
      case CountFailed => s
      case ListenerError => s.(loading := false)
  }

  /** The test that keeps every post but the deleted one. */
  function NotPost(id: string): Post -> bool {
    (p: Post) => p.id != id
  }

  /** The store after `deleteDoc` of the post with that id. */
  function DeletePost(store: seq<Post>, id: string): (r: seq<Post>)
    ensures |r| <= |store|
  {
    Filter(store, NotPost(id))
  }

  /**
   * `handleDelete`: the post is deleted only when the dialog is confirmed
   * and the delete succeeds; a declined dialog or a failed delete leaves
   * the store as it was. The page's own list is not touched: it changes
   * when the listener delivers the next snapshot.
   */
  function Delete(store: seq<Post>, id: string, confirmed: bool, deleteOk: bool): (r: seq<Post>)
    ensures !confirmed || !deleteOk ==> r == store
    ensures confirmed && deleteOk ==> r == DeletePost(store, id)
  {
    if confirmed && deleteOk then DeletePost(store, id) else store
  }

  /** The query returns exactly the posts written by that uid. */
  lemma ByAuthorExactly(posts: seq<Post>, uid: string)
    ensures forall p :: p in ByAuthor(posts, uid) <==> p in posts && p.authorId == uid
  {
    FilterMembers(posts, WrittenBy(uid));
  }

  /**
   * A new comment in the store raises the listed count of the post it
   * points at by one and leaves every other post's count alone.
   */
  lemma CountAfterComment(docs: seq<Post>, comments: seq<Comment>, c: Comment, i: int)
    requires 0 <= i < |docs|
    ensures var before := Listing(docs, comments)[i].commentsCount;
      var after := Listing(docs, comments + [c])[i].commentsCount;
      after == Num(before.n + (if c.blogId == docs[i].id then 1 else 0))
  {
    FilterAppend(comments, [c], PointsAt(docs[i].id));
  }

  /** The listed count depends only on the comments: whatever counter the document stored is ignored. */
  lemma ListingIgnoresStoredCount(docs: seq<Post>, other: seq<Post>, comments: seq<Comment>)
    requires |other| == |docs|
    requires forall i :: 0 <= i < |docs| ==> other[i] == docs[i].(commentsCount := other[i].commentsCount)
    ensures Listing(other, comments) == Listing(docs, comments)
  {
    assert forall i :: 0 <= i < |docs| ==> other[i].id == docs[i].id;
  }

  /**
   * What the page shows for the signed-in author: one entry per post of
   * theirs, and each entry's "Comments" figure is the number of comments on
   * that post, even when the stored counter is missing or NaN.
   */
  lemma ListedPostsAreTheAuthors(user: User, store: seq<Post>, comments: seq<Comment>, s: State)
    ensures var r := Mount(s, Some(user), store, comments, Counted);
      && !r.loading
      && (forall p :: p in r.blogs ==> p.authorId == user.uid)
      && (forall p :: p in store && p.authorId == user.uid ==>
            exists q :: q in r.blogs && q.(commentsCount := p.commentsCount) == p)
      && (forall i :: 0 <= i < |r.blogs| ==>
            DefaultedShown(r.blogs[i].commentsCount) == Number(|CommentsOn(comments, r.blogs[i].id)|))
  {
    var docs := ByAuthor(store, user.uid);
    var r := Listing(docs, comments);
    ByAuthorExactly(store, user.uid);
    forall p | p in r ensures p.authorId == user.uid {
      var i :| 0 <= i < |r| && r[i] == p;
      assert docs[i] in docs;
    }
    forall p | p in store && p.authorId == user.uid
      ensures exists q :: q in r && q.(commentsCount := p.commentsCount) == p
    {
      var i :| 0 <= i < |docs| && docs[i] == p;
      assert r[i] in r;
    }
  }

  /** After a confirmed, successful delete the next snapshot no longer lists the post. */
  lemma DeletedPostLeavesListing(store: seq<Post>, id: string, user: User, comments: seq<Comment>, s: State)
    ensures var r := Mount(s, Some(user), Delete(store, id, true, true), comments, Counted);
      forall p :: p in r.blogs ==> p.id != id
  {
    var after := DeletePost(store, id);
    DeletePostMembers(store, id);
    ByAuthorExactly(after, user.uid);
    var docs := ByAuthor(after, user.uid);
    var r := Listing(docs, comments);
    forall p | p in r ensures p.id != id {
      var i :| 0 <= i < |r| && r[i] == p;
      assert docs[i] in docs;
    }
  }

  /** A declined dialog or a failed delete leaves the listing as it was. */
  lemma DeclinedDeleteKeepsListing(store: seq<Post>, id: string, deleteOk: bool, user: User, comments: seq<Comment>, s: State)
    ensures Mount(s, Some(user), Delete(store, id, false, deleteOk), comments, Counted)
         == Mount(s, Some(user), store, comments, Counted)
  {
  }

  /** Deleting removes exactly the post with that id. */
  lemma DeletePostMembers(store: seq<Post>, id: string)
    ensures forall p :: p in DeletePost(store, id) <==> p in store && p.id != id
  {
    FilterMembers(store, NotPost(id));
  }

  class UserBlogsPage {
    var blogs: seq<Post>
    var loading: bool

    function View(): State
      reads this
    {
      State(blogs, loading)
    }

    constructor ()
      ensures View() == Initial
    {
      blogs, loading := [], true;
    }

    /**
     * The effect on mount, with the listener's first delivery. Returns the
     * uid the author query was made with, or None when no query was made.
     */
    method Subscribe(user: Option<User>, store: seq<Post>, comments: seq<Comment>, d: Delivery)
      returns (queried: Option<string>)
      modifies this
      ensures View() == Mount(old(View()), user, store, comments, d)
      ensures user.None? <==> queried.None?
      ensures user.Some? ==> queried == Some(user.value.uid)
    {
      if user.None? {
        loading := false;
        return None;
      }
      queried := Some(user.value.uid);
      match d
      case Counted =>
        blogs := Listing(ByAuthor(store, user.value.uid), comments);
        loading := false;
      case CountFailed =>
      case ListenerError =>
        loading := false;
    }

    /** `handleDelete`: returns the store afterwards; the page's own state is untouched. */
    method HandleDelete(store: seq<Post>, id: string, confirmed: bool, deleteOk: bool)
      returns (after: seq<Post>)
      ensures after == Delete(store, id, confirmed, deleteOk)
    {
      after := store;
      if confirmed {
        if deleteOk {
          after := DeletePost(store, id);
        }
      }
    }
  }
}
