/**
 * The documents of the `blogs` and `comments` collections as the pages
 * read and write them, and the signed-in user the auth client reports.
 */
module Posts {
  import opened JsValues

  /** A server timestamp, kept opaque: only its order matters to the pages. */
  type Timestamp = int

  /**
   * A blog post as the pages hold it: `{ id: doc.id, ...doc.data() }`.
   * `createdAt` and the two counters may be missing from a document;
   * `likes` is the field the create page writes and no page reads.
   */
  datatype Post = Post(
    id: string,
    title: string,
    content: string,
    bannerUrl: string,
    authorId: string,
    authorName: string,
    author: string,
    createdAt: Option<Timestamp>,
    likes: Count,
    likesCount: Count,
    commentsCount: Count)

  /** A comment; `userId` is null when the commenter was not signed in. */
  datatype Comment = Comment(
    id: string,
    name: string,
    email: string,
    comment: string,
    blogId: string,
    userId: Option<string>,
    createdAt: Timestamp)

  /** Outcome of reading one document by id: found, absent, or the read failed. */
  datatype Fetch<T> = Found(doc: T) | NotFound | FetchFailed

  /** The signed-in user as the auth client reports it. */
  datatype User = User(uid: string, displayName: string, email: string)

  /** The test of `where('blogId', '==', id)` on the `comments` collection. */
  function PointsAt(blogId: string): Comment -> bool {
    (c: Comment) => c.blogId == blogId
  }

  /** The `where('blogId', '==', id)` query over the `comments` collection, in store order. */
  function CommentsOn(comments: seq<Comment>, blogId: string): (r: seq<Comment>)
    ensures |r| <= |comments|
  {
    Filter(comments, PointsAt(blogId))
  }

  /** The comment query returns exactly the comments pointing at that post. */
  lemma CommentsOnExactly(comments: seq<Comment>, blogId: string)
    ensures forall c :: c in CommentsOn(comments, blogId) <==> c in comments && c.blogId == blogId
  {
    FilterMembers(comments, PointsAt(blogId));
  }
}
