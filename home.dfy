/**
 * The home page: the four newest posts, each mapped with a creation date
 * and a likes count it can always show, rendered as cards.
 */
module Home {
  import opened JsValues
  import opened Posts
  import opened Feed

  const FeedSize := 4

  /**
   * The document mapping in `fetchLatestBlogs`: `createdAt` falls back to
   * the current time and `likesCount` to 0 (`|| 0`, so NaN and 0 become
   * 0); `commentsCount` is passed through untouched.
   */
  function Entry(d: Post, now: Timestamp): (r: Post)
    ensures r.createdAt.Some?
    ensures d.createdAt.Some? ==> r.createdAt == d.createdAt
    ensures d.createdAt.None? ==> r.createdAt == Some(now)
    ensures r.likesCount == Num(OrZero(d.likesCount))
    ensures d.likesCount.Num? ==> r.likesCount == d.likesCount
    ensures r.(createdAt := d.createdAt, likesCount := d.likesCount) == d
  {
    var created := if d.createdAt.Some? then d.createdAt.value else now;
    d.(createdAt := Some(created), likesCount := Num(OrZero(d.likesCount)))
  }

  function Entries(docs: seq<Post>, now: Timestamp): (r: seq<Post>)
    ensures |r| == |docs|
    ensures forall i :: 0 <= i < |r| ==> r[i] == Entry(docs[i], now)
  {
    seq(|docs|, i requires 0 <= i < |docs| => Entry(docs[i], now))
  }

  /** Newest first by creation date. */
  predicate NewestFirst(docs: seq<Post>) {
    forall i, j :: 0 <= i < j < |docs| ==>
      docs[i].createdAt.Some? && docs[j].createdAt.Some? && docs[j].createdAt.value <= docs[i].createdAt.value
  }

  /**
   * What `orderBy('createdAt', 'desc'), limit(4)` returns from the store:
   * at most four distinct posts of the store (document ids are unique),
   * all of which have a creation date, newest first, and no dated post
   * left out is newer than the last one returned; fewer than four only
   * when there are no more dated posts.
   */
  predicate LatestOf(docs: seq<Post>, store: seq<Post>)
    ensures LatestOf(docs, store) ==> |docs| <= FeedSize && forall d :: d in docs ==> d in store
  {
    && |docs| <= FeedSize
    && (forall i, j :: 0 <= i < j < |docs| ==> docs[i].id != docs[j].id)
    && (forall d :: d in docs ==> d in store && d.createdAt.Some?)
    && NewestFirst(docs)
    && (forall p :: p in store && p.createdAt.Some? && p !in docs ==>
          |docs| == FeedSize && p.createdAt.value <= docs[|docs| - 1].createdAt.value)
  }

  /** The page's state variables. */
  datatype State = State(blogs: seq<Post>, loading: bool, error: string)

  const Initial := State([], true, "")

  /**
   * `fetchLatestBlogs`: the mapped documents on success, the error text on
   * failure, and `loading` lowered in both cases.
   */
  function Load(s: State, fetched: Option<seq<Post>>, now: Timestamp): (r: State)
    ensures !r.loading
    ensures fetched.Some? ==> r == s.(blogs := Entries(fetched.value, now), loading := false)
    ensures fetched.None? ==> r == s.(error := LoadFailed, loading := false)
  {
    match fetched
    case Some(docs) => s.(blogs := Entries(docs, now), loading := false)
    case None => s.(error := LoadFailed, loading := false)
  }

  /** A home card: likes as mapped, comments raw (`{blog.commentsCount}`), so a missing count shows nothing. */
  function HomeCard(e: Post): (r: Card)
    requires e.createdAt.Some?
    ensures r.excerpt == Excerpt(e.content) && r.published == On(e.createdAt.value)
    ensures r.likes == RawShown(e.likesCount) && r.comments == RawShown(e.commentsCount)
    ensures r.id == e.id && r.title == e.title && r.authorName == e.authorName
  {
    Card(e.id, e.title, Excerpt(e.content), e.authorName, On(e.createdAt.value), RawShown(e.likesCount), RawShown(e.commentsCount))
  }

  /** What the page shows: the loading text, else the error, else the cards; and the empty-list message. */
  datatype Screen = Screen(loadingText: bool, error: Option<string>, cards: seq<Card>, noBlogsMessage: bool)

  function Render(s: State): (r: Screen)
    requires forall b :: b in s.blogs ==> b.createdAt.Some?
    ensures r.loadingText <==> s.loading
    ensures r.error.Some? <==> !s.loading && s.error != ""
    ensures r.error.Some? ==> r.error.value == s.error
    ensures s.loading || s.error != "" ==> r.cards == []
    ensures !s.loading && s.error == "" ==>
      && |r.cards| == |s.blogs|
      && forall i :: 0 <= i < |r.cards| ==> r.cards[i] == HomeCard(s.blogs[i])
    ensures r.noBlogsMessage <==> s.blogs == [] && !s.loading
  {
    assert forall i :: 0 <= i < |s.blogs| ==> s.blogs[i] in s.blogs;
    var cards := if s.loading || s.error != "" then []
      else seq(|s.blogs|, i requires 0 <= i < |s.blogs| => HomeCard(s.blogs[i]));
    Screen(s.loading, if !s.loading && s.error != "" then Some(s.error) else None, cards, s.blogs == [] && !s.loading)
  }

  /**
   * The feed is the latest-four query result, still newest first, and
   * every card shows a number of likes, while the comment figure is shown
   * raw: blank for a post that has no counter and "NaN" for one that was
   * decremented from missing.
   */
  lemma FeedIsLatest(docs: seq<Post>, store: seq<Post>, now: Timestamp)
    requires LatestOf(docs, store)
    ensures var feed := Entries(docs, now);
      && |feed| <= FeedSize
      && NewestFirst(feed)
      && (forall i, j :: 0 <= i < j < |feed| ==> feed[i].id != feed[j].id)
      && (forall i :: 0 <= i < |feed| ==> feed[i].createdAt == docs[i].createdAt && feed[i].id == docs[i].id)
      && (forall i :: 0 <= i < |feed| ==> HomeCard(feed[i]).likes == Number(OrZero(docs[i].likesCount)))
      && (forall i :: 0 <= i < |feed| ==> HomeCard(feed[i]).comments == RawShown(docs[i].commentsCount))
  {
    var feed := Entries(docs, now);
    forall i | 0 <= i < |feed| ensures feed[i].createdAt == docs[i].createdAt {
      assert docs[i] in docs;
    }
  }

  /**
   * When the read fails the error shows, and so does the "No blogs
   * available yet." message, since its condition does not look at the error.
   */
  lemma FailedLoadShowsErrorAndEmptyMessage(now: Timestamp)
    ensures var r := Render(Load(Initial, None, now));
      r.error == Some(LoadFailed) && r.noBlogsMessage && r.cards == [] && !r.loadingText
  {
  }

  /** After a successful load the empty-list message shows exactly when there were no posts. */
  lemma LoadedShowsCards(docs: seq<Post>, now: Timestamp)
    ensures var s := Load(Initial, Some(docs), now);
      && (forall b :: b in s.blogs ==> b.createdAt.Some?)
      && var r := Render(s);
      && |r.cards| == |docs| && r.error.None? && (r.noBlogsMessage <==> docs == [])
      && (forall i :: 0 <= i < |docs| ==> r.cards[i].excerpt == Excerpt(docs[i].content))
  {
    var s := Load(Initial, Some(docs), now);
    assert forall i :: 0 <= i < |s.blogs| ==> s.blogs[i].createdAt.Some?;
  }
}
