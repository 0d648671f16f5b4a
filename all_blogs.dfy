/**
 * The all-posts page: every post in the store, unordered and unlimited,
 * with the date and both counters given display fallbacks on the card.
 */
module AllBlogs {
  import opened JsValues
  import opened Posts
  import opened Feed
  import Home

  /** `{ id: doc.id, ...doc.data() }`: the documents as they are, in the order read. */
  function Entries(docs: seq<Post>): (r: seq<Post>)
    ensures r == docs
  {
    seq(|docs|, i requires 0 <= i < |docs| => docs[i])
  }

  /** The page's state variables. */
  datatype State = State(blogs: seq<Post>, loading: bool, error: string)

  const Initial := State([], true, "")

  /** `fetchBlogs`: the documents on success, the error text on failure, `loading` lowered in both cases. */
  function Load(s: State, fetched: Option<seq<Post>>): (r: State)
    ensures !r.loading
    ensures fetched.Some? ==> r == s.(blogs := fetched.value, loading := false)
    ensures fetched.None? ==> r == s.(error := LoadFailed, loading := false)
  {
    match fetched
    case Some(docs) => s.(blogs := Entries(docs), loading := false)
    case None => s.(error := LoadFailed, loading := false)
  }

  /** An all-posts card: "Unknown date" without a creation date, and both counters read with `|| 0`. */
  function AllBlogsCard(b: Post): (r: Card)
    ensures r.excerpt == Excerpt(b.content)
    ensures b.createdAt.Some? <==> r.published.On?
    ensures b.createdAt.Some? ==> r.published == On(b.createdAt.value)
    ensures r.likes == Number(OrZero(b.likesCount)) && r.comments == Number(OrZero(b.commentsCount))
    ensures r.id == b.id && r.title == b.title && r.authorName == b.authorName
  {
    var published := if b.createdAt.Some? then On(b.createdAt.value) else UnknownDate;
    Card(b.id, b.title, Excerpt(b.content), b.authorName, published, DefaultedShown(b.likesCount), DefaultedShown(b.commentsCount))
  }

  /** What the page shows: the loading text, else the error, else one card per post. */
  datatype Screen = Screen(loadingText: bool, error: Option<string>, cards: seq<Card>)

  function Render(s: State): (r: Screen)
    ensures r.loadingText <==> s.loading
    ensures r.error.Some? <==> !s.loading && s.error != ""
    ensures r.error.Some? ==> r.error.value == s.error
    ensures !s.loading && s.error == "" ==>
      && |r.cards| == |s.blogs|
      && forall i :: 0 <= i < |r.cards| ==> r.cards[i] == AllBlogsCard(s.blogs[i])
    ensures s.loading || s.error != "" ==> r.cards == []
  {
    var cards := if s.loading || s.error != "" then []
      else seq(|s.blogs|, i requires 0 <= i < |s.blogs| => AllBlogsCard(s.blogs[i]));
    Screen(s.loading, if !s.loading && s.error != "" then Some(s.error) else None, cards)
  }

  /** After a successful read every stored post has a card, in the order read, whose figures are always numbers. */
  lemma EveryPostShown(docs: seq<Post>)
    ensures var r := Render(Load(Initial, Some(docs)));
      && |r.cards| == |docs| && r.error.None? && !r.loadingText
      && forall i :: 0 <= i < |docs| ==>
           && r.cards[i].id == docs[i].id
           && r.cards[i].likes.Number? && r.cards[i].comments.Number?
           && (docs[i].createdAt.None? ==> r.cards[i].published == UnknownDate)
  {
  }

  /**
   * The two feeds agree on the excerpt, title, author and likes of a post.
   * They differ on the comment figure only when the counter is not a
   * number: the home card shows it raw, this page shows 0.
   */
  lemma CardsAgreeWithHome(d: Post, now: Timestamp)
    ensures var home := Home.HomeCard(Home.Entry(d, now));
      var all := AllBlogsCard(d);
      && home.excerpt == all.excerpt && home.title == all.title && home.authorName == all.authorName
      && home.likes == all.likes
      && (d.commentsCount.Num? <==> home.comments == all.comments)
      && (d.createdAt.Some? ==> home.published == all.published)
  {
  }
}
