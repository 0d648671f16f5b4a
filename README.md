# Campus blogs: the client-side logic, modelled in Dafny

Campus is a React blogging site. Its pages talk directly to a hosted
document store (`blogs` and `comments` collections), an auth service and a
blob store for banner images. This project models the logic those pages
run around the store calls: what gets written, and how each page's local
state changes. Every store, auth or upload call is a parameter saying how
the call ended (`writeOk`, `Upload`, `Fetch`, `Delivery`), and ids and URLs
the services hand back are parameters too.

- `js_values.dfy` (`JsValues`) holds the JavaScript value rules the pages
  rely on. A counter field is missing, a number or NaN (`Count`). The rules
  are the `|| 0` read, `(c || 0) + 1`, `c - 1` without a default, how JSX
  renders a counter, and `String.prototype.trim`.
- `posts.dfy` (`Posts`) has the post, comment and user records and the
  outcome of a single-document read.
- `banners.dfy` (`Banners`) has the banner state shared by the create and
  edit pages. It tells a store URL apart from a local preview URL.
- `blog_detail.dfy` (`BlogDetail`) covers the post page: loading, comments
  (add, edit, update, delete), likes and the ownership gate. It has pure
  step functions over a `Page` value, with their properties. The class
  `BlogDetailPage` holds the component state as fields, and each handler
  is proved to move that state exactly as its step function says.
- `create_blog.dfy` (`CreateBlog`) and `edit_blog.dfy` (`EditBlog`) cover
  form validation, the banner upload, the record or patch written, and
  the error and loading state.
- `user_blogs.dfy` (`UserBlogs`) covers the author's own listing. Each
  post's comment count is recomputed there, and deletion needs a
  confirmation.
- `feed.dfy` (`Feed`), `home.dfy` (`Home`) and `all_blogs.dfy` (`AllBlogs`)
  cover the two feeds. They include the HTML-tag-stripping excerpt, the
  latest-four query result and the display defaults.

The comment filter of the post page, the author and comment queries of the
listing, and the deletion of a post from the store are all one `Filter`
(in `JsValues`), each with its own test.

## Model

| member | source | states |
|---|---|---|
| JsValues.Bumped | src/pages/BlogDetail.js:112 | `(c \|\| 0) + 1` is always a number, one above the defaulted value of `c` |
| JsValues.Decremented | src/pages/BlogDetail.js:154 | `c - 1` stays a number exactly when `c` is one, and is one less; a missing counter becomes NaN |
| JsValues.DecrementUndoesBump | src/pages/BlogDetail.js:112-116 | decrementing what an increment wrote gives the defaulted starting value; a numeric counter comes back unchanged |
| JsValues.OrZero | src/pages/BlogDetail.js:112 | the counter with the falsy default to 0: the number when it is one, 0 when it is missing or NaN |
| JsValues.Filter | src/pages/BlogDetail.js:152 | the filter never lengthens the sequence |
| JsValues.FilterMembers | src/pages/BlogDetail.js:152 | the filter keeps exactly the elements its test accepts |
| JsValues.FilterAll | src/pages/BlogDetail.js:152 | a test that accepts every element keeps the sequence intact |
| JsValues.FilterAppend | src/pages/BlogDetail.js:152 | the filter works piecewise over a concatenation, so the kept elements stay in their order |
| JsValues.DefaultedShown | src/pages/AllBlogs.js:76-77 | `{c \|\| 0}` always shows a number: the counter when it is one, otherwise 0 |
| JsValues.RawShown | src/pages/Home.js:78-79 | `{c}` renders nothing for a missing counter, "NaN" for NaN, and the number otherwise |
| JsValues.TrimStartShape | src/pages/BlogDetail.js:94 | removing leading white space keeps a suffix whose first character is not white space, and drops only white space |
| JsValues.TrimEndShape | src/pages/BlogDetail.js:94 | removing trailing white space keeps a prefix whose last character is not white space, and drops only white space |
| JsValues.TrimShape | src/pages/BlogDetail.js:94 | `trim` keeps a contiguous piece of the input that neither starts nor ends with white space |
| JsValues.TrimEmptyIffBlank | src/pages/BlogDetail.js:94 | `!s.trim()` holds exactly when `s` is made only of white space (or is empty) |
| JsValues.Trim | src/pages/BlogDetail.js:94 | `s.trim()` removes leading then trailing white space, and is never longer than `s` |
| Banners.ChooseBanner | src/pages/CreateBlog.js:54-59 | an empty file input leaves image and preview unchanged; a picked file becomes the image and a preview of that file at the given object URL; preview-backed state stays preview-backed |
| BlogDetail.LoadBlog | src/pages/BlogDetail.js:35-55 | a found post is held with its id, and a missing creation date becomes now; a missing post sets "Blog not found."; a failed read sets "Failed to load blog details."; loading ends in every case and nothing else changes |
| BlogDetail.LoadComments | src/pages/BlogDetail.js:57-74 | the list becomes exactly the stored comments whose `blogId` is the route's post id; a failed query leaves the list unchanged; nothing else changes |
| BlogDetail.AuthChanged | src/pages/BlogDetail.js:79-85 | a signed-in user fills user, name (the display name, or "Anonymous" when it is empty) and email, and nothing else; a sign-out report changes nothing |
| BlogDetail.UidOf | src/pages/BlogDetail.js:104 | the comment's user id is the uid when signed in, null otherwise |
| BlogDetail.NewComment | src/pages/BlogDetail.js:99-106 | the new comment carries the post's id, the name input or "Anonymous" when it is empty, the email, the untrimmed text and the store-assigned id; `userId` is the uid exactly when someone is signed in |
| BlogDetail.AddComment | src/pages/BlogDetail.js:91-124 | a blank comment or a failed comment write changes nothing; if only the counter write fails, the comment is appended and the counter and inputs stay; on full success, one comment is appended at the end, the counter becomes `(old \|\| 0) + 1` from the held value, and the inputs are cleared |
| BlogDetail.EditComment | src/pages/BlogDetail.js:126-129 | edit mode records the comment's id and puts its text in the input; nothing else changes |
| BlogDetail.ReplaceText | src/pages/BlogDetail.js:136-140 | same length and ids; comments with the id get the new text, every other comment is unchanged |
| BlogDetail.UpdateComment | src/pages/BlogDetail.js:131-146 | with no id under edit, or a failed write, nothing changes; otherwise the text is replaced for that id only, edit mode is left and the input cleared; length and post never change |
| BlogDetail.DeleteComment | src/pages/BlogDetail.js:148-163 | a failed delete changes nothing; otherwise the comments with the id go; the counter becomes `count - 1` with no floor and no default; if the counter write fails (or there is no post) the count stays |
| BlogDetail.Submit | src/pages/BlogDetail.js:201 | the submit is the update exactly when a non-empty id is under edit, and the add otherwise; in edit mode it only rewrites comment texts and keeps the list length, else it adds at most one comment and writes only a comment and a counter |
| BlogDetail.Editing | src/pages/BlogDetail.js:201 | the truthiness test on `editCommentId`: an id is held and it is not the empty string |
| BlogDetail.CanModify | src/pages/BlogDetail.js:239 | the ownership gate `user && user.uid === comment.userId`: someone is signed in and the comment carries that uid, so a comment without a user id never qualifies |
| BlogDetail.Like | src/pages/BlogDetail.js:165-172 | with no post, no user or a failed write nothing changes; otherwise likes become `(likesCount \|\| 0) + 1` and that value is written |
| BlogDetail.BlankCommentRefused | src/pages/BlogDetail.js:94-97 | a white-space-only comment is refused with nothing changed, whatever the writes would do; any other comment reaches the comment write first |
| BlogDetail.OwnershipGate | src/pages/BlogDetail.js:239 | the controls show exactly when the signed-in uid equals the comment's user id, so an anonymous comment is never editable |
| BlogDetail.EditSelectsUpdate | src/pages/BlogDetail.js:126-129 | after entering edit mode on a comment with a non-empty id, the next submit is an update |
| BlogDetail.EditThenUpdateKeepsComments | src/pages/BlogDetail.js:126-146 | editing a comment and submitting its text unchanged leaves the list as it was, leaves edit mode, and rewrites the same text |
| BlogDetail.Without | src/pages/BlogDetail.js:152 | `prevComments.filter(c => c.id !== id)`, never longer than the list |
| BlogDetail.WithoutMembers | src/pages/BlogDetail.js:152 | the filter keeps exactly the comments whose id differs |
| BlogDetail.WithoutAbsent | src/pages/BlogDetail.js:152 | filtering an id nobody has leaves the list intact |
| BlogDetail.WithoutUnique | src/pages/BlogDetail.js:152 | with unique ids, deleting a present id removes exactly one comment |
| BlogDetail.AddKeepsInSync | src/pages/BlogDetail.js:108-120 | a fully successful add keeps the counter equal to the number of held comments |
| BlogDetail.AddCounterFailureDrifts | src/pages/BlogDetail.js:108-123 | when the counter write fails after the comment write, the counter falls one behind the list |
| BlogDetail.DeleteKeepsInSync | src/pages/BlogDetail.js:148-160 | a fully successful delete of a present comment keeps counter and list in step |
| BlogDetail.DeleteUnknownDrifts | src/pages/BlogDetail.js:148-160 | deleting an id that is not in the list still lowers the counter, so counter and list drift apart |
| BlogDetail.DeleteHasNoFloor | src/pages/BlogDetail.js:153-155 | deleting with a zero counter writes -1; with a missing counter it writes NaN |
| BlogDetail.AddThenDeleteRestores | src/pages/BlogDetail.js:91-163 | adding a comment with a fresh id and deleting it restores the list; the counter ends at its defaulted starting value |
| BlogDetail.CommentsCountTracksAdds | src/pages/BlogDetail.js:108-120 | n successful adds append n comments and raise the defaulted counter by n, leaving likes alone |
| BlogDetail.LikesAccumulate | src/pages/BlogDetail.js:165-172 | n likes by the same user raise the defaulted likes by n: there is no de-duplication |
| BlogDetail.BlogDetailPage.constructor | src/pages/BlogDetail.js:24-32 | the initial state: no post, loading, no comments, empty inputs, not editing, no user |
| BlogDetail.BlogDetailPage.FetchBlogDetails | src/pages/BlogDetail.js:35-55 | the fields change exactly as `LoadBlog` says |
| BlogDetail.BlogDetailPage.FetchComments | src/pages/BlogDetail.js:57-74 | the fields change exactly as `LoadComments` says |
| BlogDetail.BlogDetailPage.OnAuthStateChanged | src/pages/BlogDetail.js:79-85 | the fields change exactly as `AuthChanged` says |
| BlogDetail.BlogDetailPage.SetUserName | src/pages/BlogDetail.js:205 | typing in the name input sets the name and nothing else |
| BlogDetail.BlogDetailPage.SetUserEmail | src/pages/BlogDetail.js:212 | typing in the email input sets the email and nothing else |
| BlogDetail.BlogDetailPage.SetNewComment | src/pages/BlogDetail.js:219 | typing in the comment box sets the comment text and nothing else |
| BlogDetail.BlogDetailPage.HandleAddComment | src/pages/BlogDetail.js:91-124 | fields and writes are those of `AddComment` |
| BlogDetail.BlogDetailPage.HandleEditComment | src/pages/BlogDetail.js:126-129 | fields change as `EditComment` says |
| BlogDetail.BlogDetailPage.HandleUpdateComment | src/pages/BlogDetail.js:131-146 | fields and writes are those of `UpdateComment` |
| BlogDetail.BlogDetailPage.HandleDeleteComment | src/pages/BlogDetail.js:148-163 | fields and writes are those of `DeleteComment` |
| BlogDetail.BlogDetailPage.HandleSubmit | src/pages/BlogDetail.js:201 | fields and writes are those of `Submit` |
| BlogDetail.BlogDetailPage.HandleLike | src/pages/BlogDetail.js:165-172 | fields and writes are those of `Like` |
| CreateBlog.Create | src/pages/CreateBlog.js:19-52 | an incomplete form only sets the "required" error; the upload happens iff the form is complete, a user is signed in and the upload succeeds; the record is written iff, in addition, the write succeeds; the record holds the inputs, the uploaded URL, the uid, `authorName = author = author input` and `likes: 0`; loading ends false; any failure sets "Failed to create blog."; navigation happens iff the record was written |
| CreateBlog.Complete | src/pages/CreateBlog.js:21 | the validation: title, content and author non-empty and a banner file chosen |
| CreateBlog.Record | src/pages/CreateBlog.js:34-43 | the record literal: title and content as entered, the uploaded URL, the caller's uid, the author name in both author fields, the creation time and `likes: 0` |
| CreateBlog.Stored | src/pages/CreateBlog.js:34-43 | the record as a stored post: its store id and date, `likes` as a number, and neither `likesCount` nor `commentsCount` present |
| CreateBlog.BannerChange | src/pages/CreateBlog.js:54-59 | no file leaves the form unchanged; a file becomes the image and its preview |
| CreateBlog.Begin | src/pages/CreateBlog.js:20-25 | before the first await: an incomplete form gets the "required" error and nothing else; a complete one has `loading` raised and nothing else |
| CreateBlog.BeginThenCreate | src/pages/CreateBlog.js:25-51 | `loading` is raised during the attempt, and the attempt from that state ends as the whole handler does, with `loading` lowered |
| CreateBlog.CreateThenRead | src/pages/CreateBlog.js:34-43 | the post read back after a create has the entered title, content and author, the uid and the uploaded URL; it has no `likesCount` or `commentsCount`, and both display as 0 |
| CreateBlog.FailedWriteOrphansBanner | src/pages/CreateBlog.js:29-48 | the upload comes first, so a failed write leaves an uploaded banner and no post, with the error set and loading off |
| CreateBlog.CreateBlogPage.constructor | src/pages/CreateBlog.js:10-16 | the initial form: empty inputs, no image, not loading |
| CreateBlog.CreateBlogPage.SetTitle | src/pages/CreateBlog.js:74 | typing in the title input sets the title and nothing else |
| CreateBlog.CreateBlogPage.SetContent | src/pages/CreateBlog.js:111 | the editor's change sets the content and nothing else |
| CreateBlog.CreateBlogPage.SetAuthor | src/pages/CreateBlog.js:84 | typing in the author input sets the author and nothing else |
| CreateBlog.CreateBlogPage.HandleBannerChange | src/pages/CreateBlog.js:54-59 | fields change as `BannerChange` says |
| CreateBlog.CreateBlogPage.HandleCreateBlog | src/pages/CreateBlog.js:19-52 | runs `BeginCreate` then, for a complete form, `FinishCreate`; fields, upload, written record and navigation are those of `Create` |
| CreateBlog.CreateBlogPage.BeginCreate | src/pages/CreateBlog.js:20-25 | fields change as `Begin` says; the attempt goes on exactly when the form is complete |
| CreateBlog.CreateBlogPage.FinishCreate | src/pages/CreateBlog.js:27-51 | from a complete form with `loading` raised, fields, upload, record and navigation are those of `Create`, and `loading` ends lowered |
| EditBlog.Load | src/pages/EditBlog.js:20-33 | a found post fills title, content and banner; a missing post sets "Blog not found"; both end loading; a failed read leaves the page loading; the chosen image is never touched |
| EditBlog.Update | src/pages/EditBlog.js:38-66 | an empty title or content only sets the "required" error; without a new image the existing banner URL is written, with one the freshly uploaded URL; the uid is needed only for the upload; exactly title, content and banner are written; any failure sets "Failed to update blog." |
| EditBlog.BannerChange | src/pages/EditBlog.js:68-73 | no file leaves the form unchanged; a file becomes the image and its preview; previews stay backed by the chosen file |
| EditBlog.ApplyPatch | src/pages/EditBlog.js:55-60 | the store merges the patch: title, content and banner change, every other field stays |
| EditBlog.EditKeepsCounters | src/pages/EditBlog.js:55-60 | after an edit the id, author fields, creation date and both counters are as before |
| EditBlog.PreviewNeverPersisted | src/pages/EditBlog.js:46-53 | while previews are backed by the chosen file, the written banner is the uploaded URL or one that came from the store, never a local preview URL |
| EditBlog.UpdateIgnoresOwnership | src/pages/EditBlog.js:49-60 | apart from naming the uploaded banner, the uid changes nothing: for one upload outcome every signed-in caller gets the same update, and without a new image so does a signed-out one; nothing compares the caller with the author |
| EditBlog.MissingPostRefusesUpdate | src/pages/EditBlog.js:24-43 | a missing post shows "Blog not found" over empty inputs, and the form refuses to submit as loaded |
| EditBlog.EditBlogPage.constructor | src/pages/EditBlog.js:11-16 | the initial form: empty, loading, no image |
| EditBlog.EditBlogPage.FetchBlog | src/pages/EditBlog.js:20-33 | fields change as `Load` says and previews stay backed |
| EditBlog.EditBlogPage.SetTitle | src/pages/EditBlog.js:92 | typing in the title input sets the title and nothing else |
| EditBlog.EditBlogPage.SetContent | src/pages/EditBlog.js:118 | the editor's change sets the content and nothing else |
| EditBlog.EditBlogPage.HandleBannerChange | src/pages/EditBlog.js:68-73 | fields change as `BannerChange` says and previews stay backed |
| EditBlog.EditBlogPage.HandleUpdateBlog | src/pages/EditBlog.js:38-66 | fields, upload and patch are those of `Update` |
| UserBlogs.Listing | src/pages/UserBlogs.js:24-38 | one entry per snapshot document, in snapshot order; every field but `commentsCount` is kept, and `commentsCount` is the number of comments on that post |
| UserBlogs.Mount | src/pages/UserBlogs.js:13-48 | with no user only loading drops; a delivered snapshot replaces the list with the listing of the author's posts; a failed count query sets nothing; a listener error only ends loading |
| UserBlogs.Delete | src/pages/UserBlogs.js:50-59 | the post is deleted only when the dialog is confirmed and the delete succeeds; otherwise the store is unchanged |
| UserBlogs.ByAuthor | src/pages/UserBlogs.js:21 | the `where('authorId', '==', userId)` query over the stored posts, never longer than the store |
| UserBlogs.ByAuthorExactly | src/pages/UserBlogs.js:20-21 | the query returns exactly the posts whose `authorId` is the uid |
| Posts.CommentsOn | src/pages/BlogDetail.js:59-62 | the `where('blogId', '==', id)` query over the stored comments, never longer than the store |
| Posts.CommentsOnExactly | src/pages/BlogDetail.js:59-62 | the comments query (on the post page and in the listing, src/pages/UserBlogs.js:29-33) returns exactly the comments whose `blogId` is the post's id |
| UserBlogs.CountAfterComment | src/pages/UserBlogs.js:28-34 | one more comment in the store raises the listed count of its post by one and no other |
| UserBlogs.ListingIgnoresStoredCount | src/pages/UserBlogs.js:34 | the listing does not depend on the stored `commentsCount` |
| UserBlogs.ListedPostsAreTheAuthors | src/pages/UserBlogs.js:20-41 | every listed post is the user's, every post of theirs is listed, and each shows the true number of comments on it |
| UserBlogs.DeletedPostLeavesListing | src/pages/UserBlogs.js:50-54 | after a confirmed, successful delete the next snapshot does not list the post |
| UserBlogs.DeclinedDeleteKeepsListing | src/pages/UserBlogs.js:50-52 | declining the dialog leaves the listing as it was |
| UserBlogs.DeletePost | src/pages/UserBlogs.js:54 | `deleteDoc` on the post's id: the store without that post, never larger |
| UserBlogs.DeletePostMembers | src/pages/UserBlogs.js:54 | deleting removes exactly the post with that id from the store |
| UserBlogs.UserBlogsPage.constructor | src/pages/UserBlogs.js:9-10 | the initial state: no posts, loading |
| UserBlogs.UserBlogsPage.Subscribe | src/pages/UserBlogs.js:13-48 | fields change as `Mount` says; a query is made, with the user's uid, exactly when someone is signed in |
| UserBlogs.UserBlogsPage.HandleDelete | src/pages/UserBlogs.js:50-59 | the store afterwards is that of `Delete`; the page's own state is untouched |
| Feed.TagEnd | src/pages/Home.js:71 | finds the first `>`: nothing before it is a `>` |
| Feed.StripTags | src/pages/Home.js:71 | removing the tags never lengthens the text |
| Feed.Excerpt | src/pages/Home.js:71 | the excerpt is a prefix of the stripped text of length min(100, length), followed by "..." |
| Feed.StripTagsChars | src/pages/Home.js:71 | stripping keeps only characters of the input |
| Feed.MatchAt | src/pages/Home.js:71 | `/<[^>]+>/` matches at i: a `<`, then at least one character other than `>`, then a `>`; a match needs three characters |
| Feed.MatchAtShift | src/pages/Home.js:71 | a match one position further in a string is a match in its tail |
| Feed.StripTagsTagFree | src/pages/Home.js:71 | after the replace no match of `<[^>]+>` is left: every surviving `<` is directly followed by `>` or has no `>` after it |
| Feed.TagFreeFixed | src/pages/Home.js:71 | text without matches passes through unchanged |
| Feed.StripTagsIdempotent | src/pages/Home.js:71 | stripping twice is stripping once |
| Feed.DropsTag | src/pages/Home.js:71 | a leading `<t>` with non-empty `t` free of `>` is removed whole |
| Feed.KeepsEmptyBrackets | src/pages/Home.js:71 | `<>` is not a tag and is kept |
| Feed.ShortPlainExcerpt | src/pages/AllBlogs.js:69 | plain text of at most 100 characters is shown whole, still followed by "..." |
| Feed.LongPlainExcerpt | src/pages/AllBlogs.js:69 | longer plain text is cut to its first 100 characters |
| Home.Entry | src/pages/Home.js:19-24 | the entry always has a date (now when missing) and a numeric likes count (`\|\| 0`); every other field, `commentsCount` included, is the document's |
| Home.Entries | src/pages/Home.js:19-24 | one entry per document, in order |
| Home.Load | src/pages/Home.js:15-32 | success holds the mapped documents; failure sets "Failed to load blogs."; loading ends in both cases |
| Home.HomeCard | src/pages/Home.js:69-79 | the card shows the excerpt, the date, likes and comments as held (a missing comment count shows nothing) |
| Home.Render | src/pages/Home.js:49-88 | the loading text while loading; then the error text if there is one, and no cards; else card i is the home card of post i, one per post; "No blogs available yet." shows exactly when loading is over and the list is empty |
| Home.FeedIsLatest | src/pages/Home.js:17-24 | given the latest-four query result (distinct posts), the feed holds at most four distinct posts, newest first, with their ids and dates; likes always show a number while comments show raw |
| Home.LatestOf | src/pages/Home.js:17 | the result of `orderBy('createdAt','desc'), limit(4)`: at most four distinct dated posts of the store, newest first, and no dated post left out is newer than the last one kept |
| Home.FailedLoadShowsErrorAndEmptyMessage | src/pages/Home.js:86-88 | after a failed read both the error and the empty-list message show |
| Home.LoadedShowsCards | src/pages/Home.js:19-25 | after a successful read there is one card per document, each with its excerpt, and the empty message shows exactly when there were none |
| AllBlogs.Entries | src/pages/AllBlogs.js:21-25 | the documents as read, with no ordering or limit |
| AllBlogs.Load | src/pages/AllBlogs.js:19-33 | success holds the documents; failure sets "Failed to load blogs."; loading ends in both cases |
| AllBlogs.AllBlogsCard | src/pages/AllBlogs.js:67-77 | the card shows the excerpt; the date, or "Unknown date" exactly when it is missing; and both counters defaulted to 0 |
| AllBlogs.Render | src/pages/AllBlogs.js:45-84 | the loading text while loading; then the error text if there is one, and no cards; else card i is the all-posts card of post i, one per post |
| AllBlogs.EveryPostShown | src/pages/AllBlogs.js:21-77 | after a successful read every post has a card, in order, with numeric figures and "Unknown date" for a missing date |
| AllBlogs.CardsAgreeWithHome | src/pages/AllBlogs.js:69-77 | the two feeds agree on excerpt, title, author and likes; they disagree on the comment figure exactly when the counter is not a number |

## Left out

- The store, auth and blob-store SDKs are not modelled. Each call is a parameter saying how it ended; store-assigned ids, download URLs and the signed-in user are parameters.
- Clocks are parameters. `Timestamp.now()`, `Date.now()` and `new Date()` become a `now` value. Date formatting is not modelled.
- Query semantics inside the store are not modelled. `orderBy`/`limit` appear only as the `Home.LatestOf` contract on the returned sequence, and `where` as the `ByAuthor` and `CommentsOn` filters (the post page's comments query is `CommentsOn` too).
- Concurrency is not modelled: two clients racing on the read-modify-write counters, the live snapshot listener's timing, and the unmount cleanup. Each page is modelled as a single client whose steps run one at a time.
- `DOMPurify.sanitize`, the ReactQuill editor and all markup and styling are not modelled. The screens modelled are which messages and cards show.
- The sign-up, sign-in, password-reset, profile, dashboard, header, routing and about pages are not part of this model.
- The page routes (`useParams`) and navigation targets are not modelled. Navigation is a boolean.
- Feed.Excerpt counts characters. JavaScript's `substring` counts UTF-16 code units, so the cut can differ for text outside the Basic Multilingual Plane.
- JsValues.Bumped and JsValues.Decremented use unbounded integers, not IEEE doubles. Counters never approach 2^53.
- BlogDetail.AddComment takes the comment write's outcome as a boolean. The alert shown for a blank comment is not modelled.
- BlogDetail.LoadComments does not model the `createdAt || new Date()` fallback: every comment in the model has a creation time, as every comment the add handler writes does.
- The form inputs' `required` attributes are not modelled. The browser stops a submit with an empty name, email, comment, title, author or file before the handler runs, so the "Anonymous" fallback and most of the "required" error paths cannot be reached from the page; the handlers are modelled on any input, as their code handles it.
- BlogDetail.AddComment computes the new count from the value the page holds: there is no re-read and no atomic increment. BlogDetail.DeleteComment has no floor at zero and no `|| 0` default, so a missing counter becomes NaN.
- BlogDetail.AuthChanged follows the code: a sign-out report does not clear the held user.
- UserBlogs.Mount models the listener's first delivery. Later deliveries apply the same function to the new snapshot.
- Home.Render requires every held post to have a creation date. The mapping in `Home.Load` always provides one (`LoadedShowsCards`). The page would throw on a post without a date.
