# Posts router of juicebox, modelled in Dafny

The router `api/posts.js` serves a blog's posts: it lists them, creates,
patches and soft-deletes them. This project models the decisions the router
takes on its own, apart from the HTTP layer and the database module behind
it:

- **Tag tokenisation** (`tokens.dfy`, module `Tokens`): `tags.trim().split(/\s+/)`
  as functions `Trim`, `SplitWs` and `Tokenize`, with JavaScript's whitespace
  set (`IsWs`: the ECMAScript WhiteSpace and LineTerminator characters) and
  JavaScript's edge cases kept: `"".split(/\s+/)` is `[""]`, so the token
  array is never empty and a blank tag string becomes `[""]`.
- **Values and the list filter** (`posts.dfy`, module `Posts`): the stored
  `Post` (author flattened to `authorId`), request-body fields, the records
  handed to the store, the handlers' `Response` (`Ok(post)` or
  `Err(kind, message)`), and `FilterVisible`, the `allPosts.filter` of the
  list handler, with lemmas that characterise it.
- **The handlers** (`router.dfy`, module `Router`): class `PostStore` holds what
  the store's reads see (`posts`, a map from id to post, and `order`, the
  order of `getAllPosts`) and a ghost `log` of the calls made to the store's
  writes. `ListPosts`, `CreatePost`, `PatchPost` and `DeletePost` are the four
  route handlers; `BuildPostData` and `BuildUpdateFields` are the record
  constructions of the create and patch handlers.

The store's writes `createPost` and `updatePost` are not part of this model:
their effect on stored posts is unknown, so a handler appends the call (with
its exact arguments) to `log` and receives what the store hands back (a value
or a thrown `{name, message}`) as a parameter. `posts` and `order` are outside
every handler's `modifies` clause, so the model never changes them.
`Posts.Merge` is a reference store that overwrites exactly the keys of an
update; only the lemmas that name it assume it.

`requireUser` is the precondition "a caller is present": the create, patch
and delete handlers take the caller's id as a plain parameter, while the
list handler takes an optional one.

## Model

| member | source | states |
|---|---|---|
| Tokens.Trim | api/posts.js:31 | the result is the slice of the input that starts after its leading whitespace run and is followed only by whitespace; it has no whitespace at either end, and is empty exactly when the input is all whitespace |
| Tokens.SplitWs | api/posts.js:31 | `split(/\s+/)` yields at least one piece, also for the empty string |
| Tokens.Tokenize | api/posts.js:31 | the token array of a tag string is never empty |
| Tokens.TokenizeShape | api/posts.js:31-37 | an empty or all-whitespace input tokenises to exactly `[""]`; any other input to non-empty tokens without whitespace |
| Tokens.TokenizeConcat | api/posts.js:31 | the tokens, concatenated, are the input's non-whitespace characters in their order |
| Tokens.TokenizeJoin | api/posts.js:31 | tokenisation inverts joining a well-formed token list with single spaces |
| Tokens.SplitWsPieces | api/posts.js:31 | every split piece is whitespace-free; the first is empty exactly when the input is empty or starts with whitespace; later pieces are non-empty when the input does not end with whitespace |
| Tokens.TrimKeepsContent | api/posts.js:31 | trimming removes whitespace only |
| Tokens.TokenizeWords | api/posts.js:31 | `"a b  c"` tokenises to `["a", "b", "c"]` |
| Tokens.TokenizeTwoWords | api/posts.js:31 | `"x y"` tokenises to `["x", "y"]` |
| Tokens.TokenizeBlank | api/posts.js:31-37 | `""` and `"  "` tokenise to `[""]`, not to an empty array |
| Posts.FilterVisible | api/posts.js:17-19 | every listed post is one of the store's posts and is active or the caller's; the list is no longer than the store's |
| Posts.FilterIsOrderedSubsequence | api/posts.js:15-19 | the list is the order-preserving subsequence of `getAllPosts()` whose posts satisfy `active || author == caller`: increasing positions, exactly the visible ones |
| Posts.FilterMembership | api/posts.js:17-19 | a post is listed if and only if it is in the store and visible to the caller |
| Posts.AnonymousSeesActive | api/posts.js:18 | without a caller the list holds exactly the active posts: never an inactive one |
| Posts.AuthorSeesOwnPosts | api/posts.js:18 | an authenticated caller's list holds each of the caller's posts, active or not |
| Posts.OthersInactiveHidden | api/posts.js:18 | an inactive post of another author is never listed |
| Posts.DeactivateOnlyClearsActive | api/posts.js:95 | under an overwrite-the-given-keys store, the delete update changes only `active`, to false |
| Router.BuildPostData | api/posts.js:29-37 | the record for `createPost` has the caller as author, the body's title and content, and its `tags` always replaced by the token array of the tag string (default `""`) |
| Router.BuildUpdateFields | api/posts.js:59-71 | `updateFields` has a `tags` key iff tags is truthy (value: its tokenisation), a `title` key iff title is truthy, a `content` key iff content is truthy, and no other key |
| Router.PostStore.ListPosts | api/posts.js:13-21 | the result is the filter of `getAllPosts()`; a stored post is listed iff visible to the caller, and every listed post is the stored post of its id |
| Router.PostStore.CreatePost | api/posts.js:27-53 | exactly one `createPost` call, with the built record; a falsy result is `FailedCreate`, a created post is returned unchanged, a thrown error is forwarded |
| Router.PostStore.PatchPost | api/posts.js:55-88 | `updatePost(postId, updateFields)` is called once iff the post exists and its author is the caller; another author gives `UnauthorizedUserError`, a missing post a forwarded `TypeError`, both with no write |
| Router.PostStore.DeletePost | api/posts.js:90-110 | missing post gives `PostNotFoundError`, another author's post `UnauthorizedUserError`, both with no write; the owner's gives exactly one `updatePost(post.id, {active: false})` |
| Router.PatchKeepsOwnerAndVisibility | api/posts.js:59-77 | a patch never carries an `active` key, so under an overwrite-the-given-keys store it keeps the post's id, author and visibility |
| Router.PatchBlankTags | api/posts.js:61-63 | a patch whose tags are non-empty but all whitespace sets the tags to `[""]` |
| Router.CreateWithoutTags | api/posts.js:29-37 | a create without tags hands the store the tag list `[""]` |
| Router.CreateTagsRoundTrip | api/posts.js:29-37 | a create whose tag string is a well-formed list joined by spaces hands the store that list |
| Router.CreateExample | api/posts.js:29-39 | user 1 creating `{title: "Hi", content: "World", tags: "x y"}` hands the store author 1, "Hi", "World" and `["x", "y"]` |

## Left out

- The Express router, `res.send`, the `next` error pipeline and the mapping of errors to HTTP statuses (api/posts.js:1-2, 21, 112): transport. A handler's `Response` stands for what it sends or passes to `next`.
- The logging middleware and `console.log` (api/posts.js:7-11, 40): output only.
- `requireUser` and the database module (api/posts.js:4-5) are not part of this model; `requireUser` becomes the caller parameter, `getAllPosts`/`getPostById` read `PostStore.posts` and `order`, and `createPost`/`updatePost` are recorded in `log` with their replies as parameters.
- What `createPost` and `updatePost` do to stored posts (id assignment, `active` defaulting to true, merging): not visible, so not assumed; `Merge` is only a reference for the lemmas that name it.
- Errors thrown by `getAllPosts` or `getPostById`: reads always succeed in the model. The list handler's catch calls an undeclared `next` (api/posts.js:23) and is left unspecified.
- Concurrency: the `await` suspensions and the race between the ownership check and the update in patch and delete.
- Router.PostStore.PatchPost: a missing post is a forwarded error named `TypeError` with no write; the exact engine message is not modelled.
- Router.PostStore.CreatePost: the `FailedCreate` message is a fixed prefix; the interpolated title, content, tags and author id are not rendered.
- Request bodies whose fields are neither missing nor strings (numbers, arrays, `null`): `Field` is missing or a string, so the `TypeError` of `trim` on such a value, and for patch its escape before the `try` at api/posts.js:62, are not modelled.
- Identifier types: `postId` arrives as a URL string and `post.id` is the store's value; both are `PostId` here, and `getPostById` is a map lookup by that key.
- JavaScript strings are UTF-16 code units; here `string` is a sequence of Unicode scalar values.
