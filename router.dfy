/** The request handlers of the posts router over a post store. Reads of the
    store (`getAllPosts`, `getPostById`) see the store's state; its writes
    (`createPost`, `updatePost`) are abstract: each call is recorded in
    `log`, and what the store hands back is a parameter of the handler. */
module Router {
  import opened Tokens
  import opened Posts

  /** The raw tag string of a create body, with `tags = ""` as default. */
  function TagsOrDefault(tags: Field): string {
    if tags.Text? then tags.s else ""
  }

  /** The record `createPost` must receive for a caller and a body: the
      caller as author, title and content as given, and the tokenised tags. */
  predicate IsCreateData(caller: UserId, body: CreateBody, d: PostData) {
    && d.authorId == caller
    && d.title == body.title
    && d.content == body.content
    && d.tags == TagList(Tokenize(TagsOrDefault(body.tags)))
  }

  /** The partial update `updatePost` must receive for a patch body: a key
      for each truthy field and no other key. */
  predicate IsPatchFields(body: PatchBody, f: UpdateFields) {
    && (f.tags.Some? <==> Truthy(body.tags))
    && (f.tags.Some? ==> f.tags.value == Tokenize(body.tags.s))
    && (f.title.Some? <==> Truthy(body.title))
    && (f.title.Some? ==> f.title.value == body.title.s)
    && (f.content.Some? <==> Truthy(body.content))
    && (f.content.Some? ==> f.content.value == body.content.s)
    && f.active.None?
  }

  datatype CreateBody = CreateBody(title: Field, content: Field, tags: Field)
  datatype PatchBody = PatchBody(title: Field, content: Field, tags: Field)

  /** The create handler's record construction: `postData` starts with the
      raw tag string and has its `tags` replaced by the token array when the
      array is non-empty, which it always is. */
  method BuildPostData(caller: UserId, body: CreateBody) returns (postData: PostData)
    ensures IsCreateData(caller, body, postData)
    ensures postData.tags.TagList? && |postData.tags.list| >= 1
  {
    var tags := TagsOrDefault(body.tags);
    var tagArr := Tokenize(tags);
    var authorId := caller;
    postData := PostData(authorId, body.title, body.content, RawTags(tags));
    if |tagArr| > 0 {
      postData := postData.(tags := TagList(tagArr));
    }
  }

  /** The patch handler's `updateFields` construction, one conditional key
      at a time. */
  method BuildUpdateFields(body: PatchBody) returns (updateFields: UpdateFields)
    ensures IsPatchFields(body, updateFields)
  {
    updateFields := NoFields();
    if Truthy(body.tags) && |body.tags.s| > 0 {
      updateFields := updateFields.(tags := Some(Tokenize(body.tags.s)));
    }
    if Truthy(body.title) {
      updateFields := updateFields.(title := Some(body.title.s));
    }
    if Truthy(body.content) {
      updateFields := updateFields.(content := Some(body.content.s));
    }
  }

  /** `updatedPost` sent as `{ post }`, or a thrown error forwarded as its
      `{ name, message }`. */
  function ReplyResponse(reply: StoreReply<Post>): Response {
    match reply
    case Returned(p) => Ok(p)
    case Threw(name, message) => Err(Forwarded(name), message)
  }

  /** `posts` has one entry per id of `order`, keyed by the post's own id,
      and `order` lists each id once. */
  predicate StoreShape(posts: map<PostId, Post>, order: seq<PostId>) {
    && (forall i, j :: 0 <= i < j < |order| ==> order[i] != order[j])
    && (forall id :: id in posts ==> id in order)
    && (forall k :: 0 <= k < |order| ==> order[k] in posts)
    && (forall id :: id in posts ==> posts[id].id == id)
  }

  /** The posts of `m` in the order of `ids`. */
  function Rows(ids: seq<PostId>, m: map<PostId, Post>): (r: seq<Post>)
    requires forall k :: 0 <= k < |ids| ==> ids[k] in m
    ensures |r| == |ids|
    ensures forall k :: 0 <= k < |ids| ==> r[k] == m[ids[k]]
  {
    if ids == [] then [] else [m[ids[0]]] + Rows(ids[1..], m)
  }

  const NotYoursToUpdate := "You cannot update a post that is not yours"
  const NotYoursToDelete := "You cannot delete a post which is not yours"
  const NoSuchPost := "That post does not exist"
  const CannotCreate := "Cannot create post with data"
  const UndefinedAuthor := "Cannot read properties of undefined (reading 'author')"

  class PostStore {
    /** What `getPostById` sees. */
    var posts: map<PostId, Post>
    /** The order in which `getAllPosts` returns the posts. */
    var order: seq<PostId>
    /** The calls made to `createPost` and `updatePost`, oldest first. */
    ghost var log: seq<StoreCall>

    ghost predicate Valid()
      reads this
    {
      StoreShape(posts, order)
    }

    constructor (posts0: map<PostId, Post>, order0: seq<PostId>)
      requires StoreShape(posts0, order0)
      ensures Valid()
      ensures posts == posts0 && order == order0 && log == []
    {
      posts, order, log := posts0, order0, [];
    }

    /** `getAllPosts()`. */
    function AllPosts(): seq<Post>
      reads this
      requires Valid()
    {
      Rows(order, posts)
    }

    /** `getPostById(id)`: the post, or nothing when there is none. */
    function PostById(id: PostId): Option<Post>
      reads this
    {
      if id in posts then Some(posts[id]) else None
    }

    /** `GET /`: the posts the caller may see, in store order. */
    method ListPosts(caller: Option<UserId>) returns (visible: seq<Post>)
      requires Valid()
      ensures visible == FilterVisible(AllPosts(), caller)
      ensures forall id :: id in posts ==> (posts[id] in visible <==> VisibleTo(posts[id], caller))
      ensures forall k :: 0 <= k < |visible| ==> visible[k].id in posts && posts[visible[k].id] == visible[k]
    {
      var allPosts := AllPosts();
      visible := FilterVisible(allPosts, caller);
      forall id | id in posts
        ensures posts[id] in visible <==> VisibleTo(posts[id], caller)
      {
        FilterMembership(allPosts, caller, posts[id]);
        var k :| 0 <= k < |order| && order[k] == id;
        assert allPosts[k] == posts[id];
      }
      forall k | 0 <= k < |visible|
        ensures visible[k].id in posts && posts[visible[k].id] == visible[k]
      {
        var j :| 0 <= j < |allPosts| && allPosts[j] == visible[k];
        assert allPosts[j] == posts[order[j]];
      }
    }

    /** `POST /`: hands the built record to `createPost` once; a falsy store
        result is a `FailedCreate` error, a created post is sent unchanged,
        and a thrown error is forwarded. */
    method CreatePost(caller: UserId, body: CreateBody, reply: StoreReply<Option<Post>>)
      returns (res: Response)
      modifies this`log
      ensures |log| == |old(log)| + 1 && log[..|old(log)|] == old(log)
      ensures log[|old(log)|].CreateCall? && IsCreateData(caller, body, log[|old(log)|].data)
      ensures reply.Threw? ==> res == Err(Forwarded(reply.name), reply.message)
      ensures reply == Returned(None) ==> res.Err? && res.kind == FailedCreate
      ensures reply.Returned? && reply.value.Some? ==> res == Ok(reply.value.value)
    {
      var postData := BuildPostData(caller, body);
      log := log + [CreateCall(postData)];
      match reply
      case Threw(name, message) =>
        res := Err(Forwarded(name), message);
      case Returned(post) =>
        if post.None? {
          res := Err(FailedCreate, CannotCreate);
        } else {
          res := Ok(post.value);
        }
    }

    /** `PATCH /:postId`: `updatePost(postId, updateFields)` is called once,
        and only when the post exists and the caller wrote it; otherwise
        nothing is written and an error is passed on. */
    method PatchPost(caller: UserId, postId: PostId, body: PatchBody, reply: StoreReply<Post>)
      returns (res: Response)
      modifies this`log
      ensures postId !in posts ==> log == old(log) && res.Err? && res.kind == Forwarded("TypeError")
      ensures postId in posts && posts[postId].authorId != caller ==>
                log == old(log) && res == Err(UnauthorizedUserError, NotYoursToUpdate)
      ensures postId in posts && posts[postId].authorId == caller ==>
                && |log| == |old(log)| + 1 && log[..|old(log)|] == old(log)
                && log[|old(log)|].UpdateCall? && log[|old(log)|].id == postId
                && IsPatchFields(body, log[|old(log)|].fields)
                && res == ReplyResponse(reply)
    {
      var updateFields := BuildUpdateFields(body);
      var originalPost := PostById(postId);
      if originalPost.None? {
        // reading `author` of `undefined` throws, and the catch forwards it
        res := Err(Forwarded("TypeError"), UndefinedAuthor);
      } else if originalPost.value.authorId == caller {
        log := log + [UpdateCall(postId, updateFields)];
        res := ReplyResponse(reply);
      } else {
        res := Err(UnauthorizedUserError, NotYoursToUpdate);
      }
    }

    /** `DELETE /:postId`: a missing post is `PostNotFoundError`, someone
        else's post is `UnauthorizedUserError`, and only for the caller's
        own post is `updatePost(post.id, { active: false })` called, once. */
    method DeletePost(caller: UserId, postId: PostId, reply: StoreReply<Post>)
      returns (res: Response)
      modifies this`log
      ensures postId !in posts ==> log == old(log) && res == Err(PostNotFoundError, NoSuchPost)
      ensures postId in posts && posts[postId].authorId != caller ==>
                log == old(log) && res == Err(UnauthorizedUserError, NotYoursToDelete)
      ensures postId in posts && posts[postId].authorId == caller ==>
                && log == old(log) + [UpdateCall(posts[postId].id, Deactivate())]
                && res == ReplyResponse(reply)
    {
      var post := PostById(postId);
      if post.Some? && post.value.authorId == caller {
        log := log + [UpdateCall(post.value.id, Deactivate())];
        res := ReplyResponse(reply);
      } else {
        res := if post.Some? then Err(UnauthorizedUserError, NotYoursToDelete)
               else Err(PostNotFoundError, NoSuchPost);
      }
    }
  }

  // ---------------------------------------------------------------------
  // Properties relating the handlers' writes to the stored posts

  /** A patch never asks the store to change a post's visibility, and under
      the reference `Merge` it keeps the post's id and author. */
  lemma PatchKeepsOwnerAndVisibility(p: Post, body: PatchBody, f: UpdateFields)
    requires IsPatchFields(body, f)
    ensures Merge(p, f).id == p.id && Merge(p, f).authorId == p.authorId
    ensures Merge(p, f).active == p.active
  {
  }

  /** A patch whose tag field is non-empty but all whitespace (so truthy)
      sets the tags to `[""]`, not to an empty list and not left alone. */
  lemma PatchBlankTags(body: PatchBody, f: UpdateFields)
    requires IsPatchFields(body, f) && Truthy(body.tags) && AllWs(body.tags.s)
    ensures f.tags == Some([""])
  {
    TokenizeAllWs(body.tags.s);
  }

  /** With no tags in the body, the record handed to `createPost` carries
      the one-element list `[""]`. */
  lemma CreateWithoutTags(caller: UserId, title: Field, content: Field, d: PostData)
    requires IsCreateData(caller, CreateBody(title, content, Absent), d)
    ensures d.tags == TagList([""])
  {
    TokenizeBlank();
  }

  /** A well-formed tag list written out with single spaces reaches the store
      as that same list. */
  lemma CreateTagsRoundTrip(caller: UserId, title: Field, content: Field, tags: seq<string>, d: PostData)
    requires WellFormedTokens(tags)
    requires IsCreateData(caller, CreateBody(title, content, Text(JoinSpace(tags))), d)
    ensures d.tags == TagList(tags)
  {
    TokenizeJoin(tags);
  }

  // ---------------------------------------------------------------------
  // Scenarios

  /** User 1 creates `{title: "Hi", content: "World", tags: "x y"}`: the store
      receives author 1, the title and content, and tags `["x", "y"]`. */
  lemma CreateExample(d: PostData)
    requires IsCreateData(1, CreateBody(Text("Hi"), Text("World"), Text("x y")), d)
    ensures d == PostData(1, Text("Hi"), Text("World"), TagList(["x", "y"]))
  {
    TokenizeTwoWords();
  }

  /** User 2 deletes a post of user 1: refused, and nothing is written; a
      missing post is not found. */
  method DeleteScenario(reply: StoreReply<Post>) {
    var p := Post(7, 1, true, "Hi", "World", ["x"]);
    var store := new PostStore(map[7 := p], [7]);
    var res := store.DeletePost(2, 7, reply);
    assert res.kind == UnauthorizedUserError && store.log == [];
    res := store.DeletePost(1, 8, reply);
    assert res.kind == PostNotFoundError && store.log == [];
    res := store.DeletePost(1, 7, reply);
    assert store.log == [UpdateCall(7, Deactivate())];
  }
}
