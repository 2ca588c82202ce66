/** The values the posts router works with: stored posts, request bodies,
    the records handed to the store, and the handlers' responses; and the
    visibility filter of the list handler with its properties. */
module Posts {
  import opened Tokens

  type UserId = int
  type PostId = int

  datatype Option<T> = None | Some(value: T)

  /** A stored post, with its author flattened to the author's id. */
  datatype Post = Post(
    id: PostId,
    authorId: UserId,
    active: bool,
    title: string,
    content: string,
    tags: seq<string>)

  /** A request-body field: missing (`undefined`) or a string. */
  datatype Field = Absent | Text(s: string)

  /** JavaScript truthiness of a body field: a non-empty string. */
  predicate Truthy(f: Field) {
    f.Text? && f.s != ""
  }

  /** The `tags` member of the record handed to `createPost`: the raw string
      as destructured from the body, or the token array that replaced it. */
  datatype TagsValue = RawTags(raw: string) | TagList(list: seq<string>)

  /** The record handed to `createPost`. */
  datatype PostData = PostData(authorId: UserId, title: Field, content: Field, tags: TagsValue)

  /** The partial update handed to `updatePost`: a key is present exactly
      when its component is `Some`. */
  datatype UpdateFields = UpdateFields(
    tags: Option<seq<string>>,
    title: Option<string>,
    content: Option<string>,
    active: Option<bool>)

  /** The update with no keys, `{}`. */
  function NoFields(): UpdateFields {
    UpdateFields(None, None, None, None)
  }

  /** The soft-delete update, `{ active: false }`. */
  function Deactivate(): UpdateFields {
    NoFields().(active := Some(false))
  }

  /** A call the handlers make into the store's write operations. */
  datatype StoreCall = CreateCall(data: PostData) | UpdateCall(id: PostId, fields: UpdateFields)

  /** What a store operation hands back: a value, or a thrown `{name, message}`. */
  datatype StoreReply<T> = Returned(value: T) | Threw(name: string, message: string)

  /** The error kinds handed to the error pipeline; `Forwarded` carries the
      name of an error caught from a callee. */
  datatype ErrorKind = FailedCreate | UnauthorizedUserError | PostNotFoundError | Forwarded(name: string)

  /** A handler's outcome: `{ post }` sent, or `{ name, message }` passed to `next`. */
  datatype Response = Ok(post: Post) | Err(kind: ErrorKind, message: string)

  // ---------------------------------------------------------------------
  // List handler: visibility filter

  /** The predicate of `allPosts.filter`: active, or written by the caller. */
  predicate VisibleTo(p: Post, caller: Option<UserId>) {
    p.active || (caller.Some? && p.authorId == caller.value)
  }

  /** `allPosts.filter(post => VisibleTo(post, caller))`, over the posts
      from position `i` on. */
  function FilterFrom(all: seq<Post>, caller: Option<UserId>, i: nat): (r: seq<Post>)
    requires i <= |all|
    ensures |r| <= |all| - i
    ensures forall k :: 0 <= k < |r| ==> VisibleTo(r[k], caller) && r[k] in all
    decreases |all| - i
  {
    if i == |all| then []
    else (if VisibleTo(all[i], caller) then [all[i]] else []) + FilterFrom(all, caller, i + 1)
  }

  /** `allPosts.filter(post => VisibleTo(post, caller))`. */
  function FilterVisible(all: seq<Post>, caller: Option<UserId>): (r: seq<Post>)
    ensures |r| <= |all|
    ensures forall k :: 0 <= k < |r| ==> VisibleTo(r[k], caller) && r[k] in all
  {
    FilterFrom(all, caller, 0)
  }

  /** The positions, from `i` on, of the posts that `caller` may see. */
  function VisibleIndicesFrom(all: seq<Post>, caller: Option<UserId>, i: nat): seq<nat>
    requires i <= |all|
    decreases |all| - i
  {
    if i == |all| then []
    else (if VisibleTo(all[i], caller) then [i] else []) + VisibleIndicesFrom(all, caller, i + 1)
  }

  /** The positions of the posts that `caller` may see. */
  function VisibleIndices(all: seq<Post>, caller: Option<UserId>): seq<nat> {
    VisibleIndicesFrom(all, caller, 0)
  }

  /** The visible positions from `i` on increase, lie in `[i, |all|)`, and
      are exactly the positions whose post is visible. */
  lemma {:induction false} VisibleIndicesFromShape(all: seq<Post>, caller: Option<UserId>, i: nat)
    requires i <= |all|
    ensures var idx := VisibleIndicesFrom(all, caller, i);
      && (forall k :: 0 <= k < |idx| ==> i <= idx[k] < |all|)
      && (forall k, l :: 0 <= k < l < |idx| ==> idx[k] < idx[l])
      && (forall j :: i <= j < |all| ==> (j in idx <==> VisibleTo(all[j], caller)))
    decreases |all| - i
  {
    if i < |all| {
      VisibleIndicesFromShape(all, caller, i + 1);
    }
  }

  /** The filter from `i` on picks the posts at the visible positions. */
  lemma {:induction false} FilterFromIndices(all: seq<Post>, caller: Option<UserId>, i: nat)
    requires i <= |all|
    ensures var r, idx := FilterFrom(all, caller, i), VisibleIndicesFrom(all, caller, i);
      && |r| == |idx|
      && (forall k :: 0 <= k < |idx| ==> idx[k] < |all| && r[k] == all[idx[k]])
    decreases |all| - i
  {
    if i < |all| {
      FilterFromIndices(all, caller, i + 1);
      var rest, idx' := FilterFrom(all, caller, i + 1), VisibleIndicesFrom(all, caller, i + 1);
      if VisibleTo(all[i], caller) {
        var r, idx := [all[i]] + rest, [i] + idx';
        assert FilterFrom(all, caller, i) == r && VisibleIndicesFrom(all, caller, i) == idx;
        forall k | 1 <= k < |idx| ensures idx[k] < |all| && r[k] == all[idx[k]] {
          assert r[k] == rest[k - 1] && idx[k] == idx'[k - 1];
        }
      }
    }
  }

  /** The list result is the order-preserving subsequence of the store's
      posts that the caller may see: its k-th element is the store's post at
      the k-th visible position, the positions increase, and a position is
      among them exactly when its post is visible. */
  lemma {:induction false} FilterIsOrderedSubsequence(all: seq<Post>, caller: Option<UserId>)
    ensures var r, idx := FilterVisible(all, caller), VisibleIndices(all, caller);
      && |r| == |idx|
      && (forall k :: 0 <= k < |idx| ==> idx[k] < |all| && r[k] == all[idx[k]])
      && (forall k, l :: 0 <= k < l < |idx| ==> idx[k] < idx[l])
      && (forall j :: 0 <= j < |all| ==> (j in idx <==> VisibleTo(all[j], caller)))
  {
    VisibleIndicesFromShape(all, caller, 0);
    FilterFromIndices(all, caller, 0);
  }

  /** A post is listed exactly when it is in the store and visible. */
  lemma {:induction false} FilterMembership(all: seq<Post>, caller: Option<UserId>, p: Post)
    ensures p in FilterVisible(all, caller) <==> p in all && VisibleTo(p, caller)
  {
    var r, idx := FilterVisible(all, caller), VisibleIndices(all, caller);
    FilterIsOrderedSubsequence(all, caller);
    if p in all && VisibleTo(p, caller) {
      var j :| 0 <= j < |all| && all[j] == p;
      assert j in idx;
      var k :| 0 <= k < |idx| && idx[k] == j;
      assert r[k] == p;
    }
  }

  /** Without a caller, the list is exactly the active posts: no inactive post
      is ever shown and every active one is. */
  lemma AnonymousSeesActive(all: seq<Post>, p: Post)
    ensures p in FilterVisible(all, None) <==> p in all && p.active
  {
    FilterMembership(all, None, p);
  }

  /** An authenticated caller's list holds every one of the caller's own
      posts, active or not, besides every active post. */
  lemma AuthorSeesOwnPosts(all: seq<Post>, user: UserId, p: Post)
    requires p in all && (p.authorId == user || p.active)
    ensures p in FilterVisible(all, Some(user))
  {
    FilterMembership(all, Some(user), p);
  }

  /** An inactive post written by someone else is never listed. */
  lemma OthersInactiveHidden(all: seq<Post>, caller: Option<UserId>, p: Post)
    requires !p.active && (caller.None? || p.authorId != caller.value)
    ensures p !in FilterVisible(all, caller)
  {
    FilterMembership(all, caller, p);
  }

  // ---------------------------------------------------------------------
  // Reference store semantics (not part of the router)

  /** A store that overwrites exactly the keys present in the update. The
      store module is not part of this model; this definition is used only
      by the lemmas below, which say what the router's updates do under it. */
  function Merge(p: Post, f: UpdateFields): Post {
    Post(
      p.id,
      p.authorId,
      if f.active.Some? then f.active.value else p.active,
      if f.title.Some? then f.title.value else p.title,
      if f.content.Some? then f.content.value else p.content,
      if f.tags.Some? then f.tags.value else p.tags)
  }

  /** Under `Merge`, a soft delete changes exactly the visibility flag, to
      false, and a post once inactive stays inactive. */
  lemma DeactivateOnlyClearsActive(p: Post)
    ensures Merge(p, Deactivate()) == p.(active := false)
    ensures !VisibleTo(Merge(p, Deactivate()), None)
  {
  }
}
