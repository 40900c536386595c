/** The post store: its state, the six case reducers of the posts slice, and
    the properties they keep.

    A value-level `Reducer` describes the slice reducer as a whole (state and
    action in, state out); the class `PostStore` performs each case as an
    update of its own fields, as the case reducers do on their draft state,
    and each of its methods is proved to agree with `Reducer`. */
module PostSlice {

  datatype Option<T> = None | Some(value: T)

  /** A post record. Ids are JavaScript numbers in the source; here they are
      mathematical integers. */
  datatype Post = Post(id: int, title: string, body: string, userId: int)

  /** Lifecycle of the list fetch. */
  datatype Status = Idle | Loading | Succeeded | Failed

  /** The whole slice state. */
  datatype PostsState = PostsState(posts: seq<Post>, status: Status, error: Option<string>)

  /** The actions the slice reacts to, each carrying its resolved payload. */
  datatype Action =
    | AddNew(post: Post)                  // addNewPost
    | Update(post: Post)                  // updatePost
    | FetchPending                        // fetchPosts.pending
    | FetchFulfilled(fetched: seq<Post>)  // fetchPosts.fulfilled
    | FetchRejected(message: Option<string>) // fetchPosts.rejected; the thrown error's message, if any
    | DeleteFulfilled(postId: int)        // deletePost.fulfilled

  /** The state the store starts from. */
  const InitialState := PostsState([], Idle, None)

  /** True when no two posts share an id. */
  predicate UniqueIds(posts: seq<Post>)
  {
    forall i, j :: 0 <= i < j < |posts| ==> posts[i].id != posts[j].id
  }

  /** True when some post has id `id`. */
  predicate HasId(posts: seq<Post>, id: int)
  {
    exists k :: 0 <= k < |posts| && posts[k].id == id
  }

  /** Index of the first post whose id is `id`, as `Array.prototype.find`
      locates it: None exactly when no post has that id. */
  function FindFirst(posts: seq<Post>, id: int): (r: Option<nat>)
    ensures r.None? ==> forall k :: 0 <= k < |posts| ==> posts[k].id != id
    ensures r.Some? ==> r.value < |posts| && posts[r.value].id == id
    ensures r.Some? ==> forall k :: 0 <= k < r.value ==> posts[k].id != id
  {
    if posts == [] then None
    else if posts[0].id == id then Some(0)
    else
      match FindFirst(posts[1..], id)
      case None => None
      case Some(i) => Some(i + 1)
  }

  /** The posts whose id differs from `id`, as `filter` keeps them. */
  function WithoutId(posts: seq<Post>, id: int): (r: seq<Post>)
    ensures |r| <= |posts|
    ensures forall q :: q in r <==> q in posts && q.id != id
  {
    if posts == [] then []
    else if posts[0].id == id then WithoutId(posts[1..], id)
    else [posts[0]] + WithoutId(posts[1..], id)
  }

  /** The value `error` takes on a rejected fetch: the message when it is
      present and non-empty, null otherwise (JavaScript's `||` treats an
      absent message and the empty string alike). */
  function RejectionError(message: Option<string>): (r: Option<string>)
    ensures r != Some("")
    ensures r.Some? ==> r == message
    ensures message.Some? && message.value != "" ==> r == message
  {
    match message
    case Some(m) => if m != "" then message else None
    case None => None
  }

  /** The posts after `updatePost(post)`: the first entry with the payload's
      id gets the payload's title and body; nothing else changes. */
  function UpdatedPosts(posts: seq<Post>, post: Post): (r: seq<Post>)
    ensures |r| == |posts|
    ensures !HasId(posts, post.id) ==> r == posts
    ensures forall k :: 0 <= k < |posts| ==> r[k].id == posts[k].id && r[k].userId == posts[k].userId
    ensures forall i ::
              (0 <= i < |posts| && posts[i].id == post.id &&
               forall k :: 0 <= k < i ==> posts[k].id != post.id) ==>
              && r[i] == Post(posts[i].id, post.title, post.body, posts[i].userId)
              && (forall k :: 0 <= k < |posts| && k != i ==> r[k] == posts[k])
  {
    match FindFirst(posts, post.id)
    case None => posts
    case Some(i) => posts[i := posts[i].(title := post.title, body := post.body)]
  }

  /** The slice reducer. No action sets the status to Idle, and only a
      rejected fetch touches the error. */
  function Reducer(s: PostsState, a: Action): (r: PostsState)
    ensures r.status == Idle ==> s.status == Idle && r.status == s.status
    ensures !a.FetchRejected? ==> r.error == s.error
    ensures !a.FetchPending? && !a.FetchFulfilled? && !a.FetchRejected? ==> r.status == s.status
  {
    match a
    case AddNew(post) => s.(posts := [post] + s.posts)
    case Update(post) => s.(posts := UpdatedPosts(s.posts, post))
    case FetchPending => s.(status := Loading)
    case FetchFulfilled(fetched) => s.(status := Succeeded, posts := fetched)
    case FetchRejected(message) => s.(status := Failed, error := RejectionError(message))
    case DeleteFulfilled(postId) => s.(posts := WithoutId(s.posts, postId))
  }

  /** The state after dispatching `actions` in order. */
  function Run(s: PostsState, actions: seq<Action>): PostsState
    decreases |actions|
  {
    if actions == [] then s else Run(Reducer(s, actions[0]), actions[1..])
  }

  /** The store object: each method is one case reducer updating the fields
      in place. */
  class PostStore {
    var posts: seq<Post>
    var status: Status
    var error: Option<string>

    /** The store's fields as a value. */
    function State(): PostsState
      reads this
    {
      PostsState(posts, status, error)
    }

    constructor ()
      ensures posts == [] && status == Idle && error == None
      ensures State() == InitialState
    {
      posts := [];
      status := Idle;
      error := None;
    }

    /** addNewPost: the post goes to the front of the list. */
    method AddNewPost(post: Post)
      modifies this
      ensures posts == [post] + old(posts)
      ensures |posts| == |old(posts)| + 1
      ensures status == old(status) && error == old(error)
      ensures State() == Reducer(old(State()), AddNew(post))
    {
      posts := [post] + posts;
    }

    /** updatePost: title and body of the first post with the payload's id
        are overwritten; a missing id leaves everything as it was. */
    method UpdatePost(post: Post)
      modifies this
      ensures status == old(status) && error == old(error)
      ensures !HasId(old(posts), post.id) ==> posts == old(posts)
      ensures FindFirst(old(posts), post.id).Some? ==>
        var i := FindFirst(old(posts), post.id).value;
        posts == old(posts)[i := old(posts)[i].(title := post.title, body := post.body)]
      ensures State() == Reducer(old(State()), Update(post))
    {
      var found := FindFirst(posts, post.id);
      if found.Some? {
        var i := found.value;
        posts := posts[i := posts[i].(title := post.title, body := post.body)];
      }
    }

    /** fetchPosts.pending: the fetch is in flight. */
    method FetchPostsPending()
      modifies this
      ensures status == Loading
      ensures posts == old(posts) && error == old(error)
      ensures State() == Reducer(old(State()), FetchPending)
    {
      status := Loading;
    }

    /** fetchPosts.fulfilled: the fetched list replaces the local one. */
    method FetchPostsFulfilled(fetched: seq<Post>)
      modifies this
      ensures status == Succeeded && posts == fetched
      ensures error == old(error)
      ensures State() == Reducer(old(State()), FetchFulfilled(fetched))
    {
      status := Succeeded;
      posts := fetched;
    }

    /** fetchPosts.rejected: the fetch failed with an optional message. */
    method FetchPostsRejected(message: Option<string>)
      modifies this
      ensures status == Failed
      ensures error == RejectionError(message)
      ensures posts == old(posts)
      ensures State() == Reducer(old(State()), FetchRejected(message))
    {
      status := Failed;
      error := RejectionError(message);
    }

    /** deletePost.fulfilled: every post with that id leaves the list. */
    method DeletePostFulfilled(postId: int)
      modifies this
      ensures posts == WithoutId(old(posts), postId)
      ensures !HasId(posts, postId)
      ensures status == old(status) && error == old(error)
      ensures State() == Reducer(old(State()), DeleteFulfilled(postId))
    {
      posts := WithoutId(posts, postId);
    }
  }

  // ---------------------------------------------------------------------
  // updatePost

  /** When `i` is the first position holding the payload's id, exactly that
      entry changes, and only in title and body; the payload's userId is
      ignored. */
  lemma UpdateHitsFirstMatch(s: PostsState, post: Post, i: nat)
    requires i < |s.posts| && s.posts[i].id == post.id
    requires forall k :: 0 <= k < i ==> s.posts[k].id != post.id
    ensures var r := Reducer(s, Update(post));
      && |r.posts| == |s.posts|
      && r.posts[i] == Post(s.posts[i].id, post.title, post.body, s.posts[i].userId)
      && (forall k :: 0 <= k < |s.posts| && k != i ==> r.posts[k] == s.posts[k])
      && r.status == s.status && r.error == s.error
  {
  }

  /** When no post has the payload's id, the state is left as it was. */
  lemma UpdateMissIsNoOp(s: PostsState, post: Post)
    requires !HasId(s.posts, post.id)
    ensures Reducer(s, Update(post)) == s
  {
  }

  /** Ids and userIds keep their positions under an update. */
  lemma UpdateKeepsIds(s: PostsState, post: Post)
    ensures var r := Reducer(s, Update(post));
      |r.posts| == |s.posts| &&
      forall k :: 0 <= k < |s.posts| ==>
        r.posts[k].id == s.posts[k].id && r.posts[k].userId == s.posts[k].userId
  {
  }

  /** Repeating an update changes nothing further. */
  lemma UpdateIdempotent(s: PostsState, post: Post)
    ensures Reducer(Reducer(s, Update(post)), Update(post)) == Reducer(s, Update(post))
  {
  }

  // ---------------------------------------------------------------------
  // deletePost.fulfilled

  /** Filtering distributes over concatenation: the kept posts stay in
      their original relative order. */
  lemma {:induction false} WithoutIdAppend(a: seq<Post>, b: seq<Post>, id: int)
    ensures WithoutId(a + b, id) == WithoutId(a, id) + WithoutId(b, id)
  {
    if a == [] {
      assert a + b == b;
    } else {
      assert (a + b)[1..] == a[1..] + b;
      WithoutIdAppend(a[1..], b, id);
    }
  }

  /** Removing an id nobody has leaves the list as it is. */
  lemma {:induction false} WithoutAbsentId(posts: seq<Post>, id: int)
    requires !HasId(posts, id)
    ensures WithoutId(posts, id) == posts
  {
    if posts != [] {
      assert posts[0].id != id;
      assert !HasId(posts[1..], id) by {
        forall k | 0 <= k < |posts[1..]| ensures posts[1..][k].id != id {
          assert posts[1..][k] == posts[k + 1];
        }
      }
      WithoutAbsentId(posts[1..], id);
      assert posts == [posts[0]] + posts[1..];
    }
  }

  /** Deleting the same id twice is the same as deleting it once. */
  lemma DeleteIdempotent(s: PostsState, id: int)
    ensures Reducer(Reducer(s, DeleteFulfilled(id)), DeleteFulfilled(id)) == Reducer(s, DeleteFulfilled(id))
  {
    var w := WithoutId(s.posts, id);
    assert !HasId(w, id) by {
      forall k | 0 <= k < |w| ensures w[k].id != id {
        assert w[k] in w;
      }
    }
    WithoutAbsentId(w, id);
  }

  /** `sub` is obtained from `full` by dropping some entries. */
  ghost predicate IsSubsequence(sub: seq<Post>, full: seq<Post>)
    decreases |full|
  {
    if sub == [] then true
    else if full == [] then false
    else if sub[0] == full[0] then IsSubsequence(sub[1..], full[1..])
    else IsSubsequence(sub, full[1..])
  }

  /** After a delete the list is a subsequence of the old one that keeps
      every post with another id as often as it occurred, and no post with
      the deleted id. */
  lemma {:induction false} WithoutIdKeepsOrder(posts: seq<Post>, id: int)
    ensures IsSubsequence(WithoutId(posts, id), posts)
    ensures forall q: Post :: q.id != id ==> multiset(WithoutId(posts, id))[q] == multiset(posts)[q]
    ensures forall q: Post :: q.id == id ==> multiset(WithoutId(posts, id))[q] == 0
  {
    if posts != [] {
      var rest := WithoutId(posts[1..], id);
      WithoutIdKeepsOrder(posts[1..], id);
      assert posts == [posts[0]] + posts[1..];
      if posts[0].id == id {
        var w := WithoutId(posts, id);
        assert w == rest;
        if w != [] {
          assert w[0] in w;
          assert w[0] != posts[0];
        }
      } else {
        var w := WithoutId(posts, id);
        assert w == [posts[0]] + rest;
        assert w[1..] == rest;
      }
    }
  }

  // ---------------------------------------------------------------------
  // Unique ids

  /** Filtering keeps ids unique. */
  lemma {:induction false} WithoutIdKeepsUnique(posts: seq<Post>, id: int)
    requires UniqueIds(posts)
    ensures UniqueIds(WithoutId(posts, id))
  {
    if posts != [] {
      var rest := WithoutId(posts[1..], id);
      assert UniqueIds(posts[1..]) by {
        forall i, j | 0 <= i < j < |posts[1..]| ensures posts[1..][i].id != posts[1..][j].id {
          assert posts[1..][i] == posts[i + 1] && posts[1..][j] == posts[j + 1];
        }
      }
      WithoutIdKeepsUnique(posts[1..], id);
      if posts[0].id != id {
        var w := [posts[0]] + rest;
        forall k | 0 <= k < |rest| ensures rest[k].id != posts[0].id {
          assert rest[k] in posts[1..];
          var m :| 0 <= m < |posts[1..]| && posts[1..][m] == rest[k];
          assert posts[m + 1] == rest[k];
        }
        forall i, j | 0 <= i < j < |w| ensures w[i].id != w[j].id {
          if i == 0 {
            assert w[j] == rest[j - 1];
          } else {
            assert w[i] == rest[i - 1] && w[j] == rest[j - 1];
          }
        }
      }
    }
  }

  /** Every action keeps ids unique, provided an added post brings a fresh
      id and a fetched list has unique ids itself. */
  lemma ReducerKeepsUnique(s: PostsState, a: Action)
    requires UniqueIds(s.posts)
    requires a.AddNew? ==> !HasId(s.posts, a.post.id)
    requires a.FetchFulfilled? ==> UniqueIds(a.fetched)
    ensures UniqueIds(Reducer(s, a).posts)
  {
    match a
    case AddNew(post) =>
      var r := [post] + s.posts;
      forall i, j | 0 <= i < j < |r| ensures r[i].id != r[j].id {
        if i == 0 {
          assert r[j] == s.posts[j - 1];
        } else {
          assert r[i] == s.posts[i - 1] && r[j] == s.posts[j - 1];
        }
      }
    case Update(post) =>
      UpdateKeepsIds(s, post);
    case DeleteFulfilled(postId) =>
      WithoutIdKeepsUnique(s.posts, postId);
    case _ =>
  }

  // ---------------------------------------------------------------------
  // Status lifecycle

  /** Once the status has left Idle, no sequence of actions brings it back. */
  lemma {:induction false} NeverBackToIdle(s: PostsState, actions: seq<Action>)
    requires s.status != Idle
    ensures Run(s, actions).status != Idle
    decreases |actions|
  {
    if actions != [] {
      NeverBackToIdle(Reducer(s, actions[0]), actions[1..]);
    }
  }

  /** addNewPost does not look for an existing post with the same id: two
      posts with one id can end up in the list. */
  lemma AddNewAllowsDuplicateIds()
    ensures var p := Post(1, "a", "b", 1);
      !UniqueIds(Run(InitialState, [AddNew(p), AddNew(p)]).posts)
  {
    var p := Post(1, "a", "b", 1);
    var acts := [AddNew(p), AddNew(p)];
    var s1 := Reducer(InitialState, AddNew(p));
    var s2 := Reducer(s1, AddNew(p));
    assert acts[1..] == [AddNew(p)] && acts[1..][1..] == [];
    assert Run(InitialState, acts) == Run(s1, acts[1..]) == s2;
    assert s2.posts[0].id == s2.posts[1].id;
  }

  /** addNewPost never looks for the id it adds: from any state that
      already holds a post with that id, ids stop being unique. */
  lemma AddNewDuplicatesPresentId(s: PostsState, post: Post)
    requires HasId(s.posts, post.id)
    ensures !UniqueIds(Reducer(s, AddNew(post)).posts)
  {
    var k :| 0 <= k < |s.posts| && s.posts[k].id == post.id;
    var r := Reducer(s, AddNew(post)).posts;
    assert r[0].id == r[k + 1].id;
  }

  /** A successful fetch after a failed one does not clear the error: the
      status is Succeeded while the old message is still held. */
  lemma ErrorOutlivesFailure()
    ensures var r := Run(InitialState, [FetchPending, FetchRejected(Some("Network Error")), FetchPending, FetchFulfilled([])]);
      r.status == Succeeded && r.error == Some("Network Error")
  {
  }
}
