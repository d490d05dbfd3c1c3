/** The board store (contexts/DataContext.tsx): an ordered list of gallery posts,
    newest first, persisted to one local-storage slot after every change. */
module Data {
  import opened Wrappers
  import opened Types

  /** `[post, ...prev]`: the new post goes in front of the old ones. */
  function Prepended(posts: seq<Post>, post: Post): (r: seq<Post>)
    ensures |r| == |posts| + 1 && r[0] == post
    ensures forall k :: 0 <= k < |posts| ==> r[k + 1] == posts[k]
  {
    [post] + posts
  }

  /** `prev.map(...)` appending `comment` to every post whose id is `postId`. */
  function Commented(posts: seq<Post>, postId: string, comment: Comment): (r: seq<Post>)
    ensures |r| == |posts|
    ensures forall k :: 0 <= k < |posts| && posts[k].id == postId ==>
      r[k] == posts[k].(comments := posts[k].comments + [comment])
    ensures forall k :: 0 <= k < |posts| && posts[k].id != postId ==> r[k] == posts[k]
    decreases |posts|
  {
    if |posts| == 0 then []
    else
      var p := posts[0];
      [if p.id == postId then p.(comments := p.comments + [comment]) else p]
        + Commented(posts[1..], postId, comment)
  }

  /** `prev.map(...)` adding one like to every post whose id is `postId`. */
  function Liked(posts: seq<Post>, postId: string): (r: seq<Post>)
    ensures |r| == |posts|
    ensures forall k :: 0 <= k < |posts| && posts[k].id == postId ==>
      r[k] == posts[k].(likes := posts[k].likes + 1)
    ensures forall k :: 0 <= k < |posts| && posts[k].id != postId ==> r[k] == posts[k]
    decreases |posts|
  {
    if |posts| == 0 then []
    else
      var p := posts[0];
      [if p.id == postId then p.(likes := p.likes + 1) else p] + Liked(posts[1..], postId)
  }

  /** `toggleLike(postId)` called `n` times in a row. */
  function LikedTimes(posts: seq<Post>, postId: string, n: nat): seq<Post>
    decreases n
  {
    if n == 0 then posts else Liked(LikedTimes(posts, postId, n - 1), postId)
  }

  predicate HasPost(posts: seq<Post>, postId: string) {
    exists k :: 0 <= k < |posts| && posts[k].id == postId
  }

  /** Commenting on an id no post has leaves the board as it was. */
  lemma CommentOnMissingPost(posts: seq<Post>, postId: string, comment: Comment)
    requires !HasPost(posts, postId)
    ensures Commented(posts, postId, comment) == posts
  {
  }

  /** Liking an id no post has leaves the board as it was. */
  lemma LikeMissingPost(posts: seq<Post>, postId: string)
    requires !HasPost(posts, postId)
    ensures Liked(posts, postId) == posts
  {
  }

  /** `n` likes raise each matching post's counter by exactly `n` and touch nothing else. */
  lemma {:induction false} LikedTimesCounts(posts: seq<Post>, postId: string, n: nat)
    ensures |LikedTimes(posts, postId, n)| == |posts|
    ensures forall k :: 0 <= k < |posts| && posts[k].id == postId ==>
      LikedTimes(posts, postId, n)[k] == posts[k].(likes := posts[k].likes + n)
    ensures forall k :: 0 <= k < |posts| && posts[k].id != postId ==>
      LikedTimes(posts, postId, n)[k] == posts[k]
    decreases n
  {
    if n > 0 {
      LikedTimesCounts(posts, postId, n - 1);
    }
  }

  /** Liking is not idempotent: a second like on an existing post changes the board again. */
  lemma LikeTwiceDiffers(posts: seq<Post>, postId: string)
    requires HasPost(posts, postId)
    ensures Liked(Liked(posts, postId), postId) != Liked(posts, postId)
  {
    var k :| 0 <= k < |posts| && posts[k].id == postId;
    assert Liked(Liked(posts, postId), postId)[k].likes == posts[k].likes + 2;
  }

  /** Liking and commenting keep every post's id, so the set of ids never changes. */
  lemma UpdatesKeepIds(posts: seq<Post>, postId: string, comment: Comment)
    ensures forall k :: 0 <= k < |posts| ==>
      Liked(posts, postId)[k].id == posts[k].id && Commented(posts, postId, comment)[k].id == posts[k].id
  {
  }

  class DataStore {
    var posts: seq<Post>
    /** The `galleryPosts` local-storage slot; None when the key is absent or empty. */
    var storage: Option<seq<Post>>

    /** The effect that writes `posts` to storage has run since the last change. */
    ghost predicate Persisted()
      reads this
    {
      storage == Some(posts)
    }

    /** Initial load: the stored list when there is one, else the built-in seed
        posts; the persist effect then writes it back. */
    constructor (saved: Option<seq<Post>>, initialPosts: seq<Post>)
      ensures saved.Some? ==> posts == saved.value
      ensures saved.None? ==> posts == initialPosts
      ensures Persisted()
    {
      posts := if saved.Some? then saved.value else initialPosts;
      storage := Some(posts);
    }

    method AddPost(post: Post)
      requires Persisted()
      modifies this
      ensures posts == Prepended(old(posts), post)
      ensures Persisted()
    {
      posts := Prepended(posts, post);
      storage := Some(posts);
    }

    method AddComment(postId: string, comment: Comment)
      requires Persisted()
      modifies this
      ensures posts == Commented(old(posts), postId, comment)
      ensures Persisted()
    {
      posts := Commented(posts, postId, comment);
      storage := Some(posts);
    }

    method ToggleLike(postId: string)
      requires Persisted()
      modifies this
      ensures posts == Liked(old(posts), postId)
      ensures Persisted()
    {
      posts := Liked(posts, postId);
      storage := Some(posts);
    }
  }
}
