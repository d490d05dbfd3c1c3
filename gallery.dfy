/** The gallery page's handlers (pages/Gallery.tsx): building a post or a comment
    from the form state and the current user, calling the board store, awarding
    XP and resetting the form. Each handler runs as one atomic step. */
module Gallery {
  import opened Wrappers
  import opened Types
  import opened JsString
  import opened Tags
  import opened Auth
  import opened Data

  const PostXpReward := 50
  const CommentXpReward := 10

  class GalleryPage {
    const data: DataStore
    const auth: AuthStore
    var isModalOpen: bool
    var newPostTitle: string
    var newPostContent: string
    var newPostTags: string
    /** The page's own copy of the post whose comments are open. */
    var selectedPost: Option<Post>
    var commentText: string

    constructor (data: DataStore, auth: AuthStore)
      ensures this.data == data && this.auth == auth
      ensures !isModalOpen && newPostTitle == "" && newPostContent == "" && newPostTags == ""
      ensures selectedPost == None && commentText == ""
    {
      this.data := data;
      this.auth := auth;
      isModalOpen := false;
      newPostTitle, newPostContent, newPostTags := "", "", "";
      selectedPost := None;
      commentText := "";
    }

    method OpenModal()
      modifies this
      ensures isModalOpen
      ensures newPostTitle == old(newPostTitle) && newPostContent == old(newPostContent)
      ensures newPostTags == old(newPostTags)
      ensures selectedPost == old(selectedPost) && commentText == old(commentText)
    {
      isModalOpen := true;
    }

    /** The cancel button closes the form and keeps what was typed. */
    method CancelModal()
      modifies this
      ensures !isModalOpen
      ensures newPostTitle == old(newPostTitle) && newPostContent == old(newPostContent)
      ensures newPostTags == old(newPostTags)
      ensures selectedPost == old(selectedPost) && commentText == old(commentText)
    {
      isModalOpen := false;
    }

    /** Opening the comments of the `k`-th rendered post copies that post. */
    method SelectPost(k: nat)
      requires k < |data.posts|
      modifies this
      ensures selectedPost == Some(data.posts[k])
      ensures isModalOpen == old(isModalOpen) && commentText == old(commentText)
      ensures newPostTitle == old(newPostTitle) && newPostContent == old(newPostContent)
      ensures newPostTags == old(newPostTags)
    {
      selectedPost := Some(data.posts[k]);
    }

    method ClosePost()
      modifies this
      ensures selectedPost == None
      ensures isModalOpen == old(isModalOpen) && commentText == old(commentText)
      ensures newPostTitle == old(newPostTitle) && newPostContent == old(newPostContent)
      ensures newPostTags == old(newPostTags)
    {
      selectedPost := None;
    }

    /** Without a user nothing happens. Otherwise a post with no likes and no
        comments, written by the current user and tagged from the tag field, goes
        to the front of the board, the user earns 50 XP and the form is cleared. */
    method HandlePostSubmit(id: string, date: string)
      requires data.Persisted()
      modifies this, data, auth
      ensures data.Persisted()
      ensures old(auth.user).None? ==> unchanged(this, data, auth)
      ensures old(auth.user).Some? ==>
        var u := old(auth.user).value;
        && |data.posts| == |old(data.posts)| + 1
        && data.posts[1..] == old(data.posts)
        && data.posts[0] == Post(id, old(newPostTitle), old(newPostContent), u.name, u.department,
                                 date, 0, ParseTags(old(newPostTags)), None, [])
        && auth.user == Some(XpAfter(u, PostXpReward))
        && !isModalOpen && newPostTitle == "" && newPostContent == "" && newPostTags == ""
        && selectedPost == old(selectedPost) && commentText == old(commentText)
    {
      if auth.user.None? {
        return;
      }
      var u := auth.user.value;
      var newPost := Post(id, newPostTitle, newPostContent, u.name, u.department,
                          date, 0, ParseTags(newPostTags), None, []);
      data.AddPost(newPost);
      auth.GainXp(PostXpReward);
      isModalOpen := false;
      newPostTitle := "";
      newPostContent := "";
      newPostTags := "";
    }

    /** Without a user, without an open post, or with blank text nothing happens.
        Otherwise the comment is appended to every board post with the open post's
        id and to the page's own copy, the user earns 10 XP and the field is cleared. */
    method HandleCommentSubmit(id: string, date: string)
      requires data.Persisted()
      modifies this, data, auth
      ensures data.Persisted()
      ensures old(auth.user).None? || old(selectedPost).None? || Trim(old(commentText)) == [] ==>
        unchanged(this, data, auth)
      ensures old(auth.user).Some? && old(selectedPost).Some? && Trim(old(commentText)) != [] ==>
        var u := old(auth.user).value;
        var open := old(selectedPost).value;
        var c := Comment(id, u.name, old(commentText), date);
        && data.posts == Commented(old(data.posts), open.id, c)
        && auth.user == Some(XpAfter(u, CommentXpReward))
        && commentText == ""
        && selectedPost == Some(open.(comments := open.comments + [c]))
        && isModalOpen == old(isModalOpen) && newPostTitle == old(newPostTitle)
        && newPostContent == old(newPostContent) && newPostTags == old(newPostTags)
    {
      if auth.user.None? || selectedPost.None? || Trim(commentText) == [] {
        return;
      }
      var u := auth.user.value;
      var open := selectedPost.value;
      var newComment := Comment(id, u.name, commentText, date);
      data.AddComment(open.id, newComment);
      auth.GainXp(CommentXpReward);
      commentText := "";
      selectedPost := Some(open.(comments := open.comments + [newComment]));
    }
  }
}
