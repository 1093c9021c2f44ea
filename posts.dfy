/** Posts (`api/posts`): creation, deletion behind an ownership check, likes kept one per user,
    and comments with an ownership-checked delete. */
module Posts {
  import opened Common
  import opened JsArray
  import Users

  datatype LikeEntry = LikeEntry(user: Id)
  datatype Comment = Comment(id: Id, user: Id, text: string, name: string, avatar: string)

  function LikeUser(l: LikeEntry): Id { l.user }
  function CommentId(c: Comment): Id { c.id }

  const TextRequired := "Text is required"
  const PostNotFound := "Post not found"
  const NotPostOwner := "User not authorized to delete post"
  const PostRemoved := "Post has been removed"
  const AlreadyLiked := "This post is already liked"
  const NotYetLiked := "Post has not yet been liked"
  const CommentMissing := "Comment does not exist"
  const NotCommentOwner := "User is not authorized to delete comment"

  /** Some like in `likes` belongs to `u`. */
  predicate LikedBy(likes: seq<LikeEntry>, u: Id) {
    exists i :: 0 <= i < |likes| && likes[i].user == u
  }

  /** `likes.filter(like => like.user.toString() === u)`. */
  function LikesBy(likes: seq<LikeEntry>, u: Id): (r: seq<LikeEntry>)
    ensures |r| > 0 <==> LikedBy(likes, u)
  {
    Filter(likes, (l: LikeEntry) => l.user == u)
  }

  /** `comments.find(comment => comment.id === id)`. */
  function FindComment(comments: seq<Comment>, id: Id): (r: Option<Comment>)
    ensures r.None? <==> id !in Map(comments, CommentId)
    ensures r.Some? ==> r.value.id == id && r.value == comments[IndexOf(Map(comments, CommentId), id)]
  {
    var r := Find(comments, (c: Comment) => c.id == id);
    var ids := Map(comments, CommentId);
    if r.Some? then
      var i := FindIndex(comments, (c: Comment) => c.id == id);
      assert ids[i] == id;
      assert IndexOf(ids, id) == i by {
        var j := IndexOf(ids, id);
        assert forall m :: 0 <= m < |ids| ==> ids[m] == comments[m].id;
      }
      r
    else
      assert forall j :: 0 <= j < |ids| ==> ids[j] != id;
      r
  }

  /** The remove index as written at posts.js:226-228: the callback ignores its argument and maps
      every comment to the owner of the comment found, so once the ownership check has passed the
      index is always 0. */
  function CommentRemoveIndexAsWritten(comments: seq<Comment>, comment: Comment, caller: Id): (i: int)
    ensures |comments| > 0 && comment.user == caller ==> i == 0
  {
    var owners := Map(comments, (_: Comment) => comment.user);
    assert |comments| > 0 ==> owners[0] == comment.user;
    IndexOf(owners, caller)
  }

  /** The evidently intended remove index: where the comment with that id sits. */
  function CommentRemoveIndex(comments: seq<Comment>, id: Id): (i: int)
    ensures FindComment(comments, id).Some? ==> 0 <= i < |comments| && comments[i] == FindComment(comments, id).value
  {
    IndexOf(Map(comments, CommentId), id)
  }

  /** A post, as loaded from the store; `likes` and `comments` are changed in place. */
  class Post {
    const id: Id
    const user: Id
    const text: string
    const name: string
    const avatar: string
    var likes: seq<LikeEntry>
    var comments: seq<Comment>

    /** Each user likes a post at most once. */
    ghost predicate Valid()
      reads this
    {
      UniqueKeys(likes, LikeUser)
    }

    constructor (id: Id, user: Id, text: string, name: string, avatar: string)
      ensures this.id == id && this.user == user && this.text == text
      ensures this.name == name && this.avatar == avatar
      ensures likes == [] && comments == [] && Valid()
    {
      this.id, this.user, this.text, this.name, this.avatar := id, user, text, name, avatar;
      likes, comments := [], [];
    }

    /** `PUT api/posts/like/:id`. */
    method Like(caller: Id) returns (r: Reply)
      modifies this`likes
      ensures LikedBy(old(likes), caller) ==> r == Status(400, AlreadyLiked) && likes == old(likes)
      ensures !LikedBy(old(likes), caller) ==> r == Success && likes == [LikeEntry(caller)] + old(likes)
      ensures old(Valid()) ==> Valid()
    {
      if |LikesBy(likes, caller)| > 0 {
        return Status(400, AlreadyLiked);
      }
      ghost var before := likes;
      likes := [LikeEntry(caller)] + likes;
      assert forall j :: 1 <= j < |likes| ==> likes[j] == before[j - 1];
      r := Success;
    }

    /** `PUT api/posts/unlike/:id`. */
    method Unlike(caller: Id) returns (r: Reply)
      modifies this`likes
      ensures !LikedBy(old(likes), caller) ==> r == Status(400, NotYetLiked) && likes == old(likes)
      ensures LikedBy(old(likes), caller) ==> r == Success && likes == RemoveFirst(old(likes), LikeUser, caller)
      ensures old(Valid()) ==> Valid() && !LikedBy(likes, caller)
    {
      if |LikesBy(likes, caller)| == 0 {
        return Status(400, NotYetLiked);
      }
      var users := Map(likes, LikeUser);
      var k :| 0 <= k < |likes| && likes[k].user == caller;
      assert users[k] == caller;
      var removeIndex := IndexOf(users, caller);
      SpliceAtIndexOfIsRemoveFirst(likes, LikeUser, caller);
      if Valid() {
        RemoveFirstKeepsUnique(likes, LikeUser, caller);
      }
      likes := RemoveAt(likes, removeIndex);
      r := Success;
    }

    /** `POST api/posts/comment/:id`; `author` is the caller's user record and `commentId` the
        id the store gives the new sub-document. */
    method AddComment(caller: Id, author: Users.User, text: string, commentId: Id) returns (r: Reply)
      modifies this`comments
      ensures text == "" ==> r == Invalid([TextRequired]) && comments == old(comments)
      ensures text != "" ==>
                && r == Success
                && comments == [Comment(commentId, caller, text, author.name, author.avatar)] + old(comments)
    {
      if text == "" {
        return Invalid([TextRequired]);
      }
      var newComment := Comment(commentId, caller, text, author.name, author.avatar);
      comments := [newComment] + comments;
      r := Success;
    }

    /** `DELETE api/posts/comment/:id/:comment_id` as written: after the existence and ownership
        checks it removes the FIRST comment, not the one found. */
    method DeleteComment(caller: Id, commentId: Id) returns (r: Reply)
      modifies this`comments
      ensures FindComment(old(comments), commentId).None? ==>
                r == Status(404, CommentMissing) && comments == old(comments)
      ensures FindComment(old(comments), commentId).Some? && FindComment(old(comments), commentId).value.user != caller ==>
                r == Status(401, NotCommentOwner) && comments == old(comments)
      ensures FindComment(old(comments), commentId).Some? && FindComment(old(comments), commentId).value.user == caller ==>
                r == Success && comments == old(comments)[1..]
    {
      var comment := FindComment(comments, commentId);
      if comment.None? {
        return Status(404, CommentMissing);
      }
      if comment.value.user != caller {
        return Status(401, NotCommentOwner);
      }
      var removeIndex := CommentRemoveIndexAsWritten(comments, comment.value, caller);
      comments := RemoveAt(comments, removeIndex);
      r := Success;
    }

    /** The comment delete as evidently intended: the same checks, then the comment with the
        given id is the one removed. */
    method DeleteCommentById(caller: Id, commentId: Id) returns (r: Reply)
      modifies this`comments
      ensures FindComment(old(comments), commentId).None? ==>
                r == Status(404, CommentMissing) && comments == old(comments)
      ensures FindComment(old(comments), commentId).Some? && FindComment(old(comments), commentId).value.user != caller ==>
                r == Status(401, NotCommentOwner) && comments == old(comments)
      ensures FindComment(old(comments), commentId).Some? && FindComment(old(comments), commentId).value.user == caller ==>
                && r == Success && comments == RemoveFirst(old(comments), CommentId, commentId)
                && multiset(comments) + multiset{FindComment(old(comments), commentId).value} == multiset(old(comments))
    {
      var comment := FindComment(comments, commentId);
      if comment.None? {
        return Status(404, CommentMissing);
      }
      if comment.value.user != caller {
        return Status(401, NotCommentOwner);
      }
      var removeIndex := CommentRemoveIndex(comments, commentId);
      SpliceAtIndexOfIsRemoveFirst(comments, CommentId, commentId);
      RemoveAtMultiset(comments, removeIndex);
      comments := RemoveAt(comments, removeIndex);
      r := Success;
    }
  }

  /** The post collection, keyed by post id. */
  class PostStore {
    var posts: map<Id, Post>

    constructor ()
      ensures posts == map[]
    {
      posts := map[];
    }

    /** `POST api/posts`; `author` is the caller's user record and `newId` the id the store
        assigns to the new post. */
    method Create(caller: Id, author: Users.User, text: string, newId: Id) returns (r: Reply)
      requires newId !in posts
      modifies this
      ensures text == "" ==> r == Invalid([TextRequired]) && posts == old(posts)
      ensures text != "" ==> r == Success && posts.Keys == old(posts).Keys + {newId}
      ensures text != "" ==> forall k :: k in old(posts) ==> posts[k] == old(posts)[k]
      ensures text != "" ==> fresh(posts[newId]) && posts[newId].user == caller && posts[newId].text == text
                             && posts[newId].name == author.name && posts[newId].avatar == author.avatar
                             && posts[newId].likes == [] && posts[newId].comments == []
    {
      if text == "" {
        return Invalid([TextRequired]);
      }
      var post := new Post(newId, caller, text, author.name, author.avatar);
      posts := posts[newId := post];
      r := Success;
    }

    /** `DELETE api/posts/:id`: only the post's owner may remove it. */
    method Delete(caller: Id, postId: Id) returns (r: Reply)
      modifies this
      ensures postId !in old(posts) ==> r == Status(404, PostNotFound) && posts == old(posts)
      ensures postId in old(posts) && old(posts)[postId].user != caller ==>
                r == Status(401, NotPostOwner) && posts == old(posts)
      ensures postId in old(posts) && old(posts)[postId].user == caller ==>
                r == Status(200, PostRemoved) && posts == old(posts) - {postId}
    {
      if postId !in posts {
        return Status(404, PostNotFound);
      }
      var post := posts[postId];
      if post.user != caller {
        return Status(401, NotPostOwner);
      }
      posts := posts - {postId};
      r := Status(200, PostRemoved);
    }
  }

  /** Liking twice is refused: after a like the caller is among the likers. */
  lemma LikeThenLikedBy(likes: seq<LikeEntry>, caller: Id)
    ensures LikedBy([LikeEntry(caller)] + likes, caller)
  {
    assert ([LikeEntry(caller)] + likes)[0].user == caller;
  }

  /** Unlike undoes like: removing the caller's first like from the liked list gives the old list. */
  lemma UnlikeUndoesLike(likes: seq<LikeEntry>, caller: Id)
    ensures RemoveFirst([LikeEntry(caller)] + likes, LikeUser, caller) == likes
  {
    PrependThenRemoveFirst(LikeEntry(caller), likes, LikeUser);
  }

  /** A successful unlike drops exactly one like, one of the caller's, and keeps the others in order:
      everything before the caller's first like, then everything after it. */
  lemma {:induction false} UnlikeRemovesFirstMatch(likes: seq<LikeEntry>, caller: Id)
    requires LikedBy(likes, caller)
    ensures var i := IndexOf(Map(likes, LikeUser), caller);
            && 0 <= i < |likes| && likes[i].user == caller
            && (forall j :: 0 <= j < i ==> likes[j].user != caller)
            && RemoveFirst(likes, LikeUser, caller) == likes[..i] + likes[i + 1..]
  {
    var users := Map(likes, LikeUser);
    var k :| 0 <= k < |likes| && likes[k].user == caller;
    assert users[k] == caller;
    var i := IndexOf(users, caller);
    forall j | 0 <= j < i ensures likes[j].user != caller {
      assert users[..i][j] == likes[j].user;
    }
    RemoveFirstAt(likes, LikeUser, caller, i);
  }

  /** The comment delete as written removes another user's comment: with Alice's comment first and
      Bob's second, Bob deleting his own comment passes both checks but removes Alice's, while the
      intended index removes Bob's. */
  lemma DeleteCommentRemovesWrongComment()
    ensures var alices := Comment("c1", "alice", "first", "Alice", "a.png");
            var bobs := Comment("c2", "bob", "second", "Bob", "b.png");
            var cs := [alices, bobs];
            && FindComment(cs, "c2") == Some(bobs) && bobs.user == "bob"
            && RemoveAt(cs, CommentRemoveIndexAsWritten(cs, bobs, "bob")) == [bobs]
            && RemoveAt(cs, CommentRemoveIndex(cs, "c2")) == [alices]
  {
    var alices := Comment("c1", "alice", "first", "Alice", "a.png");
    var bobs := Comment("c2", "bob", "second", "Bob", "b.png");
    var cs := [alices, bobs];
    var ids := Map(cs, CommentId);
    assert ids[0] == "c1" && ids[1] == "c2";
    assert "c1" != "c2" by { assert "c1"[1] != "c2"[1]; }
    var i := IndexOf(ids, "c2");
    assert i != 0 && i != -1;
    assert i == 1;
    assert RemoveAt(cs, i) == [alices];
    assert CommentRemoveIndexAsWritten(cs, bobs, "bob") == 0;
    assert RemoveAt(cs, 0) == [bobs];
  }
}
