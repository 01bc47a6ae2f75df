/**
 * The statistics page: the signed-in user's post count, like total and
 * comment count, computed from the post and comment lists the page is given,
 * and the switch between the table and the chart view.
 */
module Statistics {
  import opened Wrappers

  /** A post as the page reads it: its author and its likes. */
  datatype Post = Post(authorId: int, likes: int)

  /** A comment as the page reads it: the position of its post in the post list. */
  datatype Comment = Comment(postId: int)

  /** `post.authorId === user?.id`: never true without a signed-in user. */
  predicate Owns(user: Option<int>, p: Post) {
    user.Some? && p.authorId == user.value
  }

  /** `posts.filter(post => post.authorId === user?.id)`, order kept. */
  function UserPosts(posts: seq<Post>, user: Option<int>): (r: seq<Post>)
    ensures |r| <= |posts|
    ensures forall p :: p in r <==> p in posts && Owns(user, p)
  {
    if posts == [] then []
    else
      var rest := UserPosts(posts[1..], user);
      if Owns(user, posts[0]) then [posts[0]] + rest else rest
  }

  /** The "Posts" card. */
  function PostCount(posts: seq<Post>, user: Option<int>): nat {
    |UserPosts(posts, user)|
  }

  /** A reference definition of the post count: one for every post the user owns. */
  function OwnedCount(posts: seq<Post>, user: Option<int>): nat {
    if posts == [] then 0 else (if Owns(user, posts[0]) then 1 else 0) + OwnedCount(posts[1..], user)
  }

  /** The post count is the number of posts whose author is the user, duplicates included. */
  lemma {:induction false} PostCountIsOwnedCount(posts: seq<Post>, user: Option<int>)
    ensures PostCount(posts, user) == OwnedCount(posts, user)
    decreases |posts|
  {
    if posts != [] {
      PostCountIsOwnedCount(posts[1..], user);
    }
  }

  /** The filter keeps every owned post as many times as the list holds it, and no other post. */
  lemma {:induction false} UserPostsMultiplicity(posts: seq<Post>, user: Option<int>, p: Post)
    ensures multiset(UserPosts(posts, user))[p] == if Owns(user, p) then multiset(posts)[p] else 0
    decreases |posts|
  {
    if posts != [] {
      UserPostsMultiplicity(posts[1..], user, p);
      assert posts == [posts[0]] + posts[1..];
    }
  }

  /** `.reduce((sum, el) => sum + el.likes, 0)`: a left fold starting at 0. */
  function SumLikes(ps: seq<Post>): int {
    if ps == [] then 0 else SumLikes(ps[..|ps| - 1]) + ps[|ps| - 1].likes
  }

  /** The "Likes" card. */
  function LikeCount(posts: seq<Post>, user: Option<int>): int {
    SumLikes(UserPosts(posts, user))
  }

  /** A reference definition of the like total: every post's likes, counted when the user owns it. */
  function OwnedLikes(posts: seq<Post>, user: Option<int>): int {
    if posts == [] then 0 else (if Owns(user, posts[0]) then posts[0].likes else 0) + OwnedLikes(posts[1..], user)
  }

  /**
   * Whether a comment counts: `posts[comment.postId]` must be an element of
   * the list (an index outside it reads `undefined`, which no filter result holds)
   * and must be among the user's posts.
   */
  predicate Counted(posts: seq<Post>, user: Option<int>, c: Comment) {
    0 <= c.postId < |posts| && posts[c.postId] in UserPosts(posts, user)
  }

  /** `postsComments`: the "Comments" card. */
  function CommentCount(posts: seq<Post>, comments: seq<Comment>, user: Option<int>): nat {
    if comments == [] then 0
    else (if Counted(posts, user, comments[0]) then 1 else 0) + CommentCount(posts, comments[1..], user)
  }

  /** Folding from the front gives the same total as the page's left fold. */
  lemma {:induction false} SumLikesFront(ps: seq<Post>)
    requires ps != []
    ensures SumLikes(ps) == ps[0].likes + SumLikes(ps[1..])
    decreases |ps|
  {
    if |ps| == 1 {
      assert ps[..0] == [];
      assert ps[1..] == [];
    } else {
      var init := ps[..|ps| - 1];
      SumLikesFront(init);
      assert init[0] == ps[0];
      assert init[1..] == ps[1..][..|ps[1..]| - 1];
      assert ps[1..][|ps[1..]| - 1] == ps[|ps| - 1];
    }
  }

  /** The like total is the likes of exactly the user's posts. */
  lemma {:induction false} LikeCountIsOwnedLikes(posts: seq<Post>, user: Option<int>)
    ensures LikeCount(posts, user) == OwnedLikes(posts, user)
    decreases |posts|
  {
    if posts != [] {
      LikeCountIsOwnedLikes(posts[1..], user);
      if Owns(user, posts[0]) {
        var r := UserPosts(posts, user);
        assert r == [posts[0]] + UserPosts(posts[1..], user);
        SumLikesFront(r);
        assert r[1..] == UserPosts(posts[1..], user);
      }
    }
  }

  /** A comment counts exactly when its index names a post of the user's. */
  lemma CountedIffOwnedPost(posts: seq<Post>, user: Option<int>, c: Comment)
    ensures Counted(posts, user, c) <==> 0 <= c.postId < |posts| && Owns(user, posts[c.postId])
  {
    if 0 <= c.postId < |posts| {
      assert posts[c.postId] in posts;
    }
  }

  /** The comment count never exceeds the number of comments. */
  lemma {:induction false} CommentCountBounded(posts: seq<Post>, comments: seq<Comment>, user: Option<int>)
    ensures CommentCount(posts, comments, user) <= |comments|
    decreases |comments|
  {
    if comments != [] {
      CommentCountBounded(posts, comments[1..], user);
    }
  }

  /** Without a signed-in user no post is the user's. */
  lemma {:induction false} NoUserNoPosts(posts: seq<Post>)
    ensures UserPosts(posts, None) == []
    decreases |posts|
  {
    if posts != [] {
      NoUserNoPosts(posts[1..]);
    }
  }

  /** Without a signed-in user every card shows 0. */
  lemma {:induction false} NoUserNoStatistics(posts: seq<Post>, comments: seq<Comment>)
    ensures PostCount(posts, None) == 0
    ensures LikeCount(posts, None) == 0
    ensures CommentCount(posts, comments, None) == 0
    decreases |comments|
  {
    NoUserNoPosts(posts);
    if comments != [] {
      NoUserNoStatistics(posts, comments[1..]);
    }
  }

  /** A user with no posts has no likes and no comments. */
  lemma {:induction false} NoPostsNoStatistics(posts: seq<Post>, comments: seq<Comment>, user: Option<int>)
    requires PostCount(posts, user) == 0
    ensures LikeCount(posts, user) == 0
    ensures CommentCount(posts, comments, user) == 0
    decreases |comments|
  {
    if comments != [] {
      NoPostsNoStatistics(posts, comments[1..], user);
    }
  }

  /** The table/chart switch of the page. */
  class StatisticsView {
    var showChart: bool

    /** The page opens on the table view. */
    constructor ()
      ensures !showChart
    {
      showChart := false;
    }

    /** The caption beside the switch. */
    function Caption(): (c: string)
      reads this
      ensures c == "Chart view" <==> showChart
    {
      if showChart then "Chart view" else "Enable Chart view"
    }

    /** `onToggle`: flips the view. */
    method Toggle()
      modifies this
      ensures showChart == !old(showChart)
    {
      showChart := !showChart;
    }
  }

  /** Switching twice returns to the table view the page opened on. */
  method ToggleTwiceShowsTable() returns (shown: bool)
    ensures !shown
  {
    var view := new StatisticsView();
    view.Toggle();
    view.Toggle();
    shown := view.showChart;
  }
}
