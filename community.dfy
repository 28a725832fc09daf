/**
  The community feed page: toggling a like on a post (the set of post ids
  the user has liked and the list of posts on screen), the content preview,
  the look-up tables from post type and challenge category to colour class
  and icon, and the star row of a review.
 */
module Community {
  import opened Wrappers

  datatype Post = Post(
    id: string, userId: string, postType: string, title: string, content: string,
    foodName: Option<string>, rating: Option<real>,
    likesCount: int, commentsCount: int, isFeatured: bool)

  // ---------------------------------------------------------------------
  // Liking and unliking a post

  /** The liked-post set after the toggle: `postId` flips, every other id keeps its membership. */
  function ToggledLikes(liked: set<string>, postId: string): (r: set<string>)
    ensures postId in r <==> postId !in liked
    ensures forall id :: id != postId ==> (id in r <==> id in liked)
  {
    if postId in liked then liked - {postId} else liked + {postId}
  }

  /** An unlike takes one from the counter, a like adds one. */
  function LikeDelta(wasLiked: bool): (d: int)
    ensures d == 1 || d == -1
    ensures d < 0 <==> wasLiked
  {
    if wasLiked then -1 else 1
  }

  /** The posts after moving the like counter of every post with id `postId`
      by `delta`; every other post, the length and the order are kept. */
  function BumpLikes(posts: seq<Post>, postId: string, delta: int): (r: seq<Post>)
    ensures |r| == |posts|
    ensures forall i :: 0 <= i < |posts| ==>
      if posts[i].id == postId
      then r[i] == posts[i].(likesCount := posts[i].likesCount + delta)
      else r[i] == posts[i]
  {
    if posts == [] then []
    else
      var p := posts[0];
      [if p.id == postId then p.(likesCount := p.likesCount + delta) else p]
      + BumpLikes(posts[1..], postId, delta)
  }

  /** Moving a counter back by the same amount restores the list. */
  lemma {:induction false} BumpLikesUndone(posts: seq<Post>, postId: string, delta: int)
    ensures BumpLikes(BumpLikes(posts, postId, delta), postId, -delta) == posts
  {
    if posts != [] {
      var once := BumpLikes(posts, postId, delta);
      BumpLikesUndone(posts[1..], postId, delta);
      assert once[1..] == BumpLikes(posts[1..], postId, delta);
    }
  }

  /** With distinct ids, a toggle of a post on screen moves exactly one counter. */
  lemma BumpLikesChangesOnlyThatPost(posts: seq<Post>, postId: string, delta: int, k: nat)
    requires k < |posts| && posts[k].id == postId
    requires forall i, j :: 0 <= i < j < |posts| ==> posts[i].id != posts[j].id
    ensures var r := BumpLikes(posts, postId, delta);
      && r[k].likesCount == posts[k].likesCount + delta
      && forall i :: 0 <= i < |posts| && i != k ==> r[i] == posts[i]
  {
  }

  /** What the page shows: the ids the user has liked and the posts. */
  datatype Feed = Feed(likedPosts: set<string>, posts: seq<Post>)

  /** The page's state after a like or unlike whose backend calls did not throw. */
  function LikeToggled(f: Feed, postId: string): (g: Feed)
    ensures postId in g.likedPosts <==> postId !in f.likedPosts
    ensures forall id :: id != postId ==> (id in g.likedPosts <==> id in f.likedPosts)
    ensures |g.posts| == |f.posts|
    ensures forall i :: 0 <= i < |f.posts| ==>
      if f.posts[i].id == postId
      then && g.posts[i].likesCount == f.posts[i].likesCount + (if postId in f.likedPosts then -1 else 1)
           && g.posts[i] == f.posts[i].(likesCount := g.posts[i].likesCount)
      else g.posts[i] == f.posts[i]
  {
    var wasLiked := postId in f.likedPosts;
    Feed(ToggledLikes(f.likedPosts, postId), BumpLikes(f.posts, postId, LikeDelta(wasLiked)))
  }

  /** Liking and then unliking (or the reverse) leaves the page as it was. */
  lemma LikeTwiceRestores(f: Feed, postId: string)
    ensures LikeToggled(LikeToggled(f, postId), postId) == f
  {
    var wasLiked := postId in f.likedPosts;
    var g := LikeToggled(f, postId);
    assert ToggledLikes(g.likedPosts, postId) == f.likedPosts;
    assert LikeDelta(!wasLiked) == -LikeDelta(wasLiked);
    BumpLikesUndone(f.posts, postId, LikeDelta(wasLiked));
  }

  /** The toasts the page raises. */
  datatype Notice = LoginRequired | LikeFailed

  /** The state the feed page keeps for the like button. */
  class CommunityPage {
    var posts: seq<Post>
    var likedPosts: set<string>
    var notices: seq<Notice>

    function View(): Feed
      reads this
    {
      Feed(likedPosts, posts)
    }

    constructor (loaded: seq<Post>, liked: set<string>)
      ensures posts == loaded && likedPosts == liked && notices == []
    {
      posts, likedPosts, notices := loaded, liked, [];
    }

    /** The like button.  Without a user only the login toast is raised and
        no backend call is made.  Otherwise the two backend calls (remove or
        add the like row, then move the stored counter) are made, and
        `callThrows` says whether the network makes one of them throw.  An
        error they return is ignored: the page toggles exactly when nothing
        threw, and otherwise is left unchanged, with a toast. */
    method HandleLikePost(user: Option<string>, postId: string, callThrows: bool) returns (updated: bool)
      modifies this
      ensures updated <==> user.Some? && !callThrows
      ensures updated ==> View() == LikeToggled(old(View()), postId) && notices == old(notices)
      ensures !updated ==> posts == old(posts) && likedPosts == old(likedPosts)
      ensures user.None? ==> notices == old(notices) + [LoginRequired]
      ensures user.Some? && callThrows ==> notices == old(notices) + [LikeFailed]
    {
      if user.None? {
        notices := notices + [LoginRequired];
        return false;
      }
      var isLiked := postId in likedPosts;
      if callThrows {
        notices := notices + [LikeFailed];
        return false;
      }
      if isLiked {
        likedPosts := likedPosts - {postId};
      } else {
        likedPosts := likedPosts + {postId};
      }
      posts := BumpLikes(posts, postId, if isLiked then -1 else 1);
      updated := true;
    }
  }

  // ---------------------------------------------------------------------
  // Rendering helpers

  const PreviewLength: nat := 200

  /** The shown part of a post's content and whether the "...baca lebih lanjut" marker follows it. */
  datatype Preview = Preview(text: string, readMore: bool)

  function ContentPreview(content: string): (p: Preview)
    ensures p.text <= content
    ensures |p.text| == if |content| < PreviewLength then |content| else PreviewLength
    ensures p.readMore <==> |content| > PreviewLength
    ensures !p.readMore ==> p.text == content
  {
    Preview(if |content| < PreviewLength then content else content[..PreviewLength],
            |content| > PreviewLength)
  }

  /** The five post types, in the order of the source's switch. */
  const PostTypes: seq<string> := ["recipe", "story", "question", "tip", "review"]

  const DefaultTypeColor: string := "bg-gray-100 text-gray-700"

  function PostTypeColor(postType: string): (c: string)
    ensures c == DefaultTypeColor <==> postType !in PostTypes
  {
    match postType
    case "recipe" => "bg-orange-100 text-orange-700"
    case "story" => "bg-blue-100 text-blue-700"
    case "question" => "bg-purple-100 text-purple-700"
    case "tip" => "bg-green-100 text-green-700"
    case "review" => "bg-yellow-100 text-yellow-700"
    case _ => DefaultTypeColor
  }

  /** Each post type has its own colour. */
  lemma PostTypeColorsDistinct()
    ensures forall i, j :: 0 <= i < j < |PostTypes| ==>
      PostTypeColor(PostTypes[i]) != PostTypeColor(PostTypes[j])
  {
  }

  datatype Icon = ChefHat | BookOpen | MessageCircle | Target | Star | Users | Heart | Award

  function PostTypeIcon(postType: string): (i: Icon)
    ensures i == Users <==> postType !in PostTypes
  {
    match postType
    case "recipe" => ChefHat
    case "story" => BookOpen
    case "question" => MessageCircle
    case "tip" => Target
    case "review" => Star
    case _ => Users
  }

  lemma PostTypeIconsDistinct()
    ensures forall i, j :: 0 <= i < j < |PostTypes| ==>
      PostTypeIcon(PostTypes[i]) != PostTypeIcon(PostTypes[j])
  {
  }

  const ChallengeCategories: seq<string> := ["nutrition", "mood", "community"]

  function ChallengeIcon(category: string): (i: Icon)
    ensures i == Award <==> category !in ChallengeCategories
    ensures category in ChallengeCategories ==> i in {Target, Heart, Users}
  {
    match category
    case "nutrition" => Target
    case "mood" => Heart
    case "community" => Users
    case _ => Award
  }

  /** Each challenge category has an icon of its own. */
  lemma ChallengeIconsDistinct()
    ensures forall i, j :: 0 <= i < j < |ChallengeCategories| ==>
      ChallengeIcon(ChallengeCategories[i]) != ChallengeIcon(ChallengeCategories[j])
  {
  }

  const StarCount: nat := 5

  /** The star row of a review: five stars, star `i` filled when `i` is below the rating. */
  function RatingStars(rating: real): (stars: seq<bool>)
    ensures |stars| == StarCount
    ensures forall i :: 0 <= i < StarCount ==> (stars[i] <==> (i as real) < rating)
  {
    seq(StarCount, i => (i as real) < rating)
  }

  /** The star row is drawn only for a review whose rating is present and non-zero. */
  function RatingRow(p: Post): (row: Option<seq<bool>>)
    ensures row.Some? <==> p.postType == "review" && p.rating.Some? && p.rating.value != 0.0
    ensures row.Some? ==> row.value == RatingStars(p.rating.value)
  {
    if p.postType == "review" && p.rating.Some? && p.rating.value != 0.0
    then Some(RatingStars(p.rating.value))
    else None
  }

  function Filled(stars: seq<bool>): nat {
    if stars == [] then 0 else (if stars[0] then 1 else 0) + Filled(stars[1..])
  }

  /** A row whose first `k` entries are set has `k` (bounded by its length) set. */
  lemma {:induction false} FilledPrefix(stars: seq<bool>, k: int)
    requires forall i :: 0 <= i < |stars| ==> (stars[i] <==> i < k)
    ensures Filled(stars) == if k <= 0 then 0 else if k >= |stars| then |stars| else k
  {
    if stars != [] {
      forall i | 0 <= i < |stars| - 1
        ensures stars[1..][i] <==> i < k - 1
      {
        assert stars[1..][i] == stars[i + 1];
      }
      FilledPrefix(stars[1..], k - 1);
    }
  }

  /** A whole rating from 0 to 5 fills exactly that many stars. */
  lemma WholeRatingFillsThatManyStars(k: int)
    requires 0 <= k <= StarCount
    ensures Filled(RatingStars(k as real)) == k
  {
    FilledPrefix(RatingStars(k as real), k);
  }
}
