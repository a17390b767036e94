/** The post feed (components/displayAllPosts.tsx): every post with its
    author's profile and its review statistics, newest first, optionally
    narrowed to the signed-in user's own posts.

    The posts query and the per-post reviews queries are inputs. Ordering
    by creation time is done by the backend, so the model keeps the order
    the rows arrive in. */
module DisplayAllPosts {
  import opened Wrappers
  import opened Rounding
  import opened Seqs
  import ReviewSection

  /** A joined profile as returned, each field possibly null. */
  datatype RawProfile = RawProfile(fullName: Option<string>, avatarUrl: Option<string>)

  /** The `profiles` join: missing, a single object, or an array of them,
      depending on how the backend shapes the relation. */
  datatype ProfileJoin = NoProfile | ProfileObject(profile: RawProfile) | ProfileArray(profiles: seq<RawProfile>)

  /** A row of the posts query; every column may come back null. */
  datatype RawPost = RawPost(
    title: Option<string>,
    imageUrl: Option<string>,
    content: Option<string>,
    postId: Option<string>,
    userId: Option<string>,
    profiles: ProfileJoin)

  /** The `data` of one post's reviews query: not an array (null, after an
      error), or the rows' ratings. A rating that `Number` turns into a
      number is Some; anything that gives NaN is None. */
  datatype ReviewsData = NotAnArray | RatingRows(ratings: seq<Option<int>>)

  /** One post as fetched, with the answer of its reviews query. */
  datatype PostRow = PostRow(post: RawPost, reviews: ReviewsData)

  /** The posts query: it threw, it returned null data, or it returned rows. */
  datatype FeedFetch = FeedFailed | FeedNull | FeedRows(rows: seq<PostRow>)

  datatype Profile = Profile(fullName: string, avatarUrl: string)

  /** A post as the feed shows it. */
  datatype PostView = PostView(
    title: string,
    imageUrl: string,
    content: string,
    postId: string,
    userId: string,
    profiles: Profile,
    reviewCount: nat,
    averageRating: int)

  // ----- Profile normalisation -----------------------------------------------

  /** `Array.isArray(p) ? p[0] : p`: an array is replaced by its first
      element, which is missing when the array is empty. */
  function ChosenProfile(join: ProfileJoin): (chosen: Option<RawProfile>)
    ensures join.NoProfile? ==> chosen.None?
    ensures join.ProfileObject? ==> chosen == Some(join.profile)
    ensures join.ProfileArray? ==> (chosen.None? <==> join.profiles == [])
    ensures join.ProfileArray? && join.profiles != [] ==> chosen == Some(join.profiles[0])
  {
    match join
    case NoProfile => None
    case ProfileObject(p) => Some(p)
    case ProfileArray(ps) => if ps == [] then None else Some(ps[0])
  }

  /** The profile the feed shows: the chosen profile's fields, with `''` for
      a missing profile or a missing field. */
  function NormalizeProfile(join: ProfileJoin): (p: Profile)
    ensures ChosenProfile(join).None? ==> p == Profile("", "")
    ensures ChosenProfile(join).Some? ==>
      && p.fullName == ChosenProfile(join).value.fullName.GetOr("")
      && p.avatarUrl == ChosenProfile(join).value.avatarUrl.GetOr("")
  {
    match ChosenProfile(join)
    case None => Profile("", "")
    case Some(raw) => Profile(raw.fullName.GetOr(""), raw.avatarUrl.GetOr(""))
  }

  /** An array-shaped join reads the same as its first element alone, and
      anything after it is ignored. */
  lemma ArrayJoinReadsFirst(first: RawProfile, rest: seq<RawProfile>)
    ensures NormalizeProfile(ProfileArray([first] + rest)) == NormalizeProfile(ProfileObject(first))
  {
  }

  // ----- Review statistics ----------------------------------------------------

  /** Every row holds a numeric rating from 1 to 5, as the reviews table
      guarantees. */
  predicate StarRatings(ratings: seq<Option<int>>) {
    forall k :: 0 <= k < |ratings| ==> ratings[k].Some? && 1 <= ratings[k].value <= 5
  }

  /** The sum the reduce computes. */
  function NumericSum(ratings: seq<Option<int>>): (total: int)
    ensures StarRatings(ratings) ==> |ratings| <= total <= 5 * |ratings|
  {
    if ratings == [] then 0 else OrZero(ratings[0]) + NumericSum(ratings[1..])
  }

  lemma {:induction false} NumericSumConcat(a: seq<Option<int>>, b: seq<Option<int>>)
    ensures NumericSum(a + b) == NumericSum(a) + NumericSum(b)
  {
    if a == [] {
      assert a + b == b;
    } else {
      assert (a + b)[0] == a[0];
      assert (a + b)[1..] == a[1..] + b;
      NumericSumConcat(a[1..], b);
    }
  }

  /** `reviewCount`: the number of rows, 0 when the data is not an array. */
  function ReviewCount(data: ReviewsData): (n: nat)
    ensures data.NotAnArray? ==> n == 0
    ensures data.RatingRows? ==> n == |data.ratings|
  {
    match data
    case NotAnArray => 0
    case RatingRows(ratings) => |ratings|
  }

  /** `averageRating`: 0 for no rows, else the mean over every row rounded
      to one decimal, in tenths. */
  function FeedAverage(data: ReviewsData): (t: int)
    ensures ReviewCount(data) == 0 ==> t == 0
  {
    var count := ReviewCount(data);
    if count > 0 then MeanTenths(NumericSum(data.ratings), count) else 0
  }

  /** With ratings 1..5 a non-zero feed average lies in 1.0..5.0. */
  lemma FeedAverageBounds(data: ReviewsData)
    requires data.RatingRows? && data.ratings != [] && StarRatings(data.ratings)
    ensures 10 <= FeedAverage(data) <= 50
  {
    MeanTenthsBounds(NumericSum(data.ratings), |data.ratings|, 1, 5);
  }

  /** A rating that is not a number adds 0 to the sum but still counts in
      the denominator. */
  lemma NonNumericCountsAsZero(ratings: seq<Option<int>>)
    ensures FeedAverage(RatingRows(ratings + [None])) == MeanTenths(NumericSum(ratings), |ratings| + 1)
  {
    var d := RatingRows(ratings + [None]);
    NumericSumConcat(ratings, [None]);
    assert NumericSum([None]) == 0;
    var total, count := NumericSum(d.ratings), ReviewCount(d);
    assert total == NumericSum(ratings) && count == |ratings| + 1;
    assert FeedAverage(d) == MeanTenths(total, count);
  }

  /** The ratings column of a list of ledger reviews. */
  function RatingsOf(rs: seq<ReviewSection.Review>): (ratings: seq<Option<int>>)
    ensures |ratings| == |rs|
    ensures forall k :: 0 <= k < |rs| ==> ratings[k] == Some(rs[k].rating)
  {
    seq(|rs|, k requires 0 <= k < |rs| => Some(rs[k].rating))
  }

  lemma {:induction false} NumericSumOfRatings(rs: seq<ReviewSection.Review>)
    ensures NumericSum(RatingsOf(rs)) == ReviewSection.SumRatings(rs)
  {
    if rs != [] {
      assert RatingsOf(rs)[1..] == RatingsOf(rs[1..]);
      NumericSumOfRatings(rs[1..]);
    }
  }

  /** The feed and the review screen agree: for the same reviews the feed's
      average is the average the review screen recomputes. */
  lemma FeedAverageMatchesLedger(rs: seq<ReviewSection.Review>)
    ensures FeedAverage(RatingRows(RatingsOf(rs))) == ReviewSection.AverageOf(rs)
  {
    NumericSumOfRatings(rs);
  }

  // ----- Aggregation ----------------------------------------------------------

  /** One post of the feed: columns defaulted to `''`, the profile
      normalised, the review statistics attached. */
  function AggregatePost(row: PostRow): (v: PostView)
    ensures v.reviewCount == ReviewCount(row.reviews)
    ensures v.reviewCount == 0 ==> v.averageRating == 0
    ensures v.averageRating == FeedAverage(row.reviews)
    ensures v.userId == row.post.userId.GetOr("") && v.postId == row.post.postId.GetOr("")
    ensures v.title == row.post.title.GetOr("") && v.content == row.post.content.GetOr("")
    ensures v.imageUrl == row.post.imageUrl.GetOr("")
    ensures v.profiles == NormalizeProfile(row.post.profiles)
  {
    var p := row.post;
    PostView(
      p.title.GetOr(""), p.imageUrl.GetOr(""), p.content.GetOr(""),
      p.postId.GetOr(""), p.userId.GetOr(""),
      NormalizeProfile(p.profiles),
      ReviewCount(row.reviews), FeedAverage(row.reviews))
  }

  /** What fetchData stores: nothing after an error or null data, otherwise
      one view per fetched post, in the same order, each built from its own
      row only. */
  function FeedOf(result: FeedFetch): (posts: seq<PostView>)
    ensures !result.FeedRows? ==> posts == []
    ensures result.FeedRows? ==> |posts| == |result.rows|
    ensures result.FeedRows? ==> forall i :: 0 <= i < |posts| ==> posts[i] == AggregatePost(result.rows[i])
  {
    match result
    case FeedFailed => []
    case FeedNull => []
    case FeedRows(rows) => seq(|rows|, i requires 0 <= i < |rows| => AggregatePost(rows[i]))
  }

  // ----- "My posts" -----------------------------------------------------------

  datatype FeedFilter = AllPosts | MyPosts

  function OwnedBy(uid: string): PostView -> bool {
    (p: PostView) => p.userId == uid
  }

  /** `filteredPosts`: with "my" and a signed-in user, the posts whose owner
      is that user; otherwise the whole list unchanged. */
  function FilteredPosts(posts: seq<PostView>, filter: FeedFilter, user: Option<string>): (r: seq<PostView>)
    ensures filter == MyPosts && user.Some? ==> forall p :: p in r <==> p in posts && p.userId == user.value
    ensures !(filter == MyPosts && user.Some?) ==> r == posts
  {
    if filter == MyPosts && user.Some? then Filter(posts, OwnedBy(user.value)) else posts
  }

  /** The "my" filter keeps the feed's order: filtering two consecutive
      stretches of the feed and joining them gives the filter of the whole. */
  lemma MyPostsKeepOrder(a: seq<PostView>, b: seq<PostView>, uid: string)
    ensures FilteredPosts(a + b, MyPosts, Some(uid)) ==
            FilteredPosts(a, MyPosts, Some(uid)) + FilteredPosts(b, MyPosts, Some(uid))
  {
    FilterConcat(a, b, OwnedBy(uid));
  }

  /** A feed that holds only the user's posts is shown whole under "my". */
  lemma MyPostsOfOwnFeed(posts: seq<PostView>, uid: string)
    requires forall k :: 0 <= k < |posts| ==> posts[k].userId == uid
    ensures FilteredPosts(posts, MyPosts, Some(uid)) == posts
  {
    FilterKeepsAll(posts, OwnedBy(uid));
  }

  // ----- The component state ------------------------------------------------

  class PostFeed {
    var postdata: seq<PostView>
    var selectedFilter: FeedFilter

    constructor ()
      ensures postdata == [] && selectedFilter == AllPosts
    {
      postdata := [];
      selectedFilter := AllPosts;
    }

    /** The list the screen renders for the signed-in user `user`. */
    function Visible(user: Option<string>): (shown: seq<PostView>)
      reads this
      ensures selectedFilter == AllPosts || user.None? ==> shown == postdata
      ensures selectedFilter == MyPosts && user.Some? ==>
        forall p :: p in shown <==> p in postdata && p.userId == user.value
      ensures |shown| <= |postdata|
    {
      FilteredPosts(postdata, selectedFilter, user)
    }

    /** fetchData: stores the aggregated feed, or the empty list when the
        posts query failed or returned nothing. */
    method FetchData(result: FeedFetch)
      modifies this`postdata
      ensures postdata == FeedOf(result)
    {
      match result
      case FeedFailed =>
        postdata := [];
      case FeedNull =>
        postdata := [];
      case FeedRows(rows) =>
        postdata := FeedOf(result);
    }

    /** A press on the "All Posts" or "My Posts" toggle. */
    method SelectFilter(filter: FeedFilter)
      modifies this`selectedFilter
      ensures selectedFilter == filter
    {
      selectedFilter := filter;
    }

    /** handleDeletePost, once confirmed: a successful delete re-runs
        fetchData; a failed one leaves the feed as it was. */
    method DeletePost(deleted: Outcome<string>, refetch: FeedFetch)
      modifies this`postdata
      ensures deleted.Fail? ==> postdata == old(postdata)
      ensures deleted.Pass? ==> postdata == FeedOf(refetch)
    {
      if deleted.Pass? {
        FetchData(refetch);
      }
    }
  }
}
