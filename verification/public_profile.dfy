/** The statistics of a public profile (app/public-profile.tsx): post count,
    review count and the experience score derived from them. The two count
    queries are inputs. */
module PublicProfile {
  import opened Wrappers

  /** Experience points: ten per post and five per review. */
  function CalculateXP(posts: nat, reviews: nat): (xp: nat)
    ensures xp % 5 == 0
    ensures xp >= 10 * posts && xp >= 5 * reviews
  {
    posts * 10 + reviews * 5
  }

  /** More activity never lowers the score. */
  lemma CalculateXPMonotone(posts: nat, reviews: nat, posts': nat, reviews': nat)
    requires posts <= posts' && reviews <= reviews'
    ensures CalculateXP(posts, reviews) <= CalculateXP(posts', reviews')
  {
  }

  /** One more post is worth two more reviews. */
  lemma PostWorthTwoReviews(posts: nat, reviews: nat)
    ensures CalculateXP(posts + 1, reviews) == CalculateXP(posts, reviews + 2)
  {
  }

  lemma CalculateXPExample()
    ensures CalculateXP(3, 2) == 40
  {
  }

  /** A head-only count query: it throws, or returns a count that may be null. */
  datatype CountQuery = QueryFailed(message: string) | Counted(count: Option<nat>)

  class ProfileStats {
    var postCount: nat
    var reviewCount: nat
    var xpPoints: nat

    /** The score shown is always a multiple of five. */
    ghost predicate Valid()
      reads this
    {
      xpPoints % 5 == 0
    }

    constructor ()
      ensures Valid()
      ensures postCount == 0 && reviewCount == 0 && xpPoints == 0
    {
      postCount, reviewCount, xpPoints := 0, 0, 0;
    }

    /** fetchUserStats: the post count first, then the review count, then
        the score, each step only if every query before it succeeded. A
        failed post query leaves everything as it was; a failed review
        query leaves the review count and the score. The review query is
        only issued after the post query succeeded. */
    method FetchUserStats(postsQuery: CountQuery, reviewsQuery: CountQuery)
      requires Valid()
      modifies this
      ensures Valid()
      ensures postsQuery.QueryFailed? ==>
        postCount == old(postCount) && reviewCount == old(reviewCount) && xpPoints == old(xpPoints)
      ensures postsQuery.Counted? ==> postCount == OrZero(postsQuery.count)
      ensures postsQuery.Counted? && reviewsQuery.QueryFailed? ==>
        reviewCount == old(reviewCount) && xpPoints == old(xpPoints)
      ensures postsQuery.Counted? && reviewsQuery.Counted? ==>
        && reviewCount == OrZero(reviewsQuery.count)
        && xpPoints == CalculateXP(postCount, reviewCount)
    {
      if postsQuery.QueryFailed? {
        return;
      }
      var posts := postsQuery.count;
      postCount := OrZero(posts);
      if reviewsQuery.QueryFailed? {
        return;
      }
      var reviews := reviewsQuery.count;
      reviewCount := OrZero(reviews);
      xpPoints := CalculateXP(OrZero(posts), OrZero(reviews));
    }
  }

  /** From the initial state, a failed post query keeps every figure at 0,
      and a complete fetch shows a score that matches its counts. */
  method FirstFetch(postsQuery: CountQuery, reviewsQuery: CountQuery) returns (postCount: nat, reviewCount: nat, xp: nat)
    ensures postsQuery.QueryFailed? ==> postCount == 0 && reviewCount == 0 && xp == 0
    ensures postsQuery.Counted? && reviewsQuery.Counted? ==> xp == CalculateXP(postCount, reviewCount)
    ensures xp % 5 == 0
  {
    var stats := new ProfileStats();
    stats.FetchUserStats(postsQuery, reviewsQuery);
    postCount, reviewCount, xp := stats.postCount, stats.reviewCount, stats.xpPoints;
  }
}
