/** The review ledger of one post (components/ReviewSection.tsx): the list of
    reviews on screen, the displayed average, and the draft review (star
    rating and text) of the signed-in user.

    Every backend call is an input: a fetch, insert or delete either fails
    (`Failure`/`Fail`) or returns what the reviews table returned. Averages are
    integer tenths (see module Rounding). */
module ReviewSection {
  import opened Wrappers
  import opened Rounding
  import opened Seqs

  /** A star rating; the reviews table only holds ratings from 1 to 5. */
  type Rating = x: int | 1 <= x <= 5 witness 5

  /** The reviewer's profile joined onto a review row. */
  datatype Author = Author(fullName: string, avatarUrl: string)

  /** One row of the reviews table with its author's profile. `text` is the
      nullable `review` column. */
  datatype Review = Review(
    id: string,
    postId: string,
    userId: string,
    rating: Rating,
    text: Option<string>,
    author: Author)

  // ----- StarRating -----------------------------------------------------------

  /** How many of the five stars a value (in tenths) fills: its whole part,
      clamped to 0..5. */
  function FilledCount(tenths: int): nat {
    if tenths < 0 then 0 else if tenths / 10 > 5 then 5 else tenths / 10
  }

  /** The five stars of StarRating, star 1 first: star i is filled when the
      value is at least i. The filled stars are exactly the first
      FilledCount(tenths) of them. */
  function Stars(tenths: int): (stars: seq<bool>)
    ensures |stars| == 5
    ensures forall k :: 0 <= k < 5 ==> (stars[k] <==> k < FilledCount(tenths))
  {
    seq(5, k requires 0 <= k < 5 => tenths >= 10 * (k + 1))
  }

  /** A whole rating r fills exactly stars 1..r. */
  lemma StarsOfRating(r: Rating)
    ensures forall k :: 0 <= k < 5 ==> (Stars(10 * r)[k] <==> k < r)
  {
    assert FilledCount(10 * r) == r;
  }

  // ----- Review text ----------------------------------------------------------

  /** The characters String.prototype.trim removes: the ECMAScript white
      space (tab, vertical tab, form feed, space, no-break space, byte order
      mark, the Zs space separators) and line terminators. */
  predicate IsSpace(c: char) {
    c in SpaceChars
  }

  const SpaceChars: set<char> := {
    '\t', '\n', '\U{000B}', '\U{000C}', '\r', ' ', '\U{00A0}', '\U{1680}',
    '\U{2000}', '\U{2001}', '\U{2002}', '\U{2003}', '\U{2004}', '\U{2005}',
    '\U{2006}', '\U{2007}', '\U{2008}', '\U{2009}', '\U{200A}',
    '\U{2028}', '\U{2029}', '\U{202F}', '\U{205F}', '\U{3000}', '\U{FEFF}'
  }

  /** The number of white-space characters `s` starts with. */
  function LeadingSpaces(s: string): (n: nat)
    ensures n <= |s|
    ensures forall k :: 0 <= k < n ==> IsSpace(s[k])
    ensures n == |s| || !IsSpace(s[n])
  {
    if s != [] && IsSpace(s[0]) then 1 + LeadingSpaces(s[1..]) else 0
  }

  /** The number of white-space characters `s` ends with. */
  function TrailingSpaces(s: string): (n: nat)
    ensures n <= |s|
    ensures forall k :: |s| - n <= k < |s| ==> IsSpace(s[k])
    ensures n == |s| || !IsSpace(s[|s| - 1 - n])
  {
    if s != [] && IsSpace(s[|s| - 1]) then 1 + TrailingSpaces(s[..|s| - 1]) else 0
  }

  /** String.prototype.trim: the infix of `s` left after dropping the white
      space at both ends. It neither starts nor ends with white space, it is
      empty exactly when `s` is all white space, and everything of `s` around
      it is white space. */
  function Trim(s: string): (r: string)
    ensures r == [] <==> forall k :: 0 <= k < |s| ==> IsSpace(s[k])
    ensures r == [] || (!IsSpace(r[0]) && !IsSpace(r[|r| - 1]))
    ensures LeadingSpaces(s) + |r| <= |s|
    ensures r == s[LeadingSpaces(s)..LeadingSpaces(s) + |r|]
    ensures forall k :: LeadingSpaces(s) + |r| <= k < |s| ==> IsSpace(s[k])
  {
    var lead := LeadingSpaces(s);
    if lead == |s| then []
    else
      var trail := TrailingSpaces(s);
      assert lead < |s| - trail;
      s[lead..|s| - trail]
  }

  /** The `review` column sent with an insert: `newReview.trim() || null`. */
  function StoredText(draft: string): (t: Option<string>)
    ensures t.None? <==> forall k :: 0 <= k < |draft| ==> IsSpace(draft[k])
    ensures t.Some? ==> t.value == Trim(draft) && t.value != []
  {
    var trimmed := Trim(draft);
    if trimmed == [] then None else Some(trimmed)
  }

  // ----- Averages -------------------------------------------------------------

  /** The sum of the ratings, as `reviews.reduce((sum, r) => sum + r.rating, 0)`. */
  function SumRatings(rs: seq<Review>): (total: int)
    ensures |rs| <= total <= 5 * |rs|
  {
    if rs == [] then 0 else rs[0].rating + SumRatings(rs[1..])
  }

  lemma {:induction false} SumRatingsConcat(a: seq<Review>, b: seq<Review>)
    ensures SumRatings(a + b) == SumRatings(a) + SumRatings(b)
  {
    if a == [] {
      assert a + b == b;
    } else {
      assert (a + b)[0] == a[0];
      assert (a + b)[1..] == a[1..] + b;
      SumRatingsConcat(a[1..], b);
    }
  }

  /** The average recomputed from a whole list: the mean rounded to one
      decimal, or 0 when the list is empty. It always lies within 1.0..5.0
      for a non-empty list. */
  function AverageOf(rs: seq<Review>): (t: int)
    ensures rs == [] ==> t == 0
    ensures rs != [] ==> 10 <= t <= 50
  {
    if rs == [] then 0
    else
      MeanTenthsBounds(SumRatings(rs), |rs|, 1, 5);
      MeanTenths(SumRatings(rs), |rs|)
  }

  /** The running update addReview applies: the previously displayed (already
      rounded) average `prev` weighted by the old count `n`, plus the new
      rating, over n + 1, rounded to one decimal. */
  function RunningAverage(prev: int, n: nat, rating: Rating): (t: int)
    ensures (n + 1) * (2 * t - 1) <= 2 * (prev * n + 10 * rating) < (n + 1) * (2 * t + 1)
  {
    RoundDiv(prev * n + 10 * rating, n + 1)
  }

  /** The running update keeps a displayed average within 1.0..5.0. */
  lemma RunningAverageBounds(prev: int, n: nat, rating: Rating)
    requires 0 <= prev <= 50
    requires n > 0 ==> 10 <= prev
    ensures 10 <= RunningAverage(prev, n, rating) <= 50
  {
    if n > 0 {
      MulMonotone(n, 10, prev);
      MulMonotone(n, prev, 50);
      assert 10 * n <= prev * n <= 50 * n;
    }
    RoundDivBounds(prev * n + 10 * rating, n + 1, 10, 50);
  }

  /** When the displayed average is the exact mean of the list (no rounding
      was lost), the running update equals the mean recomputed from the new
      list with the new review in front. */
  lemma RunningAverageWhenExact(prev: int, rs: seq<Review>, row: Review)
    requires prev * |rs| == 10 * SumRatings(rs)
    ensures RunningAverage(prev, |rs|, row.rating) == AverageOf([row] + rs)
  {
    var s := [row] + rs;
    assert s[1..] == rs;
    assert SumRatings(s) == row.rating + SumRatings(rs);
    assert AverageOf(s) == RoundDiv(10 * SumRatings(s), |rs| + 1);
  }

  function SampleReview(id: string, userId: string, rating: Rating): Review {
    Review(id, "p", userId, rating, None, Author("", ""))
  }

  /** The running update is not the rounded mean in general: ratings 1, 1, 2
      display 1.3; adding a 1 makes addReview display 1.2, while the four
      ratings have mean 1.25, which a fresh fetch displays as 1.3. */
  lemma RunningAverageDrifts()
    ensures var rs := [SampleReview("a", "u1", 1), SampleReview("b", "u2", 1), SampleReview("c", "u3", 2)];
      var row := SampleReview("d", "u4", 1);
      && AverageOf(rs) == 13
      && RunningAverage(AverageOf(rs), |rs|, row.rating) == 12
      && AverageOf([row] + rs) == 13
  {
    var rs := [SampleReview("a", "u1", 1), SampleReview("b", "u2", 1), SampleReview("c", "u3", 2)];
    var row := SampleReview("d", "u4", 1);
    assert SumRatings(rs) == 4;
    RoundDivUnique(40, 3, 13);
    RoundDivUnique(13 * 3 + 10, 4, 12);
    assert SumRatings([row] + rs) == 5 by {
      assert ([row] + rs)[1..] == rs;
    }
    RoundDivUnique(50, 4, 13);
  }

  // ----- Guards and the ledger rules -----------------------------------------

  /** `reviews.find(r => r.user_id === uid)` finds something. */
  predicate HasReviewBy(rs: seq<Review>, uid: string)
    ensures HasReviewBy(rs, uid) <==> exists k :: 0 <= k < |rs| && rs[k].userId == uid
  {
    exists r :: r in rs && r.userId == uid
  }

  datatype Rejection = NotSignedIn | OwnPost | AlreadyReviewed

  /** The checks addReview makes before inserting, in the order it makes
      them; None means the insert is attempted. Neither the rating nor the
      text takes part. */
  function AddGuard(user: Option<string>, postOwnerId: string, rs: seq<Review>): (r: Option<Rejection>)
    ensures r.None? <==> user.Some? && user.value != postOwnerId && !HasReviewBy(rs, user.value)
    ensures user.None? ==> r == Some(NotSignedIn)
    ensures user == Some(postOwnerId) ==> r == Some(OwnPost)
    ensures r == Some(AlreadyReviewed) ==> user.Some? && HasReviewBy(rs, user.value)
    ensures user.Some? && user.value != postOwnerId && HasReviewBy(rs, user.value) ==> r == Some(AlreadyReviewed)
  {
    if user.None? then Some(NotSignedIn)
    else if user.value == postOwnerId then Some(OwnPost)
    else if HasReviewBy(rs, user.value) then Some(AlreadyReviewed)
    else None
  }

  /** The rules of the reviews table: at most one review per user, and none
      by the post's owner. */
  predicate LedgerRules(rs: seq<Review>, postOwnerId: string) {
    OneReviewPerUser(rs) && !HasReviewBy(rs, postOwnerId)
  }

  /** No user appears twice among the reviewers. */
  predicate OneReviewPerUser(rs: seq<Review>) {
    rs == [] || (!HasReviewBy(rs[1..], rs[0].userId) && OneReviewPerUser(rs[1..]))
  }

  /** A review that passed AddGuard keeps the rules when put in front. */
  lemma AddKeepsLedgerRules(user: Option<string>, postOwnerId: string, rs: seq<Review>, row: Review)
    requires LedgerRules(rs, postOwnerId)
    requires AddGuard(user, postOwnerId, rs) == None
    requires row.userId == user.value
    ensures LedgerRules([row] + rs, postOwnerId)
  {
    assert ([row] + rs)[1..] == rs;
  }

  /** The predicate deleteReview filters with: keep reviews whose id differs. */
  function OtherId(id: string): Review -> bool {
    (r: Review) => r.id != id
  }

  /** `reviews.filter(r => r.id !== reviewId)`: drops exactly the reviews with
      that id and keeps every other one, in order. */
  function RemoveById(rs: seq<Review>, id: string): (r: seq<Review>)
    ensures forall x :: x in r <==> x in rs && x.id != id
    ensures forall k :: 0 <= k < |r| ==> r[k].id != id
    ensures |r| <= |rs|
  {
    Filter(rs, OtherId(id))
  }

  /** Deleting from two stretches of the list and joining the results is
      deleting from the whole: the kept reviews stay in order. */
  lemma RemoveByIdConcat(a: seq<Review>, b: seq<Review>, id: string)
    ensures RemoveById(a + b, id) == RemoveById(a, id) + RemoveById(b, id)
  {
    FilterConcat(a, b, OtherId(id));
  }

  /** Deleting a review that is in the list makes the list shorter. */
  lemma RemoveShrinks(rs: seq<Review>, id: string, k: nat)
    requires k < |rs| && rs[k].id == id
    ensures |RemoveById(rs, id)| < |rs|
  {
    FilterShrinks(rs, OtherId(id), k);
  }

  /** Removing reviews keeps the ledger rules. */
  lemma {:induction false} RemoveKeepsLedgerRules(rs: seq<Review>, postOwnerId: string, id: string)
    requires LedgerRules(rs, postOwnerId)
    ensures LedgerRules(RemoveById(rs, id), postOwnerId)
  {
    if rs != [] {
      var tail := rs[1..];
      RemoveKeepsLedgerRules(tail, postOwnerId, id);
      var r, rt := RemoveById(rs, id), RemoveById(tail, id);
      assert r == (if rs[0].id != id then [rs[0]] else []) + rt;
      if rs[0].id != id {
        assert r[0] == rs[0] && r[1..] == rt;
        assert !HasReviewBy(rt, rs[0].userId);
      } else {
        assert r == rt;
      }
    }
  }

  /** deleteReview of the review addReview just put in front gives back the
      earlier list and the average recomputed from it. */
  lemma AddThenDeleteRestores(rs: seq<Review>, row: Review)
    requires forall k :: 0 <= k < |rs| ==> rs[k].id != row.id
    ensures RemoveById([row] + rs, row.id) == rs
    ensures AverageOf(RemoveById([row] + rs, row.id)) == AverageOf(rs)
  {
    FilterConcat([row], rs, OtherId(row.id));
    FilterSingleton(row, OtherId(row.id));
    FilterKeepsAll(rs, OtherId(row.id));
  }

  /** The round trip restores the recomputed average, not the one shown
      before the add once the running update has drifted: ratings 1, 1, 2
      show 1.3, adding a 1 shows 1.2, and adding then deleting a 5 leaves
      the same list but shows 1.3. */
  lemma AddThenDeleteAfterDrift()
    ensures var abc := [SampleReview("a", "u1", 1), SampleReview("b", "u2", 1), SampleReview("c", "u3", 2)];
      var d := SampleReview("d", "u4", 1);
      var e := SampleReview("e", "u5", 5);
      && RunningAverage(AverageOf(abc), |abc|, d.rating) == 12
      && RemoveById([e] + ([d] + abc), "e") == [d] + abc
      && AverageOf(RemoveById([e] + ([d] + abc), "e")) == 13
  {
    var abc := [SampleReview("a", "u1", 1), SampleReview("b", "u2", 1), SampleReview("c", "u3", 2)];
    var d := SampleReview("d", "u4", 1);
    var e := SampleReview("e", "u5", 5);
    RunningAverageDrifts();
    AddThenDeleteRestores([d] + abc, e);
  }

  /** Ratings 5, 4 and 3 display 4.0; deleting the 3 displays 4.5. */
  lemma DeleteExample()
    ensures var rs := [SampleReview("a", "u1", 5), SampleReview("b", "u2", 4), SampleReview("c", "u3", 3)];
      && AverageOf(rs) == 40
      && RemoveById(rs, "c") == rs[..2]
      && AverageOf(RemoveById(rs, "c")) == 45
  {
    var rs := [SampleReview("a", "u1", 5), SampleReview("b", "u2", 4), SampleReview("c", "u3", 3)];
    assert SumRatings(rs) == 12;
    RoundDivExact(40, 3);
    FilterConcat(rs[..2], [rs[2]], OtherId("c"));
    assert rs == rs[..2] + [rs[2]];
    FilterSingleton(rs[2], OtherId("c"));
    FilterKeepsAll(rs[..2], OtherId("c"));
    assert SumRatings(rs[..2]) == 9;
    RoundDivUnique(90, 2, 45);
  }

  /** Whether the delete control is shown on a review: to its author and to
      the post's owner, never to a signed-out viewer. deleteReview itself
      does not check this. */
  function CanDelete(user: Option<string>, postOwnerId: string, item: Review): (b: bool)
    ensures b ==> user.Some?
    ensures user.Some? ==> (b <==> user.value == postOwnerId || user.value == item.userId)
  {
    match user
    case None => false
    case Some(uid) => postOwnerId == uid || item.userId == uid
  }

  // ----- The component state ------------------------------------------------

  /** What the insert returns besides the columns the client sent: the
      row's new id and the joined author profile. */
  datatype Inserted = Inserted(id: string, author: Author)

  datatype AddOutcome = Rejected(reason: Rejection) | SubmitFailed(message: string) | Added(review: Review)

  class ReviewLedger {
    const postId: string
    const postOwnerId: string
    var reviews: seq<Review>
    /** The displayed average, in tenths. */
    var averageRating: int
    /** The draft's star rating. */
    var rating: Rating
    /** The draft's text. */
    var newReview: string

    /** The displayed average is 0.0..5.0, and at least 1.0 while any review
        is listed. */
    ghost predicate Valid()
      reads this
    {
      0 <= averageRating <= 50 && (reviews != [] ==> 10 <= averageRating)
    }

    constructor (postId: string, postOwnerId: string)
      ensures Valid()
      ensures this.postId == postId && this.postOwnerId == postOwnerId
      ensures reviews == [] && averageRating == 0 && rating == 5 && newReview == ""
    {
      this.postId := postId;
      this.postOwnerId := postOwnerId;
      reviews := [];
      averageRating := 0;
      rating := 5;
      newReview := "";
    }

    /** A press on star `star` of the draft's StarRating. */
    method SetRating(star: Rating)
      modifies this`rating
      ensures rating == star
    {
      rating := star;
    }

    /** An edit of the draft's text. */
    method SetNewReview(text: string)
      modifies this`newReview
      ensures newReview == text
    {
      newReview := text;
    }

    /** fetchReviews: on success the list becomes the fetched rows (none for
        a null result); the average is recomputed only when rows came back,
        otherwise the previous one stays. On failure nothing changes. */
    method FetchReviews(result: Result<Option<seq<Review>>, string>)
      requires Valid()
      modifies this`reviews, this`averageRating
      ensures Valid()
      ensures result.Failure? ==> reviews == old(reviews) && averageRating == old(averageRating)
      ensures result.Success? ==> reviews == result.value.GetOr([])
      ensures result.Success? ==> averageRating == if reviews != [] then AverageOf(reviews) else old(averageRating)
    {
      match result
      case Failure(_) =>
      case Success(data) =>
        reviews := data.GetOr([]);
        if data.Some? && |data.value| > 0 {
          averageRating := AverageOf(data.value);
        }
    }

    /** deleteReview, once confirmed: on success the review is filtered out
        and the average recomputed from what remains (0 for nothing); on
        failure nothing changes. */
    method DeleteReview(reviewId: string, deleted: Outcome<string>)
      requires Valid()
      modifies this`reviews, this`averageRating
      ensures Valid()
      ensures deleted.Fail? ==> reviews == old(reviews) && averageRating == old(averageRating)
      ensures deleted.Pass? ==> reviews == RemoveById(old(reviews), reviewId)
      ensures deleted.Pass? ==> averageRating == AverageOf(reviews)
    {
      if deleted.Pass? {
        var updated := RemoveById(reviews, reviewId);
        reviews := updated;
        averageRating := AverageOf(updated);
      }
    }

    /** addReview: the guards first; then the insert of the trimmed draft
        with the draft's rating. On success the returned row goes in front,
        the draft resets to 5 stars and no text, and the average takes the
        running update. A rejection or a failed insert changes nothing. */
    method AddReview(user: Option<string>, insert: Result<Inserted, string>) returns (outcome: AddOutcome)
      requires Valid()
      modifies this`reviews, this`averageRating, this`rating, this`newReview
      ensures Valid()
      ensures outcome.Rejected? <==> AddGuard(user, postOwnerId, old(reviews)).Some?
      ensures outcome.Rejected? ==> outcome.reason == AddGuard(user, postOwnerId, old(reviews)).value
      ensures outcome.Added? <==> AddGuard(user, postOwnerId, old(reviews)).None? && insert.Success?
      ensures !outcome.Added? ==>
        && reviews == old(reviews) && averageRating == old(averageRating)
        && rating == old(rating) && newReview == old(newReview)
      ensures outcome.Added? ==>
        && outcome.review == Review(insert.value.id, postId, user.value, old(rating),
                                    StoredText(old(newReview)), insert.value.author)
        && reviews == [outcome.review] + old(reviews)
        && rating == 5 && newReview == ""
        && averageRating == RunningAverage(old(averageRating), |old(reviews)|, old(rating))
    {
      var guard := AddGuard(user, postOwnerId, reviews);
      if guard.Some? {
        return Rejected(guard.value);
      }
      match insert
      case Failure(message) =>
        outcome := SubmitFailed(message);
      case Success(inserted) =>
        var row := Review(inserted.id, postId, user.value, rating, StoredText(newReview), inserted.author);
        var n := |reviews|;
        var previous := averageRating;
        var submitted := rating;
        reviews := [row] + reviews;
        newReview := "";
        rating := 5;
        RunningAverageBounds(previous, n, submitted);
        averageRating := RunningAverage(previous, n, submitted);
        outcome := Added(row);
    }
  }
}
