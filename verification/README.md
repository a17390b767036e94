# Post-and-review core of the photo-sharing app, in Dafny

The app lets signed-in users publish image posts and review other people's
posts with a 1–5 star rating and optional text. This project models the
parts of it that compute or keep state:

- **Review section** (`review_section.dfy`, module `ReviewSection`). This is
  the per-post review ledger. It loads the reviews and the average rating,
  deletes a review and recomputes the average, and adds a review behind three
  guards: signed in, not the post's owner, no earlier review. After an add it
  updates the average with a running formula. It also covers the star row, the
  trimming of review text and who may see the delete button.
- **Feed** (`display_all_posts.dfy`, module `DisplayAllPosts`). This turns
  the backend's joined rows into post views. It normalises the author profile
  (an object, an array or missing), fills in missing fields and works out each
  post's review count and rounded average. It also models the "all posts" and
  "my posts" filter and re-fetching after a delete.
- **Public profile** (`public_profile.dfy`, module `PublicProfile`). This
  covers the experience-point formula and the two count queries, which
  return early on failure.
- **Image compression** (`image_compression.dfy`, module `ImageCompression`).
  This covers the size limit, the quality tiers chosen from how far a file
  exceeds the limit, and the fall-back to the original URI. It also covers
  the batch version.
- **Image upload** (`image_upload.dfy`, module `ImageUpload`). This covers
  deriving the file name from a URI, the storage object path, and the bucket
  from which the public URL is read.
- **Users store** (`users_store.dfy`, module `UsersStore`). This is the Redux
  slice whose only reducer appends a user entry. Every screen reads the first
  entry.

Support modules:

- `Rounding` models `Math.round(x * 10) / 10` on exact fractions. Averages
  are integer tenths, so 4.5 stars is `45`.
- `Seqs` provides an order-keeping `filter`.
- `Wrappers` provides `Option`, `Result` and `Outcome`.

The backend (queries, inserts, deletes, storage calls) and the image library
are not modelled. Each of their answers is a parameter of the operation that
waits for it: a `Result`, an `Outcome` (pass or fail with a message) or a
small datatype. All state changes are in classes whose methods `modify` the
component's state variables. Each method's `ensures` ties the new state to a
pure function, and the lemmas prove properties of those functions.

### Behaviours of the code that the model keeps

- One would expect the displayed average to always be the rounded mean of
  all ratings. After an add, however, the code computes the
  new average from the *rounded* previous average
  (`components/ReviewSection.tsx:215-216`), so the result can drift.
  - `ReviewSection.RunningAverageWhenExact` proves that no drift occurs while
    the previous average is exact.
  - `ReviewSection.RunningAverageDrifts` gives a concrete drift: ratings 1, 1
    and 2 show 1.3. Adding a 1 then shows 1.2, although the exact mean of
    1, 1, 2 and 1 is 1.25, which rounds to 1.3.
  - So adding a review and deleting it again restores the list, but not
    always the average shown before the add. The delete recomputes the
    average from the list (`components/ReviewSection.tsx:142-151`).
    `ReviewSection.AddThenDeleteAfterDrift` shows this: 1.2 before, 1.3
    after.
- A fetch that returns an empty list keeps the old average
  (`components/ReviewSection.tsx:105-111`).
- `deleteReview` does not itself check ownership. Only the visibility of the
  delete button does (`components/ReviewSection.tsx:306`).
- The profile's two count queries return early. If the review query fails,
  the post count is already stored but the XP is not recomputed
  (`app/public-profile.tsx:53-66`).
- The upload writes to the `PostImages` bucket, but the public URL is read
  from the `images` bucket (`components/SupabaseImageUpload.tsx:9-19`).
- The quality floor of 0.2 holds only when the caller's own quality is at
  least 0.2. At most twice the limit, the caller's quality is used unchanged.

## Model

| member | source | states |
|---|---|---|
| Wrappers.OrZero | components/displayAllPosts.tsx:92 | `x \|\| 0`: a number counts as itself, and a missing or non-numeric value as 0; used for the feed's ratings and for the profile's counts (app/public-profile.tsx:54, 63) |
| Rounding.RoundDiv | components/ReviewSection.tsx:110 | for a positive divisor, the rounded quotient r satisfies r − ½ ≤ p/q < r + ½; this is `Math.round` (halves round up) for numerators of either sign |
| Rounding.RoundDivUnique | components/ReviewSection.tsx:110 | that characterisation determines the rounded value uniquely |
| Rounding.RoundDivBounds | components/displayAllPosts.tsx:92 | rounding a quotient that lies in [lo, hi] stays in [lo, hi] |
| Rounding.RoundDivExact | components/ReviewSection.tsx:148 | rounding an exact multiple returns it unchanged |
| Rounding.MeanTenths | components/displayAllPosts.tsx:92 | the displayed mean t (in tenths) is within half a tenth of sum/count: t − ½ ≤ 10·sum/count < t + ½ |
| Rounding.MeanTenthsBounds | components/ReviewSection.tsx:105-110 | the mean of values in [lo, hi], in tenths, lies in [10·lo, 10·hi] |
| Seqs.Filter | components/ReviewSection.tsx:142 | `filter` keeps exactly the elements that pass the test, and never makes the list longer |
| Seqs.FilterConcat | components/displayAllPosts.tsx:161 | filtering distributes over concatenation, so relative order is kept |
| Seqs.FilterSingleton | components/displayAllPosts.tsx:161 | a one-element list is kept or dropped according to the test |
| Seqs.FilterKeepsAll | components/displayAllPosts.tsx:161 | a list whose elements all pass comes back unchanged |
| Seqs.FilterShrinks | components/ReviewSection.tsx:142 | if one element fails the test, the result is strictly shorter |
| ReviewSection.Stars | components/ReviewSection.tsx:20-47 | the star row has five stars, and star k is filled exactly when k is below the whole number of stars in the rating |
| ReviewSection.StarsOfRating | components/ReviewSection.tsx:31-38 | a whole rating r fills exactly the first r stars |
| ReviewSection.LeadingSpaces | components/ReviewSection.tsx:192 | counts the white space before the first other character, stopping at it |
| ReviewSection.TrailingSpaces | components/ReviewSection.tsx:192 | counts the white space after the last other character, stopping at it |
| ReviewSection.Trim | components/ReviewSection.tsx:192 | `trim()` returns the contiguous slice after the leading spaces; it is empty exactly when the text is all space, otherwise it starts and ends with non-space, and only space follows it |
| ReviewSection.StoredText | components/ReviewSection.tsx:192 | stored text is null exactly when the draft is blank, and otherwise is the non-empty trimmed draft |
| ReviewSection.SumRatings | components/ReviewSection.tsx:108-109 | the sum of n ratings of 1–5 lies between n and 5n |
| ReviewSection.SumRatingsConcat | components/ReviewSection.tsx:145-147 | the rating sum is additive over concatenation |
| ReviewSection.AverageOf | components/ReviewSection.tsx:105-111 | an empty list averages 0, and a non-empty one averages 1.0 to 5.0 stars |
| ReviewSection.RunningAverage | components/ReviewSection.tsx:215-216 | the new average is (previous average × count + new rating) / (count + 1), rounded to tenths |
| ReviewSection.RunningAverageBounds | components/ReviewSection.tsx:215-216 | from a valid previous average, the running update stays within 1.0–5.0 |
| ReviewSection.RunningAverageWhenExact | components/ReviewSection.tsx:215-216 | if the previous average is the exact mean, the running update equals the rounded mean of the list with the new review in front |
| ReviewSection.RunningAverageDrifts | components/ReviewSection.tsx:215-216 | for ratings 1, 1, 2 followed by another 1, the running update shows 1.2 while the rounded mean is 1.3 |
| ReviewSection.HasReviewBy | components/ReviewSection.tsx:180 | `find` by user id succeeds exactly when some position of the list holds a review by that user |
| ReviewSection.AddGuard | components/ReviewSection.tsx:168-184 | a review is accepted exactly when the user is signed in, is not the post's owner and has no earlier review; signed out gives NotSignedIn, the owner gives OwnPost, and a signed-in non-owner with an earlier review gives AlreadyReviewed |
| ReviewSection.AddKeepsLedgerRules | components/ReviewSection.tsx:168-210 | an accepted review keeps "at most one review per user, none by the owner" |
| ReviewSection.RemoveById | components/ReviewSection.tsx:142 | removal keeps exactly the reviews with a different id, and never lengthens the list |
| ReviewSection.RemoveByIdConcat | components/ReviewSection.tsx:142 | removal distributes over concatenation, so the kept reviews stay in order |
| ReviewSection.RemoveShrinks | components/ReviewSection.tsx:142 | deleting the id of a review that is in the list makes the list strictly shorter |
| ReviewSection.RemoveKeepsLedgerRules | components/ReviewSection.tsx:142 | removal preserves the one-review-per-user and no-owner-review rules |
| ReviewSection.AddThenDeleteRestores | components/ReviewSection.tsx:142-151 | deleting a just-added review with a fresh id restores the list and sets the average recomputed from it |
| ReviewSection.AddThenDeleteAfterDrift | components/ReviewSection.tsx:142-151 | after a drift the round trip does not give back the displayed average: ratings 1, 1, 2 then 1 show 1.2, and adding then deleting a 5 shows 1.3 for the same list |
| ReviewSection.DeleteExample | components/ReviewSection.tsx:142-151 | ratings 5, 4, 3 average 4.0; deleting the 3 gives 4.5 |
| ReviewSection.CanDelete | components/ReviewSection.tsx:306 | the delete button shows exactly for the post's owner or the review's author, and never when signed out |
| ReviewSection.ReviewLedger.constructor | components/ReviewSection.tsx:77-81 | starts with no reviews, average 0, a draft rating of 5 stars and empty text |
| ReviewSection.ReviewLedger.SetRating | components/ReviewSection.tsx:264 | tapping a star sets the draft rating to that star |
| ReviewSection.ReviewLedger.SetNewReview | components/ReviewSection.tsx:270 | typing replaces the draft text |
| ReviewSection.ReviewLedger.FetchReviews | components/ReviewSection.tsx:90-115 | on error nothing changes; on success the list is replaced (null becomes empty), and the average is the rounded mean when the list is non-empty and is kept otherwise |
| ReviewSection.ReviewLedger.DeleteReview | components/ReviewSection.tsx:120-161 | on failure nothing changes; on success the review is removed and the average is recomputed from the remaining list |
| ReviewSection.ReviewLedger.AddReview | components/ReviewSection.tsx:167-223 | rejected exactly when the guard fails; on a failed insert nothing changes; on success the new row goes in front, the average follows the running update, and the draft resets to 5 stars and empty text |
| DisplayAllPosts.ChosenProfile | components/displayAllPosts.tsx:96 | an object join is taken as is, an array join gives its first element or nothing when empty, and a missing join gives nothing |
| DisplayAllPosts.NormalizeProfile | components/displayAllPosts.tsx:96-108 | an array join reads its first profile, and a missing profile or missing field becomes "" |
| DisplayAllPosts.ArrayJoinReadsFirst | components/displayAllPosts.tsx:96 | an array-shaped join gives the same profile as its first element given as an object |
| DisplayAllPosts.NumericSum | components/displayAllPosts.tsx:92 | for star ratings, the sum of n ratings lies between n and 5n |
| DisplayAllPosts.NumericSumConcat | components/displayAllPosts.tsx:92 | the `reduce` sum is additive over concatenation |
| DisplayAllPosts.ReviewCount | components/displayAllPosts.tsx:89-90 | the count is the array's length, or 0 when the reviews field is not an array |
| DisplayAllPosts.FeedAverage | components/displayAllPosts.tsx:91-93 | a post without reviews averages 0 |
| DisplayAllPosts.FeedAverageBounds | components/displayAllPosts.tsx:91-93 | a post with star ratings averages 1.0 to 5.0 |
| DisplayAllPosts.NonNumericCountsAsZero | components/displayAllPosts.tsx:92 | a non-numeric rating adds 0 to the sum but still counts towards the divisor |
| DisplayAllPosts.RatingsOf | components/displayAllPosts.tsx:83-86 | the feed's rating column holds each review's rating in order |
| DisplayAllPosts.NumericSumOfRatings | components/displayAllPosts.tsx:92 | the feed's sum over a review list equals the review section's sum |
| DisplayAllPosts.FeedAverageMatchesLedger | components/displayAllPosts.tsx:88-93 | the feed and a freshly fetched review section show the same average for the same reviews |
| DisplayAllPosts.AggregatePost | components/displayAllPosts.tsx:81-112 | each view field is the row's field or "" when missing, with the normalised profile, the review count, and the feed average of its reviews (0 when there are none) |
| DisplayAllPosts.FeedOf | components/displayAllPosts.tsx:54-120 | an error or a null payload gives an empty feed; otherwise there is one view per row, in order |
| DisplayAllPosts.FilteredPosts | components/displayAllPosts.tsx:160-162 | "my posts" while signed in keeps exactly the user's posts; otherwise all posts are shown |
| DisplayAllPosts.MyPostsKeepOrder | components/displayAllPosts.tsx:160-162 | the "my posts" filter keeps the feed's order |
| DisplayAllPosts.MyPostsOfOwnFeed | components/displayAllPosts.tsx:160-162 | filtering a feed that is all the user's own posts changes nothing |
| DisplayAllPosts.PostFeed.constructor | components/displayAllPosts.tsx:42-44 | starts with an empty feed and the "all" filter |
| DisplayAllPosts.PostFeed.Visible | components/displayAllPosts.tsx:160-162 | the rendered list is the whole feed under "all" or when signed out, and exactly the user's posts under "my"; it is never longer than the feed |
| DisplayAllPosts.PostFeed.FetchData | components/displayAllPosts.tsx:54-120 | the stored feed becomes the aggregated rows, or empty on error |
| DisplayAllPosts.PostFeed.SelectFilter | components/displayAllPosts.tsx:185-197 | the filter toggle sets the selected filter |
| DisplayAllPosts.PostFeed.DeletePost | components/displayAllPosts.tsx:126-157 | a failed delete keeps the feed, and a successful one re-fetches it |
| PublicProfile.CalculateXP | app/public-profile.tsx:24-26 | XP is a multiple of 5 and at least 10 per post and 5 per review |
| PublicProfile.CalculateXPMonotone | app/public-profile.tsx:24-26 | more posts or reviews never lower XP |
| PublicProfile.PostWorthTwoReviews | app/public-profile.tsx:24-26 | one post earns as much XP as two reviews |
| PublicProfile.CalculateXPExample | app/public-profile.tsx:24-26 | 3 posts and 2 reviews give 40 XP |
| PublicProfile.ProfileStats.constructor | app/public-profile.tsx:12-14 | counts and XP start at 0 |
| PublicProfile.ProfileStats.FetchUserStats | app/public-profile.tsx:45-70 | a failed post query changes nothing; a failed review query stores only the post count; when both succeed, both counts are stored and XP is recomputed from them |
| PublicProfile.FirstFetch | app/public-profile.tsx:17-70 | the first load shows zeros if the post query fails, and XP consistent with the counts if both succeed |
| ImageCompression.LimitInBytes | utils/ImageCompression.tsx:30 | the limit is the megabyte count times 1024·1024 bytes |
| ImageCompression.OverLimit | utils/ImageCompression.tsx:33-36 | compression is attempted exactly when the file exists, has a size and that size exceeds the limit (the zero-size test is subsumed) |
| ImageCompression.Tier | utils/ImageCompression.tsx:42-54 | above twice the limit the quality is 0.6, 0.4 or 0.2; at most twice the limit the caller's quality is used |
| ImageCompression.TierIgnoresCallerAboveTwice | utils/ImageCompression.tsx:42-54 | above twice the limit the caller's quality has no effect |
| ImageCompression.TierFloor | utils/ImageCompression.tsx:51-54 | the chosen quality is at least 0.2 unless it is the caller's own |
| ImageCompression.TierMonotone | utils/ImageCompression.tsx:42-54 | with a caller quality of at least 0.6, a larger file never gets a higher quality |
| ImageCompression.TierNotMonotoneBelowSixTenths | utils/ImageCompression.tsx:42-54 | with caller quality 0.3, a larger file can get a higher quality (0.6) |
| ImageCompression.CompressResult | utils/ImageCompression.tsx:25-78 | an over-limit file whose encoding and re-check succeed comes back as the encoded URI; any other case (not over the limit, a failed size query, encoding or re-check) gives the original URI |
| ImageCompression.CompressImage | utils/ImageCompression.tsx:20-79 | returns that result; compresses exactly when the file is over the limit, using the tier's quality |
| ImageCompression.CompressImages | utils/ImageCompression.tsx:87-101 | the batch has one result per input, each the single-image result, or the originals when the batch fails |
| ImageCompression.CompressImagesPointwise | utils/ImageCompression.tsx:92-100 | the i-th batch result is the i-th image's own result, or its original |
| ImageUpload.FileName | components/SupabaseImageUpload.tsx:6 | the file name is the suffix of the URI after its last '/', and contains no '/' |
| ImageUpload.FileNameWithoutSlash | components/SupabaseImageUpload.tsx:6 | a URI without '/' is its own file name |
| ImageUpload.FileNameOfPath | components/SupabaseImageUpload.tsx:6 | for dir/base the file name is base |
| ImageUpload.ObjectPath | components/SupabaseImageUpload.tsx:9 | the object path is "images/" followed by the file name |
| ImageUpload.UploadTarget | components/SupabaseImageUpload.tsx:7-9 | the upload goes to bucket "PostImages" at "images/" followed by the file name |
| ImageUpload.UploadToSupabase | components/SupabaseImageUpload.tsx:4-25 | a failed upload is rethrown with its message; a successful one returns the URL for the same path, read from the "images" bucket rather than the bucket uploaded to |
| UsersStore.CurrentUser | components/ReviewSection.tsx:84 | the signed-in user is the first entry's info, or none when the store is empty |
| UsersStore.PushAll | store/users.js:16-18 | repeated `setUserInfo` keeps the existing entries as a prefix and appends one entry per payload, in order |
| UsersStore.CurrentUserSticks | store/users.js:16-18 | after the first `setUserInfo`, later ones never change the user that screens read |
| UsersStore.ExportedAction | store/users.js:6-22 | `setUserInfo` is the only exported action |
| UsersStore.UsersSlice.constructor | store/users.js:4 | the store starts empty |
| UsersStore.UsersSlice.SetUserInfo | store/users.js:16-18 | appends the payload as a new last entry and leaves the current user unchanged when one exists |

## Left out

- Loading flags and spinners are display only, with one exception. ReviewSection's `isLoading` is set before the insert is awaited and cleared afterwards, and it disables the Post Review button while it is set (`components/ReviewSection.tsx:186`, `:221`, `:280`). The one-step `AddReview` stands for that guard: the model does not represent the flag itself.
- `formatDate` and the ordering of reviews by `created_at`. The backend sorts them; the model takes the list in the order given.
- `fetchUserData` on the public profile: it loads display fields only.
- The confirmation dialogs before deleting a review or a post. A deletion is modelled from the point where it is confirmed.
- IEEE doubles and `toFixed(1)`. Averages are exact integer tenths; floating-point error in `avg * 10` is not modelled.
- Unicode white space beyond the ECMAScript set listed in `ReviewSection.SpaceChars`.
- The actual re-encoding of pixels, the base64 payload and the storage SDK's URL formatting. Their outcomes are parameters.
- ImageCompression.CompressImage: `maxSizeInMB` is a natural number and `quality` an integer in tenths, not fractional numbers.
- ImageCompression.CompressImages: the default arguments (3 MB, quality 0.8) are not modelled as defaults. Callers pass the limit, and a batch result does not depend on the quality.
- ImageCompression.CompressImages: its error fall-back cannot be reached in the original, because each single-image call already catches its errors. It is modelled through the `batchOk` parameter.
- ReviewSection.ReviewLedger.DeleteReview: it reads the current list, not the stale list the original closure may capture.
- ReviewSection.ReviewLedger.AddReview: it is one atomic step. The original reads the list, its length and the average before awaiting the insert, and then prepends to whatever list is current. A fetch or delete that completes during the insert can therefore leave the list and the average out of step, and the model does not capture that interleaving. A second add during the insert would check for duplicates against a list that does not yet hold the first review; the original prevents this only through the `isLoading` flag that disables the button, and the model's atomic step assumes it.
- Sign-in, sessions, push tokens, image picking and cropping, and the post-creation screen: they are not part of this model.

## Findings

None recorded. The running-average drift above departs from the expected rounded mean, but not from an evident intent of the code, so it is documented as a behaviour of the code.
