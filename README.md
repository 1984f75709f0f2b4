# Hijab style reviews: review store, rating aggregation and catalogue filter

This project models two parts of a small catalogue-and-reviews web application
in Dafny and proves properties of them.

- **The review store.** It holds the style catalogue's denormalised rating
  summaries (`averageRating`, `totalReviews`) and the review collection. The
  model covers the create-review handler, the `updateStyleRating` recompute and
  the per-style listing in `backend/routes/reviews.js`. It also covers the
  review schema and unique index in `backend/models/Review.js`.
- **The catalogue filter.** This is `filterStyles` in
  `frontend/src/pages/Home.jsx`: a case-insensitive substring search over a
  style's name and description, followed by an exact category match.

Modules, one per source concern:

- `Common`: `Option` and `Result`.
- `Seqs`: `Array.prototype.filter` as `Filter`, the order-preserving
  subsequence relation, and the lemmas about filters (exact counts,
  idempotence, composition, concatenation).
- `ReviewSchema` (`Review.js`): the stored `Review`, the pre-save `Draft`, the
  field validators (`Violations`, `Validate`), the unique `(user, style)`
  index (`Unique`), and `Review.findOne` (`FindOne`).
- `RatingAggregate` (`updateStyleRating`, pure part): the reviews of one
  style, the `reduce` sum, the `Math.round` rounding and the recomputed
  `Summary`.
- `ReviewRoutes` (`reviews.js`): the class `Store` with the fields `styles`
  (a map from style id to `Summary`) and `reviews` (a sequence). Its methods
  are `CreateReview` and `UpdateStyleRating`, and its function is
  `ListReviewsForStyle`. The module also holds the newest-first sort and a
  client method, `TwoReviewsThenDuplicate`: two users review one style, then
  the first user's second review is refused and changes nothing.
- `HomeFilter` (`Home.jsx`): ASCII lower-casing, `includes`, and
  `FilterStyles`.

The average is exact. A summary holds `averageTenths`, an integer, and the
source's `averageRating` is `averageTenths / 10`. `Math.round(x)` is
`floor(x + 1/2)`, so the stored tenths are `floor(10 * sum / n + 1/2)`.
Ratings are `real`, because the schema types `rating` as `Number` with only
`min` and `max`. For integer ratings the lemma `IntegerMeanTenths` shows the
result equals `(20*s + n) div (2*n)`.

`Store.Valid()` is the store invariant. It says:

- every style's summary equals `Recompute` of the stored reviews;
- the `(user, style)` index is unique;
- every stored review passed the schema;
- every stored review refers to a catalogued style.

`CreateReview` preserves the invariant and states all four outcomes as
if-and-only-if conditions:

- `NotFound`: the style is missing. This is checked first.
- `AlreadyReviewed`: the user already has a review for the style. This is
  checked before validation.
- `Invalid`: schema validation failed. The result carries the violations.
- `Created`: exactly one review is appended. Its author is the authenticated
  user, and its `createdAt` is the save time.

Every failure leaves both tables unchanged.

Notes on what the code does:

- A schema violation is answered with 500. Mongoose throws from `save`, and
  the handler's catch-all answers 500.
- A duplicate review is answered with 400.
- `rating` is a `Number` bounded by 1 and 5; it need not be an integer.
- `findByIdAndUpdate` of an unknown style id changes nothing.

## Model

| member | source | states |
|---|---|---|
| `ReviewSchema.ValidReview` | backend/models/Review.js:14-24 | A stored review satisfies the schema: its rating lies in [1, 5] and its text is non-empty with at most 1000 characters. The user and style references are present by construction of `Review`. |
| `ReviewSchema.DraftValid` | backend/models/Review.js:4-24 | A draft passes every validator: user, style, rating and text are all present, the rating lies in [1, 5], and the text is non-empty with at most 1000 characters. |
| `ReviewSchema.Unique` | backend/models/Review.js:29-30 | The unique compound index: no two stored reviews have the same user and the same style. |
| `RatingAggregate.ForStyle` | backend/routes/reviews.js:67 | `Review.find({ style })`: every review it returns has the given style. `ForStyleMembers` shows it returns all of them. |
| `RatingAggregate.RatingSum` | backend/routes/reviews.js:70 | `reviews.reduce((sum, review) => sum + review.rating, 0)`, a left fold starting at 0. `RatingSumAppend` and `RatingSumBounds` state its properties. |
| `ReviewRoutes.StatusCode` | backend/routes/reviews.js:28-61 | The HTTP status of each outcome: 201 for `Created`, and only for it; 400 for `AlreadyReviewed` and 404 for `NotFound`, the only 4xx answers; 500 for `Invalid`. |
| `ReviewRoutes.Store.Valid` | backend/routes/reviews.js:66-76 | The store invariant: every style's summary equals `Recompute` of the stored reviews, the `(user, style)` index is unique, every stored review satisfies the schema, and every stored review refers to a catalogued style. |
| `HomeFilter.MatchesSearch` | frontend/src/pages/Home.jsx:36-39 | The search predicate: the lower-cased term occurs in the lower-cased name or in the lower-cased description. |
| `HomeFilter.MatchesCategory` | frontend/src/pages/Home.jsx:43 | The category predicate: the style's category equals the selected one exactly, with case. |
| `HomeFilter.Keep` | frontend/src/pages/Home.jsx:35-44 | A style is kept when it passes every active predicate. The search is active for a non-empty term, and the category filter for any category other than `"all"`. |
| `ReviewSchema.Violations` | backend/models/Review.js:4-24 | No violation exactly when user, style, rating and text are all present, the rating is in [1, 5] and the text is non-empty with at most 1000 characters. Each validator's violation is reported exactly when that validator fails: a missing user, style or rating, or a missing or empty text, as `…Required`; a present rating below 1 or above 5; a present text over 1000 characters. |
| `ReviewSchema.Validate` | backend/models/Review.js:4-27 | `save`'s validation succeeds exactly for a valid draft. The stored review carries the draft's four fields, satisfies `ValidReview`, and is stamped with the save time as `createdAt`. A failure reports the non-empty list of violations. |
| `ReviewSchema.ValidateToDraft` | backend/models/Review.js:4-27 | Validating the draft of a valid stored review, at its own timestamp, gives that review back. |
| `ReviewSchema.FindOne` | backend/routes/reviews.js:32-35 | `Review.findOne({user, style})` finds a review exactly when one with that user and style is stored. The review it returns is stored and has that user and style. |
| `ReviewSchema.AppendUnique` | backend/models/Review.js:29-30 | Appending to a unique collection keeps the `(user, style)` index unique if and only if no stored review has the new review's pair. |
| `RatingAggregate.RoundHalfUp` | backend/routes/reviews.js:74 | `Math.round`: the result is within one half of `x`, and a tie rounds upward. |
| `RatingAggregate.AverageTenths` | backend/routes/reviews.js:69-74 | With no ratings the average is 0. Otherwise `10 * sum` lies in `[(t - 1/2) * n, (t + 1/2) * n)`, so `t` is the mean in tenths rounded to the nearest tenth, ties upward. |
| `RatingAggregate.Recompute` | backend/routes/reviews.js:67-76 | `totalReviews` is the number of stored reviews of the style. The average is 0 when there are none, and otherwise the mean of their ratings rounded to one decimal. |
| `RatingAggregate.ForStyleMembers` | backend/routes/reviews.js:67 | `Review.find({ style })` returns exactly the stored reviews whose style is the given one. |
| `RatingAggregate.RatingSumAppend` | backend/routes/reviews.js:70 | The `reduce` sum of a list with one more review grows by that review's rating. |
| `RatingAggregate.RatingSumBounds` | backend/models/Review.js:14-19 | `n` ratings within the schema's bounds sum to between `n` and `5n`. |
| `RatingAggregate.AverageWithinRatingBounds` | backend/routes/reviews.js:69-74 | When every stored review satisfies the schema, a reviewed style's average lies between 1.0 and 5.0. |
| `RatingAggregate.AverageOfBoundedRatings` | backend/routes/reviews.js:69-74 | The rounded mean of a non-empty list of ratings in [1, 5] lies between 10 and 50 tenths. |
| `RatingAggregate.TenthsWithinBounds` | backend/routes/reviews.js:69-74 | A sum of `n > 0` ratings between `n` and `5n` has a rounded mean between 10 and 50 tenths. |
| `RatingAggregate.IntegerMeanTenths` | backend/routes/reviews.js:69-74 | For `n > 0` integer ratings summing to `s`, `Math.round(s / n * 10)` equals `(20*s + n) div (2*n)`. This is an independent integer-only definition of the rounding. |
| `RatingAggregate.RecomputeOtherStyle` | backend/routes/reviews.js:66-77 | A new review of one style leaves every other style's recomputed summary unchanged. |
| `RatingAggregate.RecomputeSameStyle` | backend/routes/reviews.js:66-77 | A new review of a style is appended to that style's review list, adds its rating to the sum, and adds one to the count. |
| `ReviewRoutes.InsertNewestFirst` | backend/routes/reviews.js:13 | Inserting into a newest-first list keeps it newest first and adds exactly that one review. |
| `ReviewRoutes.SortNewestFirst` | backend/routes/reviews.js:13 | `.sort({ createdAt: -1 })`: the result is ordered by `createdAt` descending and is a permutation of the input. |
| `ReviewRoutes.Store.ListReviewsForStyle` | backend/routes/reviews.js:9-18 | The listing holds exactly the stored reviews of the style, each as often as it is stored, ordered newest first. |
| `ReviewRoutes.Store.constructor` | backend/server.js:37-66 | A freshly seeded catalogue has no reviews and a zero summary for every style, and it satisfies the store invariant. |
| `ReviewRoutes.Store.UpdateStyleRating` | backend/routes/reviews.js:66-77 | Only the style's summary is overwritten, with the recompute of the current reviews, and the reviews are unchanged. An unknown style id changes nothing. A second call with no intervening write changes nothing. |
| `ReviewRoutes.Store.CreateReview` | backend/routes/reviews.js:21-63 | The result is 404 exactly when the style is missing, checked first. It is 400 exactly when the style exists and the user already reviewed it, whatever the rating and text. It is `Invalid` (500) exactly when the draft then fails the schema, carrying its violations. Otherwise it is `Created`. Failures change nothing. On success exactly one review is appended, its author is the authenticated user (a `user` in the body is ignored), its style, rating and text are the body's, and it is stamped with the save time. That style's summary becomes the recompute, with one more review, and nothing else changes. The store invariant is preserved. The answer's status is 404, 400, 500 or 201 respectively. |
| `Seqs.Filter` | frontend/src/pages/Home.jsx:36-43 | `Array.prototype.filter`: every kept element satisfies the predicate, and the result is no longer than the input. |
| `Seqs.FilterCount` | frontend/src/pages/Home.jsx:36-43 | A filter keeps every element that satisfies the predicate as often as the input holds it, and drops every other. |
| `Seqs.FilterMembership` | backend/routes/reviews.js:11 | An element is in a filter's result if and only if it is in the input and satisfies the predicate. |
| `Seqs.FilterIsSubsequence` | frontend/src/pages/Home.jsx:36-43 | A filter's result is an order-preserving subsequence of its input. |
| `Seqs.FilterIdempotent` | frontend/src/pages/Home.jsx:32-47 | Filtering twice by the same predicate is filtering once. |
| `Seqs.FilterThenFilter` | frontend/src/pages/Home.jsx:35-44 | Two chained filters keep what satisfies both predicates. |
| `Seqs.FilterKeepsAll` | frontend/src/pages/Home.jsx:33 | A filter whose predicate always holds returns its input. |
| `Seqs.FilterAppend` | backend/routes/reviews.js:67 | Filtering distributes over concatenation. |
| `HomeFilter.LowerChar` | frontend/src/pages/Home.jsx:37-38 | `toLowerCase` on one ASCII character maps `A`-`Z` to `a`-`z` and leaves every other character alone. No upper-case ASCII letter remains. |
| `HomeFilter.ToLower` | frontend/src/pages/Home.jsx:37-38 | `toLowerCase` keeps the length, lowers each character, and leaves no upper-case ASCII letter. |
| `HomeFilter.Includes` | frontend/src/pages/Home.jsx:37-38 | `includes` holds if and only if the needle occurs at some position of the haystack. The empty needle occurs everywhere. |
| `HomeFilter.FilterStyles` | frontend/src/pages/Home.jsx:32-47 | Every kept style passes both active predicates. A style passing both is kept as often as it occurs in the input, so none that match are dropped. The result is an order-preserving subsequence of the input. With an empty term and category `"all"`, the result is the whole list. |
| `HomeFilter.FilterStylesIsOneFilter` | frontend/src/pages/Home.jsx:35-44 | The search filter followed by the category filter is a single filter by `Keep`. `Keep` means the lower-cased term is in the lower-cased name or description (when the term is non-empty), and the category is equal (when it is not `"all"`). |
| `HomeFilter.FilterStylesIdempotent` | frontend/src/pages/Home.jsx:32-47 | Filtering the result again with the same term and category returns it unchanged. |

## Left out

- I/O is not modelled: HTTP, Express routing, the MongoDB connection and the seeding. The model starts from a catalogue of style ids with zero summaries. The Style model is not part of this model; the seeded styles set no rating fields.
- Authentication is not modelled, including the 401 answer. The authenticated user id is a parameter of `CreateReview`.
- The clock is not modelled. `createdAt` is a parameter of `CreateReview`, and `updatedAt` is not modelled.
- `populate('user', 'username')` is not modelled. It only adds the author's display name to a response.
- Storage failures are not modelled: a failed `find`, `save`, `findByIdAndUpdate` or `populate` would make the handler answer 500. In the model only schema validation fails; in particular, a save followed by a failed recompute is not modelled.
- A `styleId` that is not a well-formed ObjectId makes `findById` throw a cast error, answered 500. The model treats ids as opaque strings, so every unknown id, and a missing one, yields 404.
- Mongoose's casting of body values is not modelled. A rating sent as `"4"` becomes the number 4, and an uncastable rating fails validation. The model takes `rating` and `text` as already read, with `None` for a field that is absent or cannot be cast.
- The race between `findOne` and `save` is concurrency and is not modelled. So is the duplicate-key error the unique index raises when two requests race. The index is modelled as the invariant `Unique`.
- Floating point is not modelled: the `reduce` sum, `/ totalReviews`, `Math.round(avg * 10) / 10` and the UI's `toFixed(1)`. The model computes in exact rationals and integer tenths, so a float rounding error near a half-tenth is not captured.
- `ReviewRoutes.SortNewestFirst`: the model keeps reviews with equal `createdAt` in their stored order. MongoDB does not specify the order of ties.
- `HomeFilter.ToLower`: only ASCII letters are lowered. `String.prototype.toLowerCase` also lowers other Unicode letters.
- `ReviewSchema.Violations`: `maxlength` counts characters here. JavaScript counts UTF-16 code units, which differ outside the Basic Multilingual Plane.
- Review `_id` values are not modelled. Reviews are identified by their fields.
- The style list fetch in `backend/routes/styles.js` is not modelled. Only its lookup by id is, as the domain of `Store.styles`.
- `Home.jsx`'s loading state, `setFilteredStyles` and the rendering are presentation and are not modelled.
