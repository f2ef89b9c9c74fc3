# Course reviews rollup

A Dafny model of the rating rollup in the Kellogg course reviews API
(`netlify/functions/courses.js`). Given a course, the handler walks its
sections and, per section, its reviews, and builds a nested response: per
section the lecturer's name, the `{comment, rating}` review objects, a review
count (`ratingNumberPerSection`) and an average rating; per course a total
review count (`courseTotalReviews`) and a course-wide `averageRating` that is
weighted by reviews, not by sections.

Layout:

- `wrappers.dfy` — `Option`, used for the response fields the handler may leave unassigned.
- `course_data.dfy` — the documents read (course, section with its resolved lecturer name, review) and the response objects built.
- `rating_stats.dfy` — sums and averages of ratings: order independence, range bounds.
- `course_rollup.dfy` — the rollup stated as one-shot folds (`SectionRollup`, `Rollup`) and the lemmas about them: section isolation, review weighting, the empty cases, order independence.
- `courses_handler.dfy` — the handler's nested loops with their running totals, proved to end with exactly `Rollup`'s response.
- `course_scenarios.dfy` — worked examples (KIEI-451, KIEI-925, the `[5,5]` and `[1]` weighting case).

Where the code leaves behaviour undefined or differs from its own comments, the model follows the code:

- A section or course without reviews gets no `averageRating`, and such a section gets no `ratingNumberPerSection`. The code assigns them only inside the review loop (courses.js:116-147), so the properties are absent from the JSON rather than `null`. Here an unassigned property is `None`.
- A course number with no matching course makes the handler take `docs[0]` of an empty result and crash (courses.js:50-53). The model takes the query's documents and requires at least one (the first is used).
- The domain comment at courses.js:32 names a review's text field `body`, but line 137 reads `comment`. The model reads `comment`.
- The code reassigns the course average after every review (courses.js:147). `CoursesHandler.Handler` models that incremental version and proves that its final value equals the one-shot fold `Rollup`.

## Model

| member | source | states |
|---|---|---|
| `CoursesHandler.Handler` | netlify/functions/courses.js:50-153 | The nested loops over sections and reviews, with running `courseTotalReviews`, `ratingTotal` and per-section `sumRating` and averages reassigned after each review, end with exactly the one-shot response `Rollup` of the first course document and the sections. |
| `CourseRollup.PrefixStep` | netlify/functions/courses.js:152 | Finishing one more section appends exactly its view to the sections list and its reviews to the reviews seen so far. |
| `RatingStats.Average` | netlify/functions/courses.js:134-147 | An average is unset exactly when there are no values, so no division by zero happens. |
| `RatingStats.AverageTimesCount` | netlify/functions/courses.js:147 | An average multiplied by its count gives back the sum it was taken of. |
| `RatingStats.SumAppend` | netlify/functions/courses.js:144 | The sum of two runs of ratings laid end to end is the sum of their sums. |
| `RatingStats.SumRatingsStep` | netlify/functions/courses.js:131 | Adding one review to a running sum adds exactly that review's rating. |
| `RatingStats.SumPermutation` | netlify/functions/courses.js:131 | Two sequences with the same multiset of ratings have the same sum, so the order in which reviews arrive cannot change a total. |
| `RatingStats.SumInRange` | netlify/functions/courses.js:8 | When every rating lies in 1..5, a sum of n ratings lies in n..5n. |
| `RatingStats.AverageInRange` | netlify/functions/courses.js:8 | The average of a non-empty run of ratings in 1..5 is itself in 1..5. |
| `CourseRollup.ToReviewObject` | netlify/functions/courses.js:137-138 | A pushed review object carries the review's comment and rating unchanged. |
| `CourseRollup.SectionRollup` | netlify/functions/courses.js:88-141 | A section's view has the lecturer's name and one review object per review, in order, with comment and rating copied. With no reviews, its count and average are unset. Otherwise its count is the number of reviews and its average is set. |
| `CourseRollup.Rollup` | netlify/functions/courses.js:59-153 | The response keeps the course's number and name unchanged. Its total is the number of reviews across all sections. Its average is set exactly when that total is positive. |
| `CourseRollup.SectionsInInputOrder` | netlify/functions/courses.js:80-152 | The response has one section entry per input section, in input order. Each entry is computed from its own section alone. |
| `CourseRollup.SectionAverageIsMean` | netlify/functions/courses.js:110-134 | A non-empty section's average times its review count equals the sum of that section's ratings only, because the running sum restarts at zero for each section. |
| `CourseRollup.CourseAverageIsMeanOfAllReviews` | netlify/functions/courses.js:143-147 | When the course has reviews, its average times its total equals the sum of every rating across all sections. |
| `CourseRollup.SectionContribution` | netlify/functions/courses.js:128-134 | A section's reported count is its number of reviews (0 when unset). Its average times its count is its rating sum (0 when unset). |
| `CourseRollup.SectionCountsAddUp` | netlify/functions/courses.js:113-128 | The sections' reported counts add up to the number of reviews in the union of all sections. |
| `CourseRollup.SectionRatingsAddUp` | netlify/functions/courses.js:131-147 | The sections' averages weighted by their counts add up to the sum of all ratings in the union. |
| `CourseRollup.CourseTotalIsSumOfSectionCounts` | netlify/functions/courses.js:74-128 | The course's `courseTotalReviews` equals the sum of its sections' `ratingNumberPerSection`, counting an unset one as 0. |
| `CourseRollup.CourseAverageIsReviewWeighted` | netlify/functions/courses.js:143-147 | The course average times the course total equals the sum of each section's average times its count. So the course average is the review-weighted mean of the section averages. |
| `CourseRollup.NoReviewsIffAllSectionsEmpty` | netlify/functions/courses.js:113-116 | The union of reviews is empty exactly when every section has no reviews. |
| `CourseRollup.NoReviewsLeavesAveragesUnset` | netlify/functions/courses.js:116-147 | The course average is unset exactly when no section has a review. In that case the total is 0 and no section has a count or an average. |
| `CourseRollup.SectionStatsIgnoreReviewOrder` | netlify/functions/courses.js:116-134 | Two sections whose ratings form the same multiset report the same count and the same average. |
| `CourseRollup.CourseStatsIgnoreOrder` | netlify/functions/courses.js:80-147 | Two section lists whose reviews together carry the same multiset of ratings give the same course total and the same course average, however those reviews are ordered or split across sections. |
| `CourseRollup.AveragesWithinRatingRange` | netlify/functions/courses.js:8 | If every rating lies in 1..5, then the course average and every section average that is set lie in 1..5. |
| `CourseScenarios.ReviewWeightedNotSectionWeighted` | netlify/functions/courses.js:143-147 | Sections rated `[5,5]` and `[1]` give a course total of 3 and a course average of 11/3, not 3. The section averages are 5 and 1. |
| `CourseScenarios.Kiei451` | netlify/functions/courses.js:110-147 | KIEI-451 with Brian Eng rated `[4,5]` and Ben Block rated `[3]`: 3 reviews, course average 4, section counts 2 and 1, section averages 4.5 and 3. |
| `CourseScenarios.Kiei925` | netlify/functions/courses.js:113-147 | A course whose one section has no reviews: total 0, no course average, and the section has no count and no average. |

## Left out

- Document-store access is not modelled: the `firestore()` connection, the `collection().where().get()` and `doc().get()` queries, `.docs`, `.data()`, `.id` and the `await` points. The course query's documents and each section's lecturer name and reviews arrive as already fetched input sequences. Matching reviews to sections by `sectionID` and sections to courses by `courseID` is the query's job, and is taken as given.
- A missing course (an empty course query) crashes the handler. The model rules it out with `requires |courseDocs| > 0` on `CoursesHandler.Handler`.
- A lecturer id that does not resolve also crashes the handler. The model's sections always carry a resolved lecturer name.
- Reading `courseNumber` from the query string and the `{statusCode: 200, body: JSON.stringify(...)}` wrapper are not modelled.
- JavaScript numbers are IEEE doubles. The model's ratings are integers and its averages are exact rational `real` quotients, so rounding is not modelled.
- The code never checks that ratings lie in 1..5; the range appears only in the domain description. The range lemmas take it as a hypothesis, and nothing in the model enforces it.
- A rating that is not a number, such as a string, which `+` would concatenate, is outside the model.
- The unused `reviewId` is not modelled.
