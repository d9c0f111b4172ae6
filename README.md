# Movie recommendations: a verified model of item-based collaborative filtering

This project models the prediction engine of `movie_recommendations.py`. The
engine predicts the rating a user would give a movie. The prediction is the
mean of the user's own ratings of other movies, each weighted by that movie's
similarity to the target movie. Two movies are similar when their common
raters rated them alike: 1 minus the mean absolute rating difference over 4.5.
Each similarity is computed once, on demand, and then cached on both movies.

Files, one module each:

- `common.dfy`: the error kinds and the `Result` type. `BadInput` stands for
  `BadInputError`. `KeyMissing` stands for the `KeyError` of a missing title.
- `sums.dfy`: exact sums of reals over finite maps, whatever the order of
  summation (`Total`, `Weighted`).
- `corating.dfy`: the co-rating similarity as a pure function of the rating
  table and the two rater lists, with its bounds and its symmetry.
- `movies.dfy`: the class `Movie`. Its mutable field is the `similarities`
  cache. The file also holds the consistency of the two tables
  (`StoreConsistent`) and the coherence of all caches (`CacheCoherent`).
  `compute_similarity` and `get_similarity` become methods of `Movie`.
- `recommendations.dfy`: the engine class `MovieRecommendations`.
  - `PredictRating` has its accumulation loop in `WeighRatedMovies`, one turn
    per `WeighMovie`, with one similarity fetched per `FetchSimilarity`.
  - `PredictRatings` is the batch loop.
  - The two prediction methods are proved against specification functions:
    `PredictRating` against `Prediction`, and `PredictRatings` against
    `BatchPrediction`.
  - `LinePrediction` is the outcome of one turn of `PredictRatings`' loop.
  - The loop methods `WeighRatedMovies`, `WeighMovie` and `FetchSimilarity`
    are proved against `Total`, `Weights` and `MovieSimilarity`.

Ratings and similarities are Dafny `real`s, so every formula is exact.

The engine's class invariant `Valid()` has two parts:

- The two tables agree. A user is among a movie's raters exactly when the
  movie is among the user's rated movies, and rater lists have no repeats.
- Every cached entry is the true similarity of two distinct movies, and it is
  cached on both of them.

Every method keeps `Valid()`.

What states the cache behaviour:

- `GetSimilarity` states the new contents of all caches (`Caches`) exactly.
- `PredictRating` states which cache entries may be added (`CachesGrow`).
  After the weighted path it also states that every movie the user rated has
  its pair with the target cached on both movies (`CachedWith`).
- `PredictRatings` states that existing entries are kept (`CachesKeep`).

## Model

| member | source | states |
|---|---|---|
| CoRating.CommonCountZero | movie_recommendations.py:229-235 | the common-rater counter is 0 exactly when no rater of one movie rated the other |
| CoRating.NoCommonRaterMeansZero | movie_recommendations.py:233-235 | without a common rater the similarity is 0 |
| CoRating.DiffSumNonNegative | movie_recommendations.py:229-231 | the sum of absolute rating differences is never negative |
| CoRating.DiffSumAtMost | movie_recommendations.py:229-232 | with ratings on the 0.5-5.0 scale the sum is at most 4.5 times the number of common raters |
| CoRating.SimilarityAtMostOne | movie_recommendations.py:234-238 | every similarity is at most 1 |
| CoRating.SimilarityOnScale | movie_recommendations.py:229-238 | with common ratings on the scale the similarity lies in [0, 1] |
| CoRating.SimilarityIsNotClamped | movie_recommendations.py:237-238 | the formula is not clamped: ratings 0.0 and 5.0 give similarity -1/9 |
| CoRating.CommonCountOverCommon | movie_recommendations.py:229-232 | for a rater list without repeats the counter equals the number of common raters |
| CoRating.DiffSumOverCommon | movie_recommendations.py:229-231 | for a rater list without repeats the summed difference is a sum over the set of common raters, independent of list order |
| CoRating.SimilaritySymmetric | movie_recommendations.py:216-238 | the similarity of a and b equals that of b and a |
| Movies.ConsistentCoRated | movie_recommendations.py:58-60 | in consistent tables every common rater of two movies has a rating for both, so the lookups at line 231 succeed |
| Movies.MovieSimilaritySymmetric | movie_recommendations.py:209-212 | the similarity of two catalog movies does not depend on their order, so one value can serve both caches |
| Movies.CoherentMissSymmetric | movie_recommendations.py:205-212 | in coherent caches a pair missing from one movie's cache is missing from the other's too |
| Movies.CoherentSymmetric | movie_recommendations.py:194-198 | in coherent caches a cached pair is cached on both movies with the same value |
| Movies.CacheBoth | movie_recommendations.py:211-212 | writing a pair into both caches leaves every other movie's cache unchanged |
| Movies.CacheBothCoherent | movie_recommendations.py:209-212 | storing the true similarity on both movies of an uncached pair keeps all caches coherent |
| Movies.Movie.constructor | movie_recommendations.py:148-171 | a movie starts with its id, title and raters and an empty cache |
| Movies.Movie.ComputeSimilarity | movie_recommendations.py:216-238 | the accumulation loop returns the co-rating similarity; it is 0 without common raters and at most 1, and it changes no state |
| Movies.Movie.GetSimilarity | movie_recommendations.py:189-213 | an unknown id fails with BadInput and changes nothing; a hit returns the cached value and changes nothing; a miss returns the true similarity and caches it on both movies and nowhere else; coherence is kept |
| Movies.Movie.StoreBoth | movie_recommendations.py:211-212 | the two writes change exactly the two movies' entries for each other |
| Sums.TotalRemove | movie_recommendations.py:88-99 | a total can sum any key first, so the order in which the loop visits the user's movies does not matter |
| Sums.TotalInsert | movie_recommendations.py:99 | adding one similarity to the weights adds it to the total weight |
| Sums.WeightedInsert | movie_recommendations.py:95-97 | adding one weight adds its product with the rating to the weighted total |
| Recommendations.RatedInCatalog | movie_recommendations.py:79-93 | in consistent tables the movies a user rated are catalog movies, and a movie the user has not rated is not among them |
| Recommendations.PredictionRecallsRating | movie_recommendations.py:79-81 | a rating the user already gave is returned exactly |
| Recommendations.PredictionFailsOnUnknownIds | movie_recommendations.py:75-76 | the prediction fails exactly when the user or the movie is unknown, and then with BadInput |
| Recommendations.PredictionDefaultsWithoutRatings | movie_recommendations.py:101-103 | a user without ratings gets 2.5 for any catalog movie |
| Recommendations.WeightedTotalOnScale | movie_recommendations.py:86-99 | with non-negative weights the weighted total lies between 0.5 and 5.0 times the total weight |
| Recommendations.ConsistentOnScale | movie_recommendations.py:231 | when all ratings are on the scale, so are the common ratings of any two movies |
| Recommendations.PredictionOnScale | movie_recommendations.py:63-109 | when all ratings are on the scale every prediction for known ids succeeds and lies in [0.5, 5.0] |
| Recommendations.CollectSnoc | movie_recommendations.py:123-132 | one more turn of a loop that stops at the first error: an earlier error stands, else this turn's error, else its value is appended |
| Recommendations.CollectSucceeds | movie_recommendations.py:123-134 | a run without errors has one value per turn, in order |
| Recommendations.CollectFails | movie_recommendations.py:123-134 | a failed run fails with the error of its first failing turn, after turns that all succeeded |
| Recommendations.CollectFailureSticks | movie_recommendations.py:123-134 | an error within a prefix is the outcome of the whole run |
| Recommendations.LinePredictionsPrefix | movie_recommendations.py:123-132 | the outcomes of a prefix of the lines are the prefix of the outcomes |
| Recommendations.BatchStep | movie_recommendations.py:128-132 | predicting one more line extends a successful batch by that line's tuple, or fails with that line's error |
| Recommendations.BatchSucceeds | movie_recommendations.py:123-134 | a successful batch has one tuple per line, in input order, each (user, title, prediction, actual) |
| Recommendations.BatchFails | movie_recommendations.py:128-129 | a failed batch fails with the error of its first failing line, after lines that all succeed |
| Recommendations.BatchSucceedsIffLinesDo | movie_recommendations.py:123-134 | a batch succeeds exactly when every one of its lines does |
| Recommendations.BatchFailureSticks | movie_recommendations.py:128-129 | a failure on a prefix of the lines is the outcome of the whole batch |
| Recommendations.WeightsInsert | movie_recommendations.py:88-93 | the weights of one more rated movie add its similarity to the target movie |
| Recommendations.AccumulateStep | movie_recommendations.py:95-99 | one turn of the loop keeps both running totals equal to the totals over the movies visited |
| Recommendations.CacheBothKeeps | movie_recommendations.py:209-212 | writing an uncached pair into both caches keeps every existing entry and caches the pair both ways |
| Recommendations.CachedWithStep | movie_recommendations.py:88-93 | once one more rated movie's pair with the target is cached, and nothing cached is lost, all pairs visited so far are cached |
| Recommendations.CachesGrowStep | movie_recommendations.py:93 | caching one more similarity between the target and a rated movie stays within what a prediction may add |
| Recommendations.MovieRecommendations.constructor | movie_recommendations.py:21-34 | the engine takes consistent tables with empty caches and is valid |
| Recommendations.MovieRecommendations.PredictRating | movie_recommendations.py:63-109 | the result is Prediction: BadInput for unknown ids, the stored rating if rated, else 2.5 when the total similarity is 0 and the weighted mean otherwise; caches stay coherent, gain only entries between the target and the user's movies, and are unchanged on an error or a stored rating; after the weighted path every movie the user rated has its pair with the target cached on both movies |
| Recommendations.MovieRecommendations.WeighRatedMovies | movie_recommendations.py:86-99 | the loop returns the total similarity of the user's movies to the target and the total of similarity times rating, keeping the caches coherent; afterwards every movie the user rated has its pair with the target cached on both movies |
| Recommendations.MovieRecommendations.WeighMovie | movie_recommendations.py:88-99 | one turn adds the movie's similarity to the weights and the total weight, and its weighted rating to the weighted total; the movie's pair with the target is then cached on both movies, and the pairs of the movies already weighed stay cached |
| Recommendations.MovieRecommendations.FetchSimilarity | movie_recommendations.py:93 | the fetched value is the true similarity of the rated movie and the target, whether cached or computed; afterwards the pair is cached on both movies and every earlier cache entry is kept |
| Recommendations.MovieRecommendations.PredictRatings | movie_recommendations.py:111-134 | the result is BatchPrediction: one (user, title, prediction, actual) tuple per line in order, or the first failure, which is KeyMissing for an unknown movie; existing cache entries are kept |

The specification functions are:

- `Prediction` (recommendations.dfy), for `PredictRating`.
- `BatchPrediction` (recommendations.dfy), for `PredictRatings`. It collects
  the per-line outcomes `LinePredictions`, each a `LinePrediction`.
- `Similarity` (corating.dfy), for `ComputeSimilarity`.

The lemmas above are proved about them.

Two details of the code the model keeps:

- `predict_ratings` reads the movie's title before predicting
  (movie_recommendations.py:128). An unknown movie on a line therefore fails
  with the dictionary's `KeyError` (`KeyMissing`), not with the engine's
  `BadInputError`.
- `get_similarity` looks only in the calling movie's cache
  (movie_recommendations.py:205), not in either movie's.
  `CoherentMissSymmetric` and `CoherentSymmetric` show that, while the caches
  are coherent, the two lookups agree.

## Left out

- Reading the movie, training and test CSV files, including the header skips
  (movie_recommendations.py:37-47, 120-127). This is I/O; the tables are given
  state, and test lines are a sequence of `TestRating` values.
- The loader's handling of malformed rows. When the user-id regex fails
  (movie_recommendations.py:50), the previous row's dictionary is reused, and
  duplicate rows append a user twice (line 60). The model instead requires
  consistent tables with rater lists without repeats (`StoreConsistent`).
- Movies.Movie.constructor: takes the finished rater list as a parameter. The
  source starts with an empty list that the loader appends to.
- `correlation` (movie_recommendations.py:136-142): a call into `scipy`'s
  floating-point Pearson statistic.
- `__str__`, `__repr__` and the `__main__` driver with its printing
  (movie_recommendations.py:173-186, 241-253).
- IEEE floating-point rounding: reals are exact, so no claim is made about
  bit-level results.
- The order of the user's ratings: Python visits the dictionary in insertion
  order, while the model takes the keys in any order. With exact sums the order
  does not matter (`TotalRemove`).
- Movies.Movie.GetSimilarity: requires `otherId != id`, because self-similarity
  is not guarded in the source. It is never asked for by `predict_rating`,
  since a rated movie is never the target.
- Movies.Movie.ComputeSimilarity: requires that every common rater has ratings
  for both movies (`CoRated`), instead of modelling the `KeyError` the source
  would raise otherwise. `GetSimilarity` always meets this from
  `StoreConsistent`.
- Recommendations.PredictionOnScale: stated for ratings on the fixed
  0.5-5.0 scale that the similarity formula assumes. Off that scale the
  similarity can be negative (`SimilarityIsNotClamped`), and then predictions
  are not bounded.
- Recommendations.MovieRecommendations.PredictRatings: promises only that
  existing cache entries are kept (`CachesKeep`), not which new entries the
  batch adds. Each of its predictions is bounded by `PredictRating`'s
  `CachesGrow`.
