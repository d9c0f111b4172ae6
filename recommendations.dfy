/** Item-based collaborative filtering: a user's predicted rating of a movie is the
    similarity-weighted mean of the ratings the user gave to other movies. */
module Recommendations {
  import opened Common
  import opened Sums
  import opened CoRating
  import opened Movies

  /** The prediction when the user's movies carry no similarity weight at all. */
  const DefaultRating: real := 2.5

  /** The similarity of each movie in `rated` to movie `movieId`: the weights of the
      prediction. */
  ghost function Weights(movieDict: map<int, Movie>, userDict: RatingTable, movieId: int, rated: set<int>)
    : (w: map<int, real>)
    requires StoreConsistent(movieDict, userDict) && movieId in movieDict
    requires rated <= movieDict.Keys
    ensures w.Keys == rated
  {
    map m | m in rated :: MovieSimilarity(movieDict, userDict, m, movieId)
  }

  /** The weights of a prediction for `userId` and `movieId`: the similarity of each
      movie the user rated to movie `movieId`. */
  ghost function UserWeights(movieDict: map<int, Movie>, userDict: RatingTable, userId: int, movieId: int)
    : (w: map<int, real>)
    requires StoreConsistent(movieDict, userDict) && userId in userDict && movieId in movieDict
    ensures w.Keys == userDict[userId].Keys
  {
    assert userDict[userId].Keys <= movieDict.Keys by {
      forall m | m in userDict[userId] ensures m in movieDict {
        assert m in userDict[userId];
      }
    }
    Weights(movieDict, userDict, movieId, userDict[userId].Keys)
  }

  /** The movies a user rated are catalog movies, and a movie the user did not rate
      is not among them. */
  lemma RatedInCatalog(movieDict: map<int, Movie>, userDict: RatingTable, userId: int, movieId: int)
    requires StoreConsistent(movieDict, userDict) && userId in userDict && movieId in movieDict
    requires userId !in movieDict[movieId].users
    ensures userDict[userId].Keys <= movieDict.Keys && movieId !in userDict[userId]
  {
    forall m | m in userDict[userId] ensures m in movieDict {
      assert m in userDict[userId];
    }
  }

  /** What `predict_rating` returns for `userId` and `movieId`. */
  ghost function Prediction(movieDict: map<int, Movie>, userDict: RatingTable, userId: int, movieId: int)
    : Result<real>
    requires StoreConsistent(movieDict, userDict)
  {
    if userId !in userDict || movieId !in movieDict then Err(BadInput)
    else if userId in movieDict[movieId].users then Ok(userDict[userId][movieId])
    else
      var weights := UserWeights(movieDict, userDict, userId, movieId);
      var totalSim := Total(weights);
      if totalSim == 0.0 then Ok(DefaultRating)
      else Ok(Total(Weighted(weights, userDict[userId])) / totalSim)
  }

  /** Every stored rating lies on the rating scale. */
  ghost predicate RatingsOnScale(userDict: RatingTable)
  {
    forall u, m :: u in userDict && m in userDict[u] ==> MinRating <= userDict[u][m] <= MaxRating
  }

  /** A rating the user already gave is returned exactly. */
  lemma PredictionRecallsRating(movieDict: map<int, Movie>, userDict: RatingTable, userId: int, movieId: int)
    requires StoreConsistent(movieDict, userDict)
    requires userId in userDict && movieId in userDict[userId]
    ensures Prediction(movieDict, userDict, userId, movieId) == Ok(userDict[userId][movieId])
  {
  }

  /** The prediction fails exactly for an unknown user or movie. */
  lemma PredictionFailsOnUnknownIds(movieDict: map<int, Movie>, userDict: RatingTable, userId: int, movieId: int)
    requires StoreConsistent(movieDict, userDict)
    ensures Prediction(movieDict, userDict, userId, movieId).Err? <==> userId !in userDict || movieId !in movieDict
    ensures Prediction(movieDict, userDict, userId, movieId).Err? ==>
      Prediction(movieDict, userDict, userId, movieId).error == BadInput
  {
  }

  /** A user who rated nothing gets the default prediction for every movie. */
  lemma PredictionDefaultsWithoutRatings(movieDict: map<int, Movie>, userDict: RatingTable, userId: int, movieId: int)
    requires StoreConsistent(movieDict, userDict)
    requires userId in userDict && userDict[userId] == map[] && movieId in movieDict
    ensures Prediction(movieDict, userDict, userId, movieId) == Ok(DefaultRating)
  {
  }

  /** A rating on the scale weighted by a non-negative similarity. */
  lemma ProductOnScale(sim: real, rating: real)
    requires 0.0 <= sim && MinRating <= rating <= MaxRating
    ensures MinRating * sim <= Product(sim, rating) <= MaxRating * sim
  {
  }

  /** A total between MinRating and MaxRating times a positive weight, divided by
      that weight. */
  lemma QuotientOnScale(num: real, den: real)
    requires 0.0 < den && MinRating * den <= num <= MaxRating * den
    ensures MinRating <= num / den <= MaxRating
  {
    var q := num / den;
    assert q * den == num;
  }

  /** Non-negative weights times values on the scale total between MinRating and
      MaxRating times the total weight. */
  lemma {:induction false} WeightedTotalOnScale(w: map<int, real>, x: map<int, real>)
    requires w.Keys == x.Keys
    requires forall k :: k in w ==> 0.0 <= w[k] && MinRating * w[k] <= x[k] <= MaxRating * w[k]
    ensures 0.0 <= Total(w)
    ensures MinRating * Total(w) <= Total(x) <= MaxRating * Total(w)
    decreases w.Keys
  {
    if w.Keys != {} {
      HasElement(w.Keys);
      var k :| k in w.Keys;
      WeightedTotalOnScale(w - {k}, x - {k});
      TotalRemove(w, k);
      TotalRemove(x, k);
    }
  }

  /** On the rating scale the two movies' common ratings are on the scale too. */
  lemma ConsistentOnScale(movieDict: map<int, Movie>, userDict: RatingTable, a: int, b: int)
    requires StoreConsistent(movieDict, userDict) && RatingsOnScale(userDict)
    requires a in movieDict && b in movieDict
    ensures CoRatingsOnScale(userDict, a, movieDict[a].users, b, movieDict[b].users)
  {
    ConsistentCoRated(movieDict, userDict, a, b);
    var xs, ys := movieDict[a].users, movieDict[b].users;
    forall i | 0 <= i < |xs| && xs[i] in ys
      ensures MinRating <= userDict[xs[i]][a] <= MaxRating && MinRating <= userDict[xs[i]][b] <= MaxRating
    {
      var u := xs[i];
      assert u in userDict && a in userDict[u] && b in userDict[u];
    }
  }

  /** When every rating is on the scale, so is every prediction: a weighted mean with
      non-negative weights, the stored rating, or the default. */
  lemma PredictionOnScale(movieDict: map<int, Movie>, userDict: RatingTable, userId: int, movieId: int)
    requires StoreConsistent(movieDict, userDict) && RatingsOnScale(userDict)
    requires userId in userDict && movieId in movieDict
    ensures Prediction(movieDict, userDict, userId, movieId).Ok?
    ensures MinRating <= Prediction(movieDict, userDict, userId, movieId).value <= MaxRating
  {
    if userId !in movieDict[movieId].users {
      var rating := userDict[userId];
      var w := UserWeights(movieDict, userDict, userId, movieId);
      var x := Weighted(w, rating);
      forall k | k in w
        ensures 0.0 <= w[k] && MinRating * w[k] <= x[k] <= MaxRating * w[k]
      {
        ConsistentOnScale(movieDict, userDict, k, movieId);
        ConsistentCoRated(movieDict, userDict, k, movieId);
        SimilarityOnScale(userDict, k, movieDict[k].users, movieId, movieDict[movieId].users);
        assert k in userDict[userId];
        assert MinRating <= rating[k] <= MaxRating;
        assert w[k] == MovieSimilarity(movieDict, userDict, k, movieId);
        assert x[k] == Product(w[k], rating[k]);
        ProductOnScale(w[k], rating[k]);
      }
      WeightedTotalOnScale(w, x);
      if Total(w) != 0.0 {
        QuotientOnScale(Total(x), Total(w));
      }
    }
  }

  /** One line of held-out ratings: a user, a movie and the rating actually given. */
  datatype TestRating = TestRating(userId: int, movieId: int, actual: real)

  /** One result line: the user, the movie's title, the prediction and the actual rating. */
  datatype PredictedRating = PredictedRating(userId: int, title: string, predicted: real, actual: real)

  /** What `predict_ratings` produces for one line: the title lookup fails first on an
      unknown movie, then the prediction on an unknown user. */
  ghost function LinePrediction(movieDict: map<int, Movie>, userDict: RatingTable, t: TestRating)
    : Result<PredictedRating>
    requires StoreConsistent(movieDict, userDict)
  {
    if t.movieId !in movieDict then Err(KeyMissing)
    else
      match Prediction(movieDict, userDict, t.userId, t.movieId)
      case Err(e) => Err(e)
      case Ok(p) => Ok(PredictedRating(t.userId, movieDict[t.movieId].title, p, t.actual))
  }

  /** The results of a loop that stops at the first error: all the values in order
      when every step succeeds, else the first error. */
  function Collect<T>(results: seq<Result<T>>): Result<seq<T>>
  {
    if results == [] then Ok([])
    else
      match Collect(results[..|results| - 1])
      case Err(e) => Err(e)
      case Ok(done) =>
        match results[|results| - 1]
        case Err(e) => Err(e)
        case Ok(v) => Ok(done + [v])
  }

  /** One more step: an earlier error stands, else this step's error, else its
      value is appended. */
  lemma CollectSnoc<T>(results: seq<Result<T>>, x: Result<T>)
    ensures Collect(results + [x]) ==
      if Collect(results).Err? then Collect(results)
      else if x.Err? then Err(x.error)
      else Ok(Collect(results).value + [x.value])
  {
    assert (results + [x])[..|results|] == results;
  }

  /** A successful collection holds one value per step, in order. */
  lemma {:induction false} CollectSucceeds<T>(results: seq<Result<T>>)
    requires Collect(results).Ok?
    ensures |Collect(results).value| == |results|
    ensures forall i :: 0 <= i < |results| ==> results[i] == Ok(Collect(results).value[i])
  {
    if results != [] {
      var n := |results| - 1;
      var init := results[..n];
      CollectSucceeds(init);
      var done := Collect(init).value;
      var out := Collect(results).value;
      assert out == done + [results[n].value];
      forall i | 0 <= i < |results| ensures results[i] == Ok(out[i]) {
        if i < n {
          assert init[i] == results[i] && out[i] == done[i];
        }
      }
    }
  }

  /** A failed collection fails with the error of its first failing step. */
  lemma {:induction false} CollectFails<T>(results: seq<Result<T>>) returns (first: nat)
    requires Collect(results).Err?
    ensures first < |results|
    ensures forall j :: 0 <= j < first ==> results[j].Ok?
    ensures results[first] == Err(Collect(results).error)
  {
    var n := |results| - 1;
    var init := results[..n];
    if Collect(init).Err? {
      first := CollectFails(init);
      assert init[first] == results[first];
      forall j | 0 <= j < first ensures results[j].Ok? {
        assert init[j] == results[j];
      }
    } else {
      first := n;
      CollectSucceeds(init);
      forall j | 0 <= j < first ensures results[j].Ok? {
        assert init[j] == results[j];
      }
    }
  }

  /** A failure within a prefix is the failure of the whole collection. */
  lemma {:induction false} CollectFailureSticks<T>(results: seq<Result<T>>, k: nat)
    requires k <= |results| && Collect(results[..k]).Err?
    ensures Collect(results) == Collect(results[..k])
    decreases |results| - k
  {
    if k < |results| {
      assert results[..k + 1] == results[..k] + [results[k]];
      CollectSnoc(results[..k], results[k]);
      CollectFailureSticks(results, k + 1);
    } else {
      assert results[..k] == results;
    }
  }

  /** The outcome of each line, in order. */
  ghost function LinePredictions(movieDict: map<int, Movie>, userDict: RatingTable, lines: seq<TestRating>)
    : (results: seq<Result<PredictedRating>>)
    requires StoreConsistent(movieDict, userDict)
    ensures |results| == |lines|
    ensures forall i :: 0 <= i < |lines| ==> results[i] == LinePrediction(movieDict, userDict, lines[i])
  {
    seq(|lines|, i requires 0 <= i < |lines| => LinePrediction(movieDict, userDict, lines[i]))
  }

  /** What `predict_ratings` produces for a list of lines: the first failure aborts
      the whole list. */
  ghost function BatchPrediction(movieDict: map<int, Movie>, userDict: RatingTable, lines: seq<TestRating>)
    : Result<seq<PredictedRating>>
    requires StoreConsistent(movieDict, userDict)
  {
    Collect(LinePredictions(movieDict, userDict, lines))
  }

  /** The outcomes of a prefix of the lines are a prefix of the outcomes. */
  lemma LinePredictionsPrefix(movieDict: map<int, Movie>, userDict: RatingTable, lines: seq<TestRating>, k: nat)
    requires StoreConsistent(movieDict, userDict) && k <= |lines|
    ensures LinePredictions(movieDict, userDict, lines[..k]) == LinePredictions(movieDict, userDict, lines)[..k]
  {
    var a := LinePredictions(movieDict, userDict, lines[..k]);
    var b := LinePredictions(movieDict, userDict, lines)[..k];
    forall i | 0 <= i < k ensures a[i] == b[i] {
      assert lines[..k][i] == lines[i];
    }
  }

  /** Predicting one more line: an earlier failure stands, else this line's failure,
      else its result is appended. */
  lemma BatchStep(movieDict: map<int, Movie>, userDict: RatingTable, lines: seq<TestRating>, k: nat)
    requires StoreConsistent(movieDict, userDict) && k < |lines|
    ensures BatchPrediction(movieDict, userDict, lines[..k + 1]) ==
      if BatchPrediction(movieDict, userDict, lines[..k]).Err? then BatchPrediction(movieDict, userDict, lines[..k])
      else if LinePrediction(movieDict, userDict, lines[k]).Err? then Err(LinePrediction(movieDict, userDict, lines[k]).error)
      else Ok(BatchPrediction(movieDict, userDict, lines[..k]).value + [LinePrediction(movieDict, userDict, lines[k]).value])
  {
    var all := LinePredictions(movieDict, userDict, lines);
    LinePredictionsPrefix(movieDict, userDict, lines, k);
    LinePredictionsPrefix(movieDict, userDict, lines, k + 1);
    assert all[..k + 1] == all[..k] + [all[k]];
    CollectSnoc(all[..k], all[k]);
  }

  /** A successful batch has one result per line, in input order. */
  lemma BatchSucceeds(movieDict: map<int, Movie>, userDict: RatingTable, lines: seq<TestRating>)
    requires StoreConsistent(movieDict, userDict)
    requires BatchPrediction(movieDict, userDict, lines).Ok?
    ensures |BatchPrediction(movieDict, userDict, lines).value| == |lines|
    ensures forall i :: 0 <= i < |lines| ==>
      LinePrediction(movieDict, userDict, lines[i]) == Ok(BatchPrediction(movieDict, userDict, lines).value[i])
  {
    CollectSucceeds(LinePredictions(movieDict, userDict, lines));
  }

  /** A failed batch fails with the error of its first failing line. */
  lemma BatchFails(movieDict: map<int, Movie>, userDict: RatingTable, lines: seq<TestRating>)
    returns (first: nat)
    requires StoreConsistent(movieDict, userDict)
    requires BatchPrediction(movieDict, userDict, lines).Err?
    ensures first < |lines|
    ensures forall j :: 0 <= j < first ==> LinePrediction(movieDict, userDict, lines[j]).Ok?
    ensures LinePrediction(movieDict, userDict, lines[first]) == Err(BatchPrediction(movieDict, userDict, lines).error)
  {
    first := CollectFails(LinePredictions(movieDict, userDict, lines));
  }

  /** A batch succeeds exactly when every one of its lines does. */
  lemma BatchSucceedsIffLinesDo(movieDict: map<int, Movie>, userDict: RatingTable, lines: seq<TestRating>)
    requires StoreConsistent(movieDict, userDict)
    ensures BatchPrediction(movieDict, userDict, lines).Ok? <==>
      forall i :: 0 <= i < |lines| ==> LinePrediction(movieDict, userDict, lines[i]).Ok?
  {
    if BatchPrediction(movieDict, userDict, lines).Ok? {
      BatchSucceeds(movieDict, userDict, lines);
    } else {
      var first := BatchFails(movieDict, userDict, lines);
    }
  }

  /** A failure on a prefix is the failure of the whole batch. */
  lemma BatchFailureSticks(movieDict: map<int, Movie>, userDict: RatingTable, lines: seq<TestRating>, k: nat)
    requires StoreConsistent(movieDict, userDict)
    requires k <= |lines| && BatchPrediction(movieDict, userDict, lines[..k]).Err?
    ensures BatchPrediction(movieDict, userDict, lines) == BatchPrediction(movieDict, userDict, lines[..k])
  {
    LinePredictionsPrefix(movieDict, userDict, lines, k);
    CollectFailureSticks(LinePredictions(movieDict, userDict, lines), k);
  }

  /** Adding one rated movie to the movies weighted so far adds its similarity. */
  lemma WeightsInsert(movieDict: map<int, Movie>, userDict: RatingTable, movieId: int, done: set<int>, movie: int)
    requires StoreConsistent(movieDict, userDict) && movieId in movieDict
    requires done <= movieDict.Keys && movie in movieDict && movie !in done
    ensures Weights(movieDict, userDict, movieId, done + {movie}) ==
      Weights(movieDict, userDict, movieId, done)[movie := MovieSimilarity(movieDict, userDict, movie, movieId)]
  {
    var lhs := Weights(movieDict, userDict, movieId, done + {movie});
    var rhs := Weights(movieDict, userDict, movieId, done)[movie := MovieSimilarity(movieDict, userDict, movie, movieId)];
    assert lhs.Keys == rhs.Keys;
    assert forall m :: m in lhs ==> lhs[m] == rhs[m];
  }

  /** One movie more in the running totals of `predict_rating`. */
  lemma AccumulateStep(w: map<int, real>, rating: map<int, real>, movie: int, sim: real, weightedRating: real,
                       totalWeightedRating: real, totalSim: real)
    requires w.Keys <= rating.Keys && movie in rating && movie !in w
    requires weightedRating == Product(sim, rating[movie])
    requires totalWeightedRating == Total(Weighted(w, rating)) && totalSim == Total(w)
    ensures totalWeightedRating + weightedRating == Total(Weighted(w[movie := sim], rating))
    ensures totalSim + sim == Total(w[movie := sim])
  {
    TotalInsert(w, movie, sim);
    WeightedInsert(w, rating, movie, sim);
  }

  /** One of `m` and `o` is movie `movieId` and the other a movie of `rated`. */
  predicate PairWith(m: int, o: int, movieId: int, rated: set<int>)
  {
    (m == movieId && o in rated) || (o == movieId && m in rated)
  }

  /** The state of the loop of `predict_rating` once the movies `done` of the
      user's ratings `rating` are weighed: `w` holds their similarities to movie
      `movieId`, and the two running totals are the total weight and the total of
      the weighted ratings. */
  ghost predicate Weighed(movieDict: map<int, Movie>, userDict: RatingTable, movieId: int, rating: map<int, real>,
                          done: set<int>, w: map<int, real>, totalWeightedRating: real, totalSim: real)
  {
    StoreConsistent(movieDict, userDict) && movieId in movieDict &&
    rating.Keys <= movieDict.Keys && movieId !in rating && done <= rating.Keys &&
    w == Weights(movieDict, userDict, movieId, done) &&
    totalWeightedRating == Total(Weighted(w, rating)) && totalSim == Total(w)
  }

  /** Taking `movie` out of the movies still to weigh adds it to those weighed. */
  lemma DoneStep(keys: set<int>, remaining: set<int>, movie: int)
    requires remaining <= keys && movie in remaining
    ensures keys - remaining + {movie} == keys - (remaining - {movie})
  {
  }

  /** The caches `c` keep every entry of the caches `c0`, for the same movies. */
  ghost predicate CachesKeep(c0: map<int, map<int, real>>, c: map<int, map<int, real>>)
  {
    c.Keys == c0.Keys && forall m, o :: m in c0 && o in c0[m] ==> o in c[m] && c[m][o] == c0[m][o]
  }

  /** The caches `c` keep every entry of the caches `c0` and add only similarities
      between movie `movieId` and movies in `rated`. */
  ghost predicate CachesGrow(c0: map<int, map<int, real>>, c: map<int, map<int, real>>, movieId: int, rated: set<int>)
  {
    CachesKeep(c0, c) &&
    forall m, o :: m in c0 && o in c[m] && o !in c0[m] ==> PairWith(m, o, movieId, rated)
  }

  /** Caching one more similarity between `movieId` and a movie of `rated` keeps the
      caches within what `CachesGrow` allows. */
  lemma CachesGrowStep(c0: map<int, map<int, real>>, c: map<int, map<int, real>>, movieId: int, rated: set<int>,
                       movie: int, v: real)
    requires CachesGrow(c0, c, movieId, rated)
    requires movie in rated && movie in c && movieId in c && movie != movieId
    requires movieId !in c[movie] && movie !in c[movieId]
    ensures CachesGrow(c0, CacheBoth(c, movie, movieId, v), movieId, rated)
  {
    var d := CacheBoth(c, movie, movieId, v);
    forall m, o | m in c0 && o in d[m] && o !in c0[m]
      ensures PairWith(m, o, movieId, rated)
    {
      if o !in c[m] {
        assert (m == movie && o == movieId) || (m == movieId && o == movie);
      }
    }
  }

  /** Every movie of `rated` has its similarity with movie `movieId` cached on both
      movies. */
  ghost predicate CachedWith(c: map<int, map<int, real>>, movieId: int, rated: set<int>)
  {
    forall m :: m in rated ==> m in c && movieId in c && movieId in c[m] && m in c[movieId]
  }

  /** Writing an uncached pair into both caches keeps every entry and caches that
      pair both ways. */
  lemma CacheBothKeeps(c: map<int, map<int, real>>, a: int, b: int, v: real)
    requires a in c && b in c && a != b && b !in c[a] && a !in c[b]
    ensures CachesKeep(c, CacheBoth(c, a, b, v))
    ensures CachedWith(CacheBoth(c, a, b, v), b, {a})
  {
  }

  /** Caches that keep all entries and cache one more pair cache all pairs cached
      before and that one. */
  lemma CachedWithStep(c: map<int, map<int, real>>, d: map<int, map<int, real>>, movieId: int,
                       done: set<int>, movie: int)
    requires CachedWith(c, movieId, done) && CachesKeep(c, d) && CachedWith(d, movieId, {movie})
    ensures CachedWith(d, movieId, done + {movie})
  {
    forall m | m in done + {movie}
      ensures m in d && movieId in d && movieId in d[m] && m in d[movieId]
    {
      if m != movie {
        assert m in c && movieId in c && movieId in c[m] && m in c[movieId];
      }
    }
  }

  /** The engine: the movie catalog and the rating table, both fixed once loaded, and
      the similarity caches inside the movies. */
  class MovieRecommendations {
    /** movie id -> movie */
    const movieDict: map<int, Movie>
    /** user id -> (movie id -> rating) */
    const userDict: RatingTable

    ghost predicate Valid()
      reads movieDict.Values
    {
      CacheCoherent(movieDict, userDict)
    }

    /** Takes the loaded tables, whose similarity caches are still empty. */
    constructor (movieDict: map<int, Movie>, userDict: RatingTable)
      requires StoreConsistent(movieDict, userDict)
      requires forall m :: m in movieDict ==> movieDict[m].similarities == map[]
      ensures this.movieDict == movieDict && this.userDict == userDict
      ensures Valid()
    {
      this.movieDict := movieDict;
      this.userDict := userDict;
    }

    /** Predicts the rating `userId` would give `movieId`. Caches the similarities
        it computes; no cached value changes and nothing is cached when the ids are
        unknown or the user already rated the movie. */
    method PredictRating(userId: int, movieId: int) returns (r: Result<real>)
      requires Valid()
      modifies movieDict.Values
      ensures Valid()
      ensures r == Prediction(movieDict, userDict, userId, movieId)
      ensures CachesGrow(old(Caches(movieDict)), Caches(movieDict), movieId,
                         if userId in userDict then userDict[userId].Keys else {})
      ensures r.Err? || userId in movieDict[movieId].users ==> Caches(movieDict) == old(Caches(movieDict))
      ensures r.Ok? && userId !in movieDict[movieId].users ==>
        CachedWith(Caches(movieDict), movieId, userDict[userId].Keys)
    {
      if userId !in userDict || movieId !in movieDict {
        return Err(BadInput);
      }
      if userId in movieDict[movieId].users {
        return Ok(userDict[userId][movieId]);
      }
      var totalWeightedRating, totalSim := WeighRatedMovies(userId, movieId);
      if totalSim == 0.0 {
        r := Ok(DefaultRating);
      } else {
        r := Ok(totalWeightedRating / totalSim);
      }
    }

    /** The loop of `PredictRating`: sums the similarities of the movies `userId`
        rated to movie `movieId`, and those similarities times the user's ratings,
        fetching each similarity through the caches. */
    method WeighRatedMovies(userId: int, movieId: int) returns (totalWeightedRating: real, totalSim: real)
      requires Valid()
      requires userId in userDict && movieId in movieDict && userId !in movieDict[movieId].users
      modifies movieDict.Values
      ensures Valid()
      ensures totalSim == Total(UserWeights(movieDict, userDict, userId, movieId))
      ensures totalWeightedRating == Total(Weighted(UserWeights(movieDict, userDict, userId, movieId), userDict[userId]))
      ensures CachesGrow(old(Caches(movieDict)), Caches(movieDict), movieId, userDict[userId].Keys)
      ensures CachedWith(Caches(movieDict), movieId, userDict[userId].Keys)
    {
      var rating := userDict[userId];
      RatedInCatalog(movieDict, userDict, userId, movieId);
      ghost var c0 := Caches(movieDict);
      totalWeightedRating := 0.0;
      totalSim := 0.0;
      var remaining := rating.Keys;
      ghost var w: map<int, real> := map[];
      assert Weighed(movieDict, userDict, movieId, rating, {}, w, totalWeightedRating, totalSim);
      while remaining != {}
        invariant remaining <= rating.Keys
        invariant Valid()
        invariant Weighed(movieDict, userDict, movieId, rating, rating.Keys - remaining, w, totalWeightedRating, totalSim)
        invariant CachesGrow(c0, Caches(movieDict), movieId, rating.Keys)
        invariant CachedWith(Caches(movieDict), movieId, rating.Keys - remaining)
        decreases remaining
      {
        HasElement(remaining);
        var movie :| movie in remaining;
        totalWeightedRating, totalSim, w :=
          WeighMovie(movie, movieId, rating, c0, rating.Keys - remaining, w, totalWeightedRating, totalSim);
        DoneStep(rating.Keys, remaining, movie);
        remaining := remaining - {movie};
      }
      assert rating.Keys - {} == rating.Keys;
    }

    /** One turn of the loop of `WeighRatedMovies`: adds the similarity of `movie`
        to movie `movieId` to the weights `w` and to the running total of weights,
        and that similarity times the rating of `movie` to the weighted total. */
    method WeighMovie(movie: int, movieId: int, rating: map<int, real>, ghost c0: map<int, map<int, real>>,
                      ghost done: set<int>, ghost w: map<int, real>, totalWeightedRating: real, totalSim: real)
      returns (newTotalWeightedRating: real, newTotalSim: real, ghost newW: map<int, real>)
      requires Valid()
      requires Weighed(movieDict, userDict, movieId, rating, done, w, totalWeightedRating, totalSim)
      requires movie in rating && movie !in done
      requires CachesGrow(c0, Caches(movieDict), movieId, rating.Keys)
      requires CachedWith(Caches(movieDict), movieId, done)
      modifies movieDict.Values
      ensures Valid()
      ensures Weighed(movieDict, userDict, movieId, rating, done + {movie}, newW, newTotalWeightedRating, newTotalSim)
      ensures CachesGrow(c0, Caches(movieDict), movieId, rating.Keys)
      ensures CachedWith(Caches(movieDict), movieId, done + {movie})
    {
      ghost var before := Caches(movieDict);
      var sim := FetchSimilarity(movie, movieId, c0, rating.Keys);
      CachedWithStep(before, Caches(movieDict), movieId, done, movie);
      var weightedRating := Product(sim, rating[movie]);
      AccumulateStep(w, rating, movie, sim, weightedRating, totalWeightedRating, totalSim);
      newTotalWeightedRating := totalWeightedRating + weightedRating;
      newTotalSim := totalSim + sim;
      WeightsInsert(movieDict, userDict, movieId, done, movie);
      newW := w[movie := sim];
    }

    /** The similarity of `movie` and `movieId` through the caches of `movie`; the
        caches stay within what `CachesGrow` allows from `c0` when `movie` is one of
        the movies `rated`. */
    method FetchSimilarity(movie: int, movieId: int, ghost c0: map<int, map<int, real>>, ghost rated: set<int>)
      returns (sim: real)
      requires Valid()
      requires movie in movieDict && movieId in movieDict && movie != movieId && movie in rated
      requires CachesGrow(c0, Caches(movieDict), movieId, rated)
      modifies movieDict.Values
      ensures Valid()
      ensures sim == MovieSimilarity(movieDict, userDict, movie, movieId)
      ensures CachesGrow(c0, Caches(movieDict), movieId, rated)
      ensures CachesKeep(old(Caches(movieDict)), Caches(movieDict))
      ensures CachedWith(Caches(movieDict), movieId, {movie})
    {
      ghost var before := Caches(movieDict);
      assert before[movie] == movieDict[movie].similarities;
      var userSim := movieDict[movie].GetSimilarity(movieId, movieDict, userDict);
      sim := userSim.value;
      if movieId !in before[movie] {
        CoherentMissSymmetric(movieDict, userDict, before, movie, movieId);
        CachesGrowStep(c0, before, movieId, rated, movie, sim);
        CacheBothKeeps(before, movie, movieId, sim);
      } else {
        CoherentSymmetric(movieDict, userDict, before, movie, movieId);
      }
    }

    /** Predicts every line of `testRatings`, in order, and pairs each prediction
        with the movie's title and the actual rating; the first line whose movie is
        unknown, or whose prediction fails, aborts the batch with that error. Cached
        similarities are kept. */
    method PredictRatings(testRatings: seq<TestRating>) returns (r: Result<seq<PredictedRating>>)
      requires Valid()
      modifies movieDict.Values
      ensures Valid()
      ensures r == BatchPrediction(movieDict, userDict, testRatings)
      ensures CachesKeep(old(Caches(movieDict)), Caches(movieDict))
    {
      ghost var c0 := Caches(movieDict);
      var listOfTuples: seq<PredictedRating> := [];
      assert testRatings[..0] == [];
      for i := 0 to |testRatings|
        invariant Valid()
        invariant BatchPrediction(movieDict, userDict, testRatings[..i]) == Ok(listOfTuples)
        invariant CachesKeep(c0, Caches(movieDict))
      {
        var line := testRatings[i];
        BatchStep(movieDict, userDict, testRatings, i);
        if line.movieId !in movieDict {
          BatchFailureSticks(movieDict, userDict, testRatings, i + 1);
          return Err(KeyMissing);
        }
        var title := movieDict[line.movieId].title;
        ghost var before := Caches(movieDict);
        var predicted := PredictRating(line.userId, line.movieId);
        assert CachesKeep(before, Caches(movieDict));
        if predicted.Err? {
          BatchFailureSticks(movieDict, userDict, testRatings, i + 1);
          return Err(predicted.error);
        }
        listOfTuples := listOfTuples + [PredictedRating(line.userId, title, predicted.value, line.actual)];
      }
      assert testRatings[..|testRatings|] == testRatings;
      r := Ok(listOfTuples);
    }
  }
}
