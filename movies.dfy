/** Movies, the consistency of the movie/user tables, and the per-movie similarity
    caches. */
module Movies {
  import opened Common
  import opened CoRating

  /** The two tables agree: each movie is stored under its own id with a rater list
      without repeats, and `u` is among the raters of `m` exactly when `m` is among
      the movies `u` rated. */
  ghost predicate StoreConsistent(movieDict: map<int, Movie>, userDict: RatingTable)
  {
    (forall m :: m in movieDict ==> movieDict[m].id == m && Distinct(movieDict[m].users)) &&
    (forall m, u :: m in movieDict && u in movieDict[m].users ==> u in userDict && m in userDict[u]) &&
    (forall u, m :: u in userDict && m in userDict[u] ==> m in movieDict && u in movieDict[m].users)
  }

  lemma ConsistentCoRated(movieDict: map<int, Movie>, userDict: RatingTable, a: int, b: int)
    requires StoreConsistent(movieDict, userDict) && a in movieDict && b in movieDict
    ensures CoRated(userDict, a, movieDict[a].users, b, movieDict[b].users)
  {
    var xs, ys := movieDict[a].users, movieDict[b].users;
    forall i | 0 <= i < |xs| && xs[i] in ys
      ensures xs[i] in userDict && a in userDict[xs[i]] && b in userDict[xs[i]]
    {
      var u := xs[i];
      assert u in movieDict[a].users && u in movieDict[b].users;
      assert u in userDict && a in userDict[u];
      assert b in userDict[u];
    }
  }

  /** The similarity of two catalog movies. */
  ghost function MovieSimilarity(movieDict: map<int, Movie>, userDict: RatingTable, a: int, b: int): real
    requires StoreConsistent(movieDict, userDict) && a in movieDict && b in movieDict
  {
    ConsistentCoRated(movieDict, userDict, a, b);
    Similarity(userDict, a, movieDict[a].users, b, movieDict[b].users)
  }

  /** Movie similarity does not depend on the order of the two movies. */
  lemma MovieSimilaritySymmetric(movieDict: map<int, Movie>, userDict: RatingTable, a: int, b: int)
    requires StoreConsistent(movieDict, userDict) && a in movieDict && b in movieDict
    ensures MovieSimilarity(movieDict, userDict, a, b) == MovieSimilarity(movieDict, userDict, b, a)
  {
    ConsistentCoRated(movieDict, userDict, a, b);
    ConsistentCoRated(movieDict, userDict, b, a);
    SimilaritySymmetric(userDict, a, movieDict[a].users, b, movieDict[b].users);
  }

  /** The similarity caches of all catalog movies, by movie id. */
  ghost function Caches(movieDict: map<int, Movie>): (c: map<int, map<int, real>>)
    reads movieDict.Values
    ensures c.Keys == movieDict.Keys
  {
    map m | m in movieDict :: movieDict[m].similarities
  }

  /** Every entry of the caches `c` is the similarity of its two (distinct) catalog
      movies, and is cached on both of them. */
  ghost predicate Coherent(movieDict: map<int, Movie>, userDict: RatingTable, c: map<int, map<int, real>>)
    requires StoreConsistent(movieDict, userDict)
  {
    forall m, o :: m in c && o in c[m] ==> CoherentEntry(movieDict, userDict, c, m, o)
  }

  /** The entry for `o` in the cache of `m` is their similarity, and the entry for
      `m` in the cache of `o` exists. */
  ghost predicate CoherentEntry(movieDict: map<int, Movie>, userDict: RatingTable, c: map<int, map<int, real>>, m: int, o: int)
    requires StoreConsistent(movieDict, userDict) && m in c && o in c[m]
  {
    m in movieDict && o in movieDict && o != m && o in c && m in c[o] &&
    c[m][o] == MovieSimilarity(movieDict, userDict, m, o)
  }

  /** The tables agree and the movies' caches are coherent. */
  ghost predicate CacheCoherent(movieDict: map<int, Movie>, userDict: RatingTable)
    reads movieDict.Values
  {
    StoreConsistent(movieDict, userDict) && Coherent(movieDict, userDict, Caches(movieDict))
  }

  /** A pair not cached on one of its movies is not cached on the other either. */
  lemma CoherentMissSymmetric(movieDict: map<int, Movie>, userDict: RatingTable, c: map<int, map<int, real>>, a: int, b: int)
    requires StoreConsistent(movieDict, userDict) && Coherent(movieDict, userDict, c)
    requires a in c && b in c && b !in c[a]
    ensures a !in c[b]
  {
  }

  /** In coherent caches a cached pair is cached both ways with the same value, so
      asking either movie for the other gives the same answer. */
  lemma CoherentSymmetric(movieDict: map<int, Movie>, userDict: RatingTable, c: map<int, map<int, real>>, m: int, o: int)
    requires StoreConsistent(movieDict, userDict) && Coherent(movieDict, userDict, c)
    requires m in c && o in c[m]
    ensures o in c && m in c[o] && c[o][m] == c[m][o]
  {
    assert CoherentEntry(movieDict, userDict, c, m, o);
    assert CoherentEntry(movieDict, userDict, c, o, m);
    MovieSimilaritySymmetric(movieDict, userDict, m, o);
  }

  /** The caches `c` with similarity `v` of movies `a` and `b` stored on both. */
  function CacheBoth(c: map<int, map<int, real>>, a: int, b: int, v: real): (d: map<int, map<int, real>>)
    requires a in c && b in c && a != b
    ensures d.Keys == c.Keys
    ensures forall m :: m in c && m != a && m != b ==> d[m] == c[m]
  {
    c[a := c[a][b := v]][b := c[b][a := v]]
  }

  /** Storing the true similarity of two movies on both keeps the caches coherent. */
  lemma CacheBothCoherent(movieDict: map<int, Movie>, userDict: RatingTable, c: map<int, map<int, real>>, a: int, b: int)
    requires StoreConsistent(movieDict, userDict) && Coherent(movieDict, userDict, c)
    requires a in movieDict && b in movieDict && a in c && b in c && a != b && b !in c[a]
    ensures Coherent(movieDict, userDict, CacheBoth(c, a, b, MovieSimilarity(movieDict, userDict, a, b)))
  {
    var v := MovieSimilarity(movieDict, userDict, a, b);
    MovieSimilaritySymmetric(movieDict, userDict, a, b);
    var d := CacheBoth(c, a, b, v);
    forall m, o | m in d && o in d[m] ensures CoherentEntry(movieDict, userDict, d, m, o) {
      if (m == a && o == b) || (m == b && o == a) {
      } else {
        assert o in c[m] && d[m][o] == c[m][o];
        assert CoherentEntry(movieDict, userDict, c, m, o);
        assert m in d[o];
      }
    }
  }

  /** A movie of the catalog. The rater list is filled in by the loader and fixed
      afterwards; only the similarity cache changes during prediction. */
  class Movie {
    const id: int
    const title: string
    /** ids of the users who rated this movie, in loading order */
    const users: seq<int>
    /** other movie id -> cached similarity with this movie */
    var similarities: map<int, real>

    constructor (id: int, title: string, users: seq<int>)
      ensures this.id == id && this.title == title && this.users == users
      ensures similarities == map[]
    {
      this.id := id;
      this.title := title;
      this.users := users;
      similarities := map[];
    }

    /** The similarity of this movie and movie `otherId`, from the raters of this
        movie that also rated the other one. Reads no cache and changes nothing. */
    method ComputeSimilarity(otherId: int, movieDict: map<int, Movie>, userDict: RatingTable)
      returns (sim: real)
      requires otherId in movieDict
      requires CoRated(userDict, id, users, otherId, movieDict[otherId].users)
      ensures sim == Similarity(userDict, id, users, otherId, movieDict[otherId].users)
      ensures (forall u :: u in users ==> u !in movieDict[otherId].users) ==> sim == 0.0
      ensures sim <= 1.0
    {
      var otherMovie := movieDict[otherId];
      var sumOfRatingDif := 0.0;
      var counterNumberOfRatings := 0;
      for i := 0 to |users|
        invariant CoRated(userDict, id, users[..i], otherId, otherMovie.users)
        invariant sumOfRatingDif == DiffSum(userDict, id, users[..i], otherId, otherMovie.users)
        invariant counterNumberOfRatings == CommonCount(users[..i], otherMovie.users)
      {
        var user := users[i];
        assert users[..i + 1][..i] == users[..i];
        if user in otherMovie.users {
          sumOfRatingDif := sumOfRatingDif + Abs(userDict[user][id] - userDict[user][otherId]);
          counterNumberOfRatings := counterNumberOfRatings + 1;
        }
      }
      assert users[..|users|] == users;
      if counterNumberOfRatings == 0 {
        sim := 0.0;
      } else {
        var diff := sumOfRatingDif / counterNumberOfRatings as real;
        sim := 1.0 - diff / MaxDifference;
      }
      if forall u :: u in users ==> u !in otherMovie.users {
        NoCommonRaterMeansZero(userDict, id, users, otherId, otherMovie.users);
      }
      SimilarityAtMostOne(userDict, id, users, otherId, otherMovie.users);
    }

    /** The similarity of this movie and movie `otherId`, memoised: a cached value is
        returned as it is; otherwise the value is computed and cached on both movies. */
    method GetSimilarity(otherId: int, movieDict: map<int, Movie>, userDict: RatingTable)
      returns (r: Result<real>)
      requires CacheCoherent(movieDict, userDict)
      requires id in movieDict && movieDict[id] == this
      requires otherId != id
      modifies this, if otherId in movieDict then {movieDict[otherId]} else {}
      ensures CacheCoherent(movieDict, userDict)
      ensures otherId !in movieDict ==> r == Err(BadInput)
      ensures otherId in movieDict ==> r == Ok(MovieSimilarity(movieDict, userDict, id, otherId))
      ensures otherId in old(similarities) ==> r == Ok(old(similarities)[otherId])
      ensures otherId !in movieDict || otherId in old(similarities) ==>
        Caches(movieDict) == old(Caches(movieDict))
      ensures otherId in movieDict && otherId !in old(similarities) ==>
        Caches(movieDict) == CacheBoth(old(Caches(movieDict)), id, otherId, r.value)
    {
      if otherId !in movieDict {
        return Err(BadInput);
      }
      ghost var before := Caches(movieDict);
      assert before[id] == similarities;
      if otherId in similarities {
        return Ok(similarities[otherId]);
      }
      ConsistentCoRated(movieDict, userDict, id, otherId);
      var sim := ComputeSimilarity(otherId, movieDict, userDict);
      CoherentMissSymmetric(movieDict, userDict, before, id, otherId);
      CacheBothCoherent(movieDict, userDict, before, id, otherId);
      StoreBoth(otherId, sim, movieDict);
      r := Ok(sim);
    }

    /** Caches similarity `sim` on this movie under `otherId` and on movie `otherId`
        under this movie's id. */
    method StoreBoth(otherId: int, sim: real, movieDict: map<int, Movie>)
      requires forall m :: m in movieDict ==> movieDict[m].id == m
      requires id in movieDict && movieDict[id] == this && otherId in movieDict && otherId != id
      modifies this, movieDict[otherId]
      ensures Caches(movieDict) == CacheBoth(old(Caches(movieDict)), id, otherId, sim)
    {
      ghost var before := Caches(movieDict);
      var otherMovie := movieDict[otherId];
      similarities := similarities[otherId := sim];
      otherMovie.similarities := otherMovie.similarities[id := sim];
      ghost var after := CacheBoth(before, id, otherId, sim);
      forall m | m in movieDict ensures Caches(movieDict)[m] == after[m] {
        if m != id && m != otherId {
          assert movieDict[m] != this && movieDict[m] != otherMovie;
        }
      }
      assert Caches(movieDict) == after;
    }
  }
}
