/** Co-rating similarity between two movies, computed from the users who rated both. */
module CoRating {
  import opened Sums

  /** user id -> (movie id -> rating) */
  type RatingTable = map<int, map<int, real>>

  /** The rating scale the engine assumes. */
  const MinRating: real := 0.5
  const MaxRating: real := 5.0

  /** The largest possible rating difference on that scale; the divisor of the
      similarity formula. */
  const MaxDifference: real := 4.5

  function Abs(x: real): real
  {
    if x < 0.0 then -x else x
  }

  /** No user is listed twice. */
  predicate Distinct(xs: seq<int>)
  {
    forall i, j :: 0 <= i < j < |xs| ==> xs[i] != xs[j]
  }

  /** Every user that appears in both rater lists has a rating for both movies. */
  ghost predicate CoRated(ratings: RatingTable, a: int, xs: seq<int>, b: int, ys: seq<int>)
  {
    forall i :: 0 <= i < |xs| && xs[i] in ys ==>
      xs[i] in ratings && a in ratings[xs[i]] && b in ratings[xs[i]]
  }

  /** The rating difference of `u` between movies `a` and `b`. */
  function Difference(ratings: RatingTable, u: int, a: int, b: int): real
    requires u in ratings && a in ratings[u] && b in ratings[u]
  {
    Abs(ratings[u][a] - ratings[u][b])
  }

  /** The sum of Difference over the users of `xs` that also appear in `ys`. */
  function DiffSum(ratings: RatingTable, a: int, xs: seq<int>, b: int, ys: seq<int>): real
    requires CoRated(ratings, a, xs, b, ys)
  {
    if xs == [] then 0.0
    else
      var u, init := xs[|xs| - 1], xs[..|xs| - 1];
      assert CoRated(ratings, a, init, b, ys) by {
        forall i | 0 <= i < |init| ensures init[i] == xs[i] { }
      }
      var rest := DiffSum(ratings, a, init, b, ys);
      if u in ys then rest + Difference(ratings, u, a, b) else rest
  }

  /** How many users of `xs` also appear in `ys`. */
  function CommonCount(xs: seq<int>, ys: seq<int>): nat
  {
    if xs == [] then 0
    else CommonCount(xs[..|xs| - 1], ys) + (if xs[|xs| - 1] in ys then 1 else 0)
  }

  /** The similarity of movie `a` (rated by `xs`) and movie `b` (rated by `ys`):
      0 without common raters, otherwise 1 minus the mean rating difference over
      MaxDifference, with no clamping. */
  function Similarity(ratings: RatingTable, a: int, xs: seq<int>, b: int, ys: seq<int>): real
    requires CoRated(ratings, a, xs, b, ys)
  {
    var count := CommonCount(xs, ys);
    if count == 0 then 0.0
    else 1.0 - (DiffSum(ratings, a, xs, b, ys) / count as real) / MaxDifference
  }

  /** Every rating a common rater gave to `a` or `b` lies on the rating scale. */
  ghost predicate CoRatingsOnScale(ratings: RatingTable, a: int, xs: seq<int>, b: int, ys: seq<int>)
  {
    CoRated(ratings, a, xs, b, ys) &&
    forall i :: 0 <= i < |xs| && xs[i] in ys ==>
      MinRating <= ratings[xs[i]][a] <= MaxRating && MinRating <= ratings[xs[i]][b] <= MaxRating
  }

  /** The users listed in both `xs` and `ys`. */
  ghost function Common(xs: seq<int>, ys: seq<int>): set<int>
  {
    set u | u in xs && u in ys
  }

  /** The rating difference of each user in `users`, by user. */
  ghost function Differences(ratings: RatingTable, a: int, b: int, users: set<int>): (d: map<int, real>)
    requires forall u :: u in users ==> u in ratings && a in ratings[u] && b in ratings[u]
    ensures d.Keys == users
  {
    map u | u in users :: Difference(ratings, u, a, b)
  }

  /** The counter finds no common rater exactly when the two rater lists are disjoint. */
  lemma {:induction false} CommonCountZero(xs: seq<int>, ys: seq<int>)
    ensures CommonCount(xs, ys) == 0 <==> forall u :: u in xs ==> u !in ys
  {
    if xs != [] {
      var u, init := xs[|xs| - 1], xs[..|xs| - 1];
      CommonCountZero(init, ys);
      assert xs == init + [u];
      assert forall v :: v in xs <==> v in init || v == u;
      if CommonCount(init, ys) != 0 {
        var v :| v in init && v in ys;
        assert v in xs;
      }
    }
  }

  /** Without a common rater the similarity is 0. */
  lemma NoCommonRaterMeansZero(ratings: RatingTable, a: int, xs: seq<int>, b: int, ys: seq<int>)
    requires CoRated(ratings, a, xs, b, ys)
    requires forall u :: u in xs ==> u !in ys
    ensures Similarity(ratings, a, xs, b, ys) == 0.0
  {
    CommonCountZero(xs, ys);
  }

  /** The summed difference is never negative. */
  lemma {:induction false} DiffSumNonNegative(ratings: RatingTable, a: int, xs: seq<int>, b: int, ys: seq<int>)
    requires CoRated(ratings, a, xs, b, ys)
    ensures 0.0 <= DiffSum(ratings, a, xs, b, ys)
  {
    if xs != [] {
      var init := xs[..|xs| - 1];
      assert CoRated(ratings, a, init, b, ys) by {
        forall i | 0 <= i < |init| ensures init[i] == xs[i] { }
      }
      DiffSumNonNegative(ratings, a, init, b, ys);
    }
  }

  /** On the rating scale each difference is at most MaxDifference, so the sum is at
      most MaxDifference times the number of common raters. */
  lemma {:induction false} DiffSumAtMost(ratings: RatingTable, a: int, xs: seq<int>, b: int, ys: seq<int>)
    requires CoRatingsOnScale(ratings, a, xs, b, ys)
    ensures DiffSum(ratings, a, xs, b, ys) <= MaxDifference * CommonCount(xs, ys) as real
  {
    if xs != [] {
      var init := xs[..|xs| - 1];
      assert CoRatingsOnScale(ratings, a, init, b, ys) by {
        forall i | 0 <= i < |init| ensures init[i] == xs[i] { }
      }
      DiffSumAtMost(ratings, a, init, b, ys);
    }
  }

  /** A mean of values in [0, MaxDifference] lies in [0, MaxDifference]. */
  lemma MeanBounds(sum: real, count: real)
    requires 0.0 < count
    requires 0.0 <= sum <= MaxDifference * count
    ensures 0.0 <= sum / count <= MaxDifference
  {
    var mean := sum / count;
    assert mean * count == sum;
  }

  /** The similarity never exceeds 1. */
  lemma SimilarityAtMostOne(ratings: RatingTable, a: int, xs: seq<int>, b: int, ys: seq<int>)
    requires CoRated(ratings, a, xs, b, ys)
    ensures Similarity(ratings, a, xs, b, ys) <= 1.0
  {
    var count := CommonCount(xs, ys);
    if count != 0 {
      DiffSumNonNegative(ratings, a, xs, b, ys);
      var sum := DiffSum(ratings, a, xs, b, ys);
      assert 0.0 <= sum / count as real;
    }
  }

  /** When every common rating is on the scale, the similarity lies in [0, 1]. */
  lemma SimilarityOnScale(ratings: RatingTable, a: int, xs: seq<int>, b: int, ys: seq<int>)
    requires CoRatingsOnScale(ratings, a, xs, b, ys)
    ensures 0.0 <= Similarity(ratings, a, xs, b, ys) <= 1.0
  {
    var count := CommonCount(xs, ys);
    if count != 0 {
      DiffSumNonNegative(ratings, a, xs, b, ys);
      DiffSumAtMost(ratings, a, xs, b, ys);
      MeanBounds(DiffSum(ratings, a, xs, b, ys), count as real);
    }
  }

  /** The formula is not clamped: a rating of 0.0 against 5.0 (off the assumed scale,
      but accepted by the engine) gives a negative similarity. */
  lemma SimilarityIsNotClamped()
    ensures Similarity(map[7 := map[1 := 0.0, 2 := 5.0]], 1, [7], 2, [7]) == -1.0 / 9.0
  {
    var ratings := map[7 := map[1 := 0.0, 2 := 5.0]];
    assert [7][..0] == [];
    assert DiffSum(ratings, 1, [7], 2, [7]) == 5.0;
    assert CommonCount([7], [7]) == 1;
  }

  /** Every common rater has a rating for both movies. */
  lemma CommonCoRated(ratings: RatingTable, a: int, xs: seq<int>, b: int, ys: seq<int>)
    requires CoRated(ratings, a, xs, b, ys)
    ensures forall u :: u in Common(xs, ys) ==> u in ratings && a in ratings[u] && b in ratings[u]
  {
    forall u | u in Common(xs, ys) ensures u in ratings && a in ratings[u] && b in ratings[u] {
      var i :| 0 <= i < |xs| && xs[i] == u;
    }
  }

  /** The common raters of a list that ends in `u`. */
  lemma CommonSnoc(init: seq<int>, u: int, ys: seq<int>)
    ensures Common(init + [u], ys) == if u in ys then Common(init, ys) + {u} else Common(init, ys)
  {
    assert forall v :: v in init + [u] <==> v in init || v == u;
  }

  /** The last user of a list without repeats is not among the earlier ones. */
  lemma DistinctSnoc(xs: seq<int>)
    requires Distinct(xs) && xs != []
    ensures xs[|xs| - 1] !in xs[..|xs| - 1]
    ensures Distinct(xs[..|xs| - 1])
  {
    var n := |xs| - 1;
    forall i | 0 <= i < n ensures xs[..n][i] != xs[n] {
      assert xs[..n][i] == xs[i];
    }
  }

  /** One user more in the differences by user. */
  lemma DifferencesInsert(ratings: RatingTable, a: int, b: int, users: set<int>, u: int)
    requires forall v :: v in users ==> v in ratings && a in ratings[v] && b in ratings[v]
    requires u in ratings && a in ratings[u] && b in ratings[u] && u !in users
    ensures Differences(ratings, a, b, users + {u}) ==
      Differences(ratings, a, b, users)[u := Difference(ratings, u, a, b)]
  {
    var lhs := Differences(ratings, a, b, users + {u});
    var rhs := Differences(ratings, a, b, users)[u := Difference(ratings, u, a, b)];
    assert lhs.Keys == rhs.Keys;
    assert forall v :: v in lhs ==> lhs[v] == rhs[v];
  }

  /** For a list without repeats the counter counts the set of common raters. */
  lemma {:induction false} CommonCountOverCommon(xs: seq<int>, ys: seq<int>)
    requires Distinct(xs)
    ensures CommonCount(xs, ys) == |Common(xs, ys)|
  {
    if xs == [] {
      assert Common(xs, ys) == {};
    } else {
      var u, init := xs[|xs| - 1], xs[..|xs| - 1];
      assert xs == init + [u];
      DistinctSnoc(xs);
      CommonCountOverCommon(init, ys);
      CommonSnoc(init, u, ys);
    }
  }

  /** For a list without repeats the sum is a sum over the set of common raters, so
      it does not depend on the order of the lists. */
  lemma {:induction false} DiffSumOverCommon(ratings: RatingTable, a: int, xs: seq<int>, b: int, ys: seq<int>)
    requires CoRated(ratings, a, xs, b, ys)
    requires Distinct(xs)
    ensures forall u :: u in Common(xs, ys) ==> u in ratings && a in ratings[u] && b in ratings[u]
    ensures DiffSum(ratings, a, xs, b, ys) == Total(Differences(ratings, a, b, Common(xs, ys)))
  {
    CommonCoRated(ratings, a, xs, b, ys);
    if xs == [] {
      assert Common(xs, ys) == {};
    } else {
      var u, init := xs[|xs| - 1], xs[..|xs| - 1];
      assert xs == init + [u];
      assert CoRated(ratings, a, init, b, ys) by {
        forall i | 0 <= i < |init| ensures init[i] == xs[i] { }
      }
      DistinctSnoc(xs);
      DiffSumOverCommon(ratings, a, init, b, ys);
      CommonSnoc(init, u, ys);
      if u in ys {
        assert u in ratings && a in ratings[u] && b in ratings[u] by {
          assert xs[|xs| - 1] == u;
        }
        var before := Common(init, ys);
        DifferencesInsert(ratings, a, b, before, u);
        TotalInsert(Differences(ratings, a, b, before), u, Difference(ratings, u, a, b));
      }
    }
  }

  /** Similarity is symmetric: swapping the two movies gives the same value. */
  lemma SimilaritySymmetric(ratings: RatingTable, a: int, xs: seq<int>, b: int, ys: seq<int>)
    requires CoRated(ratings, a, xs, b, ys) && CoRated(ratings, b, ys, a, xs)
    requires Distinct(xs) && Distinct(ys)
    ensures Similarity(ratings, a, xs, b, ys) == Similarity(ratings, b, ys, a, xs)
  {
    CommonCountOverCommon(xs, ys);
    CommonCountOverCommon(ys, xs);
    DiffSumOverCommon(ratings, a, xs, b, ys);
    DiffSumOverCommon(ratings, b, ys, a, xs);
    assert Common(xs, ys) == Common(ys, xs);
    var users := Common(xs, ys);
    assert Differences(ratings, a, b, users) == Differences(ratings, b, a, users);
  }
}
