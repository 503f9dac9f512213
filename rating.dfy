/**
 * The calculator object (`Rating` class): it keeps the K-factor
 * configuration, the inputs of the last calculation, the expected scores of
 * its last match and the new ratings, which it hands back on request.
 */
module Calculator {
  import opened KFactors
  import opened Elo
  import opened Series

  class Rating {
    /**
     * The table of powers `x |-> 10^x` the expected scores are computed with.
     * The calculation works with any positive table; what follows from it
     * holding powers of ten is stated by lemmas that ask for an `Exp10`.
     */
    const pow10: PositiveTable

    var kfactors: KConfig

    var ratingA: real
    var ratingB: Opponents
    var scoreA: Scores

    var expectedA: real
    var expectedB: real

    var newRatingA: real
    var newRatingB: Opponents

    /** Configure the K factor, then compute the first calculation. */
    constructor (pow10: PositiveTable, kfactors: KConfig, ratingA: real, ratingB: Opponents, scoreA: Scores)
      requires ratingB.Many? ==> Covers(scoreA, |ratingB.ratings|)
      ensures this.pow10 == pow10 && this.kfactors == Normalize(kfactors)
      ensures this.ratingA == ratingA && this.ratingB == ratingB && this.scoreA == scoreA
      ensures Ratings(newRatingA, newRatingB) == Update(pow10, kfactors, ratingA, ratingB, scoreA)
    {
      this.pow10 := pow10;
      this.kfactors := Absent;
      this.ratingA, this.ratingB, this.scoreA := 0.0, One(0.0), Uniform(Draw);
      this.expectedA, this.expectedB := 0.0, 0.0;
      this.newRatingA, this.newRatingB := 0.0, One(0.0);
      new;
      SetKFactor(kfactors);
      SetNewSettings(ratingA, ratingB, scoreA);
    }

    /** Store a new K-factor configuration; nothing else changes. */
    method SetKFactor(kf: KConfig)
      modifies this`kfactors
      ensures kfactors == Normalize(kf)
    {
      kfactors := Normalize(kf);
    }

    /**
     * The K factor for a match in which A is rated `rating`: 32 for an empty
     * configuration, a scalar as it is, and for the tiered form a scan of its
     * rules in order in which each applicable tier overrides the one before.
     */
    method GetKFactor(rating: real) returns (k: real)
      ensures k == KFactor(kfactors, rating)
    {
      if IsEmpty(kfactors) {
        return DefaultK;
      }
      if kfactors.Scalar? {
        return kfactors.k;
      }
      k := TieredBase(kfactors.default);
      if kfactors.rules.None? {
        return;
      }
      var rules := kfactors.rules.value;
      var i := 0;
      while i < |rules|
        invariant 0 <= i <= |rules|
        invariant k == LastMatch(rules[..i], rating, TieredBase(kfactors.default))
      {
        if rating >= rules[i].limit as real {
          k := rules[i].k;
        }
        assert rules[..i + 1][..i] == rules[..i];
        i := i + 1;
      }
      assert rules[..i] == rules;
    }

    /**
     * New ratings of A and B from the expected scores and A's score; the K
     * factor is resolved twice, both times from A's rating.
     */
    method ComputeNewRatings(ra: real, rb: real, ea: real, eb: real, sa: real) returns (r: Pair)
      ensures r == NewRatings(kfactors, ra, rb, ea, eb, sa)
    {
      var sb := ScoreB(sa);
      var kForA := GetKFactor(ra);
      var kForB := GetKFactor(ra);
      r := Pair(ra + kForA * (sa - ea), rb + kForB * (sb - eb));
    }

    /**
     * Take new inputs and compute. Against one opponent: one match, with the
     * first score if a list of scores is given. Against a list: the matches
     * in order, A's rating carried forward and each opponent's entry
     * overwritten in place by its new rating. The expected scores left
     * behind are those of the last match played; with no opponents they are
     * left as they were.
     */
    method SetNewSettings(ra: real, rb: Opponents, sa: Scores)
      requires rb.Many? ==> Covers(sa, |rb.ratings|)
      modifies this`ratingA, this`ratingB, this`scoreA, this`expectedA, this`expectedB, this`newRatingA, this`newRatingB
      ensures ratingA == ra && ratingB == rb && scoreA == sa
      ensures Ratings(newRatingA, newRatingB) == Update(pow10, kfactors, ra, rb, sa)
      ensures rb.One? ==> Pair(expectedA, expectedB) == ExpectedScores(pow10, ra, rb.rating)
      ensures rb.Many? && rb.ratings != [] ==>
        var n := |rb.ratings| - 1;
        Pair(expectedA, expectedB) == ExpectedScores(pow10, Sequential(pow10, kfactors, ra, rb.ratings[..n], sa).a, rb.ratings[n])
      ensures rb.Many? && rb.ratings == [] ==> expectedA == old(expectedA) && expectedB == old(expectedB)
    {
      ratingA, ratingB, scoreA := ra, rb, sa;

      if rb.One? {
        var e := ExpectedScores(pow10, ratingA, rb.rating);
        expectedA, expectedB := e.a, e.b;
        var nr := ComputeNewRatings(ratingA, rb.rating, expectedA, expectedB, FirstScore(sa));
        newRatingA, newRatingB := nr.a, One(nr.b);
        return;
      }

      PlayInOrder(rb.ratings, sa);
      if rb.ratings != [] {
        SequentialPrefix(pow10, kfactors, ra, rb.ratings, sa, |rb.ratings| - 1);
      }
    }

    /**
     * The loop of the multi-opponent case: A's new rating starts at A's
     * rating and B's list as the opponents' ratings; each match uses A's
     * running rating, then overwrites it and the opponent's entry.
     */
    method PlayInOrder(rs: seq<real>, sa: Scores)
      requires Covers(sa, |rs|)
      modifies this`expectedA, this`expectedB, this`newRatingA, this`newRatingB
      ensures newRatingB.Many?
      ensures Sequential(pow10, kfactors, ratingA, rs, sa) == Run(newRatingA, newRatingB.ratings)
      ensures rs != [] ==>
        var n := |rs| - 1;
        Pair(expectedA, expectedB) == ExpectedScores(pow10, Chain(pow10, kfactors, ratingA, rs, sa, n).a, rs[n])
      ensures rs == [] ==> expectedA == old(expectedA) && expectedB == old(expectedB)
    {
      newRatingA, newRatingB := ratingA, Many(rs);
      var i := 0;
      while i < |rs|
        invariant 0 <= i <= |rs|
        invariant newRatingB.Many? && |newRatingB.ratings| == |rs|
        invariant Run(newRatingA, newRatingB.ratings[..i]) == Chain(pow10, kfactors, ratingA, rs, sa, i)
        invariant i == 0 ==> expectedA == old(expectedA) && expectedB == old(expectedB)
        invariant i > 0 ==> Pair(expectedA, expectedB) == ExpectedScores(pow10, Chain(pow10, kfactors, ratingA, rs, sa, i - 1).a, rs[i - 1])
      {
        ghost var runningA := newRatingA;
        var nb := PlayOne(rs[i], ScoreAt(sa, i));
        ChainExtend(pow10, kfactors, ratingA, rs, sa, i, runningA, newRatingB.ratings, newRatingA, nb);
        newRatingB := Many(newRatingB.ratings[i := nb]);
        i := i + 1;
      }
      assert newRatingB.ratings[..i] == newRatingB.ratings;
    }

    /**
     * One pass of that loop: the expected scores of A's running rating
     * against `rb` are stored, A's running rating is replaced by its new
     * value, and B's new rating is handed back for its entry.
     */
    method PlayOne(rb: real, s: real) returns (nb: real)
      modifies this`expectedA, this`expectedB, this`newRatingA
      ensures Pair(expectedA, expectedB) == ExpectedScores(pow10, old(newRatingA), rb)
      ensures Pair(newRatingA, nb) == Match(pow10, kfactors, old(newRatingA), rb, s)
    {
      var e := ExpectedScores(pow10, newRatingA, rb);
      expectedA, expectedB := e.a, e.b;
      var nr := ComputeNewRatings(newRatingA, rb, expectedA, expectedB, s);
      newRatingA, nb := nr.a, nr.b;
    }

    /** The stored results of the last calculation, as they are. */
    method GetNewRatings() returns (r: Ratings)
      ensures r == Ratings(newRatingA, newRatingB)
    {
      r := Ratings(newRatingA, newRatingB);
    }
  }

  /** 1500 beats 1500 with the default K: the calculator reports 1516 and 1484. */
  method WinBetweenEquals(pow10: Exp10) returns (result: Ratings)
    ensures result == Ratings(1516.0, One(1484.0))
  {
    var rater := new Rating(pow10, Absent, 1500.0, One(1500.0), Uniform(Win));
    result := rater.GetNewRatings();
    Example1500(pow10);
  }

  /**
   * Calculating again with the same inputs gives the same results: nothing
   * of the earlier calculation leaks into the next one.
   */
  method RecalculateSame(rater: Rating, ra: real, rb: Opponents, sa: Scores) returns (first: Ratings, second: Ratings)
    requires rb.Many? ==> Covers(sa, |rb.ratings|)
    modifies rater
    ensures first == second == Update(rater.pow10, rater.kfactors, ra, rb, sa)
  {
    rater.SetNewSettings(ra, rb, sa);
    first := rater.GetNewRatings();
    rater.SetNewSettings(ra, rb, sa);
    second := rater.GetNewRatings();
  }
}
