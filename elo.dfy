/**
 * One Elo match between A and B (`_getExpectedScores` and `_getNewRatings`
 * of the `Rating` class): the logistic expected scores, B's score derived from
 * A's, and the update of both ratings with the K factor resolved from A's
 * rating.
 */
module Elo {
  import opened KFactors

  const Win: real := 1.0
  const Draw: real := 0.5
  const Lost: real := 0.0

  /**
   * The source's `pow(10, x)` is modelled as a table of powers: an infinite
   * map that holds a value for every real exponent. A table whose values are
   * all positive is enough to compute expected scores.
   */
  ghost predicate IsPositive(f: imap<real, real>) {
    forall x: real :: x in f && f[x] > 0.0
  }

  type PositiveTable = f: imap<real, real> | IsPositive(f) ghost witness imap x: real :: 1.0

  /** The values at opposite exponents are reciprocal, as 10^x * 10^-x = 1. */
  ghost predicate Reciprocal(f: imap<real, real>) {
    forall x: real, y: real :: x in f && y in f && x + y == 0.0 ==> f[x] * f[y] == 1.0
  }

  /**
   * What the model knows of the powers of ten: positive, and reciprocal at
   * opposite exponents. Any such table stands in for `pow(10, _)`.
   */
  type Exp10 = f: PositiveTable | Reciprocal(f) ghost witness imap x: real :: 1.0

  /** 10^0 = 1 follows from the facts. */
  lemma Pow10Zero(pow10: Exp10)
    ensures pow10[0.0] == 1.0
  {
    var p := pow10[0.0];
    assert p > 0.0;
    assert p * p == 1.0;
    if p < 1.0 {
      assert false;
    } else if p > 1.0 {
      assert false;
    }
  }

  /** The two values of a player pair, as in the source's `['a' => _, 'b' => _]`. */
  datatype Pair = Pair(a: real, b: real)

  /** The three outcomes of a match, from A's side. */
  predicate IsOutcome(s: real) {
    s == Win || s == Draw || s == Lost
  }

  /**
   * B's score derived from A's: a draw stays a draw, 0 becomes 1, and any
   * other score (a win, but also a stray value such as 0.7) becomes 0.
   */
  function ScoreB(scoreA: real): (r: real)
    ensures IsOutcome(r)
    ensures r == Draw <==> scoreA == Draw
    ensures r == Win <==> scoreA == Lost
    ensures IsOutcome(scoreA) ==> scoreA + r == 1.0
  {
    if scoreA == Draw then Draw
    else if scoreA == 0.0 then 1.0
    else 0.0
  }

  /** On the three outcomes, deriving B's score twice gives back A's. */
  lemma ScoreBInvolution(scoreA: real)
    requires IsOutcome(scoreA)
    ensures ScoreB(ScoreB(scoreA)) == scoreA
  {
  }

  /** Two positive reciprocals u and v: 1/(1+u) + 1/(1+v) = 1, each strictly between 0 and 1. */
  lemma ReciprocalShares(u: real, v: real)
    requires u > 0.0 && v > 0.0 && u * v == 1.0
    ensures 0.0 < 1.0 / (1.0 + u) < 1.0 && 0.0 < 1.0 / (1.0 + v) < 1.0
    ensures 1.0 / (1.0 + u) + 1.0 / (1.0 + v) == 1.0
  {
    var eu := 1.0 / (1.0 + u);
    var ev := 1.0 / (1.0 + v);
    assert eu * (1.0 + u) == 1.0;
    assert ev * (1.0 + v) == 1.0;
    assert (1.0 + v) * u == u + 1.0;
    assert ev == u / (1.0 + u) by {
      assert (u / (1.0 + u)) * (1.0 + v) == (u + 1.0) / (1.0 + u);
    }
    assert eu + ev == (1.0 + u) / (1.0 + u);
  }

  /**
   * The logistic expected scores of A against B and of B against A, looked
   * up in the table of powers at (B - A) / 400 and (A - B) / 400. The
   * computation only needs the table to be positive; the lemmas below state
   * what follows when it holds the powers of ten.
   */
  function ExpectedScores(pow10: PositiveTable, ratingA: real, ratingB: real): Pair {
    var toA := pow10[(ratingB - ratingA) / 400.0];
    var toB := pow10[(ratingA - ratingB) / 400.0];
    Pair(1.0 / (1.0 + toA), 1.0 / (1.0 + toB))
  }

  /** The expected scores each lie strictly between 0 and 1, and they sum to 1. */
  lemma ExpectedScoresRange(pow10: Exp10, ratingA: real, ratingB: real)
    ensures var e := ExpectedScores(pow10, ratingA, ratingB);
      0.0 < e.a < 1.0 && 0.0 < e.b < 1.0 && e.a + e.b == 1.0
  {
    var x := (ratingB - ratingA) / 400.0;
    var y := (ratingA - ratingB) / 400.0;
    assert x + y == 0.0;
    ReciprocalShares(pow10[x], pow10[y]);
  }

  /** Swapping the players swaps the expected scores. */
  lemma ExpectedScoresSwap(pow10: PositiveTable, ratingA: real, ratingB: real)
    ensures ExpectedScores(pow10, ratingB, ratingA).a == ExpectedScores(pow10, ratingA, ratingB).b
    ensures ExpectedScores(pow10, ratingB, ratingA).b == ExpectedScores(pow10, ratingA, ratingB).a
  {
  }

  /** Equal ratings: each side is expected to score one half. */
  lemma ExpectedScoresEqualRatings(pow10: Exp10, rating: real)
    ensures ExpectedScores(pow10, rating, rating) == Pair(0.5, 0.5)
  {
    assert (rating - rating) / 400.0 == 0.0;
    Pow10Zero(pow10);
  }

  /**
   * New ratings of A and B from their expected scores and A's score. Both
   * sides move by the one K factor resolved from A's rating. When A's score
   * is an outcome and the expected scores sum to 1, A gains exactly what B
   * loses.
   */
  function NewRatings(kf: KConfig, ratingA: real, ratingB: real, expectedA: real, expectedB: real, scoreA: real): (r: Pair)
    ensures IsOutcome(scoreA) && expectedA + expectedB == 1.0 ==> r.a + r.b == ratingA + ratingB
  {
    var scoreB := ScoreB(scoreA);
    var k := KFactor(kf, ratingA);
    assert k * (scoreA - expectedA) + k * (scoreB - expectedB) == k * ((scoreA + scoreB) - (expectedA + expectedB));
    Pair(ratingA + k * (scoreA - expectedA), ratingB + k * (scoreB - expectedB))
  }

  /** One complete match: expected scores from the ratings, then the update. */
  function Match(pow10: PositiveTable, kf: KConfig, ratingA: real, ratingB: real, scoreA: real): Pair {
    var e := ExpectedScores(pow10, ratingA, ratingB);
    NewRatings(kf, ratingA, ratingB, e.a, e.b, scoreA)
  }

  // ---------------------------------------------------------------------
  // Properties of a single match

  /** For a win, a draw or a loss, a match leaves the sum of the two ratings unchanged. */
  lemma MatchConservesTotal(pow10: Exp10, kf: KConfig, ratingA: real, ratingB: real, scoreA: real)
    requires IsOutcome(scoreA)
    ensures Match(pow10, kf, ratingA, ratingB, scoreA).a + Match(pow10, kf, ratingA, ratingB, scoreA).b == ratingA + ratingB
  {
    ExpectedScoresRange(pow10, ratingA, ratingB);
  }

  /**
   * B's update uses the K factor of A's tier, never one of its own: the
   * result depends on the configuration only through the K it gives at A's
   * rating, so two configurations that agree there give the same ratings,
   * whatever they give at B's rating.
   */
  lemma MatchUsesKOfA(pow10: PositiveTable, kf1: KConfig, kf2: KConfig, ratingA: real, ratingB: real, scoreA: real)
    requires KFactor(kf1, ratingA) == KFactor(kf2, ratingA)
    ensures Match(pow10, kf1, ratingA, ratingB, scoreA) == Match(pow10, kf2, ratingA, ratingB, scoreA)
  {
  }

  /**
   * Concretely: with tiers {2000: 16} and no default, A at 1500 and B at
   * 2100, B's rating moves by K = 32 (A's tier), not by 16 (its own).
   */
  lemma TierOfAAppliesToB(pow10: PositiveTable, scoreA: real)
    ensures var kf := Tiered(Wrappers.None, Wrappers.Some([Rule(2000, 16.0)]));
            var m := Match(pow10, kf, 1500.0, 2100.0, scoreA);
            m.b == 2100.0 + 32.0 * (ScoreB(scoreA) - ExpectedScores(pow10, 1500.0, 2100.0).b)
  {
  }

  /** A K factor of 0 leaves both ratings as they were, whatever the outcome. */
  lemma ZeroKNoChange(pow10: PositiveTable, kf: KConfig, ratingA: real, ratingB: real, scoreA: real)
    requires KFactor(kf, ratingA) == 0.0
    ensures Match(pow10, kf, ratingA, ratingB, scoreA) == Pair(ratingA, ratingB)
  {
  }

  /** With a positive K a win raises A and lowers B, and a loss does the opposite. */
  lemma WinRaisesLossLowers(pow10: Exp10, kf: KConfig, ratingA: real, ratingB: real, scoreA: real)
    requires KFactor(kf, ratingA) > 0.0
    ensures scoreA == Win ==>
      Match(pow10, kf, ratingA, ratingB, scoreA).a > ratingA && Match(pow10, kf, ratingA, ratingB, scoreA).b < ratingB
    ensures scoreA == Lost ==>
      Match(pow10, kf, ratingA, ratingB, scoreA).a < ratingA && Match(pow10, kf, ratingA, ratingB, scoreA).b > ratingB
  {
    ExpectedScoresRange(pow10, ratingA, ratingB);
    var e := ExpectedScores(pow10, ratingA, ratingB);
    var k := KFactor(kf, ratingA);
    assert k * (1.0 - e.a) > 0.0 && k * (0.0 - e.b) < 0.0;
    assert k * (0.0 - e.a) < 0.0 && k * (1.0 - e.b) > 0.0;
  }

  /**
   * Equal ratings: a win moves A up and B down by K/2, and a draw changes
   * nothing, for any K.
   */
  lemma EqualRatingsMatch(pow10: Exp10, kf: KConfig, rating: real)
    ensures Match(pow10, kf, rating, rating, Win) ==
      Pair(rating + KFactor(kf, rating) / 2.0, rating - KFactor(kf, rating) / 2.0)
    ensures Match(pow10, kf, rating, rating, Draw) == Pair(rating, rating)
  {
    ExpectedScoresEqualRatings(pow10, rating);
  }

  /** 1500 against 1500 with the default K: a win gives 1516 and 1484, a draw leaves 1500 and 1500. */
  lemma Example1500(pow10: Exp10)
    ensures Match(pow10, Absent, 1500.0, 1500.0, Win) == Pair(1516.0, 1484.0)
    ensures Match(pow10, Absent, 1500.0, 1500.0, Draw) == Pair(1500.0, 1500.0)
  {
    var k := KFactor(Absent, 1500.0);
    assert k == 32.0;
    EqualRatingsMatch(pow10, Absent, 1500.0);
    assert Match(pow10, Absent, 1500.0, 1500.0, Win) == Pair(1500.0 + k / 2.0, 1500.0 - k / 2.0);
  }
}
