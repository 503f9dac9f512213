/**
 * The inputs of a calculation and what it gives back (`setNewSettings`):
 * B is one opponent or a list of opponents that A plays one after the other,
 * A's rating carrying forward from match to match.
 */
module Series {
  import opened KFactors
  import opened Elo

  /** B's side: one rating, or the ratings of opponents met in this order. */
  datatype Opponents = One(rating: real) | Many(ratings: seq<real>)

  /** A's score: one value for every match, or one value per opponent. */
  datatype Scores = Uniform(score: real) | PerMatch(scores: seq<real>)

  /** New ratings after a calculation: A's, and B's in the shape B was given. */
  datatype Ratings = Ratings(a: real, b: Opponents)

  /** A's rating after a run of matches, and each opponent's new rating. */
  datatype Run = Run(a: real, b: seq<real>)

  /** Per-match scores are there for the first n opponents. */
  predicate Covers(sc: Scores, n: nat) {
    sc.PerMatch? ==> |sc.scores| >= n
  }

  /** The score A gets against the opponent at position i. */
  function ScoreAt(sc: Scores, i: nat): real
    requires Covers(sc, i + 1)
  {
    match sc
    case Uniform(s) => s
    case PerMatch(ss) => ss[i]
  }

  /**
   * The score used against a single opponent: the first of a list; an empty
   * list yields PHP's `false`, which takes part in the arithmetic as 0.
   */
  function FirstScore(sc: Scores): real {
    match sc
    case Uniform(s) => s
    case PerMatch(ss) => if ss == [] then 0.0 else ss[0]
  }

  /**
   * The first n matches of a run, as a left fold: A meets the opponents in
   * order, each match starting from A's rating after the previous ones, and
   * each opponent's new rating lands at that opponent's position.
   */
  function Chain(pow10: PositiveTable, kf: KConfig, ratingA: real, opponents: seq<real>, sc: Scores, n: nat): (r: Run)
    requires n <= |opponents| && Covers(sc, |opponents|)
    ensures |r.b| == n
    decreases n
  {
    if n == 0 then Run(ratingA, [])
    else
      var before := Chain(pow10, kf, ratingA, opponents, sc, n - 1);
      var m := Match(pow10, kf, before.a, opponents[n - 1], ScoreAt(sc, n - 1));
      Run(m.a, before.b + [m.b])
  }

  /** The sequential update: the run of Elo matches against all the opponents. */
  function Sequential(pow10: PositiveTable, kf: KConfig, ratingA: real, opponents: seq<real>, sc: Scores): (r: Run)
    requires Covers(sc, |opponents|)
    ensures |r.b| == |opponents|
  {
    Chain(pow10, kf, ratingA, opponents, sc, |opponents|)
  }

  /** The whole calculation, for either shape of B. */
  function Update(pow10: PositiveTable, kf: KConfig, ratingA: real, ratingB: Opponents, sc: Scores): Ratings
    requires ratingB.Many? ==> Covers(sc, |ratingB.ratings|)
  {
    match ratingB
    case One(rb) =>
      var m := Match(pow10, kf, ratingA, rb, FirstScore(sc));
      Ratings(m.a, One(m.b))
    case Many(rbs) =>
      var r := Sequential(pow10, kf, ratingA, rbs, sc);
      Ratings(r.a, Many(r.b))
  }

  /** The sum of a list of ratings. */
  function Sum(s: seq<real>): real
    decreases |s|
  {
    if s == [] then 0.0 else Sum(s[..|s| - 1]) + s[|s| - 1]
  }

  // ---------------------------------------------------------------------
  // Properties of the calculation

  /** The first n matches depend only on the first n opponents. */
  lemma {:induction false} ChainTake(pow10: PositiveTable, kf: KConfig, ratingA: real, opponents: seq<real>, sc: Scores, n: nat)
    requires n <= |opponents| && Covers(sc, |opponents|)
    ensures Chain(pow10, kf, ratingA, opponents, sc, n) == Chain(pow10, kf, ratingA, opponents[..n], sc, n)
    decreases n
  {
    if n > 0 {
      ChainTake(pow10, kf, ratingA, opponents, sc, n - 1);
      ChainTake(pow10, kf, ratingA, opponents[..n], sc, n - 1);
      assert opponents[..n][..n - 1] == opponents[..n - 1];
      assert opponents[..n][n - 1] == opponents[n - 1];
    }
  }

  /** After n matches, B's first i entries are as they were after i matches. */
  lemma {:induction false} ChainStable(pow10: PositiveTable, kf: KConfig, ratingA: real, opponents: seq<real>, sc: Scores, n: nat, i: nat)
    requires i <= n <= |opponents| && Covers(sc, |opponents|)
    ensures Chain(pow10, kf, ratingA, opponents, sc, n).b[..i] == Chain(pow10, kf, ratingA, opponents, sc, i).b
    decreases n
  {
    if i < n {
      ChainStable(pow10, kf, ratingA, opponents, sc, n - 1, i);
      var before := Chain(pow10, kf, ratingA, opponents, sc, n - 1).b;
      assert Chain(pow10, kf, ratingA, opponents, sc, n).b[..n - 1] == before;
    }
  }

  /**
   * One more match extends the run: when entries 0..i-1 of a list and A's
   * running rating are the first i matches, playing match i and writing B's
   * result at position i gives the first i + 1 matches.
   */
  lemma ChainExtend(pow10: PositiveTable, kf: KConfig, ratingA: real, opponents: seq<real>, sc: Scores, i: nat,
                    a: real, b: seq<real>, a': real, nb: real)
    requires i < |opponents| && Covers(sc, |opponents|) && i < |b|
    requires Run(a, b[..i]) == Chain(pow10, kf, ratingA, opponents, sc, i)
    requires Pair(a', nb) == Match(pow10, kf, a, opponents[i], ScoreAt(sc, i))
    ensures Run(a', b[i := nb][..i + 1]) == Chain(pow10, kf, ratingA, opponents, sc, i + 1)
  {
    assert b[i := nb][..i + 1] == b[..i] + [nb];
  }

  /**
   * The run over the first i opponents is the first i matches of the whole
   * run: A's rating before match i, and B's first i entries.
   */
  lemma SequentialPrefix(pow10: PositiveTable, kf: KConfig, ratingA: real, opponents: seq<real>, sc: Scores, i: nat)
    requires Covers(sc, |opponents|) && i <= |opponents|
    ensures Sequential(pow10, kf, ratingA, opponents[..i], sc) == Chain(pow10, kf, ratingA, opponents, sc, i)
    ensures Sequential(pow10, kf, ratingA, opponents, sc).b[..i] == Sequential(pow10, kf, ratingA, opponents[..i], sc).b
  {
    ChainTake(pow10, kf, ratingA, opponents, sc, i);
    ChainStable(pow10, kf, ratingA, opponents, sc, |opponents|, i);
  }

  /**
   * Entry i of B's output is B's result of one match between A, as rated
   * after the matches before i, and opponent i; A's final rating is the
   * result of the last match.
   */
  lemma SequentialEntry(pow10: PositiveTable, kf: KConfig, ratingA: real, opponents: seq<real>, sc: Scores, i: nat)
    requires Covers(sc, |opponents|) && i < |opponents|
    ensures Sequential(pow10, kf, ratingA, opponents, sc).b[i] ==
      Match(pow10, kf, Sequential(pow10, kf, ratingA, opponents[..i], sc).a, opponents[i], ScoreAt(sc, i)).b
    ensures i == |opponents| - 1 ==> (Sequential(pow10, kf, ratingA, opponents, sc).a ==
      Match(pow10, kf, Sequential(pow10, kf, ratingA, opponents[..i], sc).a, opponents[i], ScoreAt(sc, i)).a)
  {
    SequentialPrefix(pow10, kf, ratingA, opponents, sc, i);
    ChainStable(pow10, kf, ratingA, opponents, sc, |opponents|, i + 1);
    var upto := Chain(pow10, kf, ratingA, opponents, sc, i + 1);
    assert upto.b[i] == Sequential(pow10, kf, ratingA, opponents, sc).b[..i + 1][i];
  }

  /** With a single score, every match of the run uses that score. */
  lemma UniformScoreReused(pow10: PositiveTable, kf: KConfig, ratingA: real, opponents: seq<real>, s: real, i: nat)
    requires i < |opponents|
    ensures Sequential(pow10, kf, ratingA, opponents, Uniform(s)).b[i] ==
      Match(pow10, kf, Sequential(pow10, kf, ratingA, opponents[..i], Uniform(s)).a, opponents[i], s).b
  {
    SequentialEntry(pow10, kf, ratingA, opponents, Uniform(s), i);
  }

  /** No opponents: A keeps its rating and B's list is empty. */
  lemma NoOpponents(pow10: PositiveTable, kf: KConfig, ratingA: real, sc: Scores)
    ensures Update(pow10, kf, ratingA, Many([]), sc) == Ratings(ratingA, Many([]))
  {
  }

  /** B's output has one entry per opponent, whatever the scores. */
  lemma UpdateKeepsShape(pow10: PositiveTable, kf: KConfig, ratingA: real, ratingB: Opponents, sc: Scores)
    requires ratingB.Many? ==> Covers(sc, |ratingB.ratings|)
    ensures ratingB.One? <==> Update(pow10, kf, ratingA, ratingB, sc).b.One?
    ensures ratingB.Many? ==> |Update(pow10, kf, ratingA, ratingB, sc).b.ratings| == |ratingB.ratings|
  {
  }

  /** Against one opponent, only the first score of a list is used. */
  lemma SingleOpponentUsesFirstScore(pow10: PositiveTable, kf: KConfig, ratingA: real, rb: real, s: real, rest: seq<real>)
    ensures Update(pow10, kf, ratingA, One(rb), PerMatch([s] + rest)) == Update(pow10, kf, ratingA, One(rb), Uniform(s))
  {
  }

  /**
   * Against one opponent, an empty list of scores acts as a loss: the first
   * element of an empty list is PHP's `false`, which counts as 0.
   */
  lemma EmptyScoreListActsAsLoss(pow10: PositiveTable, kf: KConfig, ratingA: real, rb: real)
    ensures Update(pow10, kf, ratingA, One(rb), PerMatch([])) == Update(pow10, kf, ratingA, One(rb), Uniform(Lost))
  {
  }

  /** When every score is an outcome, the first n matches keep the total of A's and the opponents' ratings. */
  lemma {:induction false} ChainConservesTotal(pow10: Exp10, kf: KConfig, ratingA: real, opponents: seq<real>, sc: Scores, n: nat)
    requires n <= |opponents| && Covers(sc, |opponents|)
    requires forall i: nat :: i < n ==> IsOutcome(ScoreAt(sc, i))
    ensures var r := Chain(pow10, kf, ratingA, opponents, sc, n); r.a + Sum(r.b) == ratingA + Sum(opponents[..n])
    decreases n
  {
    if n > 0 {
      ChainConservesTotal(pow10, kf, ratingA, opponents, sc, n - 1);
      ChainStepTotal(pow10, kf, ratingA, opponents, sc, n);
      SumTakeSnoc(opponents, n);
    }
  }

  /**
   * Match n of a run, when its score is an outcome, adds opponent n's rating
   * to the total of A's rating and B's entries.
   */
  lemma ChainStepTotal(pow10: Exp10, kf: KConfig, ratingA: real, opponents: seq<real>, sc: Scores, n: nat)
    requires 0 < n <= |opponents| && Covers(sc, |opponents|)
    requires IsOutcome(ScoreAt(sc, n - 1))
    ensures var before := Chain(pow10, kf, ratingA, opponents, sc, n - 1);
      var after := Chain(pow10, kf, ratingA, opponents, sc, n);
      after.a + Sum(after.b) == before.a + Sum(before.b) + opponents[n - 1]
  {
    var before := Chain(pow10, kf, ratingA, opponents, sc, n - 1);
    MatchConservesTotal(pow10, kf, before.a, opponents[n - 1], ScoreAt(sc, n - 1));
    var m := Match(pow10, kf, before.a, opponents[n - 1], ScoreAt(sc, n - 1));
    SumSnoc(before.b, m.b);
  }

  /** Appending one rating adds it to the sum. */
  lemma SumSnoc(s: seq<real>, x: real)
    ensures Sum(s + [x]) == Sum(s) + x
  {
    assert (s + [x])[..|s|] == s;
  }

  /** The sum of the first n ratings is that of the first n - 1 plus rating n - 1. */
  lemma SumTakeSnoc(s: seq<real>, n: nat)
    requires 0 < n <= |s|
    ensures Sum(s[..n]) == Sum(s[..n - 1]) + s[n - 1]
  {
    assert s[..n][..n - 1] == s[..n - 1];
  }

  /**
   * When every score is a win, a draw or a loss, a run leaves the total
   * of A's rating and all opponents' ratings unchanged.
   */
  lemma SequentialConservesTotal(pow10: Exp10, kf: KConfig, ratingA: real, opponents: seq<real>, sc: Scores)
    requires Covers(sc, |opponents|)
    requires forall i: nat :: i < |opponents| ==> IsOutcome(ScoreAt(sc, i))
    ensures var r := Sequential(pow10, kf, ratingA, opponents, sc); r.a + Sum(r.b) == ratingA + Sum(opponents)
  {
    ChainConservesTotal(pow10, kf, ratingA, opponents, sc, |opponents|);
    assert opponents[..|opponents|] == opponents;
  }
}
