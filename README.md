# Elo rating calculator

A model of the PHP class `Rating` (`src/Rating/Rating.php`). The class
calculates new Elo ratings for player A and player B:

- The expected scores are logistic: `1 / (1 + 10^((rb - ra) / 400))` for A,
  and the symmetric formula for B.
- B's score is derived from A's: a draw stays a draw, 0 becomes 1, and
  anything else becomes 0.
- Both players move by the same K factor, and that K is resolved from A's
  rating.
- The K factor is 32 by default. It can also be a single value, or a tiered
  configuration with a `default` and a list of `rules` (`limit => k`).
- B can be one opponent or a list of opponents. A list is played in order.
  A's rating carries forward from match to match, and each opponent's entry
  is overwritten by its new rating.

Modules:

- `KFactors` (`kfactor.dfy`): the K configuration (`KConfig`) and its
  resolution (`KFactor`). It also holds the properties of tier selection.
- `Elo` (`elo.dfy`): one match. This covers B's score, the expected scores and
  the rating update, with the facts proved about a single match.
- `Series` (`series.dfy`): the inputs and outputs of a calculation. The run
  against a list of opponents is specified as a left fold (`Chain`) of one
  match step.
- `Calculator` (`rating.dfy`): the class `Rating`. It holds the same fields as
  the PHP object, and its methods update them in place. `GetKFactor` is the
  source's loop over the rules, and `PlayInOrder` is its loop over the
  opponents. Each method is proved against the functions of the other modules.
- `Wrappers` (`wrappers.dfy`): an `Option` type for the keys the source tests
  with `??` and `isset`.

`pow(10, x)` is a parameter of the calculator: a table of powers (an
infinite map from every real exponent to its value). The calculation needs
only that every value is positive (`PositiveTable`). The lemmas about
expected scores and the conservation of the total rating also ask that values
at opposite exponents are reciprocal (`Exp10`), as `10^x * 10^-x = 1`. Those
two facts are all the model assumes about the powers of ten.

## Model

| member | source | states |
|---|---|---|
| Elo.ScoreB | src/Rating/Rating.php:151 | B's score is always one of the three outcomes. It is a draw exactly when A's is and a win exactly when A's is 0. On an outcome, A's and B's scores sum to 1. |
| Elo.ScoreBInvolution | src/Rating/Rating.php:151 | On the three outcomes, deriving B's score twice gives A's score back. |
| Elo.ReciprocalShares | src/Rating/Rating.php:132-133 | For positive reciprocals u and v, 1/(1+u) and 1/(1+v) each lie strictly between 0 and 1 and sum to 1. |
| Elo.ExpectedScores | src/Rating/Rating.php:130-139 | Defines the two logistic expected scores, 1/(1+10^((B-A)/400)) for A and 1/(1+10^((A-B)/400)) for B, looked up in the table of powers. Its properties are in ExpectedScoresRange, ExpectedScoresSwap and ExpectedScoresEqualRatings. |
| Elo.ExpectedScoresRange | src/Rating/Rating.php:130-139 | Both expected scores lie strictly between 0 and 1, and they sum to 1. |
| Elo.ExpectedScoresSwap | src/Rating/Rating.php:132-133 | Swapping the two ratings swaps the two expected scores. |
| Elo.ExpectedScoresEqualRatings | src/Rating/Rating.php:132-133 | Equal ratings give each side an expected score of 1/2. |
| Elo.Pow10Zero | src/Rating/Rating.php:132-133 | A positive, reciprocal table of powers gives 1 at exponent 0. |
| Elo.NewRatings | src/Rating/Rating.php:149-160 | When A's score is an outcome and the expected scores sum to 1, A gains exactly what B loses. |
| Elo.Match | src/Rating/Rating.php:71-77 | Defines one complete match, the step the source runs at lines 71-77 and again in every pass of lines 86-93: the expected scores from the current ratings, then the update. Its properties are in MatchConservesTotal, MatchUsesKOfA, ZeroKNoChange, WinRaisesLossLowers and EqualRatingsMatch. |
| Elo.MatchConservesTotal | src/Rating/Rating.php:151-154 | For a win, a draw or a loss, one match leaves the sum of the two ratings unchanged. |
| Elo.MatchUsesKOfA | src/Rating/Rating.php:153-154 | A match depends on the K configuration only through the K it gives at A's rating. B's own tier plays no part. |
| Elo.TierOfAAppliesToB | src/Rating/Rating.php:154 | With the tier {2000: 16}, A at 1500 and B at 2100, B moves by K = 32 (A's tier), not by 16. |
| Elo.ZeroKNoChange | src/Rating/Rating.php:153-154 | A K of 0 leaves both ratings as they were, whatever the score. |
| Elo.WinRaisesLossLowers | src/Rating/Rating.php:151-154 | With a positive K, a win raises A and lowers B, and a loss does the opposite. |
| Elo.EqualRatingsMatch | src/Rating/Rating.php:149-160 | Between equal ratings, a win moves A up and B down by K/2, and a draw changes nothing. |
| Elo.Example1500 | src/Rating/Rating.php:149-160 | 1500 against 1500 with the default K: a win gives 1516 and 1484, and a draw gives 1500 and 1500. |
| KFactors.IsEmpty | src/Rating/Rating.php:164 | Defines the configurations that resolve to 32 before any tier is examined: absent, a scalar 0, and an array with neither `default` nor `rules`. The last of these is not `empty()` in PHP, but it reaches line 174 and gets 32 there as well. NonTieredK and TieredWithoutRules state the results. |
| KFactors.TieredBase | src/Rating/Rating.php:172 | Defines the value the tiered form starts from: its `default`, or 32 when there is none. TieredWithoutRules and TieredWithRules state where it is the result. |
| KFactors.LastMatch | src/Rating/Rating.php:177-183 | Defines the scan over the tiers in the listed order, in which each applicable tier overrides the value before it. LastMatchNoneApplies and LastMatchLastApplies characterise it. |
| KFactors.KFactor | src/Rating/Rating.php:162-184 | Defines the K factor at A's rating for each shape of configuration. NonTieredK, TieredWithoutRules and TieredWithRules state it case by case, and Calculator.Rating.GetKFactor is proved equal to it. |
| KFactors.Normalize | src/Rating/Rating.php:113-121 | Storing a configuration (with the reverse key sort) leaves the K factor at every rating as it was. |
| KFactors.NonTieredK | src/Rating/Rating.php:164-170 | An absent configuration gives 32, a scalar 0 gives 32, and any other scalar is returned as it is. |
| KFactors.TieredWithoutRules | src/Rating/Rating.php:172-175 | A tiered configuration without `rules` gives its `default`, or 32 when that is missing, at any rating. |
| KFactors.LastMatchNoneApplies | src/Rating/Rating.php:177-183 | When no tier applies, the scan over the tiers gives its starting value. |
| KFactors.LastMatchLastApplies | src/Rating/Rating.php:177-183 | When tier i applies and no tier listed after it does, the scan gives tier i's value. |
| KFactors.TieredWithRules | src/Rating/Rating.php:172-183 | With rules: the base value when no tier applies, otherwise the value of the last applicable tier in the caller's order. |
| KFactors.AscendingPicksHighestThreshold | src/Rating/Rating.php:177-183 | With tiers listed in ascending order, the highest threshold not above A's rating decides. |
| KFactors.DescendingPicksLowestThreshold | src/Rating/Rating.php:177-183 | With tiers listed in descending order, the lowest threshold not above A's rating decides. |
| KFactors.TieredExample | src/Rating/Rating.php:172-183 | {default 32, 2400: 16, 2000: 24} gives 24 at 2100, 32 at 1900 and 24 at 2500. Listed the other way round, it gives 16 at 2500. |
| Series.ScoreAt | src/Rating/Rating.php:90 | Defines the score against the opponent at position i: the single score, or entry i of the list. UniformScoreReused and SequentialEntry state how the run uses it. |
| Series.FirstScore | src/Rating/Rating.php:75 | Defines the score used against one opponent: the single score, or the first of a list, with 0 (PHP's `false`) for an empty list. SingleOpponentUsesFirstScore and EmptyScoreListActsAsLoss state its effect on the calculation. |
| Series.Chain | src/Rating/Rating.php:82-94 | After n matches, the run holds one new rating for each of the first n opponents. |
| Series.Sequential | src/Rating/Rating.php:82-94 | The run against a list gives exactly one new rating per opponent. |
| Series.Update | src/Rating/Rating.php:64-98 | Defines the whole calculation: one match against a single opponent, or the sequential run against a list. Its properties are in UpdateKeepsShape, NoOpponents, SingleOpponentUsesFirstScore, EmptyScoreListActsAsLoss and SequentialConservesTotal, and Calculator.Rating.SetNewSettings is proved equal to it. |
| Series.ChainExtend | src/Rating/Rating.php:86-93 | When A's running rating and the first i entries are the first i matches, playing match i and writing B's result at position i gives the first i + 1 matches. |
| Series.ChainTake | src/Rating/Rating.php:85-94 | The first n matches depend only on the first n opponents. |
| Series.ChainStable | src/Rating/Rating.php:85-94 | Later matches never change an entry written by an earlier one. |
| Series.SequentialPrefix | src/Rating/Rating.php:85-94 | The run over the first i opponents is the first i matches of the whole run. |
| Series.SequentialEntry | src/Rating/Rating.php:85-94 | Entry i is B's result of one match between opponent i and A as rated after the matches before i. A's final rating is A's result of the last match. |
| Series.UniformScoreReused | src/Rating/Rating.php:90 | With a single score, every match of the run uses that score. |
| Series.NoOpponents | src/Rating/Rating.php:82-85 | No opponents: A keeps its rating and B's list is empty. |
| Series.UpdateKeepsShape | src/Rating/Rating.php:70-94 | B's output has B's shape (one rating or a list), and the list has one entry per opponent. |
| Series.SingleOpponentUsesFirstScore | src/Rating/Rating.php:75 | Against one opponent, a list of scores acts as its first score alone. |
| Series.EmptyScoreListActsAsLoss | src/Rating/Rating.php:75 | Against one opponent, an empty list of scores gives the same result as a loss (score 0). |
| Series.ChainStepTotal | src/Rating/Rating.php:86-93 | When the score of match n is an outcome, that match adds exactly opponent n's rating to the total of A's rating and B's entries. |
| Series.ChainConservesTotal | src/Rating/Rating.php:85-94 | When the first n scores are wins, draws or losses, A's rating plus the first n new entries equals A's rating plus the first n opponents' ratings. |
| Series.SequentialConservesTotal | src/Rating/Rating.php:85-94 | When every score is a win, a draw or a loss, the run keeps the sum of A's rating and all the opponents' ratings. |
| Calculator.Rating.constructor | src/Rating/Rating.php:47-54 | The configuration is stored as `setKFactor` stores it, the inputs are stored, and the new ratings are the calculation's result. |
| Calculator.Rating.SetKFactor | src/Rating/Rating.php:113-121 | The stored configuration is the normalised one, and the K it gives is the same at every rating. |
| Calculator.Rating.GetKFactor | src/Rating/Rating.php:162-184 | The loop over the rules returns the K that the configuration gives at A's rating. |
| Calculator.Rating.ComputeNewRatings | src/Rating/Rating.php:149-160 | Computes the update of both ratings, with K resolved twice from A's rating. |
| Calculator.Rating.SetNewSettings | src/Rating/Rating.php:64-98 | Stores the inputs and computes the new ratings of either shape. Left behind are the expected scores of the single match, of the last match of a list, or the earlier ones when the list is empty. |
| Calculator.Rating.PlayInOrder | src/Rating/Rating.php:82-94 | The loop over the opponents leaves A's running rating and the overwritten list equal to the sequential run. The expected scores left behind are those of the last match, from A's rating after the matches before it; with no opponents they are unchanged. |
| Calculator.Rating.PlayOne | src/Rating/Rating.php:86-93 | One pass of that loop stores the expected scores against A's running rating and replaces that rating by its new value. |
| Calculator.Rating.GetNewRatings | src/Rating/Rating.php:105-111 | Returns the stored results as they are. |
| Calculator.WinBetweenEquals | src/Rating/Rating.php:47-111 | A calculator built for 1500 beating 1500 with the default K reports 1516 and 1484. |
| Calculator.RecalculateSame | src/Rating/Rating.php:64-111 | Calculating twice with the same inputs gives the same results both times. Nothing of the earlier calculation leaks into the next. |

## Left out

- Floating point: ratings, scores and expected scores are exact reals. `pow(10, x)` is a table of powers of which only positivity and reciprocity at opposite exponents are known, so no concrete expected score other than 1/2 is computed.
- PHP's loose typing: numeric strings, integer-versus-float distinctions and `(int)` casts of non-numeric values are not modelled. The strict `=== 0.5` test on line 151 is modelled as a comparison of reals.
- Associative keys of B's list and of the score list: they are modelled as positions 0..n-1. A score list keyed differently from B's list is not modelled.
- Series.Sequential: a score list shorter than the opponent list is a precondition (`Covers`). The PHP code would read missing keys as null.
- Calculator.Rating.constructor: the path where it is called without ratings is not modelled. That path only stores the K configuration and leaves the results unset.
- KFactors.Normalize: `krsort` is modelled as the identity. On an array whose only keys are `rules` and `default`, it changes no lookup. A plain threshold map without a `rules` key is represented without its thresholds, as `Tiered(None, None)`, or as `Tiered(Some(d), None)` when it has a `default`. That gives the same K the source gives, 32 or the `default`, because line 173 returns before any threshold is read.
- The `_scoreB` field is declared but never assigned by the class, so it is not part of the model.
- KFactors.KFactor: the tier choice follows the code. The last applicable rule in the caller's order wins. This is the highest applicable threshold only when the rules are listed in ascending order (see AscendingPicksHighestThreshold and DescendingPicksLowestThreshold).
