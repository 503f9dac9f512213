/**
 * K-factor configuration and its resolution against A's rating
 * (`setKFactor` and `_getKFactor` of the `Rating` class).
 */
module KFactors {
  import opened Wrappers

  /** The constant K used when nothing else applies. */
  const DefaultK: real := 32.0

  /** One tier: from `limit` upwards (inclusive), K is `k`. */
  datatype Rule = Rule(limit: int, k: real)

  /**
   * The three shapes the configuration can take. `Tiered` is the array form:
   * its optional `default` entry and its optional `rules` entry, whose tiers
   * stay in the order the caller listed them.
   */
  datatype KConfig =
    | Absent
    | Scalar(k: real)
    | Tiered(default: Option<real>, rules: Option<seq<Rule>>)

  /**
   * The configurations that resolve to the constant default before any tier
   * is looked at: an absent configuration, a scalar 0, and an array with
   * neither `default` nor `rules` (which reaches the tier code and gets 32
   * there, just as an empty array does at the start).
   */
  predicate IsEmpty(kf: KConfig) {
    match kf
    case Absent => true
    case Scalar(k) => k == 0.0
    case Tiered(d, rs) => d.None? && rs.None?
  }

  /** Whether the tier `r` applies to a player rated `rating`. */
  predicate Applies(r: Rule, rating: real) {
    rating >= r.limit as real
  }

  /**
   * The value of the last tier, in the listed order, that applies to
   * `rating`; `otherwise` when none applies.
   */
  function LastMatch(rules: seq<Rule>, rating: real, otherwise: real): real
    decreases |rules|
  {
    if rules == [] then otherwise
    else if Applies(rules[|rules| - 1], rating) then rules[|rules| - 1].k
    else LastMatch(rules[..|rules| - 1], rating, otherwise)
  }

  /** The value the tiered form starts from: its `default`, else 32. */
  function TieredBase(d: Option<real>): real {
    d.GetOr(DefaultK)
  }

  /** The K factor that configuration `kf` gives a match in which A is rated `ratingA`. */
  function KFactor(kf: KConfig, ratingA: real): real {
    if IsEmpty(kf) then DefaultK
    else match kf
      case Absent => DefaultK
      case Scalar(k) => k
      case Tiered(d, rs) =>
        if rs.None? then TieredBase(d) else LastMatch(rs.value, ratingA, TieredBase(d))
  }

  /**
   * Storing a configuration: the source sorts the array form by its keys in
   * reverse order, and with only the keys `rules` and `default` that leaves
   * every lookup as it was, so the configuration is stored unchanged.
   */
  function Normalize(kf: KConfig): (r: KConfig)
    ensures forall rating: real :: KFactor(r, rating) == KFactor(kf, rating)
  {
    kf
  }

  // ---------------------------------------------------------------------
  // Properties of the resolution

  /**
   * The non-tiered shapes: an empty configuration gives 32, so a scalar 0 is
   * read as 32 rather than 0; any other scalar is returned as it is.
   */
  lemma NonTieredK(kf: KConfig, ratingA: real)
    requires !kf.Tiered?
    ensures kf.Absent? ==> KFactor(kf, ratingA) == 32.0
    ensures kf == Scalar(0.0) ==> KFactor(kf, ratingA) == 32.0
    ensures kf.Scalar? && kf.k != 0.0 ==> KFactor(kf, ratingA) == kf.k
  {
  }

  /**
   * The tiered shape without `rules`: its `default`, or 32 when that is
   * missing, whatever A's rating. A `default` of 0 stays 0.
   */
  lemma TieredWithoutRules(d: Option<real>, ratingA: real)
    ensures KFactor(Tiered(d, None), ratingA) == if d.Some? then d.value else 32.0
  {
  }

  /** LastMatch is the fallback when no listed tier applies. */
  lemma {:induction false} LastMatchNoneApplies(rules: seq<Rule>, rating: real, otherwise: real)
    requires forall j :: 0 <= j < |rules| ==> !Applies(rules[j], rating)
    ensures LastMatch(rules, rating, otherwise) == otherwise
    decreases |rules|
  {
    if rules != [] {
      var front := rules[..|rules| - 1];
      assert forall j :: 0 <= j < |front| ==> front[j] == rules[j];
      LastMatchNoneApplies(front, rating, otherwise);
    }
  }

  /**
   * LastMatch is the value of the tier at position i when that tier applies
   * and none listed after it does.
   */
  lemma {:induction false} LastMatchLastApplies(rules: seq<Rule>, rating: real, otherwise: real, i: nat)
    requires i < |rules| && Applies(rules[i], rating)
    requires forall j :: i < j < |rules| ==> !Applies(rules[j], rating)
    ensures LastMatch(rules, rating, otherwise) == rules[i].k
    decreases |rules|
  {
    if i < |rules| - 1 {
      var front := rules[..|rules| - 1];
      assert forall j :: 0 <= j < |front| ==> front[j] == rules[j];
      LastMatchLastApplies(front, rating, otherwise, i);
    }
  }

  /** With rules, the tiered shape gives the last applicable tier's value, else the base. */
  lemma TieredWithRules(d: Option<real>, rules: seq<Rule>, ratingA: real)
    ensures (forall j :: 0 <= j < |rules| ==> !Applies(rules[j], ratingA)) ==>
              KFactor(Tiered(d, Some(rules)), ratingA) == TieredBase(d)
    ensures forall i: nat :: (i < |rules| && Applies(rules[i], ratingA) &&
              (forall j :: i < j < |rules| ==> !Applies(rules[j], ratingA))) ==>
              KFactor(Tiered(d, Some(rules)), ratingA) == rules[i].k
  {
    if forall j :: 0 <= j < |rules| ==> !Applies(rules[j], ratingA) {
      LastMatchNoneApplies(rules, ratingA, TieredBase(d));
    }
    forall i: nat | i < |rules| && Applies(rules[i], ratingA) &&
              (forall j :: i < j < |rules| ==> !Applies(rules[j], ratingA))
      ensures KFactor(Tiered(d, Some(rules)), ratingA) == rules[i].k
    {
      LastMatchLastApplies(rules, ratingA, TieredBase(d), i);
    }
  }

  /** The tiers are listed with strictly increasing thresholds. */
  predicate Ascending(rules: seq<Rule>) {
    forall i, j :: 0 <= i < j < |rules| ==> rules[i].limit < rules[j].limit
  }

  /** The tiers are listed with strictly decreasing thresholds. */
  predicate Descending(rules: seq<Rule>) {
    forall i, j :: 0 <= i < j < |rules| ==> rules[i].limit > rules[j].limit
  }

  /**
   * Listed in ascending order, the tiers give the value of the highest
   * threshold not above A's rating.
   */
  lemma AscendingPicksHighestThreshold(d: Option<real>, rules: seq<Rule>, ratingA: real, i: nat)
    requires Ascending(rules)
    requires i < |rules| && Applies(rules[i], ratingA)
    requires forall j :: 0 <= j < |rules| && Applies(rules[j], ratingA) ==> rules[j].limit <= rules[i].limit
    ensures KFactor(Tiered(d, Some(rules)), ratingA) == rules[i].k
  {
    TieredWithRules(d, rules, ratingA);
  }

  /**
   * Listed in descending order (the order the rules are usually written in),
   * the tiers give the value of the LOWEST threshold not above A's rating,
   * since that tier comes last among those that apply.
   */
  lemma DescendingPicksLowestThreshold(d: Option<real>, rules: seq<Rule>, ratingA: real, i: nat)
    requires Descending(rules)
    requires i < |rules| && Applies(rules[i], ratingA)
    requires forall j :: 0 <= j < |rules| && Applies(rules[j], ratingA) ==> rules[j].limit >= rules[i].limit
    ensures KFactor(Tiered(d, Some(rules)), ratingA) == rules[i].k
  {
    forall j | i < j < |rules| ensures !Applies(rules[j], ratingA) {
      assert rules[i].limit > rules[j].limit;
    }
    LastMatchLastApplies(rules, ratingA, TieredBase(d), i);
  }

  /**
   * The configuration {default: 32, rules: {2400: 16, 2000: 24}}: 24 at
   * 2100, 32 below 2000, and 24 again at 2500, where the 2000 tier, listed
   * after the 2400 one, overrides it.
   */
  lemma TieredExample()
    ensures KFactor(Tiered(Some(32.0), Some([Rule(2400, 16.0), Rule(2000, 24.0)])), 2100.0) == 24.0
    ensures KFactor(Tiered(Some(32.0), Some([Rule(2400, 16.0), Rule(2000, 24.0)])), 1900.0) == 32.0
    ensures KFactor(Tiered(Some(32.0), Some([Rule(2400, 16.0), Rule(2000, 24.0)])), 2500.0) == 24.0
    ensures KFactor(Tiered(Some(32.0), Some([Rule(2000, 24.0), Rule(2400, 16.0)])), 2500.0) == 16.0
  {
    var rules := [Rule(2400, 16.0), Rule(2000, 24.0)];
    assert rules[..1] == [Rule(2400, 16.0)];
    assert [Rule(2400, 16.0)][..0] == [];
    assert LastMatch(rules, 1900.0, 32.0) == LastMatch([Rule(2400, 16.0)], 1900.0, 32.0) == 32.0;
  }
}
