/** Risk scores, tiers, and the three use cases that move a customer between tiers. */
module Risk {
  import opened Common

  datatype Tier = Minimum | Full | Edd

  function Rank(t: Tier): nat {
    match t
    case Minimum => 0
    case Full => 1
    case Edd => 2
  }

  // ---- Scores ----

  const EDD_THRESHOLD := 60
  const MAX_SCORE := 100

  /** A stored score: rounded, between 0 and 100. */
  type Score = n: int | 0 <= n <= MAX_SCORE

  /** Math.round: to the nearest integer, halves upwards. */
  function Round(x: real): int {
    (x + 0.5).Floor
  }

  function Clamp(x: real): real {
    if x < 0.0 then 0.0 else if x > 100.0 then 100.0 else x
  }

  /** `RiskScore.create` on a clamped number never throws. */
  function ToScore(x: real): (s: Score)
    ensures 0.0 <= x <= 100.0 ==> x - 0.5 < s as real <= x + 0.5
  {
    Round(Clamp(x))
  }

  predicate ExceedsEddThreshold(s: Score) {
    s > EDD_THRESHOLD
  }

  datatype Factors = Factors(productType: real, transactionAnomaly: real, jurisdictionalRisk: real, pepStatus: real, amlResults: real)

  predicate InRange(x: real) {
    0.0 <= x <= 100.0
  }

  predicate ValidInputs(f: Factors) {
    InRange(f.productType) && InRange(f.transactionAnomaly) && InRange(f.jurisdictionalRisk) && InRange(f.pepStatus) && InRange(f.amlResults)
  }

  function Weighted(f: Factors): Factors {
    Factors(f.productType * 0.2, f.transactionAnomaly * 0.25, f.jurisdictionalRisk * 0.2, f.pepStatus * 0.15, f.amlResults * 0.2)
  }

  function Total(f: Factors): real {
    f.productType + f.transactionAnomaly + f.jurisdictionalRisk + f.pepStatus + f.amlResults
  }

  datatype RiskError = FactorOutOfRange | NotAForwardMove | CustomerNotFound | RequestNotFound | InvalidEscalationTarget

  function WeightedScore(f: Factors): Result<(Score, Factors), RiskError> {
    if !ValidInputs(f) then Err(FactorOutOfRange) else Ok((ToScore(Total(Weighted(f))), Weighted(f)))
  }

  predicate AtMost(f: Factors, g: Factors) {
    f.productType <= g.productType && f.transactionAnomaly <= g.transactionAnomaly && f.jurisdictionalRisk <= g.jurisdictionalRisk
    && f.pepStatus <= g.pepStatus && f.amlResults <= g.amlResults
  }

  function Uniform(x: real): Factors {
    Factors(x, x, x, x, x)
  }

  /**
   The weights add up to one, so the score is an average: it lies between the
   smallest and the largest factor, never needs clamping, and grows with every
   factor.
   */
  lemma WeightedScoreIsAverage(f: Factors, low: real, high: real)
    requires ValidInputs(f) && AtMost(Uniform(low), f) && AtMost(f, Uniform(high))
    ensures low <= Total(Weighted(f)) <= high
    ensures InRange(Total(Weighted(f)))
  {}

  /** The five weights, as what each factor at its maximum contributes alone. */
  lemma SingleFactorScores()
    ensures WeightedScore(Factors(100.0, 0.0, 0.0, 0.0, 0.0)) == Ok((20, Factors(20.0, 0.0, 0.0, 0.0, 0.0)))
    ensures WeightedScore(Factors(0.0, 100.0, 0.0, 0.0, 0.0)) == Ok((25, Factors(0.0, 25.0, 0.0, 0.0, 0.0)))
    ensures WeightedScore(Factors(0.0, 0.0, 100.0, 0.0, 0.0)) == Ok((20, Factors(0.0, 0.0, 20.0, 0.0, 0.0)))
    ensures WeightedScore(Factors(0.0, 0.0, 0.0, 100.0, 0.0)) == Ok((15, Factors(0.0, 0.0, 0.0, 15.0, 0.0)))
    ensures WeightedScore(Factors(0.0, 0.0, 0.0, 0.0, 100.0)) == Ok((20, Factors(0.0, 0.0, 0.0, 0.0, 20.0)))
  {}

  lemma UniformFactorsScore(n: Score)
    ensures WeightedScore(Uniform(n as real)).Ok? && WeightedScore(Uniform(n as real)).value.0 == n
  {
    assert Total(Weighted(Uniform(n as real))) == n as real;
  }

  lemma WeightedScoreMonotone(f: Factors, g: Factors)
    requires ValidInputs(f) && ValidInputs(g) && AtMost(f, g)
    ensures WeightedScore(f).value.0 <= WeightedScore(g).value.0
  {
    assert Total(Weighted(f)) <= Total(Weighted(g));
  }

  /** The score as stored, after clamping and rounding, lies between any whole numbers that bound all five factors. */
  lemma ScoreWithinFactors(f: Factors, low: Score, high: Score)
    requires ValidInputs(f) && AtMost(Uniform(low as real), f) && AtMost(f, Uniform(high as real))
    ensures low <= WeightedScore(f).value.0 <= high
  {
    UniformFactorsScore(low);
    UniformFactorsScore(high);
    WeightedScoreMonotone(Uniform(low as real), f);
    WeightedScoreMonotone(f, Uniform(high as real));
  }

  function One(x: real): nat {
    if x > 0.0 then 1 else 0
  }

  function Nonzero(f: Factors): nat {
    One(f.productType) + One(f.transactionAnomaly) + One(f.jurisdictionalRisk) + One(f.pepStatus) + One(f.amlResults)
  }

  predicate AtEnd(x: real) {
    x == 0.0 || x == 100.0
  }

  predicate Extreme(f: Factors) {
    AtEnd(f.productType) && AtEnd(f.transactionAnomaly) && AtEnd(f.jurisdictionalRisk) && AtEnd(f.pepStatus) && AtEnd(f.amlResults)
  }

  lemma ExceedsFrom(f: Factors)
    requires ValidInputs(f)
    ensures WeightedScore(f).Ok?
    ensures ExceedsEddThreshold(WeightedScore(f).value.0) <==>
            f.productType * 0.2 + f.transactionAnomaly * 0.25 + f.jurisdictionalRisk * 0.2 + f.pepStatus * 0.15 + f.amlResults * 0.2 >= 60.5
  {
    var total := Total(Weighted(f));
    assert total == f.productType * 0.2 + f.transactionAnomaly * 0.25 + f.jurisdictionalRisk * 0.2 + f.pepStatus * 0.15 + f.amlResults * 0.2;
    assert WeightedScore(f).value.0 == Round(total);
  }

  /**
   What it takes to exceed the EDD threshold: at least three factors. Three
   suffice — at their maximum — exactly when the transaction anomaly is one of
   them and the PEP status is not.
   */
  lemma EddNeedsThreeFactors(f: Factors)
    requires ValidInputs(f) && Nonzero(f) <= 3
    ensures ExceedsEddThreshold(WeightedScore(f).value.0) ==>
              Nonzero(f) == 3 && f.transactionAnomaly > 0.0 && f.pepStatus == 0.0
    ensures Nonzero(f) == 3 && Extreme(f) ==>
              (ExceedsEddThreshold(WeightedScore(f).value.0) <==> f.transactionAnomaly > 0.0 && f.pepStatus == 0.0)
  {
    ExceedsFrom(f);
    hide WeightedScore, ExceedsEddThreshold;
  }

  // ---- Deltas ----

  function Sum(points: seq<real>): real {
    if points == [] then 0.0 else Sum(points[..|points| - 1]) + points[|points| - 1]
  }

  function ApplyDeltas(s: Score, points: seq<real>): Score {
    ToScore(s as real + Sum(points))
  }

  function Clip(n: int): Score {
    if n < 0 then 0 else if n > MAX_SCORE then MAX_SCORE else n
  }

  function IntSum(points: seq<int>): int {
    if points == [] then 0 else IntSum(points[..|points| - 1]) + points[|points| - 1]
  }

  function AsReals(points: seq<int>): seq<real> {
    seq(|points|, i requires 0 <= i < |points| => points[i] as real)
  }

  lemma {:induction false} SumOfInts(points: seq<int>)
    ensures Sum(AsReals(points)) == IntSum(points) as real
  {
    if points != [] {
      SumOfInts(points[..|points| - 1]);
      assert AsReals(points)[..|points| - 1] == AsReals(points[..|points| - 1]);
    }
  }

  /** One whole-point delta: added, and kept between 0 and 100. */
  lemma OneDelta(s: Score, d: int)
    ensures ApplyDeltas(s, [d as real]) == if s + d < 0 then 0 else if s + d > 100 then 100 else s + d
    ensures ApplyDeltas(s, []) == s
  {
    assert AsReals([d]) == [d as real] && AsReals([]) == [];
    assert [d][..0] == [] && IntSum([d]) == d;
    WholePoints(s, [d]);
    WholePoints(s, []);
  }

  /** On whole points, a batch adds up and is clipped once. */
  lemma WholePoints(s: Score, points: seq<int>)
    ensures ApplyDeltas(s, AsReals(points)) == Clip(s + IntSum(points))
  {
    SumOfInts(points);
    var n := s + IntSum(points);
    assert s as real + Sum(AsReals(points)) == n as real;
  }

  lemma {:induction false} IntSumConcat(a: seq<int>, b: seq<int>)
    ensures IntSum(a + b) == IntSum(a) + IntSum(b)
  {
    if b == [] {
      assert a + b == a;
    } else {
      assert (a + b)[..|a + b| - 1] == a + b[..|b| - 1];
      IntSumConcat(a, b[..|b| - 1]);
    }
  }

  /**
   Applying a whole-point batch in two parts gives the same score exactly when
   the first part stays within the scale, or leaves it and the second part
   either does not turn back or runs off the opposite end.
   */
  lemma SplitAgreesIff(s: Score, a: seq<int>, b: seq<int>)
    ensures var mid, rest := s + IntSum(a), IntSum(b);
            ApplyDeltas(ApplyDeltas(s, AsReals(a)), AsReals(b)) == ApplyDeltas(s, AsReals(a + b)) <==>
            (0 <= mid <= MAX_SCORE
             || (mid > MAX_SCORE && (rest >= 0 || mid + rest <= 0))
             || (mid < 0 && (rest <= 0 || mid + rest >= MAX_SCORE)))
  {
    WholePoints(s, a);
    WholePoints(ApplyDeltas(s, AsReals(a)), b);
    WholePoints(s, a + b);
    IntSumConcat(a, b);
    hide ApplyDeltas, AsReals, IntSum;
  }

  predicate OneSigned(points: seq<int>) {
    (forall i :: 0 <= i < |points| ==> points[i] >= 0) || (forall i :: 0 <= i < |points| ==> points[i] <= 0)
  }

  lemma {:induction false} SignedSum(points: seq<int>)
    ensures (forall i :: 0 <= i < |points| ==> points[i] >= 0) ==> IntSum(points) >= 0
    ensures (forall i :: 0 <= i < |points| ==> points[i] <= 0) ==> IntSum(points) <= 0
  {
    if points != [] {
      SignedSum(points[..|points| - 1]);
    }
  }

  function Join(batches: seq<seq<int>>): seq<int> {
    if batches == [] then [] else batches[0] + Join(batches[1..])
  }

  function OneByOne(s: Score, batches: seq<seq<int>>): Score
    decreases batches
  {
    if batches == [] then s else OneByOne(ApplyDeltas(s, AsReals(batches[0])), batches[1..])
  }

  lemma OneSignedParts(a: seq<int>, b: seq<int>)
    requires OneSigned(a + b)
    ensures OneSigned(b)
    ensures (IntSum(a) >= 0 && IntSum(b) >= 0) || (IntSum(a) <= 0 && IntSum(b) <= 0)
  {
    SignedSum(a);
    SignedSum(b);
    forall i | 0 <= i < |a| ensures a[i] == (a + b)[i] {}
    forall i | 0 <= i < |b| ensures b[i] == (a + b)[|a| + i] {}
  }

  /** However a batch of whole points of one sign is cut up, the score comes out the same. */
  lemma {:induction false} SameSignBatchesSplit(s: Score, batches: seq<seq<int>>)
    requires OneSigned(Join(batches))
    ensures OneByOne(s, batches) == ApplyDeltas(s, AsReals(Join(batches)))
    decreases batches
  {
    if batches == [] {
      WholePoints(s, []);
    } else {
      var a, b := batches[0], Join(batches[1..]);
      OneSignedParts(a, b);
      SameSignBatchesSplit(ApplyDeltas(s, AsReals(a)), batches[1..]);
      SplitAgreesIff(s, a, b);
    }
  }

  /** Fractions are rounded per batch: two halves of a small change can vanish. */
  lemma FractionsDoNotSplit()
    ensures ApplyDeltas(ApplyDeltas(0, [0.4]), [0.4]) != ApplyDeltas(0, [0.4, 0.4])
  {
    assert Sum([0.4]) == 0.4 by {
      assert [0.4][..0] == [];
    }
    assert Sum([0.4, 0.4]) == 0.8 by {
      assert [0.4, 0.4][..1] == [0.4];
    }
    assert ApplyDeltas(0, [0.4]) == 0;
    assert ApplyDeltas(0, [0.4, 0.4]) == 1;
  }

  // ---- The customer ----

  class Customer {
    var tier: Tier
    var score: Score
    var factors: Factors

    constructor (tier: Tier, score: Score, factors: Factors)
      ensures this.tier == tier && this.score == score && this.factors == factors
    {
      this.tier, this.score, this.factors := tier, score, factors;
    }

    method UpdateRiskScore(newScore: Score, newFactors: Factors)
      modifies this
      ensures score == newScore && factors == newFactors && tier == old(tier)
    {
      score, factors := newScore, newFactors;
    }

    /** Only upwards: anything else is an error and changes nothing. */
    method UpgradeTier(newTier: Tier) returns (r: Result<(), RiskError>)
      modifies this
      ensures r.Ok? <==> (newTier == Edd && old(tier) != Edd) || (newTier == Full && old(tier) == Minimum)
      ensures r.Err? ==> r.error == NotAForwardMove
      ensures Upgraded(Profile(old(tier), old(score)), newTier) == if r.Ok? then Ok(Profile(tier, score)) else Err(r.error)
      ensures tier == if r.Ok? then newTier else old(tier)
      ensures score == old(score) && factors == old(factors)
    {
      if Rank(newTier) <= Rank(tier) {
        return Err(NotAForwardMove);
      }
      tier := newTier;
      return Ok(());
    }
  }

  // ---- The use cases, as what they do to a customer ----

  datatype Profile = Profile(tier: Tier, score: Score)

  datatype Recalculation = FullRecalculation(factors: Factors) | DeltaApplication(points: seq<real>)

  datatype Command =
    | Initiate(tier: Tier)
    | Escalate(requestTier: Tier, target: Tier)
    | Recalculate(how: Recalculation)

  function NewScore(s: Score, how: Recalculation): Result<Score, RiskError> {
    match how
    case FullRecalculation(f) => if WeightedScore(f).Ok? then Ok(WeightedScore(f).value.0) else Err(WeightedScore(f).error)
    case DeltaApplication(points) => Ok(ApplyDeltas(s, points))
  }

  /** `upgradeTier` is called only in the branches that raise the tier; where it would throw, the command would. */
  function Upgraded(p: Profile, t: Tier): Result<Profile, RiskError> {
    if Rank(t) <= Rank(p.tier) then Err(NotAForwardMove) else Ok(p.(tier := t))
  }

  function Perform(p: Profile, c: Command): Result<Profile, RiskError> {
    match c
    case Initiate(t) => if Rank(t) > Rank(p.tier) then Upgraded(p, t) else Ok(p)
    case Escalate(requestTier, target) =>
      if Rank(target) <= Rank(requestTier) then Err(InvalidEscalationTarget)
      else if Rank(target) > Rank(p.tier) then Upgraded(p, target)
      else Ok(p)
    case Recalculate(how) =>
      if NewScore(p.score, how).Err? then Err(NewScore(p.score, how).error)
      else
        var scored := p.(score := NewScore(p.score, how).value);
        if ExceedsEddThreshold(scored.score) && scored.tier != Edd then Upgraded(scored, Edd) else Ok(scored)
  }

  function PerformAll(p: Profile, cs: seq<Command>): Profile
    decreases cs
  {
    if cs == [] then p else PerformAll(if Perform(p, cs[0]).Ok? then Perform(p, cs[0]).value else p, cs[1..])
  }

  /** No command of the run trips over the entity's own guard against backward moves. */
  predicate NoBackwardMove(p: Profile, cs: seq<Command>)
    decreases cs
  {
    cs == [] ||
    (Perform(p, cs[0]) != Err(NotAForwardMove) && NoBackwardMove(if Perform(p, cs[0]).Ok? then Perform(p, cs[0]).value else p, cs[1..]))
  }

  /** Over any run of initiations, escalations and recalculations the tier never falls, a score above 60 means EDD, and no upgrade throws. */
  lemma {:induction false} TierSafety(p: Profile, cs: seq<Command>)
    requires p.score > 60 ==> p.tier == Edd
    ensures PerformAll(p, cs).score > 60 ==> PerformAll(p, cs).tier == Edd
    ensures p.tier == PerformAll(p, cs).tier || p.tier == Minimum || (p.tier == Full && PerformAll(p, cs).tier == Edd)
    ensures NoBackwardMove(p, cs)
    decreases cs
  {
    if cs != [] {
      UpgradeNeverThrows(p, cs[0]);
      TierSafety(if Perform(p, cs[0]).Ok? then Perform(p, cs[0]).value else p, cs[1..]);
    }
  }

  /** The highest tier a command asks for: the tier initiated, an escalation's target above the request's tier, EDD for a score above 60. */
  function Demand(p: Profile, c: Command): Tier {
    match c
    case Initiate(t) => t
    case Escalate(requestTier, target) => if Rank(target) > Rank(requestTier) then target else Minimum
    case Recalculate(_) => if Perform(p, c).Ok? && Perform(p, c).value.score > 60 then Edd else Minimum
  }

  /** Some command of the run, or the start, is the reason for the tier reached — and none asked for more. */
  lemma {:induction false} TierIsHighestDemand(p: Profile, cs: seq<Command>)
    ensures forall k :: 0 <= k < |cs| ==> Rank(Demand(PerformAll(p, cs[..k]), cs[k])) <= Rank(PerformAll(p, cs).tier)
    ensures PerformAll(p, cs).tier == p.tier
            || exists k :: 0 <= k < |cs| && Demand(PerformAll(p, cs[..k]), cs[k]) == PerformAll(p, cs).tier
  {
    if cs != [] {
      var front, last := cs[..|cs| - 1], cs[|cs| - 1];
      TierIsHighestDemand(p, front);
      PerformAllSnoc(p, front, last);
      assert cs == front + [last] && cs[..|front|] == front;
      forall k | 0 <= k < |front| ensures cs[..k] == front[..k] && cs[k] == front[k] {}
      OneDemand(PerformAll(p, front), last);
      hide PerformAll, Perform, Demand;
      if PerformAll(p, cs).tier != PerformAll(p, front).tier {
        assert Demand(PerformAll(p, cs[..|front|]), cs[|front|]) == PerformAll(p, cs).tier;
      } else if PerformAll(p, front).tier != p.tier {
        var k :| 0 <= k < |front| && Demand(PerformAll(p, front[..k]), front[k]) == PerformAll(p, front).tier;
        assert Demand(PerformAll(p, cs[..k]), cs[k]) == PerformAll(p, cs).tier;
      }
    }
  }

  lemma OneDemand(p: Profile, c: Command)
    ensures var p' := if Perform(p, c).Ok? then Perform(p, c).value else p;
            && Rank(p'.tier) >= Rank(p.tier) && Rank(Demand(p, c)) <= Rank(p'.tier)
            && (p'.tier == p.tier || p'.tier == Demand(p, c))
  {
    hide NewScore;
  }

  lemma {:induction false} PerformAllSnoc(p: Profile, cs: seq<Command>, c: Command)
    ensures var q := PerformAll(p, cs);
            PerformAll(p, cs + [c]) == if Perform(q, c).Ok? then Perform(q, c).value else q
    decreases cs
  {
    if cs == [] {
      assert cs + [c] == [c] && [c][1..] == [];
    } else {
      assert (cs + [c])[1..] == cs[1..] + [c];
      PerformAllSnoc(if Perform(p, cs[0]).Ok? then Perform(p, cs[0]).value else p, cs[1..], c);
    }
  }

  lemma UpgradeNeverThrows(p: Profile, c: Command)
    ensures Perform(p, c) != Err(NotAForwardMove)
    ensures Perform(p, c).Err? ==> c.Escalate? || (c.Recalculate? && c.how.FullRecalculation? && !ValidInputs(c.how.factors))
  {}

  datatype RiskAudit = RiskScoreCalculated(previousScore: Score, newScore: Score) | RiskTierUpgraded(previousTier: Tier, score: Score) | ManualTierEscalation(target: Tier)

  /** The use cases; a null customer or a missing request tier is a failed lookup. */
  class RiskUseCases {
    var audit: seq<RiskAudit>

    constructor ()
      ensures audit == []
    {
      audit := [];
    }

    method RecalculateRiskScore(customer: Customer?, how: Recalculation) returns (r: Result<(Score, bool), RiskError>)
      modifies this, customer
      ensures customer == null ==> r == Err(CustomerNotFound) && audit == old(audit)
      ensures customer != null ==>
                var p := Profile(old(customer.tier), old(customer.score));
                && r.Ok? == Perform(p, Recalculate(how)).Ok?
                && Profile(customer.tier, customer.score) == (if r.Ok? then Perform(p, Recalculate(how)).value else p)
                && (r.Ok? ==> r.value == (customer.score, customer.tier != old(customer.tier)))
                && (r.Err? ==> r.error == Perform(p, Recalculate(how)).error)
      ensures customer != null ==>
                audit == old(audit) +
                  (if r.Err? then [] else [RiskScoreCalculated(old(customer.score), customer.score)]) +
                  (if customer.tier == old(customer.tier) then [] else [RiskTierUpgraded(old(customer.tier), customer.score)])
      ensures customer != null ==> customer.tier == if r.Ok? && customer.score > 60 then Edd else old(customer.tier)
      ensures customer != null ==> (r.Err? <==> how.FullRecalculation? && !ValidInputs(how.factors))
      ensures customer != null && r.Ok? && how.FullRecalculation? ==>
                var f := how.factors;
                var total := 0.2 * f.productType + 0.25 * f.transactionAnomaly + 0.2 * f.jurisdictionalRisk + 0.15 * f.pepStatus + 0.2 * f.amlResults;
                total - 0.5 < customer.score as real <= total + 0.5
      ensures customer != null && r.Ok? && how.DeltaApplication? ==> customer.score == ApplyDeltas(old(customer.score), how.points)
      ensures customer != null && r.Ok? && how.DeltaApplication? ==> customer.factors == old(customer.factors)
      ensures customer != null && r.Ok? && how.FullRecalculation? ==> customer.factors == Weighted(how.factors)
    {
      if customer == null {
        return Err(CustomerNotFound);
      }
      var previousScore, previousTier := customer.score, customer.tier;
      var newScore, breakdown := customer.score, customer.factors;
      match how {
        case FullRecalculation(f) =>
          var w := WeightedScore(f);
          if w.Err? {
            return Err(w.error);
          }
          newScore, breakdown := w.value.0, w.value.1;
        case DeltaApplication(points) =>
          newScore := ApplyDeltas(customer.score, points);
      }
      customer.UpdateRiskScore(newScore, breakdown);
      audit := audit + [RiskScoreCalculated(previousScore, newScore)];
      var tierUpgraded := false;
      if ExceedsEddThreshold(newScore) && previousTier != Edd {
        var upgrade := customer.UpgradeTier(Edd);
        tierUpgraded := true;
        audit := audit + [RiskTierUpgraded(previousTier, newScore)];
      }
      return Ok((newScore, tierUpgraded));
    }

    /** `customer` is the owner of the request; the request keeps its own tier. */
    method EscalateKycTier(requestTier: Option<Tier>, customer: Customer?, target: Tier) returns (r: Result<(Tier, Tier), RiskError>)
      modifies this, customer
      ensures r == if requestTier == None then Err(RequestNotFound)
                   else if Rank(target) <= Rank(requestTier.value) then Err(InvalidEscalationTarget)
                   else if customer == null then Err(RequestNotFound)
                   else Ok((requestTier.value, target))
      ensures requestTier.Some? && customer != null ==>
                var p := Profile(old(customer.tier), old(customer.score));
                && r.Ok? == Perform(p, Escalate(requestTier.value, target)).Ok?
                && Profile(customer.tier, customer.score) == (if r.Ok? then Perform(p, Escalate(requestTier.value, target)).value else p)
      ensures audit == old(audit) + (if r.Ok? then [ManualTierEscalation(target)] else [])
      ensures customer != null ==>
                customer.tier == (if r.Ok? && Rank(target) > Rank(old(customer.tier)) then target else old(customer.tier))
                && customer.score == old(customer.score)
    {
      if requestTier == None {
        return Err(RequestNotFound);
      }
      if Rank(target) <= Rank(requestTier.value) {
        return Err(InvalidEscalationTarget);
      }
      if customer == null {
        return Err(RequestNotFound);
      }
      if Rank(target) > Rank(customer.tier) {
        var upgrade := customer.UpgradeTier(target);
      }
      audit := audit + [ManualTierEscalation(target)];
      return Ok((requestTier.value, target));
    }
  }
}
