/** The deterministic, explainable risk engine: four fixed rules deduct from a
    base score of 100, each leaving a factor that explains its deduction; the
    score is clamped to [0, 100] and classified into a risk level. */
module RiskEngine {
  import opened Types

  const BaseScore := 100
  const HighRiskIndustries: seq<string> := ["Retail", "Hospitality", "Construction"]
  const StrongRatings: seq<string> := ["AAA", "AA", "A"]
  const ModerateRatings: seq<string> := ["BBB", "BB"]
  const MsPerDay := 1000 * 3600 * 24
  const MaturityHorizonDays := 90

  /** The rule codes each rule may emit. */
  const IndustryRuleIds: set<string> := {"IND-01", "IND-02"}
  const CovenantRuleIds: set<string> := {"COV-01", "COV-02"}
  const RatingRuleIds: set<string> := {"CR-01", "CR-02", "CR-03"}
  const MaturityRuleIds: set<string> := {"MAT-01"}

  function Max(a: int, b: int): int { if a < b then b else a }
  function Min(a: int, b: int): int { if a < b then a else b }

  // ---------------------------------------------------------------------
  // Score deductions, rule by rule
  // ---------------------------------------------------------------------

  function IndustryDeduction(industry: string): nat {
    if industry in HighRiskIndustries then 15 else 0
  }

  /** Any covenant label other than "Breach" and "Waiver" deducts nothing. */
  function CovenantDeduction(covenantStatus: string): nat {
    if covenantStatus == "Breach" then 30
    else if covenantStatus == "Waiver" then 10
    else 0
  }

  /** Any rating outside the two listed sets counts as poor. */
  function RatingDeduction(rating: string): nat {
    if rating in StrongRatings then 0
    else if rating in ModerateRatings then 10
    else 25
  }

  /** The number of days to maturity, (maturity - now) / 86400000, is below 90
      exactly when the millisecond difference is below 90 * 86400000. A date
      that does not parse compares false. */
  predicate MaturesWithinHorizon(maturityDate: Option<int>, nowMs: int) {
    match maturityDate
    case None => false
    case Some(m) => m - nowMs < MaturityHorizonDays * MsPerDay
  }

  predicate MaturityRuleFires(loan: Loan, nowMs: int) {
    MaturesWithinHorizon(loan.maturityDate, nowMs) && loan.status != Repaid
  }

  function MaturityDeduction(loan: Loan, nowMs: int): nat {
    if MaturityRuleFires(loan, nowMs) then 10 else 0
  }

  /** The score before clamping: the base score less every rule's deduction. */
  function RawScore(loan: Loan, nowMs: int): (s: int)
    ensures BaseScore - 15 - 30 - 25 - 10 <= s <= BaseScore
  {
    BaseScore
      - IndustryDeduction(loan.borrower.industry)
      - CovenantDeduction(loan.covenantStatus)
      - RatingDeduction(loan.borrower.creditRating)
      - MaturityDeduction(loan, nowMs)
  }

  // ---------------------------------------------------------------------
  // The factor each rule contributes
  // ---------------------------------------------------------------------

  function IndustryFactor(industry: string): RiskFactor {
    if industry in HighRiskIndustries then
      RiskFactor("IND-01", "High-risk industry sector: " + industry, Negative, -15)
    else
      RiskFactor("IND-02", "Stable industry sector: " + industry, Positive, 0)
  }

  function CovenantFactor(covenantStatus: string): Option<RiskFactor> {
    if covenantStatus == "Breach" then
      Some(RiskFactor("COV-01", "Active Covenant Breach detected", Negative, -30))
    else if covenantStatus == "Waiver" then
      Some(RiskFactor("COV-02", "Operating under Covenant Waiver", Negative, -10))
    else
      None
  }

  function RatingFactor(rating: string): RiskFactor {
    if rating in StrongRatings then
      RiskFactor("CR-01", "Strong Credit Rating (" + rating + ")", Positive, 0)
    else if rating in ModerateRatings then
      RiskFactor("CR-02", "Moderate Credit Rating (" + rating + ")", Negative, -10)
    else
      RiskFactor("CR-03", "Poor Credit Rating (" + rating + ")", Negative, -25)
  }

  function MaturityFactor(loan: Loan, nowMs: int): Option<RiskFactor> {
    if MaturityRuleFires(loan, nowMs) then
      Some(RiskFactor("MAT-01", "Maturity within 90 days", Negative, -10))
    else
      None
  }

  function Emitted(o: Option<RiskFactor>): seq<RiskFactor> {
    match o
    case None => []
    case Some(f) => [f]
  }

  /** The factors in rule order: industry, covenant, rating, maturity; a rule
      that does not fire leaves no entry. */
  function Factors(loan: Loan, nowMs: int): seq<RiskFactor> {
    [IndustryFactor(loan.borrower.industry)]
      + Emitted(CovenantFactor(loan.covenantStatus))
      + [RatingFactor(loan.borrower.creditRating)]
      + Emitted(MaturityFactor(loan, nowMs))
  }

  // ---------------------------------------------------------------------
  // Clamp, bands and the whole profile
  // ---------------------------------------------------------------------

  /** max(0, min(100, x)) */
  function Clamp(x: int): (r: int)
    ensures 0 <= r <= 100
    ensures 0 <= x <= 100 ==> r == x
    ensures x < 0 ==> r == 0
    ensures x > 100 ==> r == 100
  {
    Max(0, Min(100, x))
  }

  /** The bands, each closed at its lower end. */
  function LevelOf(score: int): (level: RiskLevel)
    ensures level == Critical <==> score < 50
    ensures level == High <==> 50 <= score < 70
    ensures level == Medium <==> 70 <= score < 85
    ensures level == Low <==> 85 <= score
  {
    if score < 50 then Critical
    else if score < 70 then High
    else if score < 85 then Medium
    else Low
  }

  /** The profile the engine computes for `loan`, with the maturity rule
      evaluated against the clock reading `nowMs` and the result stamped
      with the clock reading `stampMs`. */
  function RiskProfileOf(loan: Loan, nowMs: int, stampMs: int): (p: RiskProfile)
    ensures 0 <= p.score <= 100
    ensures p.level == LevelOf(p.score)
    ensures p.lastUpdated == stampMs
  {
    var score := Clamp(RawScore(loan, nowMs));
    RiskProfile(score, LevelOf(score), Factors(loan, nowMs), stampMs)
  }

  /** Sum of the factors' score impacts. */
  function TotalImpact(factors: seq<RiskFactor>): int {
    if factors == [] then 0 else factors[0].scoreImpact + TotalImpact(factors[1..])
  }

  lemma {:induction false} TotalImpactConcat(a: seq<RiskFactor>, b: seq<RiskFactor>)
    ensures TotalImpact(a + b) == TotalImpact(a) + TotalImpact(b)
  {
    if a == [] {
      assert a + b == b;
    } else {
      assert (a + b)[1..] == a[1..] + b;
      TotalImpactConcat(a[1..], b);
    }
  }

  lemma EmittedTotal(o: Option<RiskFactor>)
    ensures TotalImpact(Emitted(o)) == (if o.Some? then o.value.scoreImpact else 0)
  {
  }

  /** Explainability: every deduction is paired with a factor whose score
      impact is the same amount negated, so the factors account for the whole
      distance from the base score to the unclamped score. */
  lemma FactorsExplainRawScore(loan: Loan, nowMs: int)
    ensures BaseScore + TotalImpact(Factors(loan, nowMs)) == RawScore(loan, nowMs)
  {
    var ind := [IndustryFactor(loan.borrower.industry)];
    var cov := Emitted(CovenantFactor(loan.covenantStatus));
    var rat := [RatingFactor(loan.borrower.creditRating)];
    var mat := Emitted(MaturityFactor(loan, nowMs));
    TotalImpactConcat(ind, cov);
    TotalImpactConcat(ind + cov, rat);
    TotalImpactConcat(ind + cov + rat, mat);
    assert TotalImpact(ind) + IndustryDeduction(loan.borrower.industry) == 0 by {
      EmittedTotal(Some(ind[0]));
      assert ind == Emitted(Some(ind[0]));
    }
    assert TotalImpact(cov) + CovenantDeduction(loan.covenantStatus) == 0 by {
      EmittedTotal(CovenantFactor(loan.covenantStatus));
    }
    assert TotalImpact(rat) + RatingDeduction(loan.borrower.creditRating) == 0 by {
      EmittedTotal(Some(rat[0]));
      assert rat == Emitted(Some(rat[0]));
    }
    assert TotalImpact(mat) + MaturityDeduction(loan, nowMs) == 0 by {
      EmittedTotal(MaturityFactor(loan, nowMs));
    }
  }

  // ---------------------------------------------------------------------
  // The engine, step by step
  // ---------------------------------------------------------------------

  /** Deducts from a running score and pushes one factor per deduction, then
      clamps and classifies. The loan is a value and is not changed. Every
      deduction is paired with a factor of the same impact, so the factors
      account for the whole distance from 100 to the score. */
  method CalculateRiskScore(loan: Loan, nowMs: int, stampMs: int) returns (profile: RiskProfile)
    ensures profile == RiskProfileOf(loan, nowMs, stampMs)
    ensures BaseScore + TotalImpact(profile.factors) == profile.score
  {
    var score := 100;
    var factors: seq<RiskFactor> := [];
    score, factors := ApplyIndustryRule(loan.borrower.industry, score, factors);
    score, factors := ApplyCovenantRule(loan.covenantStatus, score, factors);
    score, factors := ApplyRatingRule(loan.borrower.creditRating, score, factors);
    score, factors := ApplyMaturityRule(loan, nowMs, score, factors);
    assert factors == Factors(loan, nowMs);
    FactorsExplainRawScore(loan, nowMs);

    score := Max(0, Min(100, score));

    var level := Low;
    if score < 50 {
      level := Critical;
    } else if score < 70 {
      level := High;
    } else if score < 85 {
      level := Medium;
    }

    profile := RiskProfile(score, level, factors, stampMs);
  }

  // Each step below deducts from the running score and pushes the factor
  // that explains the deduction.

  method ApplyIndustryRule(industry: string, score: int, factors: seq<RiskFactor>)
    returns (score': int, factors': seq<RiskFactor>)
    ensures score' == score - IndustryDeduction(industry)
    ensures factors' == factors + [IndustryFactor(industry)]
  {
    score', factors' := score, factors;
    if industry in HighRiskIndustries {
      score' := score' - 15;
      factors' := factors' + [RiskFactor("IND-01", "High-risk industry sector: " + industry, Negative, -15)];
    } else {
      factors' := factors' + [RiskFactor("IND-02", "Stable industry sector: " + industry, Positive, 0)];
    }
  }

  method ApplyCovenantRule(covenantStatus: string, score: int, factors: seq<RiskFactor>)
    returns (score': int, factors': seq<RiskFactor>)
    ensures score' == score - CovenantDeduction(covenantStatus)
    ensures factors' == factors + Emitted(CovenantFactor(covenantStatus))
  {
    score', factors' := score, factors;
    if covenantStatus == "Breach" {
      score' := score' - 30;
      factors' := factors' + [RiskFactor("COV-01", "Active Covenant Breach detected", Negative, -30)];
    } else if covenantStatus == "Waiver" {
      score' := score' - 10;
      factors' := factors' + [RiskFactor("COV-02", "Operating under Covenant Waiver", Negative, -10)];
    }
  }

  method ApplyRatingRule(rating: string, score: int, factors: seq<RiskFactor>)
    returns (score': int, factors': seq<RiskFactor>)
    ensures score' == score - RatingDeduction(rating)
    ensures factors' == factors + [RatingFactor(rating)]
  {
    score', factors' := score, factors;
    if rating in StrongRatings {
      factors' := factors' + [RiskFactor("CR-01", "Strong Credit Rating (" + rating + ")", Positive, 0)];
    } else if rating in ModerateRatings {
      score' := score' - 10;
      factors' := factors' + [RiskFactor("CR-02", "Moderate Credit Rating (" + rating + ")", Negative, -10)];
    } else {
      score' := score' - 25;
      factors' := factors' + [RiskFactor("CR-03", "Poor Credit Rating (" + rating + ")", Negative, -25)];
    }
  }

  method ApplyMaturityRule(loan: Loan, nowMs: int, score: int, factors: seq<RiskFactor>)
    returns (score': int, factors': seq<RiskFactor>)
    ensures score' == score - MaturityDeduction(loan, nowMs)
    ensures factors' == factors + Emitted(MaturityFactor(loan, nowMs))
  {
    score', factors' := score, factors;
    if MaturesWithinHorizon(loan.maturityDate, nowMs) && loan.status != Repaid {
      score' := score' - 10;
      factors' := factors' + [RiskFactor("MAT-01", "Maturity within 90 days", Negative, -10)];
    }
  }
}
