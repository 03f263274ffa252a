/** What the risk engine promises about every profile it computes: the score
    range, the bands, one factor per rule family under that rule's trigger,
    the order of the factors and the explanation of the score they give. */
module RiskProperties {
  import opened Types
  import opened RiskEngine

  // ---------------------------------------------------------------------
  // Looking factors up by rule family
  // ---------------------------------------------------------------------

  /** How many factors carry a rule code from `ids`. */
  function CountRule(factors: seq<RiskFactor>, ids: set<string>): nat {
    if factors == [] then 0
    else (if factors[0].ruleId in ids then 1 else 0) + CountRule(factors[1..], ids)
  }

  /** The first factor that carries a rule code from `ids`, if any. */
  function FindRule(factors: seq<RiskFactor>, ids: set<string>): Option<RiskFactor> {
    if factors == [] then None
    else if factors[0].ruleId in ids then Some(factors[0])
    else FindRule(factors[1..], ids)
  }

  function OrElse(a: Option<RiskFactor>, b: Option<RiskFactor>): Option<RiskFactor> {
    if a.Some? then a else b
  }

  /** Position of a rule family in the evaluation order. */
  function RuleRank(ruleId: string): nat {
    if ruleId in IndustryRuleIds then 0
    else if ruleId in CovenantRuleIds then 1
    else if ruleId in RatingRuleIds then 2
    else 3
  }

  /** Severity of a band: Low is the mildest, Critical the worst. */
  function Severity(level: RiskLevel): nat {
    match level
    case Low => 0
    case Medium => 1
    case High => 2
    case Critical => 3
  }

  lemma {:induction false} CountRuleConcat(a: seq<RiskFactor>, b: seq<RiskFactor>, ids: set<string>)
    ensures CountRule(a + b, ids) == CountRule(a, ids) + CountRule(b, ids)
  {
    if a == [] {
      assert a + b == b;
    } else {
      assert (a + b)[1..] == a[1..] + b;
      CountRuleConcat(a[1..], b, ids);
    }
  }

  lemma {:induction false} FindRuleConcat(a: seq<RiskFactor>, b: seq<RiskFactor>, ids: set<string>)
    ensures FindRule(a + b, ids) == OrElse(FindRule(a, ids), FindRule(b, ids))
  {
    if a == [] {
      assert a + b == b;
    } else {
      assert (a + b)[0] == a[0];
      assert (a + b)[1..] == a[1..] + b;
      FindRuleConcat(a[1..], b, ids);
    }
  }

  lemma EmittedLookup(o: Option<RiskFactor>, ids: set<string>)
    ensures CountRule(Emitted(o), ids) == (if o.Some? && o.value.ruleId in ids then 1 else 0)
    ensures FindRule(Emitted(o), ids) == (if o.Some? && o.value.ruleId in ids then o else None)
  {
  }

  /** The factor list, looked up by rule family, is the four rules' own
      contributions looked up one after the other. */
  lemma FactorsByRule(loan: Loan, nowMs: int, ids: set<string>)
    ensures var ind := Some(IndustryFactor(loan.borrower.industry));
            var cov := CovenantFactor(loan.covenantStatus);
            var rat := Some(RatingFactor(loan.borrower.creditRating));
            var mat := MaturityFactor(loan, nowMs);
            CountRule(Factors(loan, nowMs), ids)
              == CountRule(Emitted(ind), ids) + CountRule(Emitted(cov), ids)
               + CountRule(Emitted(rat), ids) + CountRule(Emitted(mat), ids)
            && FindRule(Factors(loan, nowMs), ids)
              == OrElse(OrElse(OrElse(FindRule(Emitted(ind), ids), FindRule(Emitted(cov), ids)),
                               FindRule(Emitted(rat), ids)),
                        FindRule(Emitted(mat), ids))
  {
    var ind := Emitted(Some(IndustryFactor(loan.borrower.industry)));
    var cov := Emitted(CovenantFactor(loan.covenantStatus));
    var rat := Emitted(Some(RatingFactor(loan.borrower.creditRating)));
    var mat := Emitted(MaturityFactor(loan, nowMs));
    assert Factors(loan, nowMs) == ind + cov + rat + mat;
    CountRuleConcat(ind, cov, ids);
    CountRuleConcat(ind + cov, rat, ids);
    CountRuleConcat(ind + cov + rat, mat, ids);
    FindRuleConcat(ind, cov, ids);
    FindRuleConcat(ind + cov, rat, ids);
    FindRuleConcat(ind + cov + rat, mat, ids);
  }

  // ---------------------------------------------------------------------
  // Score and level
  // ---------------------------------------------------------------------

  /** The unclamped score never leaves [20, 100], so the clamp never changes
      it, and 100 plus the factors' score impacts is exactly the score. */
  lemma ScoreExplainedByFactors(loan: Loan, nowMs: int, stampMs: int)
    ensures var p := RiskProfileOf(loan, nowMs, stampMs);
            20 <= p.score <= 100
            && p.score == RawScore(loan, nowMs)
            && BaseScore + TotalImpact(p.factors) == p.score
  {
    FactorsExplainRawScore(loan, nowMs);
  }

  /** A higher score never falls into a more severe band. */
  lemma LevelMonotone(s: int, t: int)
    requires s <= t
    ensures Severity(LevelOf(t)) <= Severity(LevelOf(s))
  {
  }

  /** Two profiles with the same score have the same level. */
  lemma LevelDependsOnlyOnScore(a: Loan, nowA: int, stampA: int, b: Loan, nowB: int, stampB: int)
    requires RiskProfileOf(a, nowA, stampA).score == RiskProfileOf(b, nowB, stampB).score
    ensures RiskProfileOf(a, nowA, stampA).level == RiskProfileOf(b, nowB, stampB).level
  {
  }

  // ---------------------------------------------------------------------
  // One lemma per rule
  // ---------------------------------------------------------------------

  /** Exactly one industry factor, always first: IND-01 (-15, Negative) for
      Retail, Hospitality and Construction, otherwise IND-02 (0, Positive). */
  lemma IndustryRule(loan: Loan, nowMs: int, stampMs: int)
    ensures var fs := RiskProfileOf(loan, nowMs, stampMs).factors;
            var industry := loan.borrower.industry;
            |fs| > 0 && CountRule(fs, IndustryRuleIds) == 1
            && (industry in ["Retail", "Hospitality", "Construction"] ==>
                  fs[0] == RiskFactor("IND-01", "High-risk industry sector: " + industry, Negative, -15))
            && (industry !in ["Retail", "Hospitality", "Construction"] ==>
                  fs[0] == RiskFactor("IND-02", "Stable industry sector: " + industry, Positive, 0))
  {
    FactorsByRule(loan, nowMs, IndustryRuleIds);
    EmittedLookup(Some(IndustryFactor(loan.borrower.industry)), IndustryRuleIds);
    EmittedLookup(CovenantFactor(loan.covenantStatus), IndustryRuleIds);
    EmittedLookup(Some(RatingFactor(loan.borrower.creditRating)), IndustryRuleIds);
    EmittedLookup(MaturityFactor(loan, nowMs), IndustryRuleIds);
  }

  /** Breach gives exactly COV-01 (-30), Waiver exactly COV-02 (-10); any
      other covenant label gives no covenant factor and scores exactly as
      "Compliant" does. */
  lemma CovenantRule(loan: Loan, nowMs: int, stampMs: int)
    ensures var fs := RiskProfileOf(loan, nowMs, stampMs).factors;
            var c := loan.covenantStatus;
            CountRule(fs, CovenantRuleIds) == (if c == "Breach" || c == "Waiver" then 1 else 0)
            && (c == "Breach" ==>
                  FindRule(fs, CovenantRuleIds) == Some(RiskFactor("COV-01", "Active Covenant Breach detected", Negative, -30)))
            && (c == "Waiver" ==>
                  FindRule(fs, CovenantRuleIds) == Some(RiskFactor("COV-02", "Operating under Covenant Waiver", Negative, -10)))
            && (c != "Breach" && c != "Waiver" ==>
                  FindRule(fs, CovenantRuleIds) == None
                  && RiskProfileOf(loan, nowMs, stampMs)
                     == RiskProfileOf(loan.(covenantStatus := "Compliant"), nowMs, stampMs))
  {
    FactorsByRule(loan, nowMs, CovenantRuleIds);
    EmittedLookup(Some(IndustryFactor(loan.borrower.industry)), CovenantRuleIds);
    EmittedLookup(CovenantFactor(loan.covenantStatus), CovenantRuleIds);
    EmittedLookup(Some(RatingFactor(loan.borrower.creditRating)), CovenantRuleIds);
    EmittedLookup(MaturityFactor(loan, nowMs), CovenantRuleIds);
  }

  /** Exactly one rating factor: CR-01 (0, Positive) for AAA, AA and A;
      CR-02 (-10) for BBB and BB; CR-03 (-25) for every other string. */
  lemma RatingRule(loan: Loan, nowMs: int, stampMs: int)
    ensures var fs := RiskProfileOf(loan, nowMs, stampMs).factors;
            var r := loan.borrower.creditRating;
            CountRule(fs, RatingRuleIds) == 1
            && FindRule(fs, RatingRuleIds) == Some(
                 if r in ["AAA", "AA", "A"] then
                   RiskFactor("CR-01", "Strong Credit Rating (" + r + ")", Positive, 0)
                 else if r in ["BBB", "BB"] then
                   RiskFactor("CR-02", "Moderate Credit Rating (" + r + ")", Negative, -10)
                 else
                   RiskFactor("CR-03", "Poor Credit Rating (" + r + ")", Negative, -25))
  {
    FactorsByRule(loan, nowMs, RatingRuleIds);
    EmittedLookup(Some(IndustryFactor(loan.borrower.industry)), RatingRuleIds);
    EmittedLookup(CovenantFactor(loan.covenantStatus), RatingRuleIds);
    EmittedLookup(Some(RatingFactor(loan.borrower.creditRating)), RatingRuleIds);
    EmittedLookup(MaturityFactor(loan, nowMs), RatingRuleIds);
  }

  /** MAT-01 (-10) appears, once, exactly when the maturity date parses to
      fewer than 90 days (of 86400000 ms) from now and the loan is not
      Repaid; a Repaid loan or an unparseable date never gets it. */
  lemma MaturityRule(loan: Loan, nowMs: int, stampMs: int)
    ensures var fs := RiskProfileOf(loan, nowMs, stampMs).factors;
            var fires := loan.status != Repaid && loan.maturityDate.Some?
                         && loan.maturityDate.value - nowMs < 90 * 86400000;
            CountRule(fs, MaturityRuleIds) == (if fires then 1 else 0)
            && FindRule(fs, MaturityRuleIds)
               == (if fires then Some(RiskFactor("MAT-01", "Maturity within 90 days", Negative, -10)) else None)
            && (loan.status == Repaid || loan.maturityDate.None? ==> CountRule(fs, MaturityRuleIds) == 0)
  {
    FactorsByRule(loan, nowMs, MaturityRuleIds);
    EmittedLookup(Some(IndustryFactor(loan.borrower.industry)), MaturityRuleIds);
    EmittedLookup(CovenantFactor(loan.covenantStatus), MaturityRuleIds);
    EmittedLookup(Some(RatingFactor(loan.borrower.creditRating)), MaturityRuleIds);
    EmittedLookup(MaturityFactor(loan, nowMs), MaturityRuleIds);
  }

  // ---------------------------------------------------------------------
  // Shape of the factor list
  // ---------------------------------------------------------------------

  /** Two to four factors, in rule order (industry, covenant, rating,
      maturity) with no family repeated; every factor is Negative exactly
      when it lowers the score and Positive exactly when it does not, and
      none is Neutral. */
  lemma FactorShape(loan: Loan, nowMs: int, stampMs: int)
    ensures var fs := RiskProfileOf(loan, nowMs, stampMs).factors;
            2 <= |fs| <= 4
            && (forall i, j :: 0 <= i < j < |fs| ==> RuleRank(fs[i].ruleId) < RuleRank(fs[j].ruleId))
            && (forall f :: f in fs ==>
                  f.scoreImpact <= 0
                  && (f.impact == Negative <==> f.scoreImpact < 0)
                  && (f.impact == Positive <==> f.scoreImpact == 0))
  {
  }

  /** The profile is fixed by the loan and the clock reading used for the
      maturity rule; the time stamp changes nothing but `lastUpdated`. */
  lemma OnlyStampVaries(loan: Loan, nowMs: int, stampA: int, stampB: int)
    ensures RiskProfileOf(loan, nowMs, stampA).(lastUpdated := stampB) == RiskProfileOf(loan, nowMs, stampB)
  {
  }

  // ---------------------------------------------------------------------
  // Worked cases
  // ---------------------------------------------------------------------

  function RuleIds(factors: seq<RiskFactor>): (ids: seq<string>)
    ensures |ids| == |factors|
    ensures forall i :: 0 <= i < |factors| ==> ids[i] == factors[i].ruleId
  {
    if factors == [] then [] else [factors[0].ruleId] + RuleIds(factors[1..])
  }

  /** A stable industry, a strong rating, a compliant covenant and a distant
      maturity leave the score at 100 (Low) with factors IND-02, CR-01. */
  lemma CleanLoanScoresFull(loan: Loan, nowMs: int, stampMs: int)
    requires loan.borrower.industry !in HighRiskIndustries
    requires loan.borrower.creditRating in StrongRatings
    requires loan.covenantStatus == "Compliant"
    requires loan.maturityDate.Some? && loan.maturityDate.value - nowMs >= 90 * MsPerDay
    ensures var p := RiskProfileOf(loan, nowMs, stampMs);
            p.score == 100 && p.level == Low && RuleIds(p.factors) == ["IND-02", "CR-01"]
  {
  }

  /** Retail, BBB, in breach, Active and 30 days from maturity: 35, Critical,
      with all four rules firing in order. */
  lemma RetailBreachNearMaturity(loan: Loan, nowMs: int, stampMs: int)
    requires loan.borrower.industry == "Retail" && loan.borrower.creditRating == "BBB"
    requires loan.covenantStatus == "Breach" && loan.status == Active
    requires loan.maturityDate == Some(nowMs + 30 * MsPerDay)
    ensures var p := RiskProfileOf(loan, nowMs, stampMs);
            p.score == 35 && p.level == Critical
            && RuleIds(p.factors) == ["IND-01", "COV-01", "CR-02", "MAT-01"]
  {
  }

  /** Hospitality, CCC, under waiver, 400 days out: exactly 50, which is High. */
  lemma HospitalityWaiverOnBoundary(loan: Loan, nowMs: int, stampMs: int)
    requires loan.borrower.industry == "Hospitality" && loan.borrower.creditRating == "CCC"
    requires loan.covenantStatus == "Waiver"
    requires loan.maturityDate == Some(nowMs + 400 * MsPerDay)
    ensures var p := RiskProfileOf(loan, nowMs, stampMs);
            p.score == 50 && p.level == High
            && RuleIds(p.factors) == ["IND-01", "COV-02", "CR-03"]
  {
  }

  /** A Repaid loan ten days from maturity gets no maturity factor. */
  lemma RepaidNearMaturity(loan: Loan, nowMs: int, stampMs: int)
    requires loan.status == Repaid && loan.maturityDate == Some(nowMs + 10 * MsPerDay)
    ensures MaturityRuleIds !! set f | f in RiskProfileOf(loan, nowMs, stampMs).factors :: f.ruleId
  {
  }

  /** The seed loan of TechNova Solutions (Technology, rated "A-", compliant,
      maturing 2027-02-10): "A-" is not in the strong set, so it is scored
      as a poor rating, 75 (Medium), while the maturity is more than 90
      days away. */
  lemma SeedTechNova(nowMs: int, stampMs: int)
    requires 1802217600000 - nowMs >= 90 * MsPerDay
    ensures var loan := Loan("LN-2024-112", "BR-109",
                             Borrower("BR-109", "TechNova Solutions", "Technology", "A-"),
                             Some(1802217600000), Active, "Compliant", None);
            var p := RiskProfileOf(loan, nowMs, stampMs);
            p.score == 75 && p.level == Medium && RuleIds(p.factors) == ["IND-02", "CR-03"]
  {
  }

  /** The seed loan of Summit Retail Group (Retail, "B-", in breach, on the
      watchlist, maturing 2025-06-01) once within 90 days of maturity: every
      rule deducts its most, giving the lowest possible score, 20. */
  lemma SeedSummitRetail(nowMs: int, stampMs: int)
    requires 1748736000000 - nowMs < 90 * MsPerDay
    ensures var loan := Loan("LN-2023-882", "BR-105",
                             Borrower("BR-105", "Summit Retail Group", "Retail", "B-"),
                             Some(1748736000000), Watchlist, "Breach", None);
            var p := RiskProfileOf(loan, nowMs, stampMs);
            p.score == 20 && p.level == Critical
            && RuleIds(p.factors) == ["IND-01", "COV-01", "CR-03", "MAT-01"]
  {
  }
}
