# CreditSentinel risk engine, in Dafny

This project models the deterministic risk-scoring engine of CreditSentinel, a
credit-risk dashboard for loan portfolios. The engine, `calculateRiskScore`,
takes a loan and returns its risk profile. It starts from a score of 100 and
runs four fixed rules in order: borrower industry, covenant status, credit
rating, and maturity proximity. Each rule deducts a fixed amount and records a
`RiskFactor` whose `scoreImpact` is that deduction negated; the industry rule
and the rating rule also record a zero-impact factor when they deduct nothing.
The score is then clamped to [0, 100] and classified into Low, Medium, High or
Critical.

Files and modules:

- `types.dfy`, module `Types`: the loan, borrower, risk factor and risk
  profile records, and the `LoanStatus`, `RiskLevel` and impact enumerations.
- `risk_engine.dfy`, module `RiskEngine`: the engine itself.
  - `RiskProfileOf` is the reference definition. It is built from one
    deduction and one factor per rule, plus `Clamp` and `LevelOf`.
  - `CalculateRiskScore` is the imperative engine. It keeps a running score
    and a growing factor list, the way the source does. Each rule is one
    step method (`ApplyIndustryRule` and the others), so that each proof stays
    small. The method is proved equal to `RiskProfileOf` and to obey the
    explainability equation.
- `risk_properties.dfy`, module `RiskProperties`: lemmas about every profile.
  They cover the score range, the bands, one lemma per rule, the shape and
  order of the factor list, and worked cases, including two of the seed loans.
- `loan_service.dfy`, module `LoanService`: the store recomputes the profile
  on create and update and replaces the stored one wholesale.

How the source's runtime behaviour is represented:

- The wall clock is read twice in the source. The reading used for the
  maturity rule is the parameter `nowMs`. The reading used for `lastUpdated`
  is the parameter `stampMs`. Both are milliseconds since the epoch.
- `maturityDate` is the stored date string after parsing, as
  `Option<int>` milliseconds; `None` stands for a string that parses to NaN.
  The source computes `(maturity - now) / 86400000 < 90` in floating point.
  Here that is the exact integer test `maturity - now < 90 * 86400000`. The
  difference of two millisecond timestamps is an integer below 2^53, so it is
  exact in a double. The rounded quotient cannot reach 90 from below, so the
  two tests agree. A NaN comparison is false, and so an unparseable date
  never triggers MAT-01.
- Industry, credit rating and covenant status are kept as plain strings,
  because the source compares them as strings at run time.
  - An industry outside {Retail, Hospitality, Construction} is "stable".
  - A rating outside {AAA, AA, A, BBB, BB} is poor. That includes the seed
    data's "A-" and "B-".
  - A covenant label other than Breach or Waiver deducts nothing.

## Model

| member | source | states |
|---|---|---|
| RiskEngine.CalculateRiskScore | services/riskEngine.ts:7-82 | The step-by-step engine returns exactly the reference profile for the loan and clock readings. 100 plus the sum of its factors' score impacts equals its score, so every deduction is explained by a factor. |
| RiskEngine.ApplyIndustryRule | services/riskEngine.ts:11-28 | Industry step: lowers the running score by the industry deduction (15 for Retail, Hospitality or Construction, else 0) and appends exactly the industry factor. |
| RiskEngine.ApplyCovenantRule | services/riskEngine.ts:30-47 | Covenant step: lowers the score by 30 for Breach or 10 for Waiver and appends the matching factor. For any other label it changes neither the score nor the list. |
| RiskEngine.ApplyRatingRule | services/riskEngine.ts:49-59 | Rating step: lowers the score by 0, 10 or 25 by rating class and appends exactly the rating factor. |
| RiskEngine.ApplyMaturityRule | services/riskEngine.ts:61-66 | Maturity step: lowers the score by 10 and appends MAT-01 exactly when the maturity rule fires. Otherwise it changes nothing. |
| RiskEngine.RawScore | services/riskEngine.ts:8-66 | The score before clamping always lies between 100-15-30-25-10 = 20 and 100. |
| RiskEngine.Clamp | services/riskEngine.ts:69 | The clamped score lies in [0, 100]. It equals its input inside that range, 0 below it and 100 above it. |
| RiskEngine.LevelOf | services/riskEngine.ts:71-74 | Critical iff score < 50; High iff 50 <= score < 70; Medium iff 70 <= score < 85; Low iff score >= 85. So 50 is High, 70 is Medium and 85 is Low. |
| RiskEngine.RiskProfileOf | services/riskEngine.ts:7-82 | Every profile has a score in [0, 100] and a level that is LevelOf of that score. It carries the stamp as lastUpdated. |
| RiskEngine.FactorsExplainRawScore | services/riskEngine.ts:14-65 | Explainability: 100 plus the sum of scoreImpact over the factors equals the unclamped score, because each deduction is paired with an equal negative scoreImpact. |
| RiskProperties.ScoreExplainedByFactors | services/riskEngine.ts:14-69 | The returned score lies in [20, 100]. The clamp never changes the unclamped score. 100 plus the factors' total impact is the returned score. |
| RiskProperties.LevelMonotone | services/riskEngine.ts:71-74 | A higher score never falls into a more severe band. |
| RiskProperties.LevelDependsOnlyOnScore | services/riskEngine.ts:71-74 | Two profiles with equal scores have equal levels, whatever the loans. |
| RiskProperties.IndustryRule | services/riskEngine.ts:12-28 | Exactly one industry factor, and it comes first. It is IND-01 (-15, Negative, naming the sector) iff the industry is Retail, Hospitality or Construction. Otherwise it is IND-02 (0, Positive). |
| RiskProperties.CovenantRule | services/riskEngine.ts:31-47 | Breach gives exactly one covenant factor, COV-01 (-30). Waiver gives exactly COV-02 (-10). Any other label gives none, and the whole profile equals that of the same loan marked Compliant. |
| RiskProperties.RatingRule | services/riskEngine.ts:50-59 | Exactly one rating factor: CR-01 (0, Positive) for AAA/AA/A, CR-02 (-10) for BBB/BB, and CR-03 (-25) for every other string. |
| RiskProperties.MaturityRule | services/riskEngine.ts:62-66 | MAT-01 (-10) appears, at most once, iff the date parses, it is under 90 days of 86400000 ms from now, and the status is not Repaid. It never appears for a Repaid loan or an unparseable date. |
| RiskProperties.FactorShape | services/riskEngine.ts:9-66 | There are 2 to 4 factors. Their rule families are strictly in the order industry, covenant, rating, maturity. Every factor is Negative iff its impact is below 0, and Positive iff its impact is 0. |
| RiskProperties.OnlyStampVaries | services/riskEngine.ts:76-81 | For a fixed loan and clock reading, the profile differs between calls only in lastUpdated. |
| RiskProperties.CleanLoanScoresFull | services/riskEngine.ts:7-82 | Stable industry, strong rating, compliant covenant and maturity at least 90 days away give 100, Low, and factors [IND-02, CR-01]. |
| RiskProperties.RetailBreachNearMaturity | services/riskEngine.ts:7-82 | Retail, BBB, Breach, Active, 30 days out: 35, Critical, [IND-01, COV-01, CR-02, MAT-01]. |
| RiskProperties.HospitalityWaiverOnBoundary | services/riskEngine.ts:7-82 | Hospitality, CCC, Waiver, 400 days out: exactly 50, classified High, [IND-01, COV-02, CR-03]. |
| RiskProperties.RepaidNearMaturity | services/riskEngine.ts:62-66 | A Repaid loan 10 days from maturity carries no MAT-01 factor. |
| RiskProperties.SeedTechNova | services/db.ts:35-48 | Seed loan LN-2024-112, rated "A-", scores 75 (Medium) with factors [IND-02, CR-03] while maturity is 90 days or more away. "A-" counts as a poor rating. |
| RiskProperties.SeedSummitRetail | services/db.ts:21-34 | Seed loan LN-2023-882 (Retail, "B-", Breach, Watchlist), within 90 days of its maturity, reaches the minimum score of 20 (Critical) with all four rules firing. |
| LoanService.WithFreshRiskProfile | services/loanService.ts:16-27 | The saved record carries the freshly computed profile. Every other field is unchanged. |
| LoanService.ProfileIgnoresStoredProfile | services/riskEngine.ts:7-66 | The engine's result does not depend on the profile the loan already carries. |
| LoanService.SaveAgainOverwrites | services/loanService.ts:16-27 | Recomputing an already saved loan stores the same record as a single save at the later clock readings would. |

## Left out

- Date parsing: turning `maturityDate` strings into milliseconds (`new Date(...)`) is not modelled. The parsed value, or its absence when parsing gives NaN, is an input.
- Clock reads: the two `new Date()` calls become the parameters `nowMs` and `stampMs`. `lastUpdated` is kept as milliseconds, not formatted as an ISO string.
- Record fields the engine never reads are not part of `Loan` and `Borrower`. These are the floating-point `amount`, `interestRate` and `annualRevenue`, plus `currency`, `startDate`, `notes` and `documents`.
- Persistence: the IndexedDB store, its schema and its seeding hook (services/db.ts) are outside the model. Two seed loans appear only as worked cases.
- LoanService reads and KPIs: `getAllLoans`, `getLoanById` and the floating-point `getKPIs` average (services/loanService.ts:7-49) are left out as storage I/O and float arithmetic.
- RiskEngine.CalculateRiskScore: the source is one function body. Here it calls one step method per rule, to keep each proof within the solver's limits. The order of steps and the deductions are the source's.
- The AI assistant, UI pages, authentication and the stress-test projection in the loan detail page are outside the engine and are not modelled.
