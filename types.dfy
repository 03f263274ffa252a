/** The entities of the loan book that the risk engine reads and produces. */
module Types {

  datatype Option<+T> = None | Some(value: T)

  /** Lifecycle state of a loan. */
  datatype LoanStatus = Draft | Active | Watchlist | Distressed | Repaid

  /** Risk band of a score; 100 is the safest score. */
  datatype RiskLevel = Low | Medium | High | Critical

  /** Direction of one rule's verdict. */
  datatype Impact = Positive | Negative | Neutral

  /** The borrower snapshot embedded in a loan; the industry and the
      credit rating are free-form labels. */
  datatype Borrower = Borrower(id: string, name: string, industry: string, creditRating: string)

  /** One rule's verdict: a stable rule code, a readable explanation, the
      direction of the verdict and the signed change it made to the score. */
  datatype RiskFactor = RiskFactor(ruleId: string, description: string, impact: Impact, scoreImpact: int)

  /** What the engine returns. `lastUpdated` is the clock reading, in
      milliseconds since the epoch, at which the profile was stamped. */
  datatype RiskProfile = RiskProfile(score: int, level: RiskLevel, factors: seq<RiskFactor>, lastUpdated: int)

  /** A loan as the engine sees it. `maturityDate` is the maturity date as
      milliseconds since the epoch, or None when the stored date string does
      not parse. `covenantStatus` is the raw covenant label ("Compliant",
      "Breach" or "Waiver" for well-formed records). */
  datatype Loan = Loan(
    id: string,
    borrowerId: string,
    borrower: Borrower,
    maturityDate: Option<int>,
    status: LoanStatus,
    covenantStatus: string,
    riskProfile: Option<RiskProfile>)
}
