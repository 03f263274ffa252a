/** How the loan store uses the engine: on every create and update it stores
    the loan with its risk profile replaced wholesale by a fresh one. The
    storage itself is not modelled. */
module LoanService {
  import opened Types
  import opened RiskEngine

  /** The record that createLoan and updateLoan write: the same loan, with
      a freshly computed profile in place of whatever it carried. */
  function WithFreshRiskProfile(loan: Loan, nowMs: int, stampMs: int): (saved: Loan)
    ensures saved.riskProfile == Some(RiskProfileOf(loan, nowMs, stampMs))
    ensures saved.(riskProfile := loan.riskProfile) == loan
  {
    loan.(riskProfile := Some(RiskProfileOf(loan, nowMs, stampMs)))
  }

  /** The engine never reads the profile a loan already carries. */
  lemma ProfileIgnoresStoredProfile(loan: Loan, stale: Option<RiskProfile>, nowMs: int, stampMs: int)
    ensures RiskProfileOf(loan.(riskProfile := stale), nowMs, stampMs) == RiskProfileOf(loan, nowMs, stampMs)
  {
  }

  /** Saving an already saved loan again leaves what the second save alone
      would have stored: recomputation depends only on the loan's own fields
      and the clock. */
  lemma SaveAgainOverwrites(loan: Loan, nowA: int, stampA: int, nowB: int, stampB: int)
    ensures WithFreshRiskProfile(WithFreshRiskProfile(loan, nowA, stampA), nowB, stampB)
            == WithFreshRiskProfile(loan, nowB, stampB)
  {
  }
}
