/**
 * The underwriting worker (UnderWritingLambda.py): a fixed rule table that
 * turns the loan type, the amount and the EMI of an application into a
 * decision and a reason.  The customer profile is a set of constants.
 */
module Underwriting {

  datatype Decision = Approved | Rejected

  /** The decision and the reason the worker returns in its response body. */
  datatype Verdict = Verdict(decision: Decision, reason: string)

  /** Dummy customer profile. */
  const CreditScore: int := 780
  const MinCreditScore: int := 700
  const PreapprovedLimit: int := 1500000
  const MonthlySalary: int := 80000

  /** Largest EMI accepted in the 2x band: half the monthly salary (`0.5 * monthly_salary`). */
  function MaxAllowedEmi(): real {
    0.5 * (MonthlySalary as real)
  }

  /**
   * The rule table, in the order the source applies it: HOME loans are
   * approved outright; a low credit score rejects; an amount within the
   * pre-approved limit is approved; up to twice the limit the EMI must be
   * affordable; anything larger is rejected.  Python compares the integer
   * EMI with the float bound exactly, as the real comparison here does.
   */
  function Decide(loanType: string, amount: int, emi: int): (v: Verdict)
    ensures v.decision == Approved <==>
      loanType == "HOME" || amount <= 1500000 || (amount <= 3000000 && emi <= 40000)
    ensures v.reason != "Low credit score"
  {
    if loanType == "HOME" then
      Verdict(Approved, "Home loan approved in prototype flow")
    else if CreditScore < MinCreditScore then
      Verdict(Rejected, "Low credit score")
    else if amount <= PreapprovedLimit then
      Verdict(Approved, "Within pre-approved limit")
    else if amount <= 2 * PreapprovedLimit then
      if emi as real <= MaxAllowedEmi() then
        Verdict(Approved, "Affordable based on income")
      else
        Verdict(Rejected, "EMI exceeds affordability")
    else
      Verdict(Rejected, "Requested amount exceeds eligibility")
  }

  /** A HOME loan is approved whatever its amount and EMI. */
  lemma HomeAlwaysApproved(amount: int, emi: int)
    ensures Decide("HOME", amount, emi) == Verdict(Approved, "Home loan approved in prototype flow")
  {
  }

  /** Outside HOME, an amount up to the pre-approved limit is approved without looking at the EMI. */
  lemma WithinPreapprovedLimit(loanType: string, amount: int, emi: int)
    requires loanType != "HOME" && amount <= 1500000
    ensures Decide(loanType, amount, emi) == Verdict(Approved, "Within pre-approved limit")
  {
  }

  /** Outside HOME, an amount in (limit, 2 x limit] is approved exactly when the EMI is at most 40,000. */
  lemma AffordabilityBand(loanType: string, amount: int, emi: int)
    requires loanType != "HOME" && 1500000 < amount <= 3000000
    ensures Decide(loanType, amount, emi) ==
      if emi <= 40000 then Verdict(Approved, "Affordable based on income")
      else Verdict(Rejected, "EMI exceeds affordability")
  {
  }

  /** Outside HOME, an amount above twice the limit is rejected whatever the EMI. */
  lemma AboveEligibility(loanType: string, amount: int, emi: int)
    requires loanType != "HOME" && amount > 3000000
    ensures Decide(loanType, amount, emi) == Verdict(Rejected, "Requested amount exceeds eligibility")
  {
  }

  /** Lowering the amount or the EMI never turns an approval into a rejection. */
  lemma DecideMonotone(loanType: string, amount: int, emi: int, amount': int, emi': int)
    requires amount' <= amount && emi' <= emi
    requires Decide(loanType, amount, emi).decision == Approved
    ensures Decide(loanType, amount', emi').decision == Approved
  {
  }
}
