/** The two scoring rules of the Eywa landing page: a flat bonus for a branch's
    lead count and a tiered number of points for each payment. */
module Scoring {

  /** Bonus points a branch earns for its leads: none for 0 to 3 leads, one
      point from the fourth lead on (never one point per lead). */
  function CalculateLeadPoints(leadCount: int): (r: nat)
    ensures r <= 1
    ensures r == 1 <==> leadCount >= 4
    ensures r == 0 <==> leadCount < 4
  {
    if leadCount >= 4 then 1 else 0
  }

  /** Points for one payment, by amount: below 10000 one point (negative
      amounts included), then 10, 15 and 25 points from 10000, 30000 and
      50000 on. */
  function CalculatePaymentPoints(amount: int): (r: nat)
    ensures r in {1, 10, 15, 25}
    ensures r == 1 <==> amount < 10000
    ensures r == 10 <==> 10000 <= amount < 30000
    ensures r == 15 <==> 30000 <= amount < 50000
    ensures r == 25 <==> 50000 <= amount
  {
    if amount < 10000 then 1
    else if amount < 30000 then 10
    else if amount < 50000 then 15
    else 25
  }

  /** A larger payment never earns fewer points. */
  lemma PaymentPointsMonotone(a: int, b: int)
    requires a <= b
    ensures CalculatePaymentPoints(a) <= CalculatePaymentPoints(b)
  {
  }

  /** The values on either side of each threshold. */
  lemma PaymentPointsBoundaries()
    ensures CalculatePaymentPoints(9999) == 1 && CalculatePaymentPoints(10000) == 10
    ensures CalculatePaymentPoints(29999) == 10 && CalculatePaymentPoints(30000) == 15
    ensures CalculatePaymentPoints(49999) == 15 && CalculatePaymentPoints(50000) == 25
    ensures CalculatePaymentPoints(0) == 1 && CalculatePaymentPoints(-5000) == 1
  {
  }

  /** One more lead raises the bonus exactly when the count goes from 3 to 4. */
  lemma LeadPointsStep(n: nat)
    ensures CalculateLeadPoints(n + 1) == CalculateLeadPoints(n) + (if n == 3 then 1 else 0)
  {
  }
}
