/** The commission rule: a flat percentage of the whole transaction amount,
    paid only above a threshold of 1000. */
module Commission {

  const Threshold: real := 1000.0

  /** The profit paid at `level` (1 = direct referrer, anything else = the
      indirect rate) for a transaction of `amount`. */
  function CalculateProfit(amount: real, level: int): (r: real)
    ensures amount <= Threshold ==> r == 0.0
    ensures r > 0.0 <==> amount > Threshold
    ensures amount > Threshold && level == 1 ==> r == amount * 5.0 / 100.0
    ensures amount > Threshold && level != 1 ==> r == amount * 1.0 / 100.0
  {
    if amount <= Threshold then 0.0
    else if level == 1 then amount * 0.05 else amount * 0.01
  }

  /** The tiers are flat, not marginal: both are taken from the full amount,
      so tier 1 is five times tier 2 and together they pay 6 percent. */
  lemma FlatTiers(amount: real)
    ensures CalculateProfit(amount, 1) == 5.0 * CalculateProfit(amount, 2)
    ensures amount > Threshold ==>
              CalculateProfit(amount, 1) + CalculateProfit(amount, 2) == amount * 6.0 / 100.0
  {
  }

  /** The threshold is strict: exactly 1000 pays nothing at either tier. */
  lemma StrictThreshold()
    ensures CalculateProfit(1000.0, 1) == 0.0 && CalculateProfit(1000.0, 2) == 0.0
    ensures forall a: real :: a > Threshold ==> CalculateProfit(a, 1) > 50.0 && CalculateProfit(a, 2) > 10.0
  {
  }
}
