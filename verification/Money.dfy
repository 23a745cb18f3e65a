/** Integer money arithmetic in minor units, after src/bonds/engine/money.ts. */
module Money {

  const WHT_BPS: int := 1000
  const DAY_COUNT_BASIS: int := 365
  const BPS: int := 10000

  datatype CouponAmounts = CouponAmounts(gross: int, wht: int, net: int)

  datatype Priced<+T> = Ok(value: T) | Rejected(reason: string)

  predicate RateInBounds(rateBps: int) {
    0 <= rateBps <= 5000
  }

  /** The tax withheld and what is left; a negative gross is refused. */
  function ApplyWithholdingTax(gross: int): (r: Priced<CouponAmounts>)
    ensures r.Ok? <==> gross >= 0
    ensures r.Ok? ==> r.value.net + r.value.wht == gross == r.value.gross
    ensures r.Ok? ==> 10 * r.value.wht <= gross < 10 * r.value.wht + 10
    ensures r.Ok? ==> 0 <= r.value.wht && 0 <= r.value.net
  {
    if gross < 0 then Rejected("gross cannot be negative")
    else
      var wht := gross * WHT_BPS / BPS;
      Ok(CouponAmounts(gross, wht, gross - wht))
  }

  /** Interest on a constant holding over a number of days of a 365-day year, rounded down once. */
  function CouponFor(units: int, rateBps: int, days: int): (r: Priced<CouponAmounts>)
    ensures r.Ok? <==> units >= 0 && 0 <= rateBps <= 5000 && 0 <= days <= 3660
    ensures r.Ok? ==> 3650000 * r.value.gross <= units * rateBps * days < 3650000 * (r.value.gross + 1)
  {
    if units < 0 then Rejected("units cannot be negative")
    else if !RateInBounds(rateBps) then Rejected("rate out of bounds")
    else if days < 0 || days > 3660 then Rejected("period out of bounds")
    else ApplyWithholdingTax(units * rateBps * days / (BPS * DAY_COUNT_BASIS))
  }

  /** The cap on one holder: floor(total * limit / 10000). */
  function ConcentrationCap(total: nat, limitBps: nat): (cap: nat)
    ensures 10000 * cap <= total * limitBps < 10000 * (cap + 1)
  {
    total * limitBps / BPS
  }

  /** One rounded-down coupon from a holder's total weight. */
  function Gross(unitDays: nat, rateBps: nat): nat {
    unitDays * rateBps / (BPS * DAY_COUNT_BASIS)
  }

  /** A basis point is a ten-thousandth a year, and a year has 365 days. */
  lemma GrossInNumbers(unitDays: nat, rateBps: nat)
    ensures var gross := Gross(unitDays, rateBps);
            3650000 * gross <= unitDays * rateBps < 3650000 * (gross + 1)
  {
  }

  /** Units held for a whole year earn the rate on them. */
  lemma YearPaysTheRate(units: nat, rateBps: nat)
    ensures Gross(365 * units, rateBps) == units * rateBps / 10000
  {
    GrossInNumbers(365 * units, rateBps);
    assert 365 * units * rateBps == 365 * (units * rateBps);
  }

  /** Two holders rounded down separately lose less than one unit against one rounding. */
  lemma GrossOfSum(a: nat, b: nat, rateBps: nat)
    ensures Gross(a, rateBps) + Gross(b, rateBps) <= Gross(a + b, rateBps)
    ensures Gross(a + b, rateBps) <= Gross(a, rateBps) + Gross(b, rateBps) + 1
  {
    assert (a + b) * rateBps == a * rateBps + b * rateBps;
  }
}
