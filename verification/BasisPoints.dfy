/**
 Discounts and payouts in basis points out of 10000. The quotient is exact here
 and rounded half to even, as the source rounds its float quotient.
 */
module BasisPoints {
  import opened Rounding

  datatype Outcome = Amount(value: int) | UnknownType

  function Share(amount: int, points: int): int {
    RoundHalfEven((amount * points) as real / 10000.0)
  }

  function Clamp(n: int): int {
    if n < 0 then 0 else n
  }

  /** `apply_discount`: percent or flat, never below zero. */
  function ApplyDiscount(base: int, kind: string, value: int): Outcome {
    if kind == "percent" then Amount(Clamp(base - Share(base, value)))
    else if kind == "flat" then Amount(Clamp(base - value))
    else UnknownType
  }

  /** `calculate_payout`. */
  function CalculatePayout(gross: int, kind: string, value: int): Outcome {
    if kind == "percent" then Amount(Share(gross, value))
    else if kind == "flat_fee" then Amount(value)
    else UnknownType
  }

  lemma ProductMonotone(a: int, b: int, v: int)
    requires a <= b && v >= 0
    ensures a * v <= b * v
  {
  }

  lemma ShareMonotone(a: int, b: int, points: int)
    requires a <= b && points >= 0
    ensures Share(a, points) <= Share(b, points)
  {
    ProductMonotone(a, b, points);
    HalfEvenMonotone((a * points) as real / 10000.0, (b * points) as real / 10000.0);
  }

  lemma ShareOfNothing(points: int)
    ensures Share(0, points) == 0
  {
    HalfEvenOfWhole(0);
  }

  lemma FullShare(base: int)
    ensures Share(base, 10000) == base
  {
    HalfEvenOfWhole(base);
    assert (base * 10000) as real / 10000.0 == base as real;
  }

  // ----- the amounts, in whole numbers -----

  /** r is a nearest whole number to n / 10000, and the even one of two. */
  predicate NearestTenThousandth(n: int, r: int) {
    -5000 <= 10000 * r - n <= 5000 && (10000 * r - n == 5000 || 10000 * r - n == -5000 ==> r % 2 == 0)
  }

  lemma ShareIsNearest(amount: int, points: int, r: int)
    ensures r == Share(amount, points) <==> NearestTenThousandth(amount * points, r)
  {
    var n := amount * points;
    var x := n as real / 10000.0;
    HalfEvenIsNearest(x, r);
    assert (r as real - x) * 10000.0 == (10000 * r - n) as real;
  }

  /** A percent payout is the whole number nearest to that many ten-thousandths of the gross; a flat fee is the fee. */
  lemma PayoutIs(gross: int, kind: string, value: int, r: int)
    ensures CalculatePayout(gross, kind, value) == Amount(r) <==>
              (kind == "percent" && NearestTenThousandth(gross * value, r)) || (kind == "flat_fee" && r == value)
    ensures CalculatePayout(gross, kind, value) == UnknownType <==> kind != "percent" && kind != "flat_fee"
  {
    ShareIsNearest(gross, value, r);
  }

  /** What is left after a discount: the base less the nearest share of it, or less the flat amount, and never less than zero. */
  lemma DiscountIs(base: int, kind: string, value: int, off: int)
    requires (kind == "percent" && NearestTenThousandth(base * value, off)) || (kind == "flat" && off == value)
    ensures ApplyDiscount(base, kind, value) == Amount(if off > base then 0 else base - off)
  {
    ShareIsNearest(base, value, off);
  }

  lemma DiscountKinds(base: int, kind: string, value: int)
    ensures ApplyDiscount(base, kind, value) == UnknownType <==> kind != "percent" && kind != "flat"
  {
  }

  /** One more unit of base is never discounted by more than one unit, at any rate up to 100%. */
  lemma ShareGrowsSlowly(base: int, points: int)
    requires 0 <= points <= 10000
    ensures Share(base + 1, points) <= Share(base, points) + 1
  {
    if points == 10000 {
      FullShare(base);
      FullShare(base + 1);
    } else {
      var x := (base * points) as real / 10000.0;
      var y := ((base + 1) * points) as real / 10000.0;
      assert (base + 1) * points == base * points + points;
      assert y == x + points as real / 10000.0 && points as real / 10000.0 < 1.0;
      HalfEvenIsNearest(x, RoundHalfEven(x));
      HalfEvenIsNearest(y, RoundHalfEven(y));
    }
  }

  lemma FullDiscount(base: int, points: int)
    requires base >= 0 && points >= 10000
    ensures base <= Share(base, points)
  {
    FullShare(base);
    ProductMonotone(10000, points, base);
    assert base * 10000 <= base * points;
    HalfEvenMonotone((base * 10000) as real / 10000.0, (base * points) as real / 10000.0);
  }

  /** A percent discount of any nonnegative rate leaves between nothing and the whole base. */
  lemma DiscountInRange(base: int, points: int)
    requires base >= 0 && points >= 0
    ensures ApplyDiscount(base, "percent", points).Amount?
    ensures 0 <= ApplyDiscount(base, "percent", points).value <= base
  {
    ShareOfNothing(points);
    ShareMonotone(0, base, points);
  }

  /** A higher base is never discounted to a lower total. */
  lemma {:induction false} DiscountMonotone(a: int, b: int, points: int)
    requires 0 <= a <= b && points >= 0
    ensures ApplyDiscount(a, "percent", points).value <= ApplyDiscount(b, "percent", points).value
    decreases b - a
  {
    if points > 10000 {
      FullDiscount(a, points);
      FullDiscount(b, points);
    } else if a < b {
      ShareGrowsSlowly(a, points);
      DiscountMonotone(a + 1, b, points);
    }
  }

  /** A higher rate never leaves more. */
  lemma DiscountAntitone(base: int, p: int, q: int)
    requires base >= 0 && p <= q
    ensures ApplyDiscount(base, "percent", q).value <= ApplyDiscount(base, "percent", p).value
  {
    ProductMonotone(p, q, base);
    assert base * p <= base * q;
    HalfEvenMonotone((base * p) as real / 10000.0, (base * q) as real / 10000.0);
  }

  /** A share is a half-unit tie exactly when the product leaves a remainder of 5000. */
  lemma TieIsRemainder(n: int)
    ensures Tie(n as real / 10000.0) <==> n % 10000 == 5000
  {
    var q, r := n / 10000, n % 10000;
    assert n as real == q as real * 10000.0 + r as real;
    assert n as real / 10000.0 == q as real + r as real / 10000.0;
    assert (n as real / 10000.0).Floor == q;
  }

  /**
   The two sides of a split add up to the gross within one unit, and exactly so
   unless the share is a half-unit tie and the gross is odd. No sign or range is assumed.
   */
  lemma PayoutsSplitGross(gross: int, points: int)
    ensures var sum := CalculatePayout(gross, "percent", points).value + CalculatePayout(gross, "percent", 10000 - points).value;
            && gross - 1 <= sum <= gross + 1
            && (sum == gross <==> !((gross * points) % 10000 == 5000 && gross % 2 == 1))
  {
    var x := (gross * points) as real / 10000.0;
    assert gross * (10000 - points) == gross * 10000 - gross * points;
    assert (gross * (10000 - points)) as real / 10000.0 == gross as real - x;
    ComplementRounds(x, gross);
    TieIsRemainder(gross * points);
  }
}
