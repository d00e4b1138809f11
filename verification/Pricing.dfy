/** Credits for a top-up: decimal division rounded to 28 digits, tier by tier, against exact
    division by the exact price. */
module Pricing {
  import opened Sums
  import opened Tables

  function Pow10(k: nat): pos {
    if k == 0 then 1 else 10 * Pow10(k - 1)
  }

  /** The decimal number `coefficient / 10^scale`; numbers such as 1e3 have a negative scale. */
  datatype Decimal = Decimal(coefficient: int, scale: int)

  // ------------------------------------------------------------------ rounding

  function Floor(n: nat, d: pos): nat {
    n / d
  }

  /** n / d to the nearest integer, ties to the even one. */
  function HalfEven(n: nat, d: pos): nat {
    var q, r := Floor(n, d), n % d;
    if 2 * r < d || (2 * r == d && q % 2 == 0) then q else q + 1
  }

  /** n / d to the nearest integer, ties away from zero. */
  function HalfUp(n: nat, d: pos): nat {
    Floor(2 * n + d, 2 * d)
  }

  /** How many decimal places bring n / d to 28 significant digits. */
  function FractionDigits(n: pos, d: pos): nat
    requires n < d * Pow10(28)
    decreases d * Pow10(27) - n
  {
    if n >= d * Pow10(27) then 0 else 1 + FractionDigits(10 * n, d)
  }

  /** Division in the default decimal context: 28 digits, half to even. */
  function Divide(n: pos, d: pos): Decimal
    requires n < d * Pow10(28)
  {
    var k := FractionDigits(n, d);
    Decimal(HalfEven(n * Pow10(k), d), k)
  }

  /** int() of a non-negative decimal. */
  function Truncate(x: Decimal): nat
    requires x.coefficient >= 0 && x.scale >= 0
  {
    Floor(x.coefficient, Pow10(x.scale))
  }

  // ------------------------------------------------------------------- amounts

  const LOWEST_AMOUNT := 10000
  const HIGHEST_AMOUNT := 300000

  function Kopecks(raw: Decimal): int {
    if raw.scale <= 2 then raw.coefficient * Pow10(2 - raw.scale)
    else if raw.coefficient >= 0 then HalfUp(raw.coefficient, Pow10(raw.scale - 2))
    else Minus(HalfUp(Minus(raw.coefficient), Pow10(raw.scale - 2)))
  }

  /** `normalize_amount_rub`: kopecks, or nothing where the source raises. */
  function NormalizeAmountRub(raw: Decimal): Option<nat> {
    var k := Kopecks(raw);
    if LOWEST_AMOUNT <= k <= HIGHEST_AMOUNT then Some(k) else None
  }

  /** Exactly which kopecks an amount stands for: the nearest ones, halves upwards, if they lie between
      100 and 3000 rubles, and none otherwise. */
  lemma NormalizedIsNearest(raw: Decimal, k: nat)
    ensures var (scaled, unit) := (raw.coefficient * Pow10(Max(0, 2 - raw.scale)), Pow10(Max(0, raw.scale - 2)));
      NormalizeAmountRub(raw) == Some(k) <==> 10000 <= k <= 300000 && 2 * scaled - unit < 2 * (k * unit) <= 2 * scaled + unit
  {
    var unit := Pow10(Max(0, raw.scale - 2));
    if raw.scale <= 2 {
      assert k * unit == k;
    } else if raw.coefficient >= 0 {
      HalfUpNear(raw.coefficient, unit);
      NearestIsUnique(raw.coefficient, unit, k, HalfUp(raw.coefficient, unit));
    } else {
      NegativeIsRefused(raw.coefficient, unit, k);
    }
  }

  lemma NearestIsUnique(n: int, d: pos, a: nat, b: nat)
    requires 2 * n - d < 2 * (b * d) <= 2 * n + d
    ensures a == b <==> 2 * n - d < 2 * (a * d) <= 2 * n + d
  {
    if a < b {
      TimesKeepsOrder(a + 1, b, d);
      assert (a + 1) * d == a * d + d;
    } else if b < a {
      TimesKeepsOrder(b + 1, a, d);
      assert (b + 1) * d == b * d + d;
    }
  }

  lemma NegativeIsRefused(n: int, d: pos, k: nat)
    requires n < 0
    ensures k >= 10000 ==> !(2 * (k * d) <= 2 * n + d)
  {
    if k >= 10000 {
      TimesKeepsOrder(1, k, d);
    }
  }

  // --------------------------------------------------------------------- tiers

  /** From `threshold` kopecks on, a credit costs `rubles / credits` rubles. */
  datatype Tier = Tier(threshold: pos, rubles: pos, credits: pos)

  const TOPUP_TIERS := [Tier(100000, 1000, 45), Tier(50000, 25, 1), Tier(20000, 200, 7), Tier(10000, 100, 3)]

  /** The price as the module computes it on import. */
  function RubPerCredit(t: Tier): Decimal
    requires t.rubles < t.credits * Pow10(28)
  {
    Divide(t.rubles, t.credits)
  }

  /** Credits bought at the exact price: the floor of amount / price. */
  function ExactCredits(kopecks: nat, t: Tier): nat {
    Floor(kopecks * t.credits, 100 * t.rubles)
  }

  /** amount / price, both as decimals. */
  function RoundedCredits(kopecks: pos, price: Decimal): nat
    requires price.coefficient > 0 && price.scale >= 0
    requires kopecks * Pow10(price.scale) < 100 * price.coefficient * Pow10(28)
  {
    Truncate(Divide(kopecks * Pow10(price.scale), 100 * price.coefficient))
  }

  // ---------------------------------------------------------- rounding, decided

  lemma TimesKeepsOrder(a: int, b: int, c: nat)
    requires a <= b
    ensures a * c <= b * c
  {
  }

  lemma TimesDecidesOrder(a: int, b: int, c: nat)
    requires a * c < b * c
    ensures a < b
  {
    if b <= a { TimesKeepsOrder(b, a, c); }
  }

  lemma FloorDecides(n: nat, d: pos, m: nat)
    ensures m <= Floor(n, d) <==> m * d <= n
  {
    var q := Floor(n, d);
    assert n == q * d + n % d;
    if m <= q { TimesKeepsOrder(m, q, d); }
    if m * d <= n {
      assert (q + 1) * d == q * d + d;
      TimesDecidesOrder(m, q + 1, d);
    }
  }

  lemma {:induction false} Pow10Grows(a: nat, b: nat)
    requires a <= b
    ensures Pow10(a) <= Pow10(b)
  {
    if a < b { Pow10Grows(a, b - 1); }
  }

  lemma Pow10Adds(a: nat, b: nat)
    ensures Pow10(a + b) == Pow10(a) * Pow10(b)
  {
    if a > 0 {
      Pow10Adds(a - 1, b);
      var x, y := Pow10(a - 1), Pow10(b);
      assert 10 * (x * y) == (10 * x) * y;
    }
  }

  /** The number of places is the only one that gives 28 digits. */
  lemma {:induction false} FractionDigitsIs(n: pos, d: pos, k: nat)
    requires n < d * Pow10(28)
    requires d * Pow10(27) <= n * Pow10(k) < d * Pow10(28)
    ensures FractionDigits(n, d) == k
    decreases k
  {
    if k > 0 {
      NotYet(n, d * Pow10(27), d * Pow10(28), k);
      FractionDigitsIs(10 * n, d, k - 1);
    }
  }

  lemma NotYet(n: pos, low: nat, high: nat, k: pos)
    requires high == 10 * low && n * Pow10(k) < high
    ensures n < low && 10 * n * Pow10(k - 1) == n * Pow10(k)
  {
    var p := Pow10(k - 1);
    assert 10 * n * p == n * (10 * p);
    TimesKeepsOrder(1, p, 10 * n);
  }

  /** A small quotient keeps many places. */
  lemma {:induction false} ManyPlaces(n: pos, d: pos, room: nat)
    requires n * Pow10(room) < d * Pow10(28) && n < d * Pow10(28)
    ensures FractionDigits(n, d) >= room
    decreases room
  {
    if room > 0 {
      NotYet(n, d * Pow10(27), d * Pow10(28), room);
      ManyPlaces(10 * n, d, room - 1);
    }
  }

  lemma HalfEvenNear(n: nat, d: pos)
    ensures 2 * n - d <= 2 * (HalfEven(n, d) * d) <= 2 * n + d
  {
    var q := Floor(n, d);
    assert n == q * d + n % d;
    assert (q + 1) * d == q * d + d;
  }

  lemma HalfUpNear(n: nat, d: pos)
    ensures 2 * n - d < 2 * (HalfUp(n, d) * d) <= 2 * n + d
  {
    var q := HalfUp(n, d);
    FloorDecides(2 * n + d, 2 * d, q);
    FloorDecides(2 * n + d, 2 * d, q + 1);
    assert q * (2 * d) == 2 * (q * d) && (q + 1) * (2 * d) == 2 * (q * d) + 2 * d;
  }

  lemma ReachesInteger(n: pos, d: pos, m: nat, p: pos, c: nat)
    requires m * d <= n && 2 * (n * p) - d <= 2 * (c * d)
    ensures m <= Floor(c, p)
  {
    TimesKeepsOrder(m * d, n, p);
    assert (m * d) * p == (m * p) * d;
    assert (c + 1) * d == c * d + d;
    TimesDecidesOrder(m * p, c + 1, d);
    FloorDecides(c, p, m);
  }

  lemma StaysBelow(n: pos, d: pos, m: nat, p: pos, c: nat)
    requires 200000 * (m * d - n) >= d && p >= 1000000 && 2 * (c * d) <= 2 * (n * p) + d
    ensures Floor(c, p) < m
  {
    assert (m * d - n) * p == (m * p) * d - n * p;
    TimesKeepsOrder(1000000, p, m * d - n);
    TimesDecidesOrder(c, m * p, d);
    FloorDecides(c, p, m);
  }

  /** Rounding does not cross an integer `m` that the quotient has reached, nor one that it stays
      below by at least the 200000th part of a credit. */
  lemma TruncateDivide(n: pos, d: pos, m: nat)
    requires n < d * Pow10(28) && n * Pow10(6) < d * Pow10(28)
    ensures m * d <= n ==> Truncate(Divide(n, d)) >= m
    ensures 200000 * (m * d - n) >= d ==> Truncate(Divide(n, d)) < m
  {
    var k := FractionDigits(n, d);
    ManyPlaces(n, d, 6);
    Pow10Grows(6, k);
    HalfEvenNear(n * Pow10(k), d);
    var c := HalfEven(n * Pow10(k), d);
    if m * d <= n {
      ReachesInteger(n, d, m, Pow10(k), c);
    }
    if 200000 * (m * d - n) >= d {
      StaysBelow(n, d, m, Pow10(k), c);
    }
  }

  // ----------------------------------------------------------- the top-up table

  lemma Pow10Values()
    ensures Pow10(5) == 100000
    ensures Pow10(26) == 100000000000000000000000000
    ensures Pow10(27) == 1000000000000000000000000000
    ensures Pow10(28) == 10000000000000000000000000000
  {
    assert Pow10(2) == 100;
    Pow10Adds(2, 3);
    Pow10Adds(5, 5);
    Pow10Adds(10, 10);
    Pow10Adds(20, 5);
    Pow10Adds(25, 1);
    Pow10Adds(26, 1);
    Pow10Adds(27, 1);
  }

  predicate InRange(kopecks: int) {
    LOWEST_AMOUNT <= kopecks <= HIGHEST_AMOUNT
  }

  lemma HalfEvenIs(n: nat, d: pos, q: nat)
    requires q * d <= n && 2 * n < 2 * (q * d) + d
    ensures HalfEven(n, d) == q
  {
    assert (q + 1) * d == q * d + d;
    FloorDecides(n, d, q);
    FloorDecides(n, d, q + 1);
    assert n == Floor(n, d) * d + n % d;
  }

  lemma ScaleRange(n: nat, d: pos, q: nat, low: nat, high: nat)
    requires q * d <= n < (q + 1) * d && low <= q && q + 1 <= high
    ensures d * low <= n < d * high
  {
    TimesKeepsOrder(low, q, d);
    TimesKeepsOrder(q + 1, high, d);
  }

  /** `digits` are the 28 digits of the price. Decimal("25") is the exact quotient 25 / 1. */
  lemma PriceIs(t: Tier, digits: pos)
    requires digits * t.credits <= t.rubles * Pow10(26)
    requires 2 * (t.rubles * Pow10(26)) < 2 * (digits * t.credits) + t.credits
    requires Pow10(27) <= digits < Pow10(28) - 1 && t.rubles < t.credits * Pow10(28)
    ensures RubPerCredit(t) == Decimal(digits, 26)
  {
    var n := t.rubles * Pow10(26);
    HalfEvenIs(n, t.credits, digits);
    assert (digits + 1) * t.credits == digits * t.credits + t.credits;
    ScaleRange(n, t.credits, digits, Pow10(27), Pow10(28));
    FractionDigitsIs(t.rubles, t.credits, 26);
  }

  const DIGITS := [2222222222222222222222222222, 2500000000000000000000000000,
                   2857142857142857142857142857, 3333333333333333333333333333]

  lemma PriceAt(i: nat)
    requires i < 4
    ensures TOPUP_TIERS[i].rubles < TOPUP_TIERS[i].credits * Pow10(28)
    ensures RubPerCredit(TOPUP_TIERS[i]) == Decimal(DIGITS[i], 26)
  {
    Pow10Values();
    if i == 0 { PriceIs(TOPUP_TIERS[0], DIGITS[0]); }
    if i == 1 { PriceIs(TOPUP_TIERS[1], DIGITS[1]); }
    if i == 2 { PriceIs(TOPUP_TIERS[2], DIGITS[2]); }
    if i == 3 { PriceIs(TOPUP_TIERS[3], DIGITS[3]); }
  }

  /** amount / price reaches `m` credits and stays clear of the next one. */
  predicate Clear(kopecks: nat, m: nat, digits: pos) {
    && m * (100 * digits) <= kopecks * 100000000000000000000000000
    && 200000 * ((m + 1) * (100 * digits) - kopecks * 100000000000000000000000000) >= 100 * digits
  }

  lemma ClearAt1000(kopecks: nat, m: nat)
    requires kopecks <= HIGHEST_AMOUNT && m * 100000 <= 45 * kopecks < (m + 1) * 100000
    ensures Clear(kopecks, m, 2222222222222222222222222222)
  {
  }

  lemma ClearAt200(kopecks: nat, m: nat)
    requires kopecks <= HIGHEST_AMOUNT && m * 20000 <= 7 * kopecks < (m + 1) * 20000
    ensures Clear(kopecks, m, 2857142857142857142857142857)
  {
  }

  lemma ClearAt100(kopecks: nat, m: nat)
    requires kopecks <= HIGHEST_AMOUNT && m * 10000 <= 3 * kopecks < (m + 1) * 10000
    ensures Clear(kopecks, m, 3333333333333333333333333333)
  {
  }

  lemma Margin(i: nat, kopecks: nat, m: nat)
    requires i < 4 && InRange(kopecks) && m == ExactCredits(kopecks, TOPUP_TIERS[i])
    ensures Clear(kopecks, m, DIGITS[i])
  {
    var t := TOPUP_TIERS[i];
    FloorDecides(kopecks * t.credits, 100 * t.rubles, m);
    FloorDecides(kopecks * t.credits, 100 * t.rubles, m + 1);
    if i == 0 { ClearAt1000(kopecks, m); }
    if i == 2 { ClearAt200(kopecks, m); }
    if i == 3 { ClearAt100(kopecks, m); }
  }

  predicate Dividable(kopecks: nat, t: Tier) {
    kopecks > 0 && t.rubles < t.credits * Pow10(28)
    && var r := RubPerCredit(t);
       r.coefficient > 0 && r.scale >= 0 && kopecks * Pow10(r.scale) < 100 * r.coefficient * Pow10(28)
  }

  /** Division by the rounded price never changes the number of whole credits. */
  lemma RoundedEqualsExact(i: nat, kopecks: nat)
    requires i < 4 && InRange(kopecks)
    ensures Dividable(kopecks, TOPUP_TIERS[i])
    ensures RoundedCredits(kopecks, RubPerCredit(TOPUP_TIERS[i])) == ExactCredits(kopecks, TOPUP_TIERS[i])
  {
    PriceAt(i);
    Pow10Values();
    Pow10Adds(5, 1);
    var m := ExactCredits(kopecks, TOPUP_TIERS[i]);
    Margin(i, kopecks, m);
    TruncateDivide(kopecks * Pow10(26), 100 * DIGITS[i], m);
    TruncateDivide(kopecks * Pow10(26), 100 * DIGITS[i], m + 1);
  }

  /** Credits of an amount under a tier table, at exact prices. */
  function TierCredits(tiers: seq<Tier>, kopecks: nat): nat {
    if tiers == [] then 0
    else if kopecks >= tiers[0].threshold then Max(1, ExactCredits(kopecks, tiers[0]))
    else TierCredits(tiers[1..], kopecks)
  }

  lemma {:induction false} TierCreditsFrom(i: nat, kopecks: nat)
    requires i <= 4 && forall k :: 0 <= k < i ==> kopecks < TOPUP_TIERS[k].threshold
    ensures TierCredits(TOPUP_TIERS, kopecks) == TierCredits(TOPUP_TIERS[i..], kopecks)
  {
    if i > 0 {
      TierCreditsFrom(i - 1, kopecks);
      assert TOPUP_TIERS[i - 1..][1..] == TOPUP_TIERS[i..];
    }
  }

  /** `calculate_topup_credits` with its 28-digit divisions: for every amount it accepts, the
      credits are those of the exact prices. */
  method CalculateTopupCredits(raw: Decimal) returns (credits: Option<nat>)
    ensures credits == match NormalizeAmountRub(raw)
                       case None => None
                       case Some(kopecks) => Some(TierCredits(TOPUP_TIERS, kopecks))
  {
    var normalized := NormalizeAmountRub(raw);
    if normalized.None? {
      return None;
    }
    var kopecks := normalized.value;
    for i := 0 to |TOPUP_TIERS|
      invariant forall k :: 0 <= k < i ==> kopecks < TOPUP_TIERS[k].threshold
    {
      if kopecks >= TOPUP_TIERS[i].threshold {
        RoundedEqualsExact(i, kopecks);
        TierCreditsFrom(i, kopecks);
        return Some(Max(1, RoundedCredits(kopecks, RubPerCredit(TOPUP_TIERS[i]))));
      }
    }
    TierCreditsFrom(4, kopecks);
    return Some(0);
  }

  // ------------------------------------------------------ shape of the pricing

  /** A credit costs no more in `s` than in `t`. */
  predicate NoDearer(s: Tier, t: Tier) {
    s.rubles * t.credits <= t.rubles * s.credits
  }

  /** Higher tiers first, and the price per credit does not rise with the threshold. */
  predicate Regressive(tiers: seq<Tier>) {
    forall i, k :: 0 <= i < k < |tiers| ==>
      tiers[i].threshold > tiers[k].threshold && NoDearer(tiers[i], tiers[k])
  }

  /** The smallest amount of a tier pays for a whole credit, so the floor of one is never needed. */
  predicate BuysOne(t: Tier) {
    ExactCredits(t.threshold, t) >= 1
  }

  lemma CheaperBuysMore(a: nat, b: nat, s: Tier, t: Tier)
    requires a <= b && NoDearer(s, t)
    ensures ExactCredits(a, t) <= ExactCredits(b, s)
  {
    var m := ExactCredits(a, t);
    FloorDecides(a * t.credits, 100 * t.rubles, m);
    TimesKeepsOrder(a, b, t.credits);
    ExchangeTier(b, m, s, t);
    FloorDecides(b * s.credits, 100 * s.rubles, m);
  }

  lemma ExchangeTier(b: nat, m: nat, s: Tier, t: Tier)
    requires m * (100 * t.rubles) <= b * t.credits && NoDearer(s, t)
    ensures m * (100 * s.rubles) <= b * s.credits
  {
    var x, y := m * (100 * t.rubles), b * t.credits;
    TimesKeepsOrder(x, y, s.credits);
    TimesKeepsOrder(s.rubles * t.credits, t.rubles * s.credits, 100 * m);
    assert x * s.credits == (t.rubles * s.credits) * (100 * m);
    assert y * s.credits == (b * s.credits) * t.credits;
    assert (s.rubles * t.credits) * (100 * m) == (m * (100 * s.rubles)) * t.credits;
    if b * s.credits < m * (100 * s.rubles) {
      TimesGrows(b * s.credits, m * (100 * s.rubles), t.credits);
    }
  }

  lemma TimesGrows(a: int, b: int, c: pos)
    requires a < b
    ensures a * c < b * c
  {
  }

  lemma SplitBuysLess(a: nat, b: nat, t: Tier)
    ensures ExactCredits(a, t) + ExactCredits(b, t) <= ExactCredits(a + b, t)
  {
    var m, n, d := ExactCredits(a, t), ExactCredits(b, t), 100 * t.rubles;
    FloorDecides(a * t.credits, d, m);
    FloorDecides(b * t.credits, d, n);
    assert (m + n) * d == m * d + n * d;
    assert (a + b) * t.credits == a * t.credits + b * t.credits;
    FloorDecides((a + b) * t.credits, d, m + n);
  }

  /** A tier at least as cheap as all of `tiers` gives as many credits for a larger amount. */
  lemma {:induction false} CheapestBuysMost(tiers: seq<Tier>, a: nat, b: nat, s: Tier)
    requires a <= b && forall i :: 0 <= i < |tiers| ==> NoDearer(s, tiers[i])
    ensures TierCredits(tiers, a) <= Max(1, ExactCredits(b, s))
  {
    if tiers != [] {
      if a >= tiers[0].threshold {
        CheaperBuysMore(a, b, s, tiers[0]);
      } else {
        CheapestBuysMost(tiers[1..], a, b, s);
      }
    }
  }

  /** Paying more never buys fewer credits. */
  lemma {:induction false} PricingMonotone(tiers: seq<Tier>, a: nat, b: nat)
    requires Regressive(tiers) && a <= b
    ensures TierCredits(tiers, a) <= TierCredits(tiers, b)
  {
    if tiers != [] {
      if b >= tiers[0].threshold {
        assert NoDearer(tiers[0], tiers[0]);
        CheapestBuysMost(tiers, a, b, tiers[0]);
      } else {
        PricingMonotone(tiers[1..], a, b);
      }
    }
  }

  /** The smallest amount that buys anything. */
  function LowestThreshold(tiers: seq<Tier>): pos
    requires tiers != []
  {
    tiers[|tiers| - 1].threshold
  }

  /** The tier that prices an amount, the lowest one if the amount is below all thresholds. */
  function TierOf(tiers: seq<Tier>, kopecks: nat): (t: Tier)
    requires tiers != []
    ensures t in tiers
  {
    if |tiers| == 1 || kopecks >= tiers[0].threshold then tiers[0] else TierOf(tiers[1..], kopecks)
  }

  /** Credits are nothing below the lowest threshold, and otherwise those of the amount's tier, at
      least one. */
  lemma {:induction false} CreditsOfTier(tiers: seq<Tier>, kopecks: nat)
    requires tiers != [] && Regressive(tiers)
    ensures TierCredits(tiers, kopecks)
         == if kopecks < LowestThreshold(tiers) then 0 else Max(1, ExactCredits(kopecks, TierOf(tiers, kopecks)))
  {
    if |tiers| == 1 {
      assert tiers[1..] == [];
    } else {
      assert tiers[0].threshold > LowestThreshold(tiers);
      CreditsOfTier(tiers[1..], kopecks);
    }
  }

  /** A larger amount falls into no dearer a tier. */
  lemma {:induction false} LargerIsNoDearer(tiers: seq<Tier>, a: nat, b: nat)
    requires tiers != [] && Regressive(tiers) && a <= b
    ensures NoDearer(TierOf(tiers, b), TierOf(tiers, a))
  {
    if |tiers| > 1 && b < tiers[0].threshold {
      LargerIsNoDearer(tiers[1..], a, b);
    } else if |tiers| > 1 && a < tiers[0].threshold {
      var t := TierOf(tiers[1..], a);
      var k :| 0 <= k < |tiers[1..]| && tiers[1..][k] == t;
      assert tiers[k + 1] == t;
    }
  }

  /** The smallest purchase buys a whole credit at the price of twice its amount. */
  predicate SplitSafe(tiers: seq<Tier>) {
    tiers == [] || ExactCredits(LowestThreshold(tiers), TierOf(tiers, LowestThreshold(tiers) + LowestThreshold(tiers))) >= 1
  }

  /** In such a table a part of a purchase is worth no more than its share at the price of the whole. */
  lemma PartAtPriceOfWhole(tiers: seq<Tier>, a: nat, whole: nat)
    requires tiers != [] && Regressive(tiers) && SplitSafe(tiers)
    requires LowestThreshold(tiers) <= a <= whole && LowestThreshold(tiers) + LowestThreshold(tiers) <= whole
    ensures TierCredits(tiers, a) <= ExactCredits(a, TierOf(tiers, whole))
  {
    var low := LowestThreshold(tiers);
    CreditsOfTier(tiers, a);
    LargerIsNoDearer(tiers, a, whole);
    CheaperBuysMore(a, a, TierOf(tiers, whole), TierOf(tiers, a));
    LargerIsNoDearer(tiers, low + low, whole);
    CheaperBuysMore(low, a, TierOf(tiers, whole), TierOf(tiers, low + low));
  }

  /** Splitting a purchase never yields more credits. */
  lemma PricingSuperadditive(tiers: seq<Tier>, a: nat, b: nat)
    requires Regressive(tiers) && SplitSafe(tiers)
    ensures TierCredits(tiers, a) + TierCredits(tiers, b) <= TierCredits(tiers, a + b)
  {
    if tiers != [] {
      if a < LowestThreshold(tiers) {
        CreditsOfTier(tiers, a);
        PricingMonotone(tiers, b, a + b);
      } else if b < LowestThreshold(tiers) {
        CreditsOfTier(tiers, b);
        PricingMonotone(tiers, a, a + b);
      } else {
        WholeBuysMore(tiers, a, b);
      }
    }
  }

  lemma WholeBuysMore(tiers: seq<Tier>, a: nat, b: nat)
    requires tiers != [] && Regressive(tiers) && SplitSafe(tiers)
    requires a >= LowestThreshold(tiers) && b >= LowestThreshold(tiers)
    ensures TierCredits(tiers, a) + TierCredits(tiers, b) <= TierCredits(tiers, a + b)
  {
    PartAtPriceOfWhole(tiers, a, a + b);
    PartAtPriceOfWhole(tiers, b, a + b);
    SplitBuysLess(a, b, TierOf(tiers, a + b));
    AtLeastExact(tiers, a + b);
  }

  lemma AtLeastExact(tiers: seq<Tier>, a: nat)
    requires tiers != [] && Regressive(tiers) && a >= LowestThreshold(tiers)
    ensures ExactCredits(a, TierOf(tiers, a)) <= TierCredits(tiers, a)
  {
    CreditsOfTier(tiers, a);
  }

  lemma TwiceTooLittle(kopecks: nat, t: Tier)
    requires ExactCredits(kopecks, t) == 0
    ensures ExactCredits(kopecks + kopecks, t) <= 1
  {
    FloorDecides(kopecks * t.credits, 100 * t.rubles, 1);
    assert (kopecks + kopecks) * t.credits == 2 * (kopecks * t.credits);
    FloorDecides((kopecks + kopecks) * t.credits, 100 * t.rubles, 2);
  }

  /** Otherwise the "at least one credit" floor makes two purchases at the lowest threshold buy more
      than one purchase of twice the amount. */
  lemma SmallestPairPays(tiers: seq<Tier>)
    requires Regressive(tiers) && !SplitSafe(tiers)
    ensures var low := LowestThreshold(tiers);
      TierCredits(tiers, low) + TierCredits(tiers, low) > TierCredits(tiers, low + low)
  {
    var low := LowestThreshold(tiers);
    CreditsOfTier(tiers, low);
    CreditsOfTier(tiers, low + low);
    TwiceTooLittle(low, TierOf(tiers, low + low));
  }

  ghost predicate Superadditive(tiers: seq<Tier>) {
    forall a: nat, b: nat :: TierCredits(tiers, a) + TierCredits(tiers, b) <= TierCredits(tiers, a + b)
  }

  /** The exact condition, for every tier table whose price does not rise with the threshold: the
      lowest threshold buys a credit at the price of twice its amount. */
  lemma SuperadditiveIff(tiers: seq<Tier>)
    requires Regressive(tiers)
    ensures Superadditive(tiers) <==> SplitSafe(tiers)
  {
    if SplitSafe(tiers) {
      forall a: nat, b: nat ensures TierCredits(tiers, a) + TierCredits(tiers, b) <= TierCredits(tiers, a + b) {
        PricingSuperadditive(tiers, a, b);
      }
    } else {
      SmallestPairPays(tiers);
      var low: nat := LowestThreshold(tiers);
      assert !(TierCredits(tiers, low) + TierCredits(tiers, low) <= TierCredits(tiers, low + low));
    }
  }

  /** For a table of one tier: its threshold must buy a whole credit. */
  lemma SplittingPaysIff(t: Tier)
    ensures Superadditive([t]) <==> BuysOne(t)
  {
    SuperadditiveIff([t]);
  }

  /** With several tiers a lower threshold need not buy a whole credit at its own price. */
  lemma NotEveryTierMustBuyOne()
    ensures exists tiers :: Regressive(tiers) && Superadditive(tiers) && exists t :: t in tiers && !BuysOne(t)
  {
    var dear := Tier(100, 10, 1);
    var tiers := [Tier(200, 1, 1), dear];
    assert TierOf(tiers, 200) == tiers[0];
    SuperadditiveIff(tiers);
    assert dear in tiers && !BuysOne(dear);
  }

  /** The module's own table: dearer purchases buy no less, and splitting one buys no more. */
  lemma TopupPricing(a: nat, b: nat)
    ensures a <= b ==> TierCredits(TOPUP_TIERS, a) <= TierCredits(TOPUP_TIERS, b)
    ensures TierCredits(TOPUP_TIERS, a) + TierCredits(TOPUP_TIERS, b) <= TierCredits(TOPUP_TIERS, a + b)
    ensures InRange(a) ==> TierCredits(TOPUP_TIERS, a) > 0
  {
    if a <= b { PricingMonotone(TOPUP_TIERS, a, b); }
    TopupSplitSafe();
    PricingSuperadditive(TOPUP_TIERS, a, b);
    CreditsOfTier(TOPUP_TIERS, a);
  }

  /** What it charges, range by range. */
  lemma TopupPrices(kopecks: nat)
    ensures TierCredits(TOPUP_TIERS, kopecks)
         == if kopecks >= 100000 then kopecks * 45 / 100000
            else if kopecks >= 50000 then kopecks / 2500
            else if kopecks >= 20000 then kopecks * 7 / 20000
            else if kopecks >= 10000 then kopecks * 3 / 10000
            else 0
  {
    var i := if kopecks >= 100000 then 0 else if kopecks >= 50000 then 1 else if kopecks >= 20000 then 2 else if kopecks >= 10000 then 3 else 4;
    TierCreditsFrom(i, kopecks);
    if i < 4 {
      var t := TOPUP_TIERS[i];
      assert TOPUP_TIERS[i..][0] == t;
      FloorDecides(kopecks * t.credits, 100 * t.rubles, 1);
      assert Floor(kopecks * t.credits, 100 * t.rubles) == kopecks * t.credits / (100 * t.rubles);
    }
  }

  lemma TopupSplitSafe()
    ensures Regressive(TOPUP_TIERS) && SplitSafe(TOPUP_TIERS)
  {
    var t := TierOf(TOPUP_TIERS, 20000);
    FloorDecides(10000 * t.credits, 100 * t.rubles, 1);
  }
}
