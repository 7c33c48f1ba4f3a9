/**
 * The allotment-probability engine of the predictor: per-account odds from
 * an oversubscription ratio, the chance of at least one allotment over
 * several accounts, the verdict tier, the market-sentiment label and the
 * two-decimal rounding of the displayed percentage. Numbers are exact reals.
 */
module Engine {

  datatype Language = EN | NP

  /** Verdict tiers, from worst to best. */
  datatype Tier = Low | Moderate | Good | ExtremelyHigh

  datatype Sentiment = Aggressive | Neutral

  /** What one prediction computes before anything is rounded for display. */
  datatype Prediction = Prediction(perAccount: real, total: real, tier: Tier, sentiment: Sentiment)

  /** `Math.pow(x, n)` for a natural exponent. */
  function Pow(x: real, n: nat): real
  {
    if n == 0 then 1.0 else x * Pow(x, n - 1)
  }

  /** Position of a tier in the order Low < Moderate < Good < ExtremelyHigh. */
  function Rank(t: Tier): nat
  {
    match t
    case Low => 0
    case Moderate => 1
    case Good => 2
    case ExtremelyHigh => 3
  }

  /** `Math.min(1, 1 / oversub)`: the chance that one account is allotted. */
  function PerAccountOdds(ratio: real): (p: real)
    requires ratio > 0.0
    ensures 0.0 < p <= 1.0
    ensures p <= 1.0 / ratio
    ensures p == 1.0 || p == 1.0 / ratio
    ensures p == 1.0 <==> ratio <= 1.0
  {
    if 1.0 / ratio < 1.0 then 1.0 / ratio else 1.0
  }

  /** `(1 - Math.pow(1 - p, n)) * 100`: the percentage chance of at least one allotment. */
  function AggregatePercent(p: real, n: nat): (r: real)
    requires 0.0 <= p <= 1.0
    ensures 0.0 <= r <= 100.0
  {
    PowInUnit(1.0 - p, n);
    (1.0 - Pow(1.0 - p, n)) * 100.0
  }

  /** `totalProb` of the predictor for an oversubscription ratio and an account count. */
  function TotalPercent(ratio: real, n: nat): (r: real)
    requires ratio > 0.0
    ensures 0.0 <= r <= 100.0
  {
    AggregatePercent(PerAccountOdds(ratio), n)
  }

  /** The verdict chosen by the `> 80`, `> 50`, `> 20` chain, with Low as the fallback. */
  function TierOf(percent: real): (t: Tier)
    ensures t == ExtremelyHigh <==> percent > 80.0
    ensures t == Good <==> 50.0 < percent <= 80.0
    ensures t == Moderate <==> 20.0 < percent <= 50.0
    ensures t == Low <==> percent <= 20.0
  {
    if percent > 80.0 then ExtremelyHigh
    else if percent > 50.0 then Good
    else if percent > 20.0 then Moderate
    else Low
  }

  /** The market-sentiment entry of the breakdown. */
  function SentimentOf(ratio: real): Sentiment
  {
    if ratio > 50.0 then Aggressive else Neutral
  }

  /** The whole numeric part of `handlePredict`. */
  function Compute(ratio: real, n: nat): (r: Prediction)
    requires ratio > 0.0
    ensures 0.0 < r.perAccount <= 1.0
    ensures (r.perAccount == 1.0) == (ratio <= 1.0)
    ensures 0.0 <= r.total <= 100.0
    ensures n >= 1 ==> 100.0 * r.perAccount <= r.total
    ensures n == 1 ==> r.total == 100.0 * r.perAccount
    ensures n == 0 ==> r.total == 0.0
    ensures r.tier == TierOf(r.total)
    ensures r.sentiment == Aggressive <==> ratio > 50.0
    ensures r.perAccount == PerAccountOdds(ratio) && r.total == TotalPercent(ratio, n)
  {
    var p := PerAccountOdds(ratio);
    TotalAtLeastOneAccount(ratio, n);
    Prediction(p, TotalPercent(ratio, n), TierOf(TotalPercent(ratio, n)), SentimentOf(ratio))
  }

  /** `Math.round(x * 100) / 100`, with `Math.round(y)` = floor(y + 1/2). */
  function Round2(x: real): (r: real)
    ensures x - 0.005 < r <= x + 0.005
    ensures (r * 100.0).Floor as real == r * 100.0
  {
    var k := (x * 100.0 + 0.5).Floor;
    assert k as real / 100.0 * 100.0 == k as real;
    k as real / 100.0
  }

  /** The verdict label shown for a tier in a language. */
  function Verdict(t: Tier, lang: Language): (r: string)
    ensures |r| > 0
    ensures lang == EN ==> |r| > 7 && r[|r| - 7..] == " Chance"
  {
    match t
    case ExtremelyHigh => if lang == EN then "Extremely High Chance" else "अत्यधिक उच्च सम्भावना"
    case Good => if lang == EN then "Good Chance" else "राम्रो सम्भावना"
    case Moderate => if lang == EN then "Moderate Chance" else "मध्यम सम्भावना"
    case Low => if lang == EN then "Low Chance" else "न्यून सम्भावना"
  }

  /** The text colour class attached to a tier. */
  function Color(t: Tier): (r: string)
    ensures |r| >= 12
    ensures r[..12] == "text-emerald" <==> Rank(t) >= Rank(Good)
  {
    match t
    case ExtremelyHigh => "text-emerald-400"
    case Good => "text-emerald-500"
    case Moderate => assert "text-gold-400"[5] != "text-emerald"[5]; "text-gold-400"
    case Low => assert "text-red-400"[5] != "text-emerald"[5]; "text-red-400"
  }

  // ---------------------------------------------------------------------------
  // Powers of a number in [0, 1]

  lemma {:induction false} PowNonNegative(x: real, n: nat)
    requires 0.0 <= x
    ensures 0.0 <= Pow(x, n)
  {
    if n > 0 {
      PowNonNegative(x, n - 1);
    }
  }

  lemma {:induction false} PowInUnit(x: real, n: nat)
    requires 0.0 <= x <= 1.0
    ensures 0.0 <= Pow(x, n) <= 1.0
  {
    if n > 0 {
      PowInUnit(x, n - 1);
      assert 0.0 <= x * Pow(x, n - 1);
      assert x * Pow(x, n - 1) <= 1.0 * Pow(x, n - 1);
    }
  }

  lemma {:induction false} PowZeroBase(n: nat)
    requires n >= 1
    ensures Pow(0.0, n) == 0.0
  {
  }

  /** A larger exponent never gives a larger power of a number in [0, 1]. */
  lemma {:induction false} PowAntitoneInExponent(x: real, m: nat, n: nat)
    requires 0.0 <= x <= 1.0
    requires m <= n
    ensures Pow(x, n) <= Pow(x, m)
    decreases n - m
  {
    if m < n {
      PowAntitoneInExponent(x, m, n - 1);
      PowInUnit(x, n - 1);
      assert x * Pow(x, n - 1) <= 1.0 * Pow(x, n - 1);
    }
  }

  /** A larger non-negative base never gives a smaller power. */
  lemma {:induction false} PowMonotoneInBase(x: real, y: real, n: nat)
    requires 0.0 <= x <= y
    ensures Pow(x, n) <= Pow(y, n)
  {
    if n > 0 {
      PowMonotoneInBase(x, y, n - 1);
      PowNonNegative(x, n - 1);
      PowNonNegative(y, n - 1);
      assert x * Pow(x, n - 1) <= y * Pow(x, n - 1);
      assert y * Pow(x, n - 1) <= y * Pow(y, n - 1);
    }
  }

  // ---------------------------------------------------------------------------
  // Properties of the aggregate probability

  /** With one account the aggregate is the per-account chance; more accounts only add to it. */
  lemma TotalAtLeastOneAccount(ratio: real, n: nat)
    requires ratio > 0.0
    ensures n == 0 ==> TotalPercent(ratio, n) == 0.0
    ensures n == 1 ==> TotalPercent(ratio, n) == 100.0 * PerAccountOdds(ratio)
    ensures n >= 1 ==> 100.0 * PerAccountOdds(ratio) <= TotalPercent(ratio, n)
  {
    var p := PerAccountOdds(ratio);
    if n >= 1 {
      PowAntitoneInExponent(1.0 - p, 1, n);
    }
  }

  /** For a fixed ratio, applying from more accounts never lowers the chance. */
  lemma TotalMonotoneInAccounts(ratio: real, m: nat, n: nat)
    requires ratio > 0.0
    requires m <= n
    ensures TotalPercent(ratio, m) <= TotalPercent(ratio, n)
  {
    PowAntitoneInExponent(1.0 - PerAccountOdds(ratio), m, n);
  }

  /** For a fixed account count, a higher oversubscription never raises the chance. */
  lemma TotalAntitoneInRatio(r1: real, r2: real, n: nat)
    requires 0.0 < r1 <= r2
    ensures TotalPercent(r2, n) <= TotalPercent(r1, n)
  {
    assert 1.0 / r2 <= 1.0 / r1;
    PowMonotoneInBase(1.0 - PerAccountOdds(r1), 1.0 - PerAccountOdds(r2), n);
  }

  /** An undersubscribed issue (ratio at most 1) is certain for any positive account count. */
  lemma UndersubscribedIsCertain(ratio: real, n: nat)
    requires 0.0 < ratio <= 1.0
    requires n >= 1
    ensures TotalPercent(ratio, n) == 100.0
    ensures TierOf(TotalPercent(ratio, n)) == ExtremelyHigh
  {
    PowZeroBase(n);
  }

  // ---------------------------------------------------------------------------
  // Tiers

  /** A higher percentage never yields a lower tier. */
  lemma TierMonotone(x: real, y: real)
    requires x <= y
    ensures Rank(TierOf(x)) <= Rank(TierOf(y))
  {
  }

  /** The thresholds are exclusive lower bounds. */
  lemma TierBoundaries()
    ensures TierOf(80.0) == Good
    ensures TierOf(50.0) == Moderate
    ensures TierOf(20.0) == Low
  {
  }

  /**
   * The tier is chosen from the unrounded total. Rounding for display never
   * shows a value of a higher tier, and shows at most one tier lower.
   */
  lemma DisplayedTierNeverHigher(x: real)
    ensures Rank(TierOf(Round2(x))) <= Rank(TierOf(x)) <= Rank(TierOf(Round2(x))) + 1
  {
    var k := (x * 100.0 + 0.5).Floor;
    assert Round2(x) == k as real / 100.0;
    if Round2(x) > 80.0 { assert k > 8000; assert k >= 8001; }
    if Round2(x) > 50.0 { assert k > 5000; assert k >= 5001; }
    if Round2(x) > 20.0 { assert k > 2000; assert k >= 2001; }
  }

  /** A total just above 80 is shown as 80 yet gets the Extremely High verdict. */
  lemma DisplayedTierCanBeLower()
    ensures TotalPercent(100.0 / 80.004, 1) == 80.004
    ensures TierOf(80.004) == ExtremelyHigh
    ensures Round2(80.004) == 80.0
    ensures TierOf(Round2(80.004)) == Good
  {
    assert (80.004 * 100.0 + 0.5).Floor == 8000;
  }

  /** Each tier has its own label in each language. */
  lemma VerdictsDistinct(t: Tier, u: Tier, lang: Language)
    requires t != u
    ensures Verdict(t, lang) != Verdict(u, lang)
  {
  }

  /** Each tier has its own colour. */
  lemma ColorsDistinct(t: Tier, u: Tier)
    requires t != u
    ensures Color(t) != Color(u)
  {
  }

  /** The worked examples: 10x with 1 and 5 accounts, 2x with 3, and 0.5x with 1. */
  lemma Scenarios()
    ensures Compute(10.0, 1).perAccount == 0.1
    ensures Compute(10.0, 1).total == 10.0 && Compute(10.0, 1).tier == Low
    ensures Compute(10.0, 5).total == 40.951 && Compute(10.0, 5).tier == Moderate
    ensures Round2(40.951) == 40.95
    ensures Compute(2.0, 3).total == 87.5 && Compute(2.0, 3).tier == ExtremelyHigh
    ensures Compute(0.5, 1).total == 100.0 && Compute(0.5, 1).tier == ExtremelyHigh
    ensures Compute(60.0, 1).sentiment == Aggressive && Compute(50.0, 1).sentiment == Neutral
  {
    assert Pow(0.9, 5) == 0.59049;
    assert Pow(0.5, 3) == 0.125;
    assert (40.951 * 100.0 + 0.5).Floor == 4095;
  }
}
