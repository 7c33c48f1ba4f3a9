/**
 * The `{ d, h, m, s }` countdown value shown on the home page, its length in
 * seconds, and the ranges of its fields.
 */
module Countdown {

  datatype TimeLeft = TimeLeft(d: int, h: int, m: int, s: int)

  const Zero: TimeLeft := TimeLeft(0, 0, 0, 0)

  /** The number of seconds the value stands for. */
  function Seconds(t: TimeLeft): int
  {
    t.d * 86400 + t.h * 3600 + t.m * 60 + t.s
  }

  /** Days are non-negative, hours below 24, minutes and seconds below 60. */
  predicate InRange(t: TimeLeft)
  {
    t.d >= 0 && 0 <= t.h <= 23 && 0 <= t.m <= 59 && 0 <= t.s <= 59
  }

  /** Quotient and remainder are determined by any decomposition with a remainder in range. */
  lemma DivModUnique(a: int, k: int, q: int, r: int)
    requires k > 0
    requires a == q * k + r
    requires 0 <= r < k
    ensures q == a / k && r == a % k
  {
    var q', r' := a / k, a % k;
    assert a == q' * k + r';
    var e := q - q';
    assert e * k == r' - r by {
      assert q * k - q' * k == (q - q') * k;
    }
    if e >= 1 {
      AtLeastFactor(e, k);
    } else if e <= -1 {
      AtLeastFactor(-e, k);
    }
  }

  lemma AtLeastFactor(e: int, k: int)
    requires e >= 1 && k > 0
    ensures e * k >= k
  {
    assert e * k == (e - 1) * k + k;
    assert (e - 1) * k >= 0;
  }

  /** An in-range value is determined by its number of seconds. */
  lemma {:induction false} SecondsDetermine(a: TimeLeft, b: TimeLeft)
    requires InRange(a) && InRange(b)
    requires Seconds(a) == Seconds(b)
    ensures a == b
  {
    var total := Seconds(a);
    DivModUnique(total, 60, a.d * 1440 + a.h * 60 + a.m, a.s);
    DivModUnique(total, 60, b.d * 1440 + b.h * 60 + b.m, b.s);
    var minutes := total / 60;
    DivModUnique(minutes, 60, a.d * 24 + a.h, a.m);
    DivModUnique(minutes, 60, b.d * 24 + b.h, b.m);
    var hours := minutes / 60;
    DivModUnique(hours, 24, a.d, a.h);
    DivModUnique(hours, 24, b.d, b.h);
  }

  /** The value of the zero countdown is zero, and only it. */
  lemma {:induction false} ZeroSeconds(t: TimeLeft)
    requires InRange(t)
    ensures Seconds(t) >= 0
    ensures Seconds(t) == 0 <==> t == Zero
  {
    if Seconds(t) == 0 {
      SecondsDetermine(t, Zero);
    }
  }
}
