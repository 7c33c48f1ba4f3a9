/**
 * The JavaScript application shell: a countdown recomputed every second from
 * the milliseconds left until a target date, and the hash check that opens
 * the hidden admin page.
 *
 * `calculateTimeLeft` divides in floating point and uses `Math.floor` and the
 * truncating `%` of JavaScript; the model does the same over exact reals and
 * proves that it agrees with integer division and remainder.
 */
module AppJsx {
  import opened Countdown
  import AppTsx

  const AdminHash: string := "#/adminpage-1318"

  /** Rounding toward zero, as JavaScript's `%` uses for its quotient. */
  function Trunc(x: real): (r: int)
    ensures x >= 0.0 ==> 0 <= r && r as real <= x < r as real + 1.0
    ensures x < 0.0 ==> r <= 0 && r as real - 1.0 < x <= r as real
  {
    if x >= 0.0 then x.Floor else -((-x).Floor)
  }

  /** JavaScript's `x % y` on numbers: the remainder takes the sign of `x`. */
  function JsRem(x: real, y: real): (r: real)
    requires y != 0.0
    ensures x >= 0.0 && y > 0.0 ==> 0.0 <= r < y
    ensures x < 0.0 && y > 0.0 ==> -y < r <= 0.0
  {
    var q := x / y;
    assert x == y * q;
    RemainderBounds(x, y, q, Trunc(q) as real);
    x - y * Trunc(x / y) as real
  }

  /** With `q = x / y` and `y > 0`, a whole part `t` of `q` less than one away from it bounds `x - y * t`. */
  lemma RemainderBounds(x: real, y: real, q: real, t: real)
    requires y != 0.0 && x == y * q
    ensures y > 0.0 && t <= q < t + 1.0 ==> 0.0 <= x - y * t < y
    ensures y > 0.0 && t - 1.0 < q <= t ==> -y < x - y * t <= 0.0
  {
    if y > 0.0 {
      var r := x - y * t;
      assert r == y * (q - t);
      if t <= q < t + 1.0 {
        ScaledBelowOne(y, q - t, r);
      }
      if t - 1.0 < q <= t {
        ScaledBelowOne(y, t - q, -r);
      }
    }
  }

  /** A positive `y` scaled by some `d` in [0, 1) lies in [0, y). */
  lemma ScaledBelowOne(y: real, d: real, p: real)
    requires y > 0.0 && 0.0 <= d < 1.0 && p == y * d
    ensures 0.0 <= p < y
  {
    assert y - y * d == y * (1.0 - d);
  }

  /** `Math.floor(a / b)` for a non-negative integer `a`: integer division. */
  function FloorDiv(a: int, b: int): (r: int)
    requires a >= 0 && b > 0
    ensures r == a / b
  {
    FloorOfQuotient(a, b);
    (a as real / b as real).Floor
  }

  /** `Math.floor((a / b) % k)` for a non-negative integer `a`: the integer remainder. */
  function FloorRem(a: int, b: int, k: int): (r: int)
    requires a >= 0 && b > 0 && k > 0
    ensures r == (a / b) % k
  {
    FloorOfRemainder(a, b, k);
    JsRem(a as real / b as real, k as real).Floor
  }

  /**
   * `calculateTimeLeft` for a difference of `difference` milliseconds. The
   * minutes are `(difference / 1000 / 60) % 60`; dividing by 1000 and then
   * by 60 is the same real number as dividing by 60000.
   */
  function CalculateTimeLeft(difference: int): (r: TimeLeft)
    ensures InRange(r)
    ensures difference <= 0 ==> r == Zero
    ensures r.d == if difference > 0 then difference / 86400000 else 0
    ensures Seconds(r) == if difference > 0 then difference / 1000 else 0
  {
    if difference > 0 then
      SecondsOfParts(difference);
      TimeLeft(
        FloorDiv(difference, 86400000),
        FloorRem(difference, 3600000, 24),
        FloorRem(difference, 60000, 60),
        FloorRem(difference, 1000, 60))
    else
      Zero
  }

  /** `Math.floor(a / b)` is integer division for a non-negative `a`. */
  lemma FloorOfQuotient(a: int, b: int)
    requires a >= 0 && b > 0
    ensures (a as real / b as real).Floor == a / b
  {
    var q, r := a / b, a % b;
    assert a == q * b + r;
    assert a as real / b as real == q as real + r as real / b as real;
    assert 0.0 <= r as real / b as real < 1.0;
  }

  /** `Math.floor((a / b) % k)` is `(a / b) % k` for a non-negative `a`. */
  lemma FloorOfRemainder(a: int, b: int, k: int)
    requires a >= 0 && b > 0 && k > 0
    ensures JsRem(a as real / b as real, k as real).Floor == (a / b) % k
  {
    var x := a as real / b as real;
    assert x / k as real == a as real / (b * k) as real;
    FloorOfQuotient(a, b * k);
    assert Trunc(x / k as real) == a / (b * k);
    NestedDivision(a, b, k);
    FloorOfQuotient(a, b);
    var q := a / (b * k);
    assert JsRem(x, k as real) == x - (k * q) as real;
    FloorMinusInteger(x, k * q);
    assert (a / b) == (a / b) / k * k + (a / b) % k;
  }

  lemma FloorMinusInteger(x: real, n: int)
    ensures (x - n as real).Floor == x.Floor - n
  {
  }

  /** Dividing by `b` and then by `k` is dividing by `b * k`. */
  lemma NestedDivision(a: int, b: int, k: int)
    requires a >= 0 && b > 0 && k > 0
    ensures (a / b) / k == a / (b * k)
  {
    var q1, r1 := a / b, a % b;
    var q2, r2 := q1 / k, q1 % k;
    Regroup(q2, k, r2, b, r1);
    RemainderBelowProduct(r2, k, b, r1);
    DivModUnique(a, b * k, q2, r2 * b + r1);
  }

  lemma Regroup(q: int, k: int, r: int, b: int, c: int)
    ensures (q * k + r) * b + c == q * (b * k) + (r * b + c)
  {
    assert (q * k + r) * b == q * k * b + r * b;
    assert q * k * b == q * (b * k);
  }

  lemma RemainderBelowProduct(r: int, k: int, b: int, c: int)
    requires 0 <= r < k && b > 0 && 0 <= c < b
    ensures 0 <= r * b + c < b * k
  {
    assert r * b <= (k - 1) * b;
    assert (k - 1) * b == b * k - b;
  }

  /** The integer fields add up to the whole seconds of the difference. */
  lemma SecondsOfParts(difference: int)
    requires difference > 0
    ensures var t := TimeLeft(difference / 86400000, (difference / 3600000) % 24,
                              (difference / 60000) % 60, (difference / 1000) % 60);
            InRange(t) && Seconds(t) == difference / 1000
  {
    var total := difference / 1000;
    NestedDivision(difference, 1000, 60);
    NestedDivision(difference, 1000, 3600);
    NestedDivision(difference, 1000, 86400);
    var minutes := total / 60;
    var hours := total / 3600;
    NestedDivision(total, 60, 60);
    NestedDivision(total, 3600, 24);
    assert total == minutes * 60 + total % 60;
    assert minutes == hours * 60 + minutes % 60;
    assert hours == total / 86400 * 24 + hours % 24;
  }

  /** One second less of difference is one whole second less, down to zero. */
  lemma WholeSecondsStep(difference: int)
    ensures (if difference - 1000 > 0 then (difference - 1000) / 1000 else 0)
         == (if difference <= 0 || difference / 1000 == 0 then 0 else difference / 1000 - 1)
  {
    if difference > 1000 {
      DivModUnique(difference - 1000, 1000, difference / 1000 - 1, difference % 1000);
    } else if difference > 0 {
      assert difference / 1000 <= 1;
    }
  }

  /**
   * Recomputing one second later gives what one borrow-style tick of the
   * TypeScript shell gives: the two countdowns agree.
   */
  lemma TickAgreesWithRecompute(difference: int)
    ensures AppTsx.Tick(CalculateTimeLeft(difference)) == CalculateTimeLeft(difference - 1000)
  {
    WholeSecondsStep(difference);
    AppTsx.TickIsOneSecondLess(CalculateTimeLeft(difference), CalculateTimeLeft(difference - 1000));
  }

  /**
   * The page after a hash check: the page either stays or becomes admin, and
   * it is admin exactly when the hash is the admin hash or it already was, so
   * no hash change leaves the admin page.
   */
  function PageForHash(hash: string, current: string): (r: string)
    ensures r == current || r == "admin"
    ensures r == "admin" <==> hash == AdminHash || current == "admin"
  {
    if hash == AdminHash then "admin" else current
  }

  /** Unlike the TypeScript shell, leaving the admin hash does not leave the admin page. */
  lemma AdminPageIsSticky()
    ensures PageForHash("#/", "admin") == "admin"
    ensures AppTsx.PageForPath("/", "admin") == "home"
  {
  }

  class AppContent {
    var currentPage: string
    var timeLeft: TimeLeft

    ghost predicate Valid()
      reads this
    {
      InRange(timeLeft)
    }

    /** Mounting runs the hash check once and computes the countdown at once. */
    constructor (hash: string, difference: int)
      ensures Valid()
      ensures currentPage == PageForHash(hash, "home")
      ensures timeLeft == CalculateTimeLeft(difference)
    {
      var t := CalculateTimeLeft(difference);
      assert InRange(t);
      timeLeft := t;
      currentPage := PageForHash(hash, "home");
    }

    method OnHashChange(hash: string)
      requires Valid()
      modifies this
      ensures Valid()
      ensures currentPage == PageForHash(hash, old(currentPage))
      ensures timeLeft == old(timeLeft)
    {
      currentPage := PageForHash(hash, currentPage);
    }

    /** The interval callback, given the milliseconds left at that moment. */
    method OnInterval(difference: int)
      requires Valid()
      modifies this
      ensures Valid()
      ensures timeLeft == CalculateTimeLeft(difference)
      ensures Seconds(timeLeft) == if difference > 0 then difference / 1000 else 0
      ensures currentPage == old(currentPage)
    {
      timeLeft := CalculateTimeLeft(difference);
    }
  }
}
