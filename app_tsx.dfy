/**
 * The TypeScript application shell: a once-per-second countdown that borrows
 * from the next larger field, and the page that follows the router's path.
 */
module AppTsx {
  import opened Countdown

  const AdminPath: string := "/adminpage-1318"

  /** The countdown's starting value. */
  const Initial: TimeLeft := TimeLeft(2, 14, 45, 30)

  /** One timer tick: the countdown loses one second and stops at zero. */
  function Tick(t: TimeLeft): (r: TimeLeft)
    ensures InRange(t) ==> InRange(r)
    ensures InRange(t) ==> Seconds(r) == if Seconds(t) == 0 then 0 else Seconds(t) - 1
    ensures t == Zero ==> r == Zero
  {
    if t.s > 0 then t.(s := t.s - 1)
    else if t.m > 0 then t.(m := t.m - 1, s := 59)
    else if t.h > 0 then t.(h := t.h - 1, m := 59, s := 59)
    else if t.d > 0 then t.(d := t.d - 1, h := 23, m := 59, s := 59)
    else t
  }

  /** The tick is the one in-range value one second shorter. */
  lemma TickIsOneSecondLess(t: TimeLeft, u: TimeLeft)
    requires InRange(t) && InRange(u)
    requires Seconds(u) == if Seconds(t) == 0 then 0 else Seconds(t) - 1
    ensures Tick(t) == u
  {
    SecondsDetermine(Tick(t), u);
  }

  /** `k` ticks in a row. */
  function TickN(t: TimeLeft, k: nat): (r: TimeLeft)
    ensures InRange(t) ==> InRange(r)
    ensures t == Zero ==> r == Zero
    decreases k
  {
    if k == 0 then t else TickN(Tick(t), k - 1)
  }

  /** After `k` ticks an in-range countdown has lost `k` seconds, or reached zero. */
  lemma {:induction false} TickNSeconds(t: TimeLeft, k: nat)
    requires InRange(t)
    ensures InRange(TickN(t, k))
    ensures Seconds(TickN(t, k)) == if Seconds(t) <= k then 0 else Seconds(t) - k
    decreases k
  {
    if k > 0 {
      ZeroSeconds(t);
      TickNSeconds(Tick(t), k - 1);
    }
  }

  /** The starting value is in range, and the countdown sits at zero once its seconds are used up. */
  lemma InitialRunsOut(k: nat)
    ensures InRange(Initial) && Seconds(Initial) == 225930
    ensures k >= 225930 ==> TickN(Initial, k) == Zero
  {
    TickNSeconds(Initial, k);
    if k >= 225930 {
      ZeroSeconds(TickN(Initial, k));
    }
  }

  /** The page after the path changes: the admin path opens the admin page, any other path leaves it. */
  function PageForPath(path: string, current: string): (r: string)
    ensures r == "admin" <==> path == AdminPath
    ensures path != AdminPath && current != "admin" ==> r == current
    ensures path != AdminPath && current == "admin" ==> r == "home"
  {
    if path == AdminPath then "admin"
    else if current == "admin" then "home"
    else current
  }

  /** Handling the same path twice changes nothing more. */
  lemma PageForPathIdempotent(path: string, current: string)
    ensures PageForPath(path, PageForPath(path, current)) == PageForPath(path, current)
  {
  }

  class AppContent {
    var currentPage: string
    var timeLeft: TimeLeft

    ghost predicate Valid()
      reads this
    {
      InRange(timeLeft)
    }

    /** Mounting starts on the home page; the path effect runs once on mount, for the initial path. */
    constructor (path: string)
      ensures Valid()
      ensures currentPage == PageForPath(path, "home") && timeLeft == Initial
      ensures currentPage == "admin" <==> path == AdminPath
    {
      currentPage := PageForPath(path, "home");
      timeLeft := Initial;
    }

    /** The interval callback. */
    method OnInterval()
      requires Valid()
      modifies this
      ensures Valid()
      ensures timeLeft == Tick(old(timeLeft))
      ensures Seconds(timeLeft) == if Seconds(old(timeLeft)) == 0 then 0 else Seconds(old(timeLeft)) - 1
      ensures currentPage == old(currentPage)
    {
      timeLeft := Tick(timeLeft);
    }

    /** The effect that runs when the router's path changes. */
    method OnPathChange(path: string)
      requires Valid()
      modifies this
      ensures Valid()
      ensures currentPage == PageForPath(path, old(currentPage))
      ensures currentPage == "admin" <==> path == AdminPath
      ensures timeLeft == old(timeLeft)
    {
      currentPage := PageForPath(path, currentPage);
    }
  }
}
