/** The time a retry policy keeps retrying: the sum of its backoff intervals. Durations are whole
    nanoseconds. The product of an interval and the backoff coefficient is a floating-point one: its
    operand and its result pass through a rounding. */
module RetryWindow {
  import opened Arithmetic

  const START_INITIAL := SECOND
  const START_MAXIMUM := 30 * SECOND
  const START_ATTEMPTS := 16
  const BACKOFF := 2
  const ACTIVITY_TIMEOUT := 300 * SECOND

  function Min(a: int, b: int): int { if a < b then a else b }

  /** Conversion of a number to whole nanoseconds: towards zero. */
  function Truncated(x: real): int { if x >= 0.0 then x.Floor else -(-x).Floor }

  type Rounding = real -> real

  function Whole(n: int): real { n as real }

  function Product(x: real, y: real): real { x * y }

  function Scaled(interval: int, coefficient: real, round: Rounding): real {
    round(Product(round(Whole(interval)), coefficient))
  }

  function Backoff(interval: int, maximum: int, coefficient: real, round: Rounding): int {
    Min(Truncated(Scaled(interval, coefficient, round)), maximum)
  }

  /** The interval after k retries, as the loop carries it. */
  function Interval(initial: int, maximum: int, coefficient: real, round: Rounding, k: nat): int {
    if k == 0 then initial
    else Backoff(Interval(initial, maximum, coefficient, round, k - 1), maximum, coefficient, round)
  }

  function Window(initial: int, maximum: int, coefficient: real, round: Rounding, attempts: int): int
    decreases attempts
  {
    if attempts <= 1 then 0
    else
      Window(initial, maximum, coefficient, round, attempts - 1)
      + Interval(initial, maximum, coefficient, round, attempts - 2)
  }

  method RetryWindow(initial: int, maximum: int, coefficient: real, round: Rounding, attempts: int)
    returns (window: int)
    ensures window == Window(initial, maximum, coefficient, round, attempts)
  {
    window := 0;
    var interval := initial;
    var attempt := 1;
    while attempt < attempts
      invariant attempt == 1 || 1 < attempt <= attempts
      invariant window == Window(initial, maximum, coefficient, round, attempt)
      invariant interval == Interval(initial, maximum, coefficient, round, attempt - 1)
    {
      window := window + interval;
      interval := Backoff(interval, maximum, coefficient, round);
      attempt := attempt + 1;
    }
  }

  /******* Roundings *******/

  predicate Below(x: real, y: real) { x <= y }

  ghost predicate Monotone(round: Rounding) {
    forall x, y {:trigger Below(x, y)} :: Below(x, y) ==> round(x) <= round(y)
  }

  /** The rounding keeps the order and every whole number up to a bound. Rounding to the double
      format does so up to 2^53; exact arithmetic does so up to any bound. */
  ghost predicate ExactTo(round: Rounding, bound: nat) {
    Monotone(round) && forall n {:trigger Whole(n)} :: 0 <= n <= bound ==> round(Whole(n)) == Whole(n)
  }

  const DOUBLE := 0x20_0000_0000_0000

  lemma ExactArithmetic(bound: nat)
    ensures ExactTo(x => x, bound)
  {}

  /******* The documented sum *******/

  /** The documented wait before a retry, for a whole coefficient. */
  function Wait(initial: nat, maximum: nat, coefficient: nat, k: nat): nat {
    Min(initial * Power(coefficient, k), maximum)
  }

  function Sum(initial: nat, maximum: nat, coefficient: nat, attempts: int): nat
    decreases attempts
  {
    if attempts <= 1 then 0
    else Sum(initial, maximum, coefficient, attempts - 1) + Wait(initial, maximum, coefficient, attempts - 2)
  }

  lemma {:induction false} WholeProduct(x: nat, c: nat)
    ensures Product(Whole(x), Whole(c)) == Whole(x * c)
  {
    if c > 0 {
      WholeProduct(x, c - 1);
      assert x * c == x * (c - 1) + x;
      assert Whole(x) * Whole(c) == Whole(x) * Whole(c - 1) + Whole(x);
    }
  }

  /** A rounded whole number that is beyond the cap is cut to the cap, however it was rounded. */
  lemma CappedRounding(n: nat, maximum: nat, round: Rounding)
    requires ExactTo(round, maximum)
    ensures Min(Truncated(round(Whole(n))), maximum) == Min(n, maximum)
  {
    if n > maximum {
      assert Below(Whole(maximum), Whole(n));
      TruncatedOrder(Whole(maximum), round(Whole(n)));
    }
  }

  lemma WholeBackoff(interval: nat, maximum: nat, coefficient: nat, round: Rounding)
    requires ExactTo(round, maximum) && ExactTo(round, interval)
    ensures Backoff(interval, maximum, Whole(coefficient), round) == Min(interval * coefficient, maximum)
  {
    assert round(Whole(interval)) == Whole(interval);
    WholeProduct(interval, coefficient);
    CappedRounding(interval * coefficient, maximum, round);
  }

  lemma ProductGrows(a: nat, b: nat, c: nat)
    requires a <= b && c >= 1
    ensures a <= a * c <= b * c
  {
    calc {
      a * c;
    <= { assert (b - a) * c >= 0; }
      b * c;
    }
    assert a * (c - 1) >= 0;
  }

  /** Capping before multiplying makes no difference once the product is capped. */
  lemma CappedProduct(a: nat, maximum: nat, coefficient: nat)
    requires coefficient >= 1
    ensures Min(Min(a, maximum) * coefficient, maximum) == Min(a * coefficient, maximum)
  {
    if a > maximum { ProductGrows(maximum, a, coefficient); }
  }

  lemma WaitStep(initial: nat, maximum: nat, coefficient: nat, k: nat)
    requires coefficient >= 1
    ensures Wait(initial, maximum, coefficient, k + 1)
            == Min(Wait(initial, maximum, coefficient, k) * coefficient, maximum)
  {
    var power := Power(coefficient, k);
    CappedProduct(initial * power, maximum, coefficient);
    assert initial * power * coefficient == initial * (power * coefficient);
  }

  /** After the first retry the loop's interval is the documented wait, even where the initial
      interval is above the cap. */
  lemma {:induction false} IntervalIsWait(initial: nat, maximum: nat, coefficient: nat, round: Rounding, k: nat)
    requires coefficient >= 1 && (k > 0 || initial <= maximum)
    requires ExactTo(round, initial) && ExactTo(round, maximum)
    ensures Interval(initial, maximum, Whole(coefficient), round, k) == Wait(initial, maximum, coefficient, k)
  {
    if k == 0 {
      assert Power(coefficient, 0) == 1;
    } else if k == 1 {
      assert Power(coefficient, 1) == Power(coefficient, 0) * coefficient == coefficient;
      assert Interval(initial, maximum, Whole(coefficient), round, 0) == initial;
      WholeBackoff(initial, maximum, coefficient, round);
    } else {
      IntervalIsWait(initial, maximum, coefficient, round, k - 1);
      WholeBackoff(Wait(initial, maximum, coefficient, k - 1), maximum, coefficient, round);
      WaitStep(initial, maximum, coefficient, k - 1);
    }
  }

  /** The loop exceeds the documented sum by what the first interval has above the cap. */
  lemma {:induction false} WindowOfSum(initial: nat, maximum: nat, coefficient: nat, round: Rounding, attempts: int)
    requires coefficient >= 1 && ExactTo(round, initial) && ExactTo(round, maximum)
    ensures Window(initial, maximum, Whole(coefficient), round, attempts)
            == Sum(initial, maximum, coefficient, attempts) + Excess(initial, maximum, attempts)
    decreases attempts
  {
    if attempts > 1 {
      WindowOfSum(initial, maximum, coefficient, round, attempts - 1);
      if attempts > 2 || initial <= maximum {
        IntervalIsWait(initial, maximum, coefficient, round, attempts - 2);
      } else {
        assert Wait(initial, maximum, coefficient, 0) == maximum by { assert Power(coefficient, 0) == 1; }
      }
    }
  }

  function Excess(initial: nat, maximum: nat, attempts: int): nat {
    if attempts <= 1 || initial <= maximum then 0 else initial - maximum
  }

  /** The loop computes the documented sum exactly when no retry is made or the initial interval
      is within the cap. */
  lemma WindowIsSumIff(initial: nat, maximum: nat, coefficient: nat, round: Rounding, attempts: int)
    requires coefficient >= 1 && ExactTo(round, initial) && ExactTo(round, maximum)
    ensures Window(initial, maximum, Whole(coefficient), round, attempts)
            == Sum(initial, maximum, coefficient, attempts)
            <==> attempts <= 1 || initial <= maximum
  {
    WindowOfSum(initial, maximum, coefficient, round, attempts);
  }

  /** Exactness is needed: an interval that the rounding makes smaller is lost from the window. */
  lemma InexactBreaksSum(n: nat, round: Rounding)
    requires Truncated(round(round(Whole(n)))) < n
    ensures Window(n, n, 1.0, round, 3) < Sum(n, n, 1, 3)
  {
    assert Product(round(Whole(n)), 1.0) == round(Whole(n));
    assert Interval(n, n, 1.0, round, 0) == n;
    assert Interval(n, n, 1.0, round, 1) == Truncated(round(round(Whole(n))));
    assert Window(n, n, 1.0, round, 2) == n;
    assert Power(1, 1) == 1 && Wait(n, n, 1, 0) == Wait(n, n, 1, 1) == n;
    assert Sum(n, n, 1, 2) == n;
  }

  /******* Monotonicity *******/

  lemma ProductOrder(x: real, y: real, coefficient: real)
    requires x <= y && coefficient >= 0.0
    ensures Product(x, coefficient) <= Product(y, coefficient)
  {
    var d := y - x;
    assert d * coefficient >= 0.0;
    assert y * coefficient == (x + d) * coefficient == x * coefficient + d * coefficient;
  }

  lemma ScaledOrder(a: int, b: int, coefficient: real, round: Rounding)
    requires a <= b && coefficient >= 0.0 && Monotone(round)
    ensures Scaled(a, coefficient, round) <= Scaled(b, coefficient, round)
  {
    var x, y := round(Whole(a)), round(Whole(b));
    assert Below(Whole(a), Whole(b));
    ProductOrder(x, y, coefficient);
    assert Below(Product(x, coefficient), Product(y, coefficient));
  }

  lemma TruncatedOrder(x: real, y: real)
    requires x <= y
    ensures Truncated(x) <= Truncated(y)
  {
    assert x.Floor as real <= x && y < y.Floor as real + 1.0;
    assert (-y).Floor as real <= -y && -x < (-x).Floor as real + 1.0;
  }

  lemma BackoffMonotone(a: int, b: int, maximum: int, higher: int, coefficient: real, round: Rounding)
    requires a <= b && maximum <= higher && coefficient >= 0.0 && Monotone(round)
    ensures Backoff(a, maximum, coefficient, round) <= Backoff(b, higher, coefficient, round)
  {
    ScaledOrder(a, b, coefficient, round);
    TruncatedOrder(Scaled(a, coefficient, round), Scaled(b, coefficient, round));
  }

  lemma {:induction false} IntervalNonNegative(initial: nat, maximum: nat, coefficient: real, round: Rounding, k: nat)
    requires coefficient >= 0.0 && ExactTo(round, 0)
    ensures Interval(initial, maximum, coefficient, round, k) >= 0
  {
    if k > 0 {
      var last := Interval(initial, maximum, coefficient, round, k - 1);
      IntervalNonNegative(initial, maximum, coefficient, round, k - 1);
      assert round(Whole(0)) == Whole(0) == 0.0;
      assert Scaled(0, coefficient, round) == 0.0;
      ScaledOrder(0, last, coefficient, round);
    }
  }

  lemma {:induction false} MoreAttempts(initial: nat, maximum: nat, coefficient: real, round: Rounding,
                                        attempts: int, more: int)
    requires attempts <= more && coefficient >= 0.0 && ExactTo(round, 0)
    ensures Window(initial, maximum, coefficient, round, attempts) <= Window(initial, maximum, coefficient, round, more)
    decreases more - attempts
  {
    if attempts < more {
      MoreAttempts(initial, maximum, coefficient, round, attempts, more - 1);
      if more > 1 { IntervalNonNegative(initial, maximum, coefficient, round, more - 2); }
    }
  }

  lemma {:induction false} HigherInterval(initial: int, maximum: int, higher: int, coefficient: real,
                                          round: Rounding, k: nat)
    requires maximum <= higher && coefficient >= 0.0 && Monotone(round)
    ensures Interval(initial, maximum, coefficient, round, k) <= Interval(initial, higher, coefficient, round, k)
  {
    if k > 0 {
      HigherInterval(initial, maximum, higher, coefficient, round, k - 1);
      var a := Interval(initial, maximum, coefficient, round, k - 1);
      var b := Interval(initial, higher, coefficient, round, k - 1);
      BackoffMonotone(a, b, maximum, higher, coefficient, round);
    }
  }

  lemma {:induction false} HigherMaximum(initial: int, maximum: int, higher: int, coefficient: real,
                                         round: Rounding, attempts: int)
    requires maximum <= higher && coefficient >= 0.0 && Monotone(round)
    ensures Window(initial, maximum, coefficient, round, attempts)
            <= Window(initial, higher, coefficient, round, attempts)
    decreases attempts
  {
    if attempts > 1 {
      HigherMaximum(initial, maximum, higher, coefficient, round, attempts - 1);
      HigherInterval(initial, maximum, higher, coefficient, round, attempts - 2);
    }
  }

  /******* The configured policy *******/

  function StartSeconds(k: nat): nat {
    if k == 0 then 1 else if k == 1 then 2 else if k == 2 then 4 else if k == 3 then 8 else if k == 4 then 16 else 30
  }

  /** The start policy's intervals in seconds: one, doubling, then the maximum. */
  lemma {:induction false} StartInterval(round: Rounding, k: nat)
    requires ExactTo(round, DOUBLE)
    ensures Interval(START_INITIAL, START_MAXIMUM, Whole(BACKOFF), round, k) == SECOND * StartSeconds(k)
  {
    if k > 0 {
      StartInterval(round, k - 1);
      WholeBackoff(SECOND * StartSeconds(k - 1), START_MAXIMUM, BACKOFF, round);
    }
  }

  lemma {:induction false} StartWindowFrom(round: Rounding, attempts: nat)
    requires attempts >= 1 && ExactTo(round, DOUBLE)
    ensures Window(START_INITIAL, START_MAXIMUM, Whole(BACKOFF), round, attempts)
            == SECOND * (if attempts == 1 then 0 else if attempts == 2 then 1 else if attempts == 3 then 3
                         else if attempts == 4 then 7 else if attempts == 5 then 15 else 31 + 30 * (attempts - 6))
  {
    if attempts > 1 {
      StartWindowFrom(round, attempts - 1);
      StartInterval(round, attempts - 2);
    }
  }

  /** In the double format a run start keeps retrying at least as long as the activity that persists
      the plan state may take. */
  lemma StartWindowCoversPersist(round: Rounding)
    requires ExactTo(round, DOUBLE)
    ensures Window(START_INITIAL, START_MAXIMUM, Whole(BACKOFF), round, START_ATTEMPTS)
            == 331 * SECOND >= ACTIVITY_TIMEOUT
  {
    StartWindowFrom(round, START_ATTEMPTS);
  }
}
