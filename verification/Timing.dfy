/** Clock readings, the retry delay in int64 nanoseconds, and the score of a
    queue entry in float64. */
module Timing {
  // Clock readings and durations are whole nanoseconds.
  type Time = int

  const SECOND: int := 1_000_000_000
  const MILLISECOND: int := 1_000_000
  const TWO_63: int := 0x8000_0000_0000_0000
  const TWO_64: int := 0x1_0000_0000_0000_0000

  // Go keeps nanoseconds within the second in [0, 1e9), so both round down.
  function Unix(t: Time): int { t / SECOND }

  function UnixMilli(t: Time): int { t / MILLISECOND }

  /** The whole second, and the whole millisecond, a clock reading lies in. */
  lemma ClockReadings(t: Time)
    ensures Unix(t) * 1_000_000_000 <= t < (Unix(t) + 1) * 1_000_000_000
    ensures UnixMilli(t) * 1_000_000 <= t < (UnixMilli(t) + 1) * 1_000_000
  {
  }

  // ---------------------------------------------------------------- backoff

  function Pow2(n: nat): (p: nat)
    ensures p >= 1
  {
    if n == 0 then 1 else 2 * Pow2(n - 1)
  }

  /** The value of an int64 after a computation that may leave its range. */
  function Wrap64(x: int): int { (x + TWO_63) % TWO_64 - TWO_63 }

  /** float64 2^n converted to an int64: out of range, amd64 yields the minimum. */
  function Pow2AsInt64(n: nat): int { if n < 63 then Pow2(n) else -TWO_63 }

  /** The delay before the run that follows the given attempt. */
  function Backoff(attempts: nat): int
  {
    if attempts == 0 then 0 else Wrap64(Pow2AsInt64(attempts - 1) * SECOND)
  }

  /** The score of an entry in the retry set written at `now`. */
  function RetryScore(now: Time, attempts: nat): int { Unix(now + Backoff(attempts)) }

  /** Delays of the automatic retries after attempts 1..n. */
  function TotalBackoff(n: nat): int
  {
    if n == 0 then 0 else TotalBackoff(n - 1) + Backoff(n)
  }

  lemma {:induction false} Pow2Grows(m: nat, n: nat)
    requires m <= n
    ensures Pow2(m) <= Pow2(n)
    decreases n
  {
    if m < n { Pow2Grows(m, n - 1); }
  }

  lemma Pow2At()
    ensures Pow2(33) == 0x2_0000_0000 && Pow2(34) == 0x4_0000_0000
  {
    assert Pow2(8) == 256;
    assert Pow2(16) == 65536;
    assert Pow2(24) == 0x100_0000;
    assert Pow2(32) == 0x1_0000_0000;
  }

  /** An int64 keeps the value modulo 2^64. */
  lemma Wrap64IsCongruent(x: int)
    ensures -0x8000_0000_0000_0000 <= Wrap64(x) < 0x8000_0000_0000_0000
    ensures (x - Wrap64(x)) % 0x1_0000_0000_0000_0000 == 0
  {
    var q := (x + TWO_63) / TWO_64;
    assert x - Wrap64(x) == q * 0x1_0000_0000_0000_0000;
  }

  lemma Wrap64Identity(x: int)
    requires -TWO_63 <= x < TWO_63
    ensures Wrap64(x) == x
  {
  }

  /** The computed delay is 2^(attempts-1) seconds exactly up to attempt 34,
      that is, for every automatic retry when max_attempts <= 35. */
  lemma BackoffExactIff(attempts: nat)
    requires attempts >= 1
    ensures Backoff(attempts) == Pow2(attempts - 1) * SECOND <==> attempts <= 34
  {
    Pow2At();
    if attempts <= 34 {
      Pow2Grows(attempts - 1, 33);
      Wrap64Identity(Pow2(attempts - 1) * SECOND);
    } else {
      Pow2Grows(34, attempts - 1);
      assert Pow2(attempts - 1) * SECOND >= 0x4_0000_0000 * SECOND > TWO_63;
    }
  }

  lemma {:induction false} Pow2Splits(m: nat, n: nat)
    ensures Pow2(m + n) == Pow2(m) * Pow2(n)
    decreases n
  {
    if n > 0 { Pow2Splits(m, n - 1); }
  }

  /** Past the bound the delay is what is left of 2^(attempts-1) seconds modulo 2^64
      nanoseconds, and from attempt 56 on nothing at all. */
  lemma BackoffPastTheBound(attempts: nat)
    requires attempts >= 1
    ensures attempts <= 63 ==> (Pow2(attempts - 1) * 1_000_000_000 - Backoff(attempts)) % 0x1_0000_0000_0000_0000 == 0
    ensures attempts >= 56 ==> Backoff(attempts) == 0
  {
    hide Wrap64, Pow2;
    if attempts <= 63 { Wrap64IsCongruent(Pow2(attempts - 1) * SECOND); }
    if attempts >= 64 {
      assert Pow2AsInt64(attempts - 1) * SECOND == -500_000_000 * TWO_64;
      WholeTurnsVanish(-500_000_000);
    } else if attempts >= 56 {
      Pow2Splits(55, attempts - 56);
      Pow2Of55();
      var k := Pow2(attempts - 56);
      assert Pow2(attempts - 1) * SECOND == (k * 1_953_125) * TWO_64;
      WholeTurnsVanish(k * 1_953_125);
    }
  }

  lemma Pow2Of55()
    ensures Pow2(55) * 512 == TWO_64
  {
    Pow2At();
    Pow2Splits(34, 21);
    assert Pow2(8) == 256;
    assert Pow2(16) == 65536;
    assert Pow2(21) == 0x20_0000;
  }

  lemma WholeTurnsVanish(k: int)
    ensures Wrap64(k * TWO_64) == 0
  {
    var x := k * TWO_64 + TWO_63;
    assert x / TWO_64 == k && x % TWO_64 == TWO_63;
  }

  /** The first delay past the bound is negative: that retry is due at once. */
  lemma BackoffAfter34IsNegative()
    ensures Backoff(35) == -1_266_874_889_709_551_616
    ensures forall now: Time :: RetryScore(now, 35) < Unix(now)
  {
    Pow2At();
    assert Backoff(35) == Wrap64(0x4_0000_0000 * SECOND);
  }

  /** A job that fails every one of its max_attempts runs has waited
      2^(max_attempts-1) - 1 seconds in all. */
  lemma {:induction false} TotalBackoffClosedForm(maxAttempts: nat)
    requires 1 <= maxAttempts <= 35
    ensures TotalBackoff(maxAttempts - 1) == (Pow2(maxAttempts - 1) - 1) * SECOND
  {
    if maxAttempts > 1 {
      TotalBackoffClosedForm(maxAttempts - 1);
      BackoffExactIff(maxAttempts - 1);
    }
  }

  /** Both truncations to seconds together cost less than one second. */
  lemma RipeMeansWaited(written: Time, attempts: nat, now: Time)
    requires 1 <= attempts <= 34
    requires RetryScore(written, attempts) <= Unix(now)
    ensures now - written > (Pow2(attempts - 1) - 1) * SECOND
  {
    BackoffExactIff(attempts);
  }

  /** The due second exactly: the one in which the delay of 2^(attempts-1) seconds
      ends. A scan that comes no sooner than that finds the entry due. */
  lemma RetryScoreIs(written: Time, attempts: nat, now: Time)
    requires 1 <= attempts <= 34
    ensures var score := RetryScore(written, attempts);
      && score * 1_000_000_000 <= written + Pow2(attempts - 1) * 1_000_000_000 < (score + 1) * 1_000_000_000
      && (score <= Unix(now) <==> score * 1_000_000_000 <= now)
      && (now - written >= Pow2(attempts - 1) * 1_000_000_000 ==> score <= Unix(now))
  {
    BackoffExactIff(attempts);
    ClockReadings(now);
    ClockReadings(written + Pow2(attempts - 1) * SECOND);
  }

  // ---------------------------------------------------------- queue scores

  // Integers up to this magnitude are float64 values.
  const EXACT: int := 0x20_0000_0000_0000

  // One priority step outweighs this many milliseconds of waiting.
  const PRIORITY_STEP: int := 1_000_000_000

  /** The multiple of `ulp` nearest to `x`; a tie goes to the even multiple. */
  function Nearest(x: nat, ulp: nat): nat
    requires ulp > 0
  {
    var q, r := x / ulp, x % ulp;
    if 2 * r < ulp || (2 * r == ulp && q % 2 == 0) then q * ulp else (q + 1) * ulp
  }

  function RoundFrom(x: nat, ulp: nat): nat
    requires ulp > 0
    decreases x - ulp
  {
    if x <= EXACT * ulp then Nearest(x, ulp) else RoundFrom(x, 2 * ulp)
  }

  /** The float64 nearest to an integer. */
  function ToDouble(x: int): int
  {
    if x < 0 then 0 - RoundFrom(-x, 1) else RoundFrom(x, 1)
  }

  /** What the priority contributes to the score. */
  function Base(priority: int): int { ToDouble(ToDouble(-priority) * PRIORITY_STEP) }

  /** The score Enqueue gives a job: the lowest score is popped first. */
  function PriorityScore(priority: int, millis: int): int
  {
    ToDouble(Base(priority) + ToDouble(millis))
  }

  lemma MulAtMost(a: int, b: int, ulp: nat)
    requires a <= b
    ensures a * ulp <= b * ulp
  {
  }

  lemma MulDistributes(q: nat, ulp: nat)
    ensures (q + 1) * ulp == q * ulp + ulp
  {
  }

  /** Rounding does not cross a multiple of the unit. */
  lemma NearestBounds(x: nat, ulp: nat, m: nat)
    requires ulp > 0
    ensures x <= m * ulp ==> Nearest(x, ulp) <= m * ulp
    ensures x >= m * ulp ==> Nearest(x, ulp) >= m * ulp
  {
    var q, r := x / ulp, x % ulp;
    assert x == q * ulp + r;
    MulDistributes(q, ulp);
    if q < m {
      MulAtMost(q + 1, m, ulp);
    } else {
      MulAtMost(m, q, ulp);
    }
  }

  lemma QuotientMonotone(x: nat, y: nat, ulp: nat)
    requires ulp > 0 && x <= y
    ensures x / ulp <= y / ulp
    ensures x / ulp == y / ulp ==> x % ulp <= y % ulp
  {
    var q, p, r, s := x / ulp, y / ulp, x % ulp, y % ulp;
    assert x == q * ulp + r && y == p * ulp + s;
    if p < q {
      MulAtMost(p + 1, q, ulp);
      MulDistributes(p, ulp);
    }
  }

  lemma NearestMonotone(x: nat, y: nat, ulp: nat)
    requires ulp > 0 && x <= y
    ensures Nearest(x, ulp) <= Nearest(y, ulp)
  {
    QuotientMonotone(x, y, ulp);
    var q, p := x / ulp, y / ulp;
    MulDistributes(q, ulp);
    MulDistributes(p, ulp);
    if q < p { MulAtMost(q + 1, p, ulp); }
  }

  lemma {:induction false} RoundFromAtLeast(y: nat, ulp: nat)
    requires ulp > 0 && y >= EXACT * ulp
    ensures RoundFrom(y, ulp) >= EXACT * ulp
    decreases y - ulp
  {
    if y <= EXACT * ulp {
      NearestBounds(y, ulp, EXACT);
    } else if y <= EXACT * (2 * ulp) {
      NearestBounds(y, 2 * ulp, EXACT / 2);
      assert (EXACT / 2) * (2 * ulp) == EXACT * ulp;
    } else {
      RoundFromAtLeast(y, 2 * ulp);
    }
  }

  lemma {:induction false} RoundFromMonotone(x: nat, y: nat, ulp: nat)
    requires ulp > 0 && x <= y
    ensures RoundFrom(x, ulp) <= RoundFrom(y, ulp)
    decreases y - ulp
  {
    if y <= EXACT * ulp {
      NearestMonotone(x, y, ulp);
    } else if x <= EXACT * ulp {
      NearestBounds(x, ulp, EXACT);
      RoundFromAtLeast(y, ulp);
    } else {
      RoundFromMonotone(x, y, 2 * ulp);
    }
  }

  /** Rounding never reverses two integers. */
  lemma ToDoubleMonotone(x: int, y: int)
    requires x <= y
    ensures ToDouble(x) <= ToDouble(y)
  {
    if x >= 0 {
      RoundFromMonotone(x, y, 1);
    } else if y < 0 {
      RoundFromMonotone(-y, -x, 1);
    }
  }

  // ---------------------------------------------- float64 by its definition

  ghost predicate Scaled(m: int, c: int, n: nat) { m == c * Pow2(n) }

  /** The integers that are float64 values: at most 53 bits, and a power of two. */
  ghost predicate IsDouble(m: int) {
    exists c: int, n: nat :: -0x20_0000_0000_0000 <= c <= 0x20_0000_0000_0000 && Scaled(m, c, n)
  }

  function Distance(x: int, y: int): nat { if x < y then y - x else x - y }

  lemma NearestIsNearest(x: nat, ulp: nat, j: int)
    requires ulp > 0
    ensures Distance(x, Nearest(x, ulp)) <= Distance(x, j * ulp)
  {
    var q, r := x / ulp, x % ulp;
    assert x == q * ulp + r;
    MulDistributes(q, ulp);
    if j <= q { MulAtMost(j, q, ulp); } else { MulAtMost(q + 1, j, ulp); }
  }

  lemma NearestIsMultiple(x: nat, ulp: nat) returns (m: nat)
    requires ulp > 0 && x <= EXACT * ulp
    ensures Nearest(x, ulp) == m * ulp && m <= EXACT
  {
    NearestBounds(x, ulp, EXACT);
    m := if Nearest(x, ulp) == (x / ulp) * ulp then x / ulp else x / ulp + 1;
    if m > EXACT { MulAtMost(EXACT + 1, m, ulp); MulDistributes(EXACT, ulp); }
  }

  /** A float64 value is no nearer than the rounded one: a multiple of the unit, or
      smaller than where the unit begins. */
  lemma NoDoubleIsNearer(x: nat, k: nat, c: int, n: nat)
    requires x <= EXACT * Pow2(k) && (k > 0 ==> x > EXACT * Pow2(k - 1)) && -EXACT <= c <= EXACT
    ensures Distance(x, Nearest(x, Pow2(k))) <= Distance(x, c * Pow2(n))
  {
    hide Nearest;
    if n >= k {
      Pow2Splits(k, n - k);
      ProductsRegroup3(c, Pow2(n - k), Pow2(k));
      NearestIsNearest(x, Pow2(k), c * Pow2(n - k));
    } else {
      NearestIsNearest(x, Pow2(k), EXACT / 2);
      assert (EXACT / 2) * Pow2(k) == EXACT * Pow2(k - 1);
      Pow2Grows(n, k - 1);
      MulAtMost(c, EXACT, Pow2(n));
      ScaleUp(EXACT, Pow2(n), Pow2(k - 1));
    }
  }

  lemma ProductsRegroup3(c: int, a: nat, b: nat)
    ensures (c * a) * b == c * (b * a)
  {
  }

  lemma ScaleUp(c: nat, a: nat, b: nat)
    requires a <= b
    ensures c * a <= c * b
  {
  }

  lemma {:induction false} RoundFromIsNearest(x: nat, k: nat, c: int, n: nat)
    requires (k > 0 ==> x > EXACT * Pow2(k - 1)) && -EXACT <= c <= EXACT
    ensures IsDouble(RoundFrom(x, Pow2(k)))
    ensures Distance(x, RoundFrom(x, Pow2(k))) <= Distance(x, c * Pow2(n))
    decreases x - Pow2(k)
  {
    hide Nearest, Distance;
    if x <= EXACT * Pow2(k) {
      var m := NearestIsMultiple(x, Pow2(k));
      assert Scaled(RoundFrom(x, Pow2(k)), m, k);
      NoDoubleIsNearer(x, k, c, n);
    } else {
      RoundFromIsNearest(x, k + 1, c, n);
    }
  }

  lemma RoundFromIsBest(x: nat, d: int)
    requires IsDouble(d)
    ensures IsDouble(RoundFrom(x, 1)) && Distance(x, RoundFrom(x, 1)) <= Distance(x, d)
  {
    hide RoundFrom, Distance;
    var c: int, n: nat :| -EXACT <= c <= EXACT && Scaled(d, c, n);
    RoundFromIsNearest(x, 0, c, n);
  }

  /** Rounding by its definition: the result is a float64 value, and none is nearer. */
  lemma ToDoubleIsNearest(x: int, d: int)
    requires IsDouble(d)
    ensures IsDouble(ToDouble(x)) && Distance(x, ToDouble(x)) <= Distance(x, d)
  {
    hide RoundFrom, IsDouble;
    if x >= 0 {
      RoundFromIsBest(x, d);
    } else {
      NegatedDouble(d);
      RoundFromIsBest(-x, -d);
      NegatedDouble(RoundFrom(-x, 1));
    }
  }

  lemma NegatedDouble(m: int)
    requires IsDouble(m)
    ensures IsDouble(-m)
  {
    var c: int, n: nat :| -EXACT <= c <= EXACT && Scaled(m, c, n);
    assert Scaled(-m, -c, n);
  }

  /** Between two values that are as near, the one with the even mantissa. */
  lemma TiesGoToEven(x: int)
    requires 0x20_0000_0000_0000 < x < 0x40_0000_0000_0000 && x % 2 == 1
    ensures ToDouble(x) % 4 == 0 && Distance(x, ToDouble(x)) == 1
  {
    assert RoundFrom(x, 1) == RoundFrom(x, 2) == Nearest(x, 2);
  }

  lemma ToDoubleExact(x: int)
    requires -EXACT <= x <= EXACT
    ensures ToDouble(x) == x
  {
  }

  /** For all priorities and times, even where the score is rounded: a job that
      is at least as urgent and at least as old never scores later. */
  lemma ScoreNeverReversesDominance(p: int, t: int, q: int, u: int)
    requires p >= q && t <= u
    ensures PriorityScore(p, t) <= PriorityScore(q, u)
  {
    ToDoubleMonotone(-p, -q);
    ToDoubleMonotone(ToDouble(-p) * PRIORITY_STEP, ToDouble(-q) * PRIORITY_STEP);
    ToDoubleMonotone(t, u);
    ToDoubleMonotone(ToDouble(ToDouble(-p) * PRIORITY_STEP) + ToDouble(t),
                     ToDouble(ToDouble(-q) * PRIORITY_STEP) + ToDouble(u));
  }

  /** The values of the priority column, an INTEGER. */
  predicate IsPriority(priority: int) { -0x8000_0000 <= priority < 0x8000_0000 }

  /** The score is computed without rounding. */
  predicate InExactRange(priority: int, millis: int) {
    && IsPriority(priority) && -EXACT <= millis <= EXACT
    && -EXACT <= millis - priority * PRIORITY_STEP <= EXACT
  }

  lemma MultipleIsExact(x: nat, ulp: nat, c: nat)
    requires ulp > 0 && x == c * ulp
    ensures RoundFrom(x, ulp) == if x <= EXACT * ulp then x else RoundFrom(x, 2 * ulp)
  {
    NearestBounds(x, ulp, c);
  }

  lemma ProductsRegroup(m: nat, ulp: nat, p: nat)
    ensures (m * p) * ulp == m * (ulp * p) && (2 * ulp) * p == ulp * (2 * p)
  {
  }

  lemma {:induction false} RoundsMultipleExactly(m: nat, ulp: nat, n: nat)
    requires ulp > 0 && ulp * Pow2(n) == 512 && m <= EXACT
    ensures RoundFrom(512 * m, ulp) == 512 * m
    decreases n
  {
    hide RoundFrom, Nearest;
    ProductsRegroup(m, ulp, Pow2(n));
    MultipleIsExact(512 * m, ulp, m * Pow2(n));
    if n == 0 {
      assert ulp == 512;
    } else {
      ProductsRegroup(m, ulp, Pow2(n - 1));
      RoundsMultipleExactly(m, 2 * ulp, n - 1);
    }
  }

  /** A priority step is a multiple of 512, so every priority of the column
      contributes exactly. */
  lemma BaseIsExact(priority: int)
    requires -0x8000_0000 <= priority < 0x8000_0000
    ensures Base(priority) == -priority * PRIORITY_STEP
  {
    ToDoubleExact(-priority);
    assert Pow2(9) == 512 by { assert Pow2(5) == 32; }
    var m := -priority * 1_953_125;
    assert -priority * PRIORITY_STEP == 512 * m;
    RoundsMultipleExactly(if m >= 0 then m else -m, 1, 9);
  }

  lemma ScoreIsExact(p: int, t: int)
    requires InExactRange(p, t)
    ensures PriorityScore(p, t) == t - p * PRIORITY_STEP
  {
    BaseIsExact(p);
    ToDoubleExact(t);
    ToDoubleExact(t - p * PRIORITY_STEP);
  }

  /** Within the exact range an entry is ahead of another exactly when it was
      written less than (p - q) * 10^9 ms after it. */
  lemma ScoreOrderIff(p: int, t: int, q: int, u: int)
    requires InExactRange(p, t) && InExactRange(q, u)
    ensures PriorityScore(p, t) == t - p * 1_000_000_000
    ensures PriorityScore(p, t) < PriorityScore(q, u) <==> t - u < (p - q) * 1_000_000_000
    ensures PriorityScore(p, t) == PriorityScore(q, u) <==> t - u == (p - q) * 1_000_000_000
  {
    ScoreIsExact(p, t);
    ScoreIsExact(q, u);
  }

  // --------------------------------------------------- when age still counts

  lemma QuotientIs(x: nat, ulp: nat, q: nat, r: nat)
    requires r < ulp && x == q * ulp + r
    ensures x / ulp == q && x % ulp == r
  {
    var p, s := x / ulp, x % ulp;
    assert x == p * ulp + s;
    if p < q {
      MulAtMost(p + 1, q, ulp);
      MulDistributes(p, ulp);
    } else if q < p {
      MulAtMost(q + 1, p, ulp);
      MulDistributes(q, ulp);
    }
  }

  /** Multiples of an even unit: an odd integer is rounded with a neighbour. */
  lemma OddSharesNearest(x: nat, ulp: nat)
    requires ulp > 0 && ulp % 2 == 0 && x % 2 == 1
    ensures Nearest(x, ulp) == Nearest(x - 1, ulp) || Nearest(x, ulp) == Nearest(x + 1, ulp)
  {
    var q, r := x / ulp, x % ulp;
    assert x == q * ulp + r;
    OddRemainder(x, ulp, q, r);
    QuotientIs(x - 1, ulp, q, r - 1);
    if r + 1 < ulp {
      QuotientIs(x + 1, ulp, q, r + 1);
    } else {
      MulDistributes(q, ulp);
      QuotientIs(x + 1, ulp, q + 1, 0);
    }
  }

  lemma OddRemainder(x: nat, ulp: nat, q: nat, r: nat)
    requires ulp % 2 == 0 && x % 2 == 1 && x == q * ulp + r
    ensures r % 2 == 1
  {
    var h := ulp / 2;
    assert q * ulp == 2 * (q * h);
  }

  lemma EdgeRoundsAlike(ulp: nat)
    requires ulp > 0
    ensures RoundFrom(EXACT * ulp, ulp) == RoundFrom(EXACT * ulp, 2 * ulp)
  {
    assert EXACT * ulp == (EXACT / 2) * (2 * ulp);
    QuotientIs(EXACT * ulp, ulp, EXACT, 0);
    QuotientIs(EXACT * ulp, 2 * ulp, EXACT / 2, 0);
  }

  lemma {:induction false} OddSharesRounding(x: nat, ulp: nat)
    requires ulp > 0 && x % 2 == 1 && (ulp % 2 == 0 || x > EXACT * ulp)
    ensures RoundFrom(x, ulp) == RoundFrom(x - 1, ulp) || RoundFrom(x, ulp) == RoundFrom(x + 1, ulp)
    decreases x - ulp
  {
    assert EXACT * ulp == 2 * ((EXACT / 2) * ulp);
    if x <= EXACT * ulp {
      OddSharesNearest(x, ulp);
    } else {
      OddSharesRounding(x, 2 * ulp);
      if x - 1 == EXACT * ulp { EdgeRoundsAlike(ulp); }
    }
  }

  /** Past 2^53 no four consecutive integers have four float64 values. */
  lemma FourShareAValue(x: nat) returns (k: nat)
    requires x + 3 > EXACT
    ensures k < 3 && ToDouble(x + k) == ToDouble(x + k + 1)
  {
    if x + 3 <= EXACT + 2 {
      k := EXACT - x;
      assert ToDouble(EXACT) == EXACT;
      assert ToDouble(EXACT + 1) == Nearest(EXACT + 1, 2) by { assert RoundFrom(EXACT + 1, 1) == RoundFrom(EXACT + 1, 2); }
    } else {
      var m := if x % 2 == 1 then x + 1 else x;
      var odd := m + 1;
      assert odd > EXACT && odd % 2 == 1 && x < odd < x + 3;
      OddSharesRounding(odd, 1);
      k := if ToDouble(odd) == ToDouble(odd - 1) then odd - 1 - x else odd - x;
    }
  }

  /** A later job of the same priority always scores later. */
  ghost predicate AgeCounts(priority: int, from: int, to: int) {
    forall t, u :: from <= t < u <= to ==> PriorityScore(priority, t) < PriorityScore(priority, u)
  }

  lemma AgeIsLost(priority: int, from: int, to: int) returns (t: int)
    requires 0 <= from && from + 3 <= to
    requires to > EXACT || Base(priority) + from < -EXACT || Base(priority) + to > EXACT
    ensures from <= t < to && PriorityScore(priority, t) == PriorityScore(priority, t + 1)
  {
    var base := Base(priority);
    if to > EXACT {
      var k := FourShareAValue(to - 3);
      t := to - 3 + k;
    } else if base + to > EXACT {
      var k := FourShareAValue(base + to - 3);
      t := to - 3 + k;
      ToDoubleExact(t);
      ToDoubleExact(t + 1);
    } else {
      var x := -(base + from) - 3;
      var k := FourShareAValue(x);
      t := from + 2 - k;
      assert base + t == -(x + k + 1) && base + t + 1 == -(x + k);
      ToDoubleExact(t);
      ToDoubleExact(t + 1);
    }
  }

  /** Between two moments no score of this priority is rounded. */
  predicate Fits(priority: int, from: int, to: int) {
    to <= EXACT && -EXACT <= from - priority * PRIORITY_STEP && to - priority * PRIORITY_STEP <= EXACT
  }

  /** Exactly when age counts: between two moments at least 3 ms apart, jobs of one
      priority always score in the order they were written if and only if the later
      moment and the scores at both ends stay within 2^53. */
  lemma AgeCountsIff(priority: int, from: int, to: int)
    requires -0x8000_0000 <= priority < 0x8000_0000 && 0 <= from && from + 3 <= to
    ensures AgeCounts(priority, from, to) <==> Fits(priority, from, to)
  {
    BaseIsExact(priority);
    if Fits(priority, from, to) {
      forall t, u | from <= t < u <= to ensures PriorityScore(priority, t) < PriorityScore(priority, u) {
        ScoreOrderIff(priority, t, priority, u);
      }
    } else {
      var t := AgeIsLost(priority, from, to);
      assert from <= t < t + 1 <= to;
    }
  }

  /** The order of scores: a job is ahead of another exactly when it was written
      less than the difference of the priorities, times 10^9 ms, after it. */
  ghost predicate OrderLaw(p: int, q: int, from: int, to: int) {
    forall t, u :: from <= t <= to && from <= u <= to ==>
      (PriorityScore(p, t) < PriorityScore(q, u) <==> t - u < (p - q) * PRIORITY_STEP)
  }

  /** The law holds among jobs of two priorities, between two moments, if and only
      if no score of either is rounded there. */
  lemma OrderLawIff(p: int, q: int, from: int, to: int)
    requires -0x8000_0000 <= p < 0x8000_0000 && -0x8000_0000 <= q < 0x8000_0000 && 0 <= from && from + 3 <= to
    ensures (OrderLaw(p, p, from, to) && OrderLaw(q, q, from, to) && OrderLaw(p, q, from, to) && OrderLaw(q, p, from, to))
       <==> Fits(p, from, to) && Fits(q, from, to)
  {
    hide PriorityScore;
    AgeCountsIff(p, from, to);
    AgeCountsIff(q, from, to);
    if OrderLaw(p, p, from, to) { LawMeansAgeCounts(p, from, to); }
    if OrderLaw(q, q, from, to) { LawMeansAgeCounts(q, from, to); }
    if Fits(p, from, to) && Fits(q, from, to) {
      forall a, b, t, u | a in {p, q} && b in {p, q} && from <= t <= to && from <= u <= to
        ensures PriorityScore(a, t) < PriorityScore(b, u) <==> t - u < (a - b) * PRIORITY_STEP
      {
        ScoreOrderIff(a, t, b, u);
      }
    }
  }

  lemma LawMeansAgeCounts(p: int, from: int, to: int)
    requires OrderLaw(p, p, from, to)
    ensures AgeCounts(p, from, to)
  {
    hide PriorityScore;
  }
}
