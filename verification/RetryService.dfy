/**
 Back-off arithmetic and the retry-or-bury decision (app/services/retry_service.py).
 Delays are computed over the reals; the jitter draw is a parameter.
 */
module RetryService {
  import opened Model
  import opened Arithmetic
  import DlqService

  function Pow(b: real, n: nat): real {
    if n == 0 then 1.0 else b * Pow(b, n - 1)
  }

  /** Python's `int(x)`: truncation toward zero. */
  function Truncate(x: real): int {
    if x >= 0.0 then x.Floor else -((-x).Floor)
  }

  function Get<T>(o: Option<T>, default: T): T {
    match o
    case Some(v) => v
    case None => default
  }

  function BaseDelay(p: Policy): real {
    Get(p.baseDelay, Get(p.initialDelay, 60.0))
  }

  function MaxDelay(p: Policy): real {
    Get(p.maxDelay, 86400.0)
  }

  /** The delay before jitter and before the cap. */
  function RawDelay(p: Policy, retryCount: nat): real {
    match Get(p.strategy, Fixed)
    case Linear => BaseDelay(p) * (retryCount + 1) as real
    case Exponential => BaseDelay(p) * Pow(Get(p.multiplier, 2.0), retryCount)
    case _ => BaseDelay(p)
  }

  predicate Jitters(p: Policy) {
    Get(p.strategy, Fixed) == Exponential && Get(p.jitter, true)
  }

  /** What `random.uniform(0, cap)` may return. */
  predicate Drawn(draw: real, cap: real) {
    if cap >= 0.0 then 0.0 <= draw <= cap else cap <= draw <= 0.0
  }

  /** `calculate_retry_delay`: None when the retry limit is reached. */
  function CalculateRetryDelay(retryCount: nat, p: Policy, draw: real): Option<int> {
    if retryCount >= Get(p.maxRetries, 3) then None
    else
      var delay := if Jitters(p) then draw else RawDelay(p, retryCount);
      Some(Max(1, Truncate(Lesser(delay, MaxDelay(p)))))
  }

  /** `calculate_next_retry_delay`: the 1-based, uncast helper. Its jitter default is off. */
  function CalculateNextRetryDelay(p: Policy, attempt: int, draw: real): real {
    var retryCount: nat := Max(0, attempt - 1);
    var delay :=
      match Get(p.strategy, Fixed)
      case Linear => BaseDelay(p) * attempt as real
      case Exponential =>
        if Get(p.jitter, false) then draw
        else BaseDelay(p) * Pow(Get(p.multiplier, 2.0), retryCount)
      case _ => BaseDelay(p);
    Lesser(delay, MaxDelay(p))
  }

  /** The policy `schedule_retry` consults: the job's own limit overrides the queue's. */
  function EffectivePolicy(db: Db, job: Job): Policy {
    var fallback := Policy(Some(Fixed), Some(60.0), None, None, None, None, Some(3));
    var empty := Policy(None, None, None, None, None, None, None);
    var p := if job.queue in db.queues && db.queues[job.queue].policy != empty
             then db.queues[job.queue].policy else fallback;
    p.(maxRetries := Some(job.maxRetries))
  }

  /** The cap that a jittered delay is drawn below. */
  function DrawCap(p: Policy, retryCount: nat): real {
    Lesser(MaxDelay(p), RawDelay(p, retryCount))
  }

  // ---------------------------------------------------------------- arithmetic

  lemma {:induction false} PowPositive(b: real, n: nat)
    requires b > 0.0
    ensures Pow(b, n) > 0.0
  {
    if n > 0 {
      PowPositive(b, n - 1);
    }
  }

  lemma {:induction false} PowMonotone(b: real, m: nat, n: nat)
    requires b >= 1.0 && m <= n
    ensures 1.0 <= Pow(b, m) <= Pow(b, n)
    decreases n
  {
    if n == 0 {
    } else if m == n {
      PowMonotone(b, m - 1, n - 1);
    } else {
      PowMonotone(b, m, n - 1);
      PowMonotone(b, n - 1, n - 1);
    }
  }

  /** Bernoulli's inequality: a geometric sequence outgrows every line. */
  lemma {:induction false} Bernoulli(b: real, n: nat)
    requires b >= 1.0
    ensures Pow(b, n) >= 1.0 + n as real * (b - 1.0)
  {
    if n > 0 {
      Bernoulli(b, n - 1);
      var x := b - 1.0;
      var k := (n - 1) as real;
      assert Pow(b, n) == (1.0 + x) * Pow(b, n - 1);
      ScaleUpReal(1.0 + x, Pow(b, n - 1), 1.0 + k * x);
      assert (1.0 + x) * (1.0 + k * x) == 1.0 + (k + 1.0) * x + k * (x * x);
      assert k * (x * x) >= 0.0;
      assert n as real == k + 1.0;
    }
  }

  lemma ProductPositive(a: real, b: real)
    requires a > 0.0 && b > 0.0
    ensures a * b > 0.0
  {
  }

  lemma FloorMonotone(x: real, y: real)
    requires x <= y
    ensures x.Floor <= y.Floor
  {
  }

  /** Under the outer `max(1, ...)`, truncating and flooring agree on every real. */
  lemma TruncateIsFloorFromOne(x: real)
    ensures Max(1, Truncate(x)) == Max(1, x.Floor)
  {
    if x < 0.0 {
      FloorMonotone(x, 0.0);
      FloorMonotone(0.0, -x);
    }
  }

  /** The three facts a caller of `calculate_retry_delay` relies on, for every policy. */
  lemma RetryDelayBounds(retryCount: nat, p: Policy, draw: real)
    requires Jitters(p) ==> Drawn(draw, DrawCap(p, retryCount))
    ensures CalculateRetryDelay(retryCount, p, draw).None? <==> retryCount >= Get(p.maxRetries, 3)
    ensures var d := CalculateRetryDelay(retryCount, p, draw);
            d.Some? ==> 1 <= d.value <= Max(1, DrawCap(p, retryCount).Floor)
    ensures var d := CalculateRetryDelay(retryCount, p, draw);
            d.Some? && !Jitters(p) ==> d.value == Max(1, DrawCap(p, retryCount).Floor)
  {
    var cap := DrawCap(p, retryCount);
    var delay := if Jitters(p) then draw else RawDelay(p, retryCount);
    var x := Lesser(delay, MaxDelay(p));
    TruncateIsFloorFromOne(x);
    if x <= cap {
      FloorMonotone(x, cap);
    } else {
      // a draw above a negative cap is still at most zero
      FloorMonotone(x, 0.0);
    }
  }

  /** For every policy, the longest delay of a retry is the formula's, or the ceiling if that is less. */
  lemma LongestDelay(p: Policy, n: nat)
    ensures var base := if p.baseDelay != None then p.baseDelay.value
                        else if p.initialDelay != None then p.initialDelay.value else 60.0;
            var ceiling := if p.maxDelay == None then 86400.0 else p.maxDelay.value;
            var factor := if p.multiplier == None then 2.0 else p.multiplier.value;
            var formula := if p.strategy == Some(Linear) then base * (n as real + 1.0)
                           else if p.strategy == Some(Exponential) then base * Pow(factor, n)
                           else base;
            DrawCap(p, n) == if formula < ceiling then formula else ceiling
  {
  }

  lemma RawDelayMonotone(p: Policy, m: nat, n: nat)
    requires m <= n && BaseDelay(p) >= 0.0
    requires Get(p.strategy, Fixed) == Exponential ==> Get(p.multiplier, 2.0) >= 1.0
    ensures RawDelay(p, m) <= RawDelay(p, n)
  {
    match Get(p.strategy, Fixed)
    case Exponential =>
      PowMonotone(Get(p.multiplier, 2.0), m, n);
      ScaleUpReal(BaseDelay(p), Pow(Get(p.multiplier, 2.0), n), Pow(Get(p.multiplier, 2.0), m));
    case Linear =>
      ScaleUpReal(BaseDelay(p), (n + 1) as real, (m + 1) as real);
    case _ =>
  }

  /** The delay without jitter, as `RetryDelayBounds` describes it. */
  function Wait(p: Policy, retryCount: nat): int {
    Max(1, DrawCap(p, retryCount).Floor)
  }

  /** A later retry never waits less than an earlier one. */
  ghost predicate NeverShrinks(p: Policy) {
    forall m: nat, n: nat :: m <= n ==> Wait(p, m) <= Wait(p, n)
  }

  /**
   What a policy must look like for that. A multiplier below one is harmless only if no delay
   ever exceeds a second, by the cap or by the base.
   */
  predicate Steady(p: Policy) {
    var b, x := BaseDelay(p), Get(p.multiplier, 2.0);
    || Get(p.strategy, Fixed) != Exponential
    || x >= 1.0
    || (0.0 <= x < 1.0 && DrawCap(p, 0) < 2.0)
    || (x < 0.0 && (MaxDelay(p) < 2.0 || b == 0.0 || Damped(b, x)))
  }

  /** The swings of a negative multiplier neither widen nor start beyond two seconds. */
  predicate Damped(b: real, x: real) {
    x >= -1.0 && b < 2.0 && b * x < 2.0
  }

  /** Below two seconds the delay is one second. */
  lemma ShortWait(p: Policy, n: nat)
    ensures DrawCap(p, n) < 2.0 <==> Wait(p, n) == 1
  {
    if DrawCap(p, n) >= 2.0 {
      FloorMonotone(2.0, DrawCap(p, n));
    }
  }

  lemma WaitGrows(p: Policy, m: nat, n: nat)
    requires m <= n
    requires Get(p.strategy, Fixed) == Exponential ==> Get(p.multiplier, 2.0) >= 1.0
    ensures Wait(p, m) <= Wait(p, n)
  {
    if BaseDelay(p) >= 0.0 {
      RawDelayMonotone(p, m, n);
      FloorMonotone(DrawCap(p, m), DrawCap(p, n));
    } else {
      NegativeBase(p, m);
      ShortWait(p, m);
    }
  }

  lemma NegativeBase(p: Policy, n: nat)
    requires BaseDelay(p) < 0.0
    requires Get(p.strategy, Fixed) == Exponential ==> Get(p.multiplier, 2.0) >= 0.0
    ensures RawDelay(p, n) <= 0.0
  {
    match Get(p.strategy, Fixed)
    case Exponential =>
      PowNatural(Get(p.multiplier, 2.0), n);
      ScaleUpReal(Pow(Get(p.multiplier, 2.0), n), 0.0, BaseDelay(p));
    case Linear => ScaleUpReal((n + 1) as real, 0.0, BaseDelay(p));
    case _ =>
  }

  lemma AtMost(c: real, a: real)
    requires c >= 0.0 && a <= 1.0
    ensures c * a <= c
  {
    ScaleUpReal(c, 1.0, a);
  }

  lemma {:induction false} PowNatural(x: real, n: nat)
    requires x >= 0.0
    ensures Pow(x, n) >= 0.0 && (x <= 1.0 ==> Pow(x, n) <= 1.0)
  {
    if n > 0 {
      PowNatural(x, n - 1);
      var a := Pow(x, n - 1);
      assert Pow(x, n) == x * a;
      ScaleUpReal(x, a, 0.0);
      if x <= 1.0 {
        AtMost(x, a);
      }
    }
  }

  lemma Shrinking(y: real, z: real)
    requires 0.0 < y <= 1.0 && 0.0 < z <= 1.0
    ensures 0.0 < y * z <= y
  {
    ProductPositive(y, z);
    AtMost(y, z);
  }

  /** One more factor turns the sign and does not add to the size. */
  lemma Turned(x: real, a: real, product: real)
    requires -1.0 <= x < 0.0 && (0.0 < a <= 1.0 || x <= a < 0.0) && product == x * a
    ensures if a < 0.0 then 0.0 < product <= 1.0 else x <= product < 0.0
  {
    if a < 0.0 {
      Shrinking(-x, -a);
      assert product == -x * -a;
    } else {
      Damps(x, a, product);
    }
  }

  lemma Damps(x: real, a: real, product: real)
    requires x < 0.0 && 0.0 < a <= 1.0 && product == x * a
    ensures x <= product < 0.0
  {
    assert x * (1.0 - a) <= 0.0;
    assert x * a == x - x * (1.0 - a);
  }

  /** Powers of a negative number no larger than one in size alternate and stay within it. */
  lemma {:induction false} PowAlternates(x: real, n: nat)
    requires -1.0 <= x < 0.0
    ensures if n % 2 == 0 then 0.0 < Pow(x, n) <= 1.0 else x <= Pow(x, n) < 0.0
  {
    if n > 0 {
      PowAlternates(x, n - 1);
      Turned(x, Pow(x, n - 1), Pow(x, n));
    }
  }

  /** The exponential formula by its numbers. */
  function Geometric(b: real, x: real, n: nat): real {
    b * Pow(x, n)
  }

  lemma GeometricIs(b: real, x: real, n: nat, a: real)
    requires a == Pow(x, n)
    ensures Geometric(b, x, n) == b * a
  {
  }

  /** The cap of an exponential policy is below two seconds if the formula is, or the ceiling. */
  lemma CapOf(p: Policy, n: nat)
    requires Get(p.strategy, Fixed) == Exponential
    ensures DrawCap(p, n) < 2.0 <==>
              Geometric(BaseDelay(p), Get(p.multiplier, 2.0), n) < 2.0 || MaxDelay(p) < 2.0
  {
    assert RawDelay(p, n) == Geometric(BaseDelay(p), Get(p.multiplier, 2.0), n);
  }

  /** The delays of an exponential policy that is steady for another reason than growth. */
  lemma SmallCaps(p: Policy, n: nat)
    requires Steady(p) && Get(p.strategy, Fixed) == Exponential && Get(p.multiplier, 2.0) < 1.0
    ensures DrawCap(p, n) < 2.0
  {
    var b, x := BaseDelay(p), Get(p.multiplier, 2.0);
    CapOf(p, n);
    CapOf(p, 0);
    if MaxDelay(p) >= 2.0 {
      if x >= 0.0 {
        SmallShrinking(b, x, n);
      } else if b != 0.0 {
        SmallSwings(b, x, n);
      } else {
        GeometricIs(b, x, n, Pow(x, n));
      }
    }
  }

  lemma SmallShrinking(b: real, x: real, n: nat)
    requires 0.0 <= x < 1.0 && Geometric(b, x, 0) < 2.0
    ensures Geometric(b, x, n) < 2.0
  {
    var a := Pow(x, n);
    PowNatural(x, n);
    GeometricIs(b, x, n, a);
    GeometricIs(b, x, 0, 1.0);
    if b >= 0.0 {
      AtMost(b, a);
    } else {
      ScaleUpReal(a, 0.0, b);
    }
  }

  lemma SmallSwings(b: real, x: real, n: nat)
    requires x < 0.0 && b != 0.0 && Damped(b, x)
    ensures Geometric(b, x, n) < 2.0
  {
    var a := Pow(x, n);
    PowAlternates(x, n);
    GeometricIs(b, x, n, a);
    if b > 0.0 {
      AtMost(b, a);
    } else {
      DampedStaysBelow(b, x, a);
    }
  }

  lemma DampedStaysBelow(b: real, x: real, a: real)
    requires b < 0.0 && Damped(b, x) && x <= a
    ensures b * a < 2.0
  {
    assert b * (a - x) <= 0.0;
    assert b * a == b * x + b * (a - x);
  }

  lemma {:induction false} Reciprocal(x: real, y: real, n: nat)
    requires x * y == 1.0
    ensures Pow(x, n) * Pow(y, n) == 1.0
  {
    if n > 0 {
      Reciprocal(x, y, n - 1);
      var a, c := Pow(x, n - 1), Pow(y, n - 1);
      assert (x * a) * (y * c) == (x * y) * (a * c);
    }
  }

  lemma QuotientNatural(max: real, slope: real)
    requires max > 0.0 && slope > 0.0
    ensures (max / slope).Floor >= 0
  {
    var q := max / slope;
    assert q * slope == max;
    if q < 0.0 {
      ScaleUpReal(slope, 0.0, q);
    }
  }

  /** A geometric sequence with a ratio above one passes every bound. */
  lemma Outgrows(ratio: real, bound: real) returns (n: nat)
    requires ratio > 1.0
    ensures Pow(ratio, n) >= bound
  {
    if bound <= 1.0 {
      n := 0;
    } else {
      QuotientNatural(bound, ratio - 1.0);
      n := (bound / (ratio - 1.0)).Floor + 1;
      Bernoulli(ratio, n);
      QuotientReached(bound, ratio - 1.0, n);
    }
  }

  /** And with a ratio below one it falls below every positive bound. */
  lemma Fades(ratio: real, base: real) returns (n: nat)
    requires 0.0 <= ratio < 1.0 && base > 0.0
    ensures Geometric(base, ratio, n) < 2.0
  {
    if ratio == 0.0 {
      n := 1;
      assert Pow(ratio, 1) == ratio * Pow(ratio, 0) == 0.0;
      GeometricIs(base, ratio, 1, 0.0);
    } else {
      var y := 1.0 / ratio;
      InverseAboveOne(ratio, y);
      n := Outgrows(y, base);
      var a, c := Pow(ratio, n), Pow(y, n);
      Reciprocal(ratio, y, n);
      PowPositive(ratio, n);
      BelowInverse(a, c, base);
      GeometricIs(base, ratio, n, a);
    }
  }

  lemma BelowInverse(a: real, c: real, base: real)
    requires a > 0.0 && a * c == 1.0 && c >= base
    ensures base * a <= 1.0
  {
    ScaleUpReal(a, c, base);
  }

  lemma InverseAboveOne(x: real, y: real)
    requires 0.0 < x < 1.0 && y == 1.0 / x
    ensures x * y == 1.0 && y > 1.0
  {
    assert x * y == 1.0;
    if y <= 1.0 {
      ScaleUpReal(x, 1.0, y);
    }
  }

  lemma {:induction false} PowOfSquare(x: real, k: nat)
    ensures Pow(x, 2 * k) == Pow(x * x, k) && Pow(x, 2 * k + 1) == x * Pow(x * x, k)
  {
    if k > 0 {
      PowOfSquare(x, k - 1);
      var a := Pow(x * x, k - 1);
      assert Pow(x, 2 * k - 1) == x * a;
      assert Pow(x, 2 * k) == x * (x * a) == (x * x) * a;
    }
  }

  /** With a negative ratio larger than one in size the products of one sign pass every bound. */
  lemma SwingsWiden(b: real, x: real) returns (n: nat)
    requires x < -1.0 && b != 0.0
    ensures Geometric(b, x, n) >= 2.0
  {
    SquareAboveOne(x);
    if b > 0.0 {
      var k := Outgrows(x * x, 2.0 / b);
      var a := Pow(x * x, k);
      PowOfSquare(x, k);
      n := 2 * k;
      Clears(b, a);
      GeometricIs(b, x, n, a);
    } else {
      ProductPositive(-b, -x);
      var c := b * x;
      assert c == -b * -x;
      var k := Outgrows(x * x, 2.0 / c);
      var a := Pow(x * x, k);
      PowOfSquare(x, k);
      n := 2 * k + 1;
      Clears(c, a);
      GeometricIs(b, x, n, x * a);
      Associate(b, x, a);
    }
  }

  lemma Associate(a: real, b: real, c: real)
    ensures a * (b * c) == (a * b) * c == b * (a * c)
  {
  }

  lemma Clears(b: real, a: real)
    requires b > 0.0 && a >= 2.0 / b
    ensures b * a >= 2.0
  {
    ScaleUpReal(b, a, 2.0 / b);
    assert b * (2.0 / b) == 2.0;
  }

  /** Some retry of an unsteady policy with a negative multiplier waits, and the next does not. */
  lemma SwingReached(b: real, x: real) returns (n: nat)
    requires x < 0.0 && b != 0.0 && !Damped(b, x)
    ensures Geometric(b, x, n) >= 2.0
  {
    if b >= 2.0 {
      n := 0;
      GeometricIs(b, x, 0, 1.0);
    } else if b * x >= 2.0 {
      n := 1;
      assert Pow(x, 1) == x * Pow(x, 0) == x;
      GeometricIs(b, x, 1, x);
    } else {
      n := SwingsWiden(b, x);
    }
  }

  lemma SquareAboveOne(x: real)
    requires x < -1.0
    ensures x * x > 1.0
  {
    ScaleUpReal(-x, -x, 1.0);
  }

  lemma NextSwing(b: real, x: real, n: nat)
    requires x < 0.0 && Geometric(b, x, n) >= 2.0
    ensures Geometric(b, x, n + 1) <= 0.0
  {
    var a := Pow(x, n);
    GeometricIs(b, x, n, a);
    GeometricIs(b, x, n + 1, x * a);
    Associate(b, x, a);
    ScaleUpReal(-x, b * a, 0.0);
  }

  /** Two retries of an unsteady policy of which the later one waits less. */
  lemma Shrinks(p: Policy) returns (m: nat, n: nat)
    requires !Steady(p)
    ensures m <= n && Wait(p, m) > Wait(p, n)
  {
    var b, x := BaseDelay(p), Get(p.multiplier, 2.0);
    if x >= 0.0 {
      m := 0;
      GeometricIs(b, x, 0, 1.0);
      CapOf(p, 0);
      n := Fades(x, b);
    } else {
      m := SwingReached(b, x);
      n := m + 1;
      NextSwing(b, x, m);
    }
    CapOf(p, m);
    CapOf(p, n);
    ShortWait(p, m);
    ShortWait(p, n);
  }

  /** For every policy: later retries never wait less exactly when the policy is steady. */
  lemma NeverShrinksExactly(p: Policy)
    ensures NeverShrinks(p) <==> Steady(p)
  {
    if Steady(p) {
      forall m: nat, n: nat | m <= n ensures Wait(p, m) <= Wait(p, n) {
        if Get(p.strategy, Fixed) == Exponential && Get(p.multiplier, 2.0) < 1.0 {
          SmallCaps(p, m);
          ShortWait(p, m);
        } else {
          WaitGrows(p, m, n);
        }
      }
    } else {
      var m, n := Shrinks(p);
    }
  }

  /** So the delays of two retries the engine schedules without jitter are in order. */
  lemma DelayMonotone(p: Policy, m: nat, n: nat, draw: real, draw': real)
    requires m <= n && Steady(p) && !Jitters(p)
    requires CalculateRetryDelay(n, p, draw').Some?
    ensures CalculateRetryDelay(m, p, draw).Some?
    ensures CalculateRetryDelay(m, p, draw).value <= CalculateRetryDelay(n, p, draw').value
  {
    NeverShrinksExactly(p);
    RetryDelayBounds(m, p, draw);
    RetryDelayBounds(n, p, draw');
    assert Wait(p, m) <= Wait(p, n);
  }

  /** Every policy that the queue schema can store is steady: it has no multiplier. */
  lemma NoMultiplierIsSteady(p: Policy)
    requires p.multiplier.None?
    ensures Steady(p) && NeverShrinks(p)
  {
    NeverShrinksExactly(p);
  }

  /** A policy written past the schema that halves: a minute before the first retry, half a minute before the second. */
  lemma HalvingShrinks(draw: real)
    ensures var p := Policy(Some(Exponential), Some(60.0), None, None, Some(0.5), Some(false), Some(3));
            && CalculateRetryDelay(0, p, draw) == Some(60)
            && CalculateRetryDelay(1, p, draw) == Some(30)
            && !Steady(p)
  {
    assert Pow(0.5, 0) == 1.0 && Pow(0.5, 1) == 0.5 * Pow(0.5, 0);
  }

  // ---------------------------------------------------------------- the keys of a policy, by their numbers

  /** `base_delay` goes before `initial_delay`, and an unknown strategy is a fixed one. */
  function Spelled(p: Policy, jitter: bool): Policy {
    Policy(if p.strategy == Some(Linear) || p.strategy == Some(Exponential) then p.strategy else Some(Fixed),
           if p.baseDelay != None then p.baseDelay else if p.initialDelay != None then p.initialDelay else Some(60.0),
           None,
           if p.maxDelay == None then Some(86400.0) else p.maxDelay,
           if p.multiplier == None then Some(2.0) else p.multiplier,
           if p.jitter == None then Some(jitter) else p.jitter,
           if p.maxRetries == None then Some(3) else p.maxRetries)
  }

  /** What an absent key stands for, for every policy. */
  lemma AbsentKeysMean(p: Policy, n: nat, draw: real)
    ensures CalculateRetryDelay(n, p, draw) == CalculateRetryDelay(n, Spelled(p, true), draw)
    ensures Allowed(p, n, draw) <==> Allowed(Spelled(p, true), n, draw)
  {
    SameFormula(p, n, true);
  }

  /** In the helper only the default of `jitter` differs. */
  lemma AbsentKeysMeanToTheHelper(p: Policy, attempt: int, draw: real)
    ensures CalculateNextRetryDelay(p, attempt, draw) == CalculateNextRetryDelay(Spelled(p, false), attempt, draw)
  {
    SameFormula(p, 0, false);
  }

  lemma SameFormula(p: Policy, n: nat, jitter: bool)
    ensures var full := Spelled(p, jitter);
            && BaseDelay(full) == BaseDelay(p) && MaxDelay(full) == MaxDelay(p) && RawDelay(full, n) == RawDelay(p, n)
            && Get(full.maxRetries, 3) == Get(p.maxRetries, 3) && Get(full.multiplier, 2.0) == Get(p.multiplier, 2.0)
            && (Get(full.strategy, Fixed) == Exponential <==> Get(p.strategy, Fixed) == Exponential)
            && (Get(full.strategy, Fixed) == Linear <==> Get(p.strategy, Fixed) == Linear)
            && Get(full.jitter, jitter) == Get(p.jitter, jitter)
  {
  }

  function TwoTo(n: nat): (power: nat)
    ensures power >= 1
  {
    if n == 0 then 1 else 2 * TwoTo(n - 1)
  }

  lemma {:induction false} PowOfTwo(n: nat)
    ensures Pow(2.0, n) == TwoTo(n) as real
  {
    if n > 0 {
      PowOfTwo(n - 1);
    }
  }

  lemma {:induction false} WholeProduct(b: int, n: nat)
    ensures (b * n) as real == b as real * n as real
  {
    if n > 0 {
      WholeProduct(b, n - 1);
      assert b * n == b * (n - 1) + b;
      assert b as real * n as real == b as real * (n - 1) as real + b as real;
    }
  }

  /** A policy as the queue schema stores it: a strategy, a base in whole seconds, and a limit. */
  function StoredPolicy(strategy: Strategy, base: Option<int>, limit: Option<int>): Policy {
    Policy(Some(strategy), if base.Some? then Some(base.value as real) else None, None, None, None, None, limit)
  }

  /** The base of a stored policy is a minute unless it says otherwise. */
  function Seconds(base: Option<int>): int {
    if base == None then 60 else base.value
  }

  /** The whole number of seconds that the formula computes for a stored policy. */
  function Formula(strategy: Strategy, b: int, n: nat): int {
    if strategy == Fixed then b else if strategy == Linear then b * (n + 1) else b * TwoTo(n)
  }

  lemma StoredRaw(strategy: Strategy, base: Option<int>, limit: Option<int>, n: nat)
    requires !strategy.Other?
    ensures RawDelay(StoredPolicy(strategy, base, limit), n) == Formula(strategy, Seconds(base), n) as real
  {
    match strategy
    case Fixed =>
    case Linear => StoredMultiple(base, limit, n);
    case Exponential => StoredDoubling(base, limit, n);
  }

  lemma StoredMultiple(base: Option<int>, limit: Option<int>, n: nat)
    ensures RawDelay(StoredPolicy(Linear, base, limit), n) == (Seconds(base) * (n + 1)) as real
  {
    WholeProduct(Seconds(base), n + 1);
  }

  lemma StoredDoubling(base: Option<int>, limit: Option<int>, n: nat)
    ensures RawDelay(StoredPolicy(Exponential, base, limit), n) == (Seconds(base) * TwoTo(n)) as real
  {
    PowOfTwo(n);
    GeometricIs(Seconds(base) as real, 2.0, n, TwoTo(n) as real);
    WholeProduct(Seconds(base), TwoTo(n));
    assert RawDelay(StoredPolicy(Exponential, base, limit), n) == Geometric(Seconds(base) as real, 2.0, n);
  }

  lemma StoredCap(strategy: Strategy, base: Option<int>, limit: Option<int>, n: nat)
    requires !strategy.Other?
    ensures DrawCap(StoredPolicy(strategy, base, limit), n) == Min(Formula(strategy, Seconds(base), n), 86400) as real
  {
    StoredRaw(strategy, base, limit, n);
  }

  /**
   The delays of every policy the schema can store, in seconds: the base, its multiples, or a draw
   from up to its doublings, never more than a day and never less than a second.
   */
  lemma StoredDelays(strategy: Strategy, base: Option<int>, limit: Option<int>, n: nat, draw: real)
    requires !strategy.Other?
    ensures var p, b := StoredPolicy(strategy, base, limit), if base == None then 60 else base.value;
            if n >= (if limit == None then 3 else limit.value) then CalculateRetryDelay(n, p, draw) == None
            else if strategy == Fixed then CalculateRetryDelay(n, p, draw) == Some(Max(1, Min(b, 86400)))
            else if strategy == Linear then CalculateRetryDelay(n, p, draw) == Some(Max(1, Min(b * (n + 1), 86400)))
            else
              0.0 <= draw <= Min(b * TwoTo(n), 86400) as real ==>
                Allowed(p, n, draw) && CalculateRetryDelay(n, p, draw) == Some(Max(1, draw.Floor))
  {
    StoredCap(strategy, base, limit, n);
    if strategy != Exponential {
      RetryDelayBounds(n, StoredPolicy(strategy, base, limit), draw);
    }
  }

  /** With a draw every whole second up to the doubled base may come out, and nothing else. */
  lemma StoredDelaysAreDrawn(base: Option<int>, limit: Option<int>, n: nat, d: int)
    requires n < (if limit == None then 3 else limit.value)
    ensures var b := if base == None then 60 else base.value;
            MayWait(StoredPolicy(Exponential, base, limit), n, d) <==> 1 <= d <= Max(1, Min(b * TwoTo(n), 86400))
  {
    StoredCap(Exponential, base, limit, n);
    MayWaitExactly(StoredPolicy(Exponential, base, limit), n, d);
  }

  /** And what the helper answers for them, for every attempt, without the last rounding. */
  lemma StoredHelperDelays(strategy: Strategy, base: Option<int>, limit: Option<int>, attempt: int, draw: real)
    requires !strategy.Other?
    ensures var b, answer := if base == None then 60 else base.value,
                             CalculateNextRetryDelay(StoredPolicy(strategy, base, limit), attempt, draw);
            answer == Min(if strategy == Fixed then b
                          else if strategy == Linear then b * attempt
                          else if attempt <= 1 then b
                          else b * TwoTo(attempt - 1), 86400) as real
  {
    match strategy
    case Fixed =>
    case Linear => WholeMultiple(Seconds(base), attempt);
    case Exponential => HelperDoubles(base, limit, attempt, draw);
  }

  lemma HelperDoubles(base: Option<int>, limit: Option<int>, attempt: int, draw: real)
    ensures var b := Seconds(base);
            CalculateNextRetryDelay(StoredPolicy(Exponential, base, limit), attempt, draw)
            == Min(if attempt <= 1 then b else b * TwoTo(attempt - 1), 86400) as real
  {
    StoredDoubling(base, limit, Max(0, attempt - 1));
  }

  lemma WholeMultiple(b: int, k: int)
    ensures (b * k) as real == b as real * k as real
  {
    if k >= 0 {
      WholeProduct(b, k);
    } else {
      WholeProduct(-b, -k);
      assert b * k == -b * -k && b as real * k as real == (-b) as real * (-k) as real;
    }
  }

  // ---------------------------------------------------------------- the two formulas

  /** `random.uniform` may have returned `draw` where the engine draws. */
  predicate Allowed(p: Policy, retryCount: nat, draw: real) {
    Jitters(p) ==> Drawn(draw, DrawCap(p, retryCount))
  }

  /** The helper draws only if the policy says so; the engine draws unless it says not to. */
  predicate HelperJitters(p: Policy) {
    Get(p.strategy, Fixed) == Exponential && Get(p.jitter, false)
  }

  /** With these draws the engine waits the helper's delay at the next attempt, in whole seconds. */
  predicate AgreeOn(p: Policy, n: nat, draw: real, draw': real) {
    Allowed(p, n, draw) && (HelperJitters(p) ==> Drawn(draw', DrawCap(p, n))) ==>
      CalculateRetryDelay(n, p, draw) == Some(Max(1, CalculateNextRetryDelay(p, n + 1, draw').Floor))
  }

  /** Whatever the two draw. */
  ghost predicate Agree(p: Policy, n: nat) {
    forall draw, draw' :: AgreeOn(p, n, draw, draw')
  }

  lemma HelperBelowCap(p: Policy, n: nat, draw: real)
    requires HelperJitters(p) ==> Drawn(draw, DrawCap(p, n))
    ensures if HelperJitters(p) then CalculateNextRetryDelay(p, n + 1, draw) == Lesser(draw, MaxDelay(p))
            else CalculateNextRetryDelay(p, n + 1, draw) == DrawCap(p, n)
  {
  }

  /** Below two seconds there is nothing to draw: every delay is one second. */
  lemma ShortDrawsAgree(p: Policy, n: nat, draw: real, draw': real)
    requires n < Get(p.maxRetries, 3) && Jitters(p) && DrawCap(p, n) < 2.0 && Allowed(p, n, draw)
    requires HelperJitters(p) ==> Drawn(draw', DrawCap(p, n))
    ensures CalculateRetryDelay(n, p, draw) == Some(1)
    ensures Max(1, CalculateNextRetryDelay(p, n + 1, draw').Floor) == 1
  {
    RetryDelayBounds(n, p, draw);
    ShortWait(p, n);
    HelperBelowCap(p, n, draw');
  }

  /**
   Below the retry limit the engine and the 1-based helper agree exactly when the engine does
   not draw or has nothing to draw. In particular they differ for an exponential policy that
   does not mention `jitter`, once its delay is two seconds or more.
   */
  lemma EngineMatchesHelper(p: Policy, n: nat)
    requires n < Get(p.maxRetries, 3)
    ensures Agree(p, n) <==> !Jitters(p) || DrawCap(p, n) < 2.0
  {
    var cap := DrawCap(p, n);
    if !Jitters(p) || cap < 2.0 {
      forall draw, draw' ensures AgreeOn(p, n, draw, draw') {
        if Allowed(p, n, draw) && (HelperJitters(p) ==> Drawn(draw', cap)) {
          if Jitters(p) {
            ShortDrawsAgree(p, n, draw, draw');
          } else {
            RetryDelayBounds(n, p, draw);
            HelperBelowCap(p, n, draw');
          }
        }
      }
    } else {
      assert Allowed(p, n, 0.0) && Drawn(cap, cap);
      HelperBelowCap(p, n, cap);
      FloorMonotone(2.0, cap);
      assert CalculateRetryDelay(n, p, 0.0) == Some(1);
      assert !AgreeOn(p, n, 0.0, cap);
    }
  }

  // ---------------------------------------------------------------- what a policy can make a retry wait

  /** Some draw makes the delay `d`. */
  ghost predicate MayWait(p: Policy, n: nat, d: int) {
    exists draw :: Allowed(p, n, draw) && CalculateRetryDelay(n, p, draw) == Some(d)
  }

  /** With jitter every whole delay up to the longest, without jitter the longest. */
  lemma MayWaitExactly(p: Policy, n: nat, d: int)
    requires n < Get(p.maxRetries, 3)
    ensures MayWait(p, n, d) <==> if Jitters(p) then 1 <= d <= Wait(p, n) else d == Wait(p, n)
  {
    if MayWait(p, n, d) {
      var draw :| Allowed(p, n, draw) && CalculateRetryDelay(n, p, draw) == Some(d);
      RetryDelayBounds(n, p, draw);
    }
    if Jitters(p) && 1 <= d <= Wait(p, n) {
      DrawMakes(p, n, d);
    } else if !Jitters(p) {
      RetryDelayBounds(n, p, 0.0);
      assert Allowed(p, n, 0.0) && CalculateRetryDelay(n, p, 0.0) == Some(Wait(p, n));
    }
  }

  lemma DrawMakes(p: Policy, n: nat, d: int)
    requires n < Get(p.maxRetries, 3) && Jitters(p) && 1 <= d <= Wait(p, n)
    ensures MayWait(p, n, d)
  {
    var cap := DrawCap(p, n);
    if d == 1 {
      assert Allowed(p, n, 0.0) && CalculateRetryDelay(n, p, 0.0) == Some(1);
    } else {
      var draw := d as real;
      assert draw <= cap.Floor as real <= cap <= MaxDelay(p);
      assert Allowed(p, n, draw) && CalculateRetryDelay(n, p, draw) == Some(d);
    }
  }

  /** Two policies can make a retry wait the same delays. */
  ghost predicate SameDelays(a: Policy, b: Policy, n: nat) {
    forall d :: MayWait(a, n, d) <==> MayWait(b, n, d)
  }

  /**
   Exactly when: the longest delays are equal, and either both draw jitter, or neither does, or
   there is nothing to draw.
   */
  lemma SameDelaysExactly(a: Policy, b: Policy, n: nat)
    requires n < Get(a.maxRetries, 3) && n < Get(b.maxRetries, 3)
    ensures SameDelays(a, b, n) <==> Wait(a, n) == Wait(b, n) && (Jitters(a) == Jitters(b) || Wait(a, n) == 1)
  {
    forall d ensures MayWait(a, n, d) <==> if Jitters(a) then 1 <= d <= Wait(a, n) else d == Wait(a, n) {
      MayWaitExactly(a, n, d);
    }
    forall d ensures MayWait(b, n, d) <==> if Jitters(b) then 1 <= d <= Wait(b, n) else d == Wait(b, n) {
      MayWaitExactly(b, n, d);
    }
    if SameDelays(a, b, n) {
      assert MayWait(a, n, Wait(a, n)) && MayWait(b, n, Wait(b, n));
      assert MayWait(a, n, 1) <==> MayWait(b, n, 1);
    }
  }

  function Slope(p: Policy): real {
    BaseDelay(p) * (Get(p.multiplier, 2.0) - 1.0)
  }

  /** The first retry from which the exponential formula stays at the cap. */
  function CapReached(p: Policy): nat
    requires BaseDelay(p) > 0.0 && Get(p.multiplier, 2.0) > 1.0
  {
    ProductPositive(BaseDelay(p), Get(p.multiplier, 2.0) - 1.0);
    if MaxDelay(p) <= 0.0 then 0 else (MaxDelay(p) / Slope(p)).Floor + 1
  }

  lemma LinearBelowExponential(p: Policy, n: nat)
    requires p.strategy == Some(Exponential)
    requires BaseDelay(p) > 0.0 && Get(p.multiplier, 2.0) > 1.0
    ensures RawDelay(p, n) >= BaseDelay(p) + n as real * Slope(p)
  {
    var b, m, k := BaseDelay(p), Get(p.multiplier, 2.0), n as real;
    Bernoulli(m, n);
    ScaleUpReal(b, Pow(m, n), 1.0 + k * (m - 1.0));
    Distribute(b, k, m - 1.0);
  }

  lemma Distribute(b: real, k: real, x: real)
    ensures b * (1.0 + k * x) == b + k * (b * x)
  {
  }

  lemma QuotientReached(max: real, slope: real, n: nat)
    requires max > 0.0 && slope > 0.0
    requires n >= (max / slope).Floor + 1
    ensures n as real * slope >= max
  {
    var q := max / slope;
    assert q < (q.Floor + 1) as real;
    ScaleUpReal(slope, n as real, q);
    assert slope * q == max;
  }

  /** Exponential back-off hits its ceiling after finitely many retries and stays there. */
  lemma ExponentialReachesCap(p: Policy, n: nat)
    requires p.strategy == Some(Exponential)
    requires BaseDelay(p) > 0.0 && Get(p.multiplier, 2.0) > 1.0
    requires n >= CapReached(p)
    ensures DrawCap(p, n) == MaxDelay(p)
  {
    LinearBelowExponential(p, n);
    ProductPositive(BaseDelay(p), Get(p.multiplier, 2.0) - 1.0);
    if MaxDelay(p) > 0.0 {
      QuotientReached(MaxDelay(p), Slope(p), n);
    } else {
      ScaleUpReal(Slope(p), n as real, 0.0);
    }
  }

  // ---------------------------------------------------------------- schedule_retry

  /** Committed effect of `schedule_retry` on a failed job. */
  function Retried(db: Db, j: JobId, draw: real, now: Time): Db
    requires j in db.jobs
  {
    var job := db.jobs[j];
    match CalculateRetryDelay(job.retryCount, EffectivePolicy(db, job), draw)
    case None => DlqService.Buried(db, j)
    case Some(delay) =>
      db.(jobs := db.jobs[j := job.(status := Scheduled, scheduledAt := Some(now + delay * SECOND))])
  }

  /** Without a policy to consult, a job with attempts left waits a minute. */
  lemma NoPolicyMeansAMinute(db: Db, j: JobId, draw: real, now: Time)
    requires j in db.jobs && db.jobs[j].retryCount < db.jobs[j].maxRetries
    requires db.jobs[j].queue in db.queues ==>
               db.queues[db.jobs[j].queue].policy == Policy(None, None, None, None, None, None, None)
    ensures var job := db.jobs[j].(status := Scheduled, scheduledAt := Some(now + 60_000_000));
            Retried(db, j, draw, now) == db.(jobs := db.jobs[j := job])
  {
    RetryDelayBounds(db.jobs[j].retryCount, EffectivePolicy(db, db.jobs[j]), draw);
    assert DrawCap(EffectivePolicy(db, db.jobs[j]), db.jobs[j].retryCount).Floor == 60;
  }

  /** A queue that has a policy decides the delay by it, under the job's own limit. */
  lemma QueuesPolicyDecides(db: Db, j: JobId, draw: real, now: Time)
    requires j in db.jobs && db.jobs[j].retryCount < db.jobs[j].maxRetries && db.jobs[j].queue in db.queues
    requires db.queues[db.jobs[j].queue].policy != Policy(None, None, None, None, None, None, None)
    ensures var job := db.jobs[j];
            var p := db.queues[job.queue].policy.(maxRetries := Some(job.maxRetries));
            var delay := CalculateRetryDelay(job.retryCount, p, draw);
            && delay.Some?
            && var later := job.(status := Scheduled, scheduledAt := Some(now + 1_000_000 * delay.value));
               Retried(db, j, draw, now) == db.(jobs := db.jobs[j := later])
  {
  }

  method ScheduleRetry(db: Database, j: JobId, draw: real, now: Time) returns (retried: bool)
    requires j in db.jobs
    modifies db
    ensures db.Value() == Retried(old(db.Value()), j, draw, now)
    ensures retried <==> old(db.jobs[j].retryCount < db.jobs[j].maxRetries)
  {
    var job := db.jobs[j];
    var delay := CalculateRetryDelay(job.retryCount, EffectivePolicy(db.Value(), job), draw);
    if delay.None? {
      DlqService.MoveToDlq(db, j);
      return false;
    }
    job := job.(status := Scheduled);
    job := job.(scheduledAt := Some(now + delay.value * SECOND));
    db.jobs := db.jobs[j := job];
    return true;
  }
}
