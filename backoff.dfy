/**
 * Retry delay algorithms: the exponential and list-clamped delays of
 * src/backoff-algorithms.js (repeated verbatim in src/task.js), the
 * exponential and linear delays of src/request-manager.js, and the way a
 * Task normalises its `backoff` option into a delay function.
 */
module Backoff {
  import opened Wrappers

  function Pow(base: nat, exp: nat): nat {
    if exp == 0 then 1 else base * Pow(base, exp - 1)
  }

  lemma {:induction false} PowPositive(base: nat, exp: nat)
    requires base >= 1
    ensures Pow(base, exp) >= 1
  {
    if exp > 0 {
      PowPositive(base, exp - 1);
    }
  }

  /** With a factor of at least one, powers never shrink as the exponent grows. */
  lemma {:induction false} PowMonotone(base: nat, i: nat, j: nat)
    requires base >= 1 && i <= j
    ensures Pow(base, i) <= Pow(base, j)
  {
    if i < j {
      PowMonotone(base, i, j - 1);
      PowPositive(base, j - 1);
      assert Pow(base, j) == base * Pow(base, j - 1) >= Pow(base, j - 1);
    }
  }

  /**
   * `backoffExponential({initialDelay, factor, maxDelay})(retryAttemptCount)`,
   * which is also `exponentialBackoff` of src/request-manager.js: the smaller
   * of `initialDelay * factor ** n` and `maxDelay`.
   */
  function Exponential(initialDelay: nat, factor: nat, maxDelay: nat, n: nat): (d: nat)
    ensures d <= maxDelay && d <= initialDelay * Pow(factor, n)
    ensures d == maxDelay || d == initialDelay * Pow(factor, n)
  {
    Min(initialDelay * Pow(factor, n), maxDelay)
  }

  const DefaultInitialDelay: nat := 100
  const DefaultFactor: nat := 2
  const DefaultMaxDelay: nat := 10000

  /** `backoffExponential()` with every option left to its default. */
  function DefaultExponential(n: nat): (d: nat)
    ensures d <= 10000
    ensures d == Exponential(100, 2, 10000, n)
  {
    Exponential(DefaultInitialDelay, DefaultFactor, DefaultMaxDelay, n)
  }

  /** The exponential delay never decreases with the retry count when the factor is at least one. */
  lemma ExponentialMonotone(initialDelay: nat, factor: nat, maxDelay: nat, i: nat, j: nat)
    requires factor >= 1 && i <= j
    ensures Exponential(initialDelay, factor, maxDelay, i) <= Exponential(initialDelay, factor, maxDelay, j)
  {
    PowMonotone(factor, i, j);
    MulMonotone(initialDelay, Pow(factor, i), Pow(factor, j));
  }

  lemma MulMonotone(k: nat, a: nat, b: nat)
    requires a <= b
    ensures k * a <= k * b
  {
  }

  /** The table of delays for initial delay 50, factor 2 and maximum 1000 at retries 0 through 6. */
  lemma ExponentialSample()
    ensures seq(7, n requires 0 <= n => Exponential(50, 2, 1000, n)) == [50, 100, 200, 400, 800, 1000, 1000]
  {
    assert Pow(2, 1) == 2;
    assert Pow(2, 2) == 4;
    assert Pow(2, 3) == 8;
    assert Pow(2, 4) == 16;
    assert Pow(2, 5) == 32;
    assert Pow(2, 6) == 64;
  }

  /**
   * `backoffFromValues(values)(n)`: `values[min(values.length - 1, n)]`.
   * An empty list reads `values[-1]`, which is `undefined`: `None` here.
   */
  function FromValues(values: seq<nat>, n: nat): (d: Option<nat>)
    ensures d.None? <==> |values| == 0
    ensures n < |values| ==> d == Some(values[n])
    ensures |values| > 0 && n >= |values| - 1 ==> d == Some(values[|values| - 1])
  {
    if |values| == 0 then None else Some(values[Min(|values| - 1, n)])
  }

  /** Every delay a non-empty list yields is one of the list's entries. */
  lemma FromValuesInList(values: seq<nat>, n: nat)
    requires |values| > 0
    ensures FromValues(values, n).Some? && FromValues(values, n).value in values
  {
  }

  /** `linearBackoff({initialDelay, maxDelay})(n)`: the smaller of `initialDelay * (n + 1)` and `maxDelay`. */
  function Linear(initialDelay: nat, maxDelay: nat, n: nat): (d: nat)
    ensures d <= maxDelay && d <= initialDelay * (n + 1)
    ensures d == maxDelay || d == initialDelay * (n + 1)
  {
    Min(initialDelay * (n + 1), maxDelay)
  }

  /** The linear delay never decreases with the retry count. */
  lemma LinearMonotone(initialDelay: nat, maxDelay: nat, i: nat, j: nat)
    requires i <= j
    ensures Linear(initialDelay, maxDelay, i) <= Linear(initialDelay, maxDelay, j)
  {
    MulMonotone(initialDelay, i + 1, j + 1);
  }

  /**
   * The `backoff` option a Task accepts: a list of delays, a number, or a
   * function from the retry count to a delay.
   */
  datatype BackoffOption =
    | DelayList(values: seq<nat>)
    | FixedDelay(delay: nat)
    | DelayFunction(f: nat -> nat)

  /**
   * The normalised delay function (src/task.js:43-47): a list becomes the
   * clamped lookup, a number a constant function, a function is kept.
   */
  function Delay(b: BackoffOption, n: nat): (d: Option<nat>)
    ensures d.None? <==> b.DelayList? && |b.values| == 0
    ensures b.DelayList? && d.Some? ==> d.value in b.values
    ensures b.FixedDelay? ==> d == Some(b.delay)
    ensures b.DelayFunction? ==> d == Some(b.f(n))
  {
    match b
    case DelayList(values) =>
      if |values| > 0 then FromValuesInList(values, n); FromValues(values, n)
      else FromValues(values, n)
    case FixedDelay(delay) => Some(delay)
    case DelayFunction(f) => Some(f(n))
  }

  /** The default `backoff` option of a Task and a TaskManager: `backoffExponential()`. */
  function DefaultBackoff(): (b: BackoffOption)
    ensures b.DelayFunction?
    ensures forall n: nat :: Delay(b, n) == Some(DefaultExponential(n))
  {
    DelayFunction(DefaultExponential)
  }
}
