/** Prices, tolerances and the NUMERIC(20,10) columns that store them
    (internal/models/price.go, migrations 000004 to 000006). */
module Prices {

  datatype Option<+T> = None | Some(value: T)

  /** Absolute tolerance when two prices are compared. */
  const EPSILON: real := 0.000000000001

  /** Relative difference above which two sources are in dispute. */
  const DISCREPANCY_THRESHOLD: real := 0.05

  /** A stored price is an integer number of 1e-10 steps. */
  const STEPS_PER_UNIT: real := 10000000000.0

  /** Half of one storage step. */
  const HALF_STEP: real := 0.00000000005

  /** NUMERIC(20,10) holds magnitudes below 1e10, which is 1e20 steps. */
  const STEP_LIMIT: int := 100000000000000000000

  datatype PriceField = Input | Output

  datatype Confidence = Low | Medium | High

  function OtherField(f: PriceField): PriceField {
    match f
    case Input => Output
    case Output => Input
  }

  function Abs(x: real): real {
    if x < 0.0 then -x else x
  }

  function Max(x: real, y: real): real {
    if x < y then y else x
  }

  /** Rounding on assignment to a NUMERIC(20,10) column: half away from zero. */
  function ToSteps(x: real): int {
    if x >= 0.0 then (x * STEPS_PER_UNIT + 0.5).Floor
    else -((0.5 - x * STEPS_PER_UNIT).Floor)
  }

  /** The price a stored value reads back as. */
  function FromSteps(n: int): real {
    n as real / STEPS_PER_UNIT
  }

  /** Values outside the column's range make the statement fail. */
  predicate Fits(x: real) {
    -STEP_LIMIT < ToSteps(x) < STEP_LIMIT
  }

  /** The price survives a write and a read within the comparison tolerance. */
  predicate Representable(x: real) {
    Abs(FromSteps(ToSteps(x)) - x) < EPSILON
  }

  /** A stored value within the tolerance of x can only be the rounding of x. */
  lemma OnlyRoundingIsClose(n: int, x: real)
    requires Abs(FromSteps(n) - x) < EPSILON
    ensures n == ToSteps(x)
  {
    var y := x * STEPS_PER_UNIT;
    assert FromSteps(n) * STEPS_PER_UNIT == n as real;
    assert n as real - 0.5 < y < n as real + 0.5;
    if x >= 0.0 {
      assert (n as real) < y + 0.5 < (n + 1) as real;
    } else {
      assert ((-n) as real) < 0.5 - y < (-n + 1) as real;
    }
  }

  /** A stored value is the nearest of those 1e-10 apart, the one further from zero when two are; and the
      column holds exactly the prices that round to less than 1e10. */
  lemma RoundsToNearest(x: real)
    ensures var n, y := ToSteps(x) as real, x * 10000000000.0;
            && -0.5 <= n - y <= 0.5
            && (n - y == 0.5 ==> x > 0.0) && (n - y == -0.5 ==> x < 0.0)
    ensures Fits(x) <==> -9999999999.99999999995 < x < 9999999999.99999999995
  {
    var y := x * STEPS_PER_UNIT;
    if x >= 0.0 {
      assert ToSteps(x) >= STEP_LIMIT <==> y + 0.5 >= STEP_LIMIT as real;
    } else {
      assert -ToSteps(x) >= STEP_LIMIT <==> 0.5 - y >= STEP_LIMIT as real;
    }
  }

  lemma RereadSteps(n: int)
    ensures ToSteps(FromSteps(n)) == n
  {
    assert FromSteps(n) * STEPS_PER_UNIT == n as real;
    if n >= 0 {
      assert (n as real + 0.5).Floor == n;
    } else {
      assert (0.5 + (-n) as real).Floor == -n;
    }
  }

  lemma StoredSign(n: int)
    ensures FromSteps(n) <= 0.0 <==> n <= 0
    ensures -STEP_LIMIT < n < STEP_LIMIT ==> Fits(FromSteps(n))
  {
    RereadSteps(n);
  }

  /** A positive price is stored as a positive value exactly from half a step on. */
  lemma PositiveOnceStored(x: real)
    requires x > 0.0
    ensures ToSteps(x) >= 0
    ensures ToSteps(x) > 0 <==> x >= HALF_STEP
  {
    var y := x * STEPS_PER_UNIT;
    if x >= HALF_STEP {
      assert y + 0.5 >= 1.0;
    } else {
      assert y + 0.5 < 1.0;
    }
  }

  lemma AbsProduct(x: real, y: real)
    ensures Abs(x * y) == Abs(x) * Abs(y)
  {
  }

  lemma ScaleIff(a: real, b: real, c: real)
    requires c > 0.0
    ensures a < b <==> a * c < b * c
  {
    if a < b {
      assert (b - a) * c > 0.0;
    } else {
      assert (a - b) * c >= 0.0;
    }
  }

  /** A quotient test is the same as a product test. */
  lemma RelativeIff(t: real, x: real, y: real)
    requires y != 0.0
    ensures Abs(x / y) > t <==> Abs(x) > t * Abs(y)
  {
    var q := x / y;
    assert q * y == x;
    AbsProduct(q, y);
    ScaleIff(t, Abs(q), Abs(y));
  }
}
