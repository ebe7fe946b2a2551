/**
  JavaScript numbers as the BMI calculator meets them, over exact reals.

  A finite number is a `real` (binary floating-point rounding is not modelled);
  the special values that `parseFloat` and division can produce are kept as
  separate constructors, because the calculator stores them in its state.
  Signed zero is not distinguished from zero.
 */
module JsNumber {

  datatype Num = Finite(value: real) | NaN | PosInf | NegInf

  /** `x < c` for a finite constant `c`: every comparison with NaN is false. */
  predicate Less(x: Num, c: real)
  {
    match x
    case Finite(v) => v < c
    case NaN => false
    case PosInf => false
    case NegInf => true
  }

  /** The order of the extended reals, on numbers other than NaN. */
  predicate AtMost(a: Num, b: Num)
    requires !a.NaN? && !b.NaN?
  {
    a.NegInf? || b.PosInf? || (a.Finite? && b.Finite? && a.value <= b.value)
  }

  /** -1, 0 or 1; the sign of NaN is taken to be 0 and never consulted. */
  function Sign(x: Num): int
  {
    match x
    case Finite(v) => if v < 0.0 then -1 else if v == 0.0 then 0 else 1
    case NaN => 0
    case PosInf => 1
    case NegInf => -1
  }

  function Infinity(positive: bool): Num
  {
    if positive then PosInf else NegInf
  }

  /** `a * b` */
  function Mul(a: Num, b: Num): Num
  {
    if a.NaN? || b.NaN? then NaN
    else if a.Finite? && b.Finite? then Finite(a.value * b.value)
    else if Sign(a) == 0 || Sign(b) == 0 then NaN   // Infinity * 0
    else Infinity(Sign(a) * Sign(b) > 0)
  }

  /** `a / b`, with a zero divisor taken to be +0 */
  function Div(a: Num, b: Num): Num
  {
    if a.NaN? || b.NaN? then NaN
    else if a.Finite? && b.Finite? then
      if b.value != 0.0 then Finite(a.value / b.value)
      else if a.value == 0.0 then NaN
      else Infinity(a.value > 0.0)
    else if a.Finite? then Finite(0.0)              // finite / Infinity
    else if !b.Finite? then NaN                     // Infinity / Infinity
    else if b.value == 0.0 then a
    else Infinity(Sign(a) * Sign(b) > 0)
  }

  /** A product of two finite non-zero numbers is finite and non-zero. */
  lemma MulNonZero(a: Num, b: Num)
    requires a.Finite? && b.Finite? && a.value != 0.0 && b.value != 0.0
    ensures Mul(a, b).Finite? && Mul(a, b).value != 0.0
  {
  }

  /** A finite number over a finite non-zero one is the exact quotient. */
  lemma DivFinite(a: Num, b: Num)
    requires a.Finite? && b.Finite? && b.value != 0.0
    ensures Div(a, b).Finite? && Div(a, b).value * b.value == a.value
  {
  }

  /** Below this magnitude `toFixed` writes fixed-point digits; above it, the number itself. */
  const FixedLimit: real := 1000000000000000000000.0

  /** `n` is the number of tenths nearest to `y >= 0`, a tie going up. */
  function NearestTenths(y: real): (n: int)
    requires y >= 0.0
    ensures n as real <= y * 10.0 + 0.5 < n as real + 1.0
  {
    (y * 10.0 + 0.5).Floor
  }

  /** `r` is a whole number of tenths. */
  predicate IsTenth(r: real)
  {
    (r * 10.0).Floor as real == r * 10.0
  }

  lemma TenthsAreTenths(n: int)
    ensures IsTenth(n as real / 10.0)
  {
    assert n as real / 10.0 * 10.0 == n as real;
  }

  /**
    `parseFloat(x.toFixed(1))` on a finite value: the nearest multiple of one
    tenth, a tie going away from zero.
   */
  function RoundTenth(x: real): (r: real)
    ensures -FixedLimit < x < FixedLimit ==> IsTenth(r)
    ensures x >= 0.0 ==> -0.05 < r - x <= 0.05
    ensures x < 0.0 ==> -0.05 <= r - x < 0.05
    ensures (x >= 0.0 ==> r >= 0.0) && (x <= 0.0 ==> r <= 0.0)
    ensures x <= -FixedLimit || FixedLimit <= x ==> r == x
  {
    if x <= -FixedLimit || FixedLimit <= x then x
    else if x >= 0.0 then
      var n := NearestTenths(x);
      TenthsAreTenths(n);
      n as real / 10.0
    else
      var n := NearestTenths(-x);
      TenthsAreTenths(-n);
      (-n) as real / 10.0
  }

  /** `parseFloat(n.toFixed(1))`: NaN and the infinities print and parse back as themselves. */
  function Round1(n: Num): (r: Num)
    ensures r.Finite? <==> n.Finite?
    ensures !n.Finite? ==> r == n
    ensures n.Finite? ==> r.value == RoundTenth(n.value)
  {
    match n
    case Finite(v) => Finite(RoundTenth(v))
    case _ => n
  }

  lemma NearestTenthsMonotone(y: real, z: real)
    requires 0.0 <= y <= z
    ensures NearestTenths(y) <= NearestTenths(z)
  {
  }

  /** Below the fixed-point limit, rounding stays within the limit. */
  lemma RoundTenthBelowLimit(x: real)
    requires 0.0 <= x < FixedLimit
    ensures RoundTenth(x) <= FixedLimit
  {
  }

  /** Rounding to a tenth never reverses the order of two values. */
  lemma RoundTenthMonotone(a: real, b: real)
    requires a <= b
    ensures RoundTenth(a) <= RoundTenth(b)
  {
    if b <= -FixedLimit || FixedLimit <= a {
    } else if a <= -FixedLimit {
      if b < 0.0 { RoundTenthBelowLimit(-b); }
    } else if FixedLimit <= b {
      if 0.0 <= a { RoundTenthBelowLimit(a); }
    } else if 0.0 <= a {
      NearestTenthsMonotone(a, b);
    } else if b < 0.0 {
      NearestTenthsMonotone(-b, -a);
    }
  }
}
