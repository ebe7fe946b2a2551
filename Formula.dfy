/**
  The BMI formula of `calculateBMI`: the height is entered in centimetres and
  converted to metres, and the weight in kilograms is divided by the square of
  that; the stored value is that quotient rounded to one decimal.
 */
module Formula {

  import opened JsNumber
  import opened Classification

  /** `weight / ((height / 100) * (height / 100))` on JavaScript numbers. */
  function BmiValue(height: Num, weight: Num): (r: Num)
    ensures height.Finite? && weight.Finite? && height.value != 0.0 ==>
              r.Finite? && r.value * height.value * height.value == weight.value * 10000.0
    ensures height.NaN? || weight.NaN? ==> r.NaN?
    ensures height == Finite(0.0) && weight.Finite? ==>
              r == (if weight.value == 0.0 then NaN else Infinity(weight.value > 0.0))
  {
    QuotientTimesSquare(height, weight);
    var metres := Div(height, Finite(100.0));
    Div(weight, Mul(metres, metres))
  }

  /** The quotient, multiplied by the height in centimetres squared, gives back 10000 times the weight. */
  lemma QuotientTimesSquare(height: Num, weight: Num)
    ensures height.Finite? && weight.Finite? && height.value != 0.0 ==>
            var metres := Div(height, Finite(100.0));
            var r := Div(weight, Mul(metres, metres));
            r.Finite? && r.value * height.value * height.value == weight.value * 10000.0
  {
    if !(height.Finite? && weight.Finite? && height.value != 0.0) {
      return;
    }
    var metres := Div(height, Finite(100.0));
    DivFinite(height, Finite(100.0));
    MulNonZero(metres, metres);
    var square := Mul(metres, metres);
    DivFinite(weight, square);
    var r := Div(weight, square);
    var m := metres.value;
    assert square.value == m * m;
    ScaleToCentimetres(r.value, m, height.value, weight.value);
  }

  /** From `r * m * m == w` with `h == 100 * m`: `r * h * h == w * 10000`. */
  lemma ScaleToCentimetres(r: real, m: real, h: real, w: real)
    requires r * (m * m) == w && h == 100.0 * m
    ensures r * h * h == w * 10000.0
  {
    assert r * h * h == r * (100.0 * m) * (100.0 * m);
    assert r * (100.0 * m) * (100.0 * m) == 10000.0 * (r * (m * m));
  }

  lemma QuotientOverSquare(w: real, m: real)
    requires w > 0.0 && m > 0.0
    ensures w / (m * m) > 0.0
  {
    assert m * m > 0.0;
  }

  /** For positive height and weight the exact quotient is positive. */
  lemma BmiPositive(height: real, weight: real)
    requires height > 0.0 && weight > 0.0
    ensures BmiValue(Finite(height), Finite(weight)).Finite?
    ensures BmiValue(Finite(height), Finite(weight)).value > 0.0
  {
    QuotientOverSquare(weight, height / 100.0);
  }

  /**
    The value the calculator stores: `parseFloat(bmiValue.toFixed(1))`. For a
    positive height and weight it is finite, never negative and within half a
    tenth of the exact quotient; it is positive once the exact quotient
    reaches 0.05 and zero below that.
   */
  function StoredBmi(height: Num, weight: Num): (r: Num)
    ensures height.Finite? && weight.Finite? && height.value > 0.0 && weight.value > 0.0 ==>
              var exact := BmiValue(height, weight).value;
              r.Finite? && r.value >= 0.0 && -0.05 < r.value - exact <= 0.05 &&
              (r.value > 0.0 <==> exact >= 0.05) &&
              (exact < FixedLimit ==> IsTenth(r.value))
  {
    Round1(BmiValue(height, weight))
  }

  /** A positive weight over a zero height is stored as Infinity, which is Obese. */
  lemma ZeroHeightIsObese(weight: real)
    requires weight > 0.0
    ensures StoredBmi(Finite(0.0), Finite(weight)) == PosInf
    ensures CategoryOf(StoredBmi(Finite(0.0), Finite(weight))) == Obese
  {
  }

  /** A negative weight over a zero height is stored as -Infinity, which is Underweight. */
  lemma ZeroHeightNegativeWeight(weight: real)
    requires weight < 0.0
    ensures StoredBmi(Finite(0.0), Finite(weight)) == NegInf
    ensures CategoryOf(StoredBmi(Finite(0.0), Finite(weight))) == Underweight
  {
  }

  /** A zero height with a zero weight is stored as NaN, which fails every test and is Obese. */
  lemma ZeroOverZeroIsNaN()
    ensures StoredBmi(Finite(0.0), Finite(0.0)) == NaN
    ensures CategoryOf(NaN) == Obese
  {
  }

  /** The three worked examples the calculator shows, all of them Normal weight. */
  lemma WorkedExamples()
    ensures StoredBmi(Finite(170.0), Finite(70.0)) == Finite(24.2)
    ensures StoredBmi(Finite(165.0), Finite(60.0)) == Finite(22.0)
    ensures StoredBmi(Finite(180.0), Finite(75.0)) == Finite(23.1)
    ensures CategoryOf(Finite(24.2)) == NormalWeight
    ensures CategoryOf(Finite(22.0)) == NormalWeight
    ensures CategoryOf(Finite(23.1)) == NormalWeight
  {
    assert NearestTenths(700000.0 / 28900.0) == 242;
    assert NearestTenths(600000.0 / 27225.0) == 220;
    assert NearestTenths(750000.0 / 32400.0) == 231;
  }
}
