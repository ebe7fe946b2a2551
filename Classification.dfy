/**
  The BMI bands of `getBMICategory` and the risk notes of `getHealthRisk`.

  Both are if-chains of strict `<` tests against 18.5, 24.9 and 29.9, taken in
  that order, so a value equal to a threshold falls into the higher band, and
  NaN, which fails every test, falls through to the last band.
 */
module Classification {

  import opened JsNumber

  datatype Category = Underweight | NormalWeight | Overweight | Obese

  const UnderweightLimit: real := 18.5
  const NormalLimit: real := 24.9
  const OverweightLimit: real := 29.9

  /** The category text the calculator displays. */
  function Label(c: Category): string
  {
    match c
    case Underweight => "Underweight"
    case NormalWeight => "Normal weight"
    case Overweight => "Overweight"
    case Obese => "Obese"
  }

  /** Position of a band, lightest first. */
  function Rank(c: Category): nat
  {
    match c
    case Underweight => 0
    case NormalWeight => 1
    case Overweight => 2
    case Obese => 3
  }

  /** `getBMICategory(bmi).category` */
  function CategoryOf(bmi: Num): (c: Category)
    ensures bmi.Finite? ==> (c == Underweight <==> bmi.value < 18.5)
    ensures bmi.Finite? ==> (c == NormalWeight <==> 18.5 <= bmi.value < 24.9)
    ensures bmi.Finite? ==> (c == Overweight <==> 24.9 <= bmi.value < 29.9)
    ensures bmi.Finite? ==> (c == Obese <==> 29.9 <= bmi.value)
    ensures bmi.NaN? || bmi.PosInf? ==> c == Obese
    ensures bmi.NegInf? ==> c == Underweight
  {
    if Less(bmi, UnderweightLimit) then Underweight
    else if Less(bmi, NormalLimit) then NormalWeight
    else if Less(bmi, OverweightLimit) then Overweight
    else Obese
  }

  /** The fixed risk note that goes with each band. */
  function RiskNote(c: Category): string
  {
    match c
    case Underweight => "Increased risk for various health issues including nutritional deficiencies"
    case NormalWeight => "Lowest risk for health problems"
    case Overweight => "Increased risk for heart disease, high blood pressure, and diabetes"
    case Obese => "High risk for heart disease, diabetes, and many other health issues"
  }

  /** `getHealthRisk(bmi)`: its own if-chain, which agrees with the band of `bmi`. */
  function HealthRisk(bmi: Num): (r: string)
    ensures r == RiskNote(CategoryOf(bmi))
  {
    if Less(bmi, 18.5) then "Increased risk for various health issues including nutritional deficiencies"
    else if Less(bmi, 24.9) then "Lowest risk for health problems"
    else if Less(bmi, 29.9) then "Increased risk for heart disease, high blood pressure, and diabetes"
    else "High risk for heart disease, diabetes, and many other health issues"
  }

  /** The three thresholds belong to the band above them. */
  lemma BoundariesGoUp()
    ensures CategoryOf(Finite(18.5)) == NormalWeight
    ensures CategoryOf(Finite(24.9)) == Overweight
    ensures CategoryOf(Finite(29.9)) == Obese
  {
  }

  /** A heavier BMI never lands in a lighter band. */
  lemma CategoryMonotone(a: Num, b: Num)
    requires !a.NaN? && !b.NaN? && AtMost(a, b)
    ensures Rank(CategoryOf(a)) <= Rank(CategoryOf(b))
  {
  }

  /** Each band has its own risk note, so the note determines the band. */
  lemma RiskNoteDeterminesCategory(c: Category, d: Category)
    requires RiskNote(c) == RiskNote(d)
    ensures c == d
  {
  }

  /** Equal risk notes mean equal bands, and conversely. */
  lemma SameRiskIffSameCategory(a: Num, b: Num)
    ensures HealthRisk(a) == HealthRisk(b) <==> CategoryOf(a) == CategoryOf(b)
  {
    if HealthRisk(a) == HealthRisk(b) {
      RiskNoteDeterminesCategory(CategoryOf(a), CategoryOf(b));
    }
  }
}
