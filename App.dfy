/**
  The calculator component's state and the handlers that change it.

  The browser's `parseFloat` on the two text fields and the locale date string
  are supplied by the caller; storage is represented only by the values read
  at start-up.
 */
module App {

  import opened Wrappers
  import opened JsNumber
  import opened Classification
  import opened Formula
  import opened History
  import opened Tips

  /** What the result panel shows: the stored BMI, its category text and its risk note. */
  datatype Reading = Reading(bmi: Num, category: string, risk: string)

  /** JavaScript truthiness of a number: false for 0 and NaN. */
  predicate Truthy(n: Num)
  {
    match n
    case Finite(v) => v != 0.0
    case NaN => false
    case _ => true
  }

  class Calculator {
    var darkMode: bool
    var height: string
    var weight: string
    var bmi: Option<Num>
    var bmiHistory: seq<Entry>
    var selectedTip: nat

    /** The banner always shows one of the tips. */
    ghost predicate Valid()
      reads this
    {
      selectedTip < |HealthTips|
    }

    /** The tip the banner shows: `healthTips[selectedTip]`, defined because the index is in range. */
    function CurrentTip(): (r: string)
      reads this
      requires Valid()
      ensures r in HealthTips
    {
      HealthTips[selectedTip]
    }

    /**
      Start-up state. `savedDarkMode` and `savedHistory` are the stored values,
      already decoded, or None when nothing is stored; nothing else is read.
     */
    constructor (savedDarkMode: Option<bool>, savedHistory: Option<seq<Entry>>)
      ensures Valid()
      ensures darkMode == (if savedDarkMode.Some? then savedDarkMode.value else false)
      ensures bmiHistory == (if savedHistory.Some? then savedHistory.value else [])
      ensures height == "" && weight == "" && bmi == None && selectedTip == 0
    {
      darkMode := if savedDarkMode.Some? then savedDarkMode.value else false;
      height := "";
      weight := "";
      bmi := None;
      bmiHistory := if savedHistory.Some? then savedHistory.value else [];
      selectedTip := 0;
    }

    /** The height field's `onChange`. */
    method SetHeight(text: string)
      requires Valid()
      modifies this`height
      ensures Valid()
      ensures height == text
    {
      height := text;
    }

    /** The weight field's `onChange`. */
    method SetWeight(text: string)
      requires Valid()
      modifies this`weight
      ensures Valid()
      ensures weight == text
    {
      weight := text;
    }

    /** The theme button. */
    method ToggleDarkMode()
      requires Valid()
      modifies this`darkMode
      ensures Valid()
      ensures darkMode == !old(darkMode)
    {
      darkMode := !darkMode;
    }

    /** One tick of the tip timer. */
    method AdvanceTip()
      requires Valid()
      modifies this`selectedTip
      ensures Valid()
      ensures selectedTip == NextTip(old(selectedTip))
    {
      selectedTip := (selectedTip + 1) % |HealthTips|;
    }

    /**
      `calculateBMI`. Nothing happens unless both fields are non-empty; then the
      rounded BMI becomes the current value and is recorded, with the parsed
      weight and height and today's `date`, at the head of the history.
     */
    method Calculate(parseFloat: string -> Num, date: string)
      requires Valid()
      modifies this`bmi, this`bmiHistory
      ensures Valid()
      ensures height == "" || weight == "" ==> bmi == old(bmi) && bmiHistory == old(bmiHistory)
      ensures height != "" && weight != "" ==>
                bmi == Some(StoredBmi(parseFloat(height), parseFloat(weight))) &&
                bmiHistory == Record(Entry(bmi.value, date, parseFloat(weight), parseFloat(height)),
                                     old(bmiHistory))
      ensures height != "" && weight != "" ==>
                |bmiHistory| <= MaxEntries &&
                |bmiHistory| == (if |old(bmiHistory)| < MaxEntries then |old(bmiHistory)| + 1 else MaxEntries) &&
                bmiHistory[0] == Entry(bmi.value, date, parseFloat(weight), parseFloat(height)) &&
                bmiHistory[1..] == old(bmiHistory)[..|bmiHistory| - 1]
    {
      if height != "" && weight != "" {
        var weightInKg := parseFloat(weight);
        var roundedBmi := StoredBmi(parseFloat(height), weightInKg);
        bmi := Some(roundedBmi);
        bmiHistory := Record(Entry(roundedBmi, date, weightInKg, parseFloat(height)), bmiHistory);
      }
    }

    /**
      The result panel: shown only when the current BMI is truthy, that is
      present and neither 0 nor NaN; its category and risk note then agree.
     */
    function Display(): (r: Option<Reading>)
      reads this
      ensures r.Some? <==> bmi.Some? && Truthy(bmi.value)
      ensures r.Some? ==> r.value.bmi == bmi.value
      ensures r.Some? ==> r.value.category == Label(CategoryOf(bmi.value))
      ensures r.Some? ==> r.value.risk == RiskNote(CategoryOf(bmi.value))
    {
      if bmi.Some? && Truthy(bmi.value) then
        Some(Reading(bmi.value, Label(CategoryOf(bmi.value)), HealthRisk(bmi.value)))
      else
        None
    }
  }
}
