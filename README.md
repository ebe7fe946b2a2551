# BMI calculator: verified model of the calculation core

The repository is a single React component, `src/App.tsx`, that reads a height
in centimetres and a weight in kilograms from two number input fields, computes the
Body Mass Index, shows its band (Underweight, Normal weight, Overweight,
Obese) with a risk note, and keeps a newest-first history of at most ten
calculations. A banner rotates through five health tips on a timer, and a
theme switch toggles dark mode. This project models the logic behind those
features in Dafny and proves the properties the component relies on.

Modules, one per concern of the component:

- `Wrappers`: `Option`, standing for a value that may be `null`.
- `JsNumber`: JavaScript numbers over exact reals. A number is `Finite`,
  `NaN`, `PosInf` or `NegInf`. It gives multiplication and division with the
  JavaScript rules for the special values, and `parseFloat(x.toFixed(1))` as
  rounding to the nearest tenth, with ties going away from zero.
- `Classification`: `getBMICategory` and `getHealthRisk`. Both are chains of
  strict `<` tests against 18.5, 24.9 and 29.9, so each threshold falls into
  the band above it. NaN fails every test, so it lands in Obese.
- `Formula`: `weight / ((height / 100) * (height / 100))` and its rounded,
  stored form.
- `History`: the history entry and the bounded, newest-first update
  `[entry, ...prev.slice(0, 9)]`.
- `Tips`: the five tips and the step `(prev + 1) % healthTips.length`.
- `App`: class `Calculator` holds the component's state (`darkMode`,
  `height`, `weight`, `bmi`, `bmiHistory`, `selectedTip`). Its methods are
  the handlers that change that state, and `Display` gives what the result
  panel shows.

Edge cases of the code that the model keeps:

- The calculation is skipped only when a field is the empty string
  (`if (height && weight)`). Both fields are number inputs, and a browser
  hands back an empty value for an entry that is not a valid number, so
  `parseFloat` of a field never yields NaN. The model takes any text and any
  `parseFloat` result, so it covers that case as well.
- A height of 0 passes the guard. With a positive weight it records Infinity,
  which is Obese (`Formula.ZeroHeightIsObese`). With a negative weight it
  records -Infinity, which is Underweight
  (`Formula.ZeroHeightNegativeWeight`). With a weight of 0 it records NaN
  (`Formula.ZeroOverZeroIsNaN`): the BMI stored and the history entry are
  NaN, the result panel stays hidden because NaN is falsy, and the band of
  NaN is Obese because it fails every `<` test.
- For a positive height and weight the exact quotient is positive
  (`Formula.BmiPositive`). The stored value is rounded to one decimal, so it
  is 0 whenever the quotient is below 0.05 (`Formula.StoredBmi`). The result
  panel then stays hidden, because 0 is falsy (`App.Calculator.Display`).
- The history loaded at start-up is used as it is, with no cap. The ten-entry
  bound holds after every calculation, whatever the length before
  (`History.Record`).
- A stored value that is not valid JSON makes `JSON.parse` throw. The code has
  no fallback to a default for that case. The model does not claim one.

## Model

| member | source | states |
|---|---|---|
| `JsNumber.RoundTenth` | src/App.tsx:57 | `toFixed(1)` then `parseFloat` gives a whole number of tenths within half a tenth of the input. A tie goes away from zero. The sign is kept. Values beyond 10^21 are unchanged. |
| `JsNumber.Round1` | src/App.tsx:57 | Rounding keeps NaN and the infinities as they are. It rounds a finite value to the nearest tenth. |
| `JsNumber.RoundTenthMonotone` | src/App.tsx:57 | Rounding to one decimal never reverses the order of two BMI values. |
| `Classification.CategoryOf` | src/App.tsx:73-78 | The four bands are the half-open intervals below 18.5, [18.5, 24.9), [24.9, 29.9) and from 29.9 up. NaN and +Infinity are Obese; -Infinity is Underweight. |
| `Classification.HealthRisk` | src/App.tsx:80-85 | The risk chain's own tests always select the note of the band `getBMICategory` gives for the same value. |
| `Classification.BoundariesGoUp` | src/App.tsx:73-78 | 18.5 is Normal weight, 24.9 is Overweight and 29.9 is Obese, because the tests are strict. |
| `Classification.CategoryMonotone` | src/App.tsx:73-78 | A larger BMI, infinities included, never falls into a lighter band. |
| `Classification.RiskNoteDeterminesCategory` | src/App.tsx:80-85 | The four risk notes are distinct, so each note belongs to exactly one band. |
| `Classification.SameRiskIffSameCategory` | src/App.tsx:73-85 | Two BMI values get the same risk note exactly when they get the same band. |
| `Formula.BmiValue` | src/App.tsx:54-56 | For finite inputs with a non-zero height, the quotient times the height in cm squared equals 10000 times the weight. A NaN input gives NaN. A zero height gives +/-Infinity, or NaN for a zero weight. |
| `Formula.BmiPositive` | src/App.tsx:54-56 | A positive height and weight give a finite, strictly positive BMI. |
| `Formula.StoredBmi` | src/App.tsx:54-57 | The stored value `parseFloat(bmiValue.toFixed(1))`: for a positive height and weight it is finite, never negative, a whole number of tenths (below 10^21), and within half a tenth of the exact BMI. It is positive exactly when the exact BMI is at least 0.05. |
| `Formula.ZeroHeightIsObese` | src/App.tsx:54-57 | A height of 0 with a positive weight stores Infinity, and Infinity is classified Obese. |
| `Formula.ZeroHeightNegativeWeight` | src/App.tsx:54-57 | A height of 0 with a negative weight stores -Infinity, and -Infinity is classified Underweight. |
| `Formula.ZeroOverZeroIsNaN` | src/App.tsx:54-57 | A height of 0 with a weight of 0 stores NaN (0/0, kept by `toFixed` and `parseFloat`), and NaN is classified Obese. |
| `Formula.WorkedExamples` | src/App.tsx:244-247 | The three examples (170 cm/70 kg, 165/60, 180/75) show 24.2, 22.0 and 23.1, all Normal weight. |
| `History.Take` | src/App.tsx:68 | `slice(0, end)` is the prefix of length `min(end, length)`. |
| `History.Record` | src/App.tsx:61-69 | The new entry comes first. The rest is the old log's first min(old length, 9) entries, in order. The length is min(old length + 1, 10). The old log is that prefix followed by the entries dropped from its end. |
| `History.ReversedAt` | src/App.tsx:61-69 | Position k of the reversed arrivals is the (k+1)-th most recent entry, which is the order the history is kept in. |
| `History.RecordAllKeepsNewest` | src/App.tsx:61-69 | After one or more calculations, the log is the new entries newest first, followed by the old log, cut at 10. |
| `History.ElevenCalculations` | src/App.tsx:61-69 | Eleven calculations from an empty log leave exactly ten entries: the last ten, newest first. The first calculation is gone. |
| `Tips.NextTip` | src/App.tsx:47 | The step stays within the five tips. It moves to the next tip and wraps from the last to the first. |
| `Tips.AfterTicksRotates` | src/App.tsx:45-50 | From a valid index, n ticks give (index + n) mod 5. |
| `Tips.TipsCycle` | src/App.tsx:22-30 | From the start index 0, or any valid one, the index stays in range, and five ticks bring it back. |
| `App.Calculator.CurrentTip` | src/App.tsx:136 | The banner's `healthTips[selectedTip]` is always one of the five tips, because the class invariant keeps the index in range. |
| `App.Calculator.constructor` | src/App.tsx:5-22 | Dark mode and the history start from their stored values, or `false` and the empty log when nothing is stored. The fields start empty, there is no BMI, and the tip index is 0. |
| `App.Calculator.SetHeight` | src/App.tsx:160 | The height field holds the typed text. |
| `App.Calculator.SetWeight` | src/App.tsx:176 | The weight field holds the typed text. |
| `App.Calculator.ToggleDarkMode` | src/App.tsx:108 | The theme flag is negated. |
| `App.Calculator.AdvanceTip` | src/App.tsx:45-50 | A timer tick moves the tip index one step and keeps it in range. |
| `App.Calculator.Calculate` | src/App.tsx:52-71 | If a field is empty, neither the BMI nor the history changes. Otherwise the BMI becomes the rounded value, and the history's head is the new entry (that BMI, the date, the parsed weight and height). Its tail is the old log's first min(old length, 9) entries, and its length is at most 10. |
| `App.Calculator.Display` | src/App.tsx:207-229 | The result panel is shown exactly when the BMI is present and neither 0 nor NaN. It then shows that BMI, its band's label and that band's risk note. |

## Left out

- Persistence: `localStorage` reads and writes and `JSON.stringify`/`JSON.parse` (src/App.tsx:5-8, 17-20, 32-43) are browser calls. The constructor receives the already-decoded stored values, or None when the key is absent. The writes after every change are not modelled, and neither is the exception `JSON.parse` throws on a malformed stored value.
- `parseFloat` on the user's text is a parameter of `Calculate`, because the browser supplies it. `new Date().toLocaleDateString()` is a parameter too, because it depends on the clock and the locale.
- Binary floating point: numbers are exact reals. Only NaN and the infinities are kept as special values, and signed zero is not distinguished. `Formula.WorkedExamples` and the bands therefore hold of the exact values, not of the IEEE-754 doubles.
- Number-to-text conversion: from 10^21 up `toFixed` writes exponent notation, which `parseFloat` reads back as the same value; the model goes straight to that value (the identity, as `JsNumber.RoundTenth` states) instead of producing text.
- Timer scheduling (`setInterval`/`clearInterval`, src/App.tsx:45-50) and the `dark` class on the document element (src/App.tsx:34-38) are side effects. Only the index step is modelled.
- Presentation: JSX, CSS colour classes (including the `color` half of `getBMICategory`'s result), icons, the history modal's `showHistory` flag, the history list rendering and the footer.
