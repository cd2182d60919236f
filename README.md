# EV charging calculator — a Dafny model

This project models the logic behind the single-page EV charging calculator
(`src/App.jsx`). The calculator converts a charging current in amps to a power
in kilowatts, or the reverse. It works for a single-phase supply and for a
three-phase supply, with power factor 1. Three parts are modelled:

- **Conversion engine** (`conversion.dfy`, module `Conversion`). `Compute` is
  the calculation effect written as a pure function. It takes a mode, a phase,
  a voltage and the parsed input, and gives the reading on the result display.
  Input that does not parse, or is negative, gives 0. Otherwise there are four
  closed-form formulas. Three-phase uses √3.
- **Reference table and current filter** (`references.dfy`, module
  `ReferenceTable`). This is the static five-row table of common charging
  setups and the filter `replace(/[^0-9.]/g, '')`. The filter turns a row's
  current label (`"32A"`) into the text loaded into the input field (`"32"`).
- **Session** (`session.dfy`, module `Session`). Class `Calculator` holds the
  component's five state fields and has one method per user action: mode tab,
  phase button, voltage edit, input edit and reference-row click. Each action
  ends with the calculation effect re-run, so the state it leaves is the
  settled one, after the effects have run. The invariant `Valid()` says that
  the result holds no state of its own: it always equals `Compute` of the
  other four fields.

`options.dfy` holds the `Option` type used for a parse result.

Modelling decisions:

- Arithmetic is over `real`.
- √3 is irrational, so no real literal names it. Dafny also cannot prove that a
  real square root of 3 exists. So √3 is a parameter `s`. Each member states
  what it needs of `s`: `s > 0`, or `IsSqrt3(s)` (`s > 0 && s * s == 3`) where
  the exact square matters. The calculator is built with such an `s`.
- The browser's `parseFloat` is a parameter `parse: string -> Option<real>` of
  the calculator. `None` stands for NaN. `ParsesLikeParseFloat` states the only
  facts the model relies on: the empty text is not a number, and a non-empty
  string of decimal digits denotes its decimal value.
- Division by a zero voltage is not excluded by a precondition. `Quotient`
  gives `Infinite` for a positive numerator and `NotANumber` for a zero one, as
  the browser does.

Behaviour of the code that is easy to misread:

- The comment at `src/App.jsx:19` says the phase effect resets to avoid
  confusion. But the `setResult(0)` at line 20 lasts only until the
  calculation effect runs again. That effect depends on the phase and the
  voltage (line 55), so it runs at the new default voltage and overwrites the 0
  (`SwitchPhaseRecomputes`).
- The three-phase formulas give these values. 32 A at 380 V (line 41) lies
  between 21.061 and 21.063 kW. 22 kW at 380 V (line 50) lies between 33.42 and
  33.43 A (`ThreePhasePowerFigure`, `ThreePhaseCurrentFigure`).
- The round trip holds only for a positive voltage. At a negative voltage the
  power is negative, and the fallback at line 26 turns that input into 0
  (`RoundTripNeedsPositiveVoltage`).
- At 0 V the division at lines 48 and 50 gives NaN (0/0) for 0 kW and Infinity
  for a positive power (`ZeroVoltageCurrent`).
- Choosing the phase that is already selected changes nothing. This covers the
  phase buttons and reference rows of that phase. React skips a state update
  of equal value, and the phase effect runs only when the phase changes
  (line 21). So a voltage the user typed is kept
  (`SelectSamePhaseRowKeepsVoltage`).

## Model

| member | source | states |
|---|---|---|
| Conversion.DefaultVoltage | src/App.jsx:14-18 | the voltage loaded on a phase change is 220 exactly for single phase and 380 exactly for three phase |
| Conversion.PhaseFactor | src/App.jsx:38-50 | the formula factor is 1 for single phase and √3 for three phase, and is positive when √3 is |
| Conversion.IsValidInput | src/App.jsx:26 | an input counts exactly when it is neither NaN nor negative |
| Conversion.Compute | src/App.jsx:24-55 | invalid input gives 0; current to power satisfies P·1000 = k·V·I with k = 1 or √3; power to current satisfies k·V·I = P·1000 when k·V ≠ 0, else NaN or Infinity |
| Conversion.Quotient | src/App.jsx:47-51 | a non-zero divisor gives the number q with d·q = n; a zero divisor gives NaN for n = 0 and Infinity otherwise |
| Conversion.ZeroFallback | src/App.jsx:25-29 | an unparsable or negative input gives 0 whatever the mode, phase and voltage |
| Conversion.ThreePhasePowerIsScaledSingle | src/App.jsx:34-42 | for any voltage and input, three-phase power is exactly √3 times single-phase power |
| Conversion.ThreePhaseCurrentIsScaledSingle | src/App.jsx:43-51 | for a non-zero voltage, √3 times the three-phase current equals the single-phase current |
| Conversion.ZeroVoltageCurrent | src/App.jsx:47-51 | at 0 V, power to current gives NaN for 0 kW and Infinity for positive power |
| Conversion.RoundTripCurrent | src/App.jsx:38-51 | for V > 0, either phase and I ≥ 0, converting I to kW and back returns I |
| Conversion.RoundTripPower | src/App.jsx:38-51 | for V > 0, either phase and P ≥ 0, converting P to A and back returns P |
| Conversion.RoundTripNeedsPositiveVoltage | src/App.jsx:26-51 | at −220 V, 32 A converts to a negative power that converts back to 0 A, not 32 A |
| Conversion.PowerMonotone | src/App.jsx:26-42 | for V ≥ 0 and parsed currents a ≤ b, the power of a is ≥ 0 and ≤ the power of b |
| Conversion.Sqrt3Bounds | src/App.jsx:41 | the square root of 3 lies strictly between 1.7320 and 1.7321 |
| Conversion.SinglePhasePowerFigure | src/App.jsx:39 | 32 A at 220 V single phase is exactly 7.04 kW |
| Conversion.SinglePhaseCurrentFigure | src/App.jsx:48 | 7.04 kW at 220 V single phase is exactly 32 A |
| Conversion.ThreePhasePowerFigure | src/App.jsx:41 | 32 A at 380 V three phase lies strictly between 21.061 and 21.063 kW |
| Conversion.ThreePhaseCurrentFigure | src/App.jsx:50 | 22 kW at 380 V three phase lies strictly between 33.42 and 33.43 A |
| ReferenceTable.References | src/App.jsx:58-64 | the table has five rows; the first three are 單相 and the last two are 三相 |
| ReferenceTable.PhaseOfLabel | src/App.jsx:244 | a row selects single phase exactly when its phase label is 單相, and three phase otherwise |
| ReferenceTable.Strip | src/App.jsx:246 | the filtered text holds only digits and dots and is no longer than its input |
| ReferenceTable.StripIsSubsequence | src/App.jsx:246 | the filtered text is a subsequence of the input, so the kept characters stay in their original order |
| ReferenceTable.StripKeepsNumericChars | src/App.jsx:246 | each digit and dot occurs as often in the output as in the input; every other character occurs 0 times |
| ReferenceTable.StripAppend | src/App.jsx:246 | filtering a concatenation is concatenating the filtered parts |
| ReferenceTable.StripFixesNumeric | src/App.jsx:246 | a text made only of digits and dots passes through unchanged |
| ReferenceTable.StripIdempotent | src/App.jsx:246 | filtering twice is the same as filtering once |
| ReferenceTable.TableCurrents | src/App.jsx:58-64 | the rows' filtered current labels are "13", "16", "32", "16", "32" in table order |
| ReferenceTable.TableCurrentsAreDigits | src/App.jsx:58-64 | every row's filtered current is a non-empty string of decimal digits |
| ReferenceTable.TableVoltagesMatchDefaults | src/App.jsx:58-64 | every row is 單相 or 三相; 單相 rows list 220V and 三相 rows 380V; that value is the default voltage of the phase the row selects |
| Session.ParseThirtyTwo | src/App.jsx:25 | a parser meeting the parseFloat facts reads "32" as 32 |
| Session.Calculator.constructor | src/App.jsx:6-21 | the mounted calculator is current to power, single phase, 220 V, empty input, result 0, and its result is derived |
| Session.Calculator.ApplyPhaseDefault | src/App.jsx:13-21 | the phase effect sets the voltage to 220 for single phase and 380 otherwise, and sets the result to 0 |
| Session.Calculator.Recompute | src/App.jsx:24-55 | the step-by-step calculation leaves the result equal to Compute of mode, phase, voltage and parsed input, and changes nothing else |
| Session.Calculator.SetCalcMode | src/App.jsx:92-103 | the mode becomes the chosen one; phase, voltage and input are unchanged; the result is recomputed |
| Session.Calculator.SetPhase | src/App.jsx:122-134 | the phase becomes the chosen one; the voltage becomes the phase's default exactly when the phase changed; mode and input are unchanged; the settled result is Compute at the new phase and voltage |
| Session.Calculator.SetVoltage | src/App.jsx:159 | the voltage becomes the entered value; mode, phase and input are unchanged; the result is recomputed |
| Session.Calculator.SetInput | src/App.jsx:179 | the input becomes the entered text; mode, phase and voltage are unchanged; the result is recomputed |
| Session.Calculator.SelectReference | src/App.jsx:243-247 | the phase is single exactly when the row is 單相; the mode is current to power; the input is the filtered current; the voltage is reset only if the phase changed; the result is recomputed |
| Session.SelectFastThreePhaseRow | src/App.jsx:243-247 | clicking 三相快速 (32A) on a fresh calculator gives three phase, current to power, 380 V, input "32", and a power between 21.061 and 21.063 kW |
| Session.SelectSamePhaseRowKeepsVoltage | src/App.jsx:243-247 | after the voltage is edited to 230, clicking a 32 A single-phase row keeps 230 V and shows exactly 7.36 kW |
| Session.SwitchPhaseRecomputes | src/App.jsx:13-55 | with 32 A entered, single phase shows 7.04 kW; after switching to three phase the voltage is 380 and the result is between 21.061 and 21.063 kW, not 0 |

## Left out

- Rendering: JSX, styling classes and icons (`src/App.jsx:66-277`). They are presentation only.
- Result formatting with `toLocaleString` to 1–2 decimals (`src/App.jsx:197`). It is locale and float formatting.
- IEEE-754 arithmetic. The model computes over exact reals, and √3 is the exact root. Rounding and `Math.sqrt(3)` as a double are not modelled.
- The grammar of `parseFloat`. It is a browser built-in. The model constrains it only on the empty text and on digit strings, and its result is always finite (an input of `Infinity` is not modelled).
- Session.Calculator.SetVoltage: takes the voltage already read as a number. An unparsable voltage text, which makes `parseFloat` give NaN and the result NaN (`src/App.jsx:32`), is not modelled. The difference React sees between the number 220 and the text "220" does not affect the settled state, so it is not modelled either.
- React scheduling, batching and the intermediate renders. Only the settled state after each user action is modelled.
- The `kind` and `power` columns of the reference table. They are display text and are only carried as data.
