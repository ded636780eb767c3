# Drone battery predictor: a verified model of its logic

The drone battery predictor is a web application. Its user sets eight flight parameters on a form: speed, altitude, wind speed and direction, payload, temperature, distance and battery capacity. The app shows a predicted battery consumption, flight time, range, efficiency score and a list of warnings, together with a confidence score. It can propose "optimized" parameters and export the prediction as CSV.

This project models the logic behind that, in Dafny, and proves what the code promises:

- `js_math.dfy` (`JsMath`): the parts of JavaScript's `Math` that the code uses. `Math.cos` and `Math.PI` are carried as a `Trig` value.
- `prediction_model.dfy` (`PredictionModel`): the prediction engine.
  - The closed-form power model, the consumption and efficiency figures, and the ordered warnings (`predictBatteryConsumption`).
  - The parameter optimizer (`getOptimizedParameters`).
  - The confidence score (`getPredictionConfidence`).
  - Where the code builds a value step by step (the warning pushes, the field-by-field optimizer, the decremented score), the model has a method that does the same. Each such method is proved equal to a specification function.
- `prediction_properties.dfy` (`PredictionProperties`): properties of the engine. They cover bounds on the wind term and the power, positivity of flight time, exactly when each warning appears and in what order, and a worked reference scenario. They also cover the optimizer's rewrite rules and its non-idempotence, and when the confidence score stays at its base value.
- `parameter_form.dfy` (`ParameterForm`): the parameter form.
  - The per-parameter ranges and the initial record.
  - A `Form` class whose `parameters` field is overwritten by `HandleParameterChange`, which clamps the value and replaces one key, and by `ResetToDefaults`.
  - The fact that, while its inputs are numbers, every record the form holds lies in its ranges and so gives the engine a finite prediction.
- `prediction_result.dfy` (`PredictionResultCard`): the result card.
  - The three-way consumption severity.
  - The CSV export up to the joined text. It builds the rows, pushes the warning rows in a loop, then joins the cells with commas and the lines with line breaks.
  - `Join` and `Split` follow `Array.prototype.join` and `String.prototype.split`. Through them the line structure of the export is proved: the header line, the line counts, the warning lines and the three fields of every line.

## The engine at speed 0

The form lets speed reach 0 (`src/components/DroneParameterForm.tsx:37`), and the engine does not guard the division `flightDistance / speed` (`src/lib/predictionModel.ts:68`). At speed 0 the code still gives finite figures:

- With a positive distance, which the form guarantees (at least 0.1 km), the time for the distance is `+Infinity`. `Math.min(100, Infinity)` then reports a consumption of exactly 100.
- The range is `speed * flightTimeHours`, which is 0. It involves no division by the speed.
- The near-maximum-range warning is raised.

The model follows the code: `ZeroSpeedPrediction` and `ParameterForm.FormInputsArePredictable`. For numeric inputs within the form's ranges no output is `NaN`; for other inputs the engine can produce `NaN` (for instance `0 / 0` in the consumption when distance and capacity are both 0), which the model leaves to the IEEE-754 line under "## Left out". `PredictionModel.Predictable` is a sufficient condition for every output to be finite, and the engine's members require it. It is not the exact set of such inputs. A zero capacity, for example, gives a zero flight time and, through `Math.min(100, Infinity)`, a finite consumption of 100. A payload of -10000 g makes the theoretical minimum power 0, and the efficiency then comes out as `Math.max(0, -Infinity)`, which is 0.

Two comments in the source do not match the code beside them, and the model follows the code:

- `ALTITUDE_FACTOR` is applied per 100 m, not per metre (`src/lib/predictionModel.ts:29`, `36`).
- The confidence clamp is to [50, 95], not to 0-100 (`src/lib/predictionModel.ts:139-140`).

`BASE_CURRENT_DRAW` (`src/lib/predictionModel.ts:24`) is never used and is not modelled.

## Model

| member | source | states |
|---|---|---|
| JsMath.Min | src/lib/predictionModel.ts:69 | `Math.min`: the result is at most both arguments and is one of them |
| JsMath.Max | src/lib/predictionModel.ts:113 | `Math.max`: the result is at least both arguments and is one of them |
| JsMath.Abs | src/lib/predictionModel.ts:50 | `Math.abs`: the result is non-negative and is `x` or `-x` |
| JsMath.Clamp | src/components/DroneParameterForm.tsx:58 | `Math.max(lo, Math.min(hi, x))` is at least `lo`, at most `hi` when `lo <= hi`, `x` itself inside the bounds, and the bound that `x` passes otherwise |
| PredictionModel.RaisedIn | src/lib/predictionModel.ts:76-96 | filtering a table of warnings by their conditions never lengthens it |
| PredictionModel.PushRaisedAppendsFilter | src/lib/predictionModel.ts:76-96 | running the threshold checks one after another appends exactly the filtered table, in table order, to what was pushed before |
| PredictionModel.ChecksGiveWarnings | src/lib/predictionModel.ts:76-96 | all five checks run from an empty list give the prediction's warnings |
| PredictionModel.CollectWarnings | src/lib/predictionModel.ts:76-96 | the five `push` steps build exactly the warnings whose conditions hold, in table order |
| PredictionModel.Predict | src/lib/predictionModel.ts:34-105 | on `Predictable` inputs the consumption is at most 100, the efficiency lies in [0, 100], and there are at most five warnings |
| PredictionModel.PredictBatteryConsumption | src/lib/predictionModel.ts:34-105 | computing flight time, range, consumption and efficiency in turn, then collecting the warnings, gives the prediction |
| PredictionModel.Optimize | src/lib/predictionModel.ts:108-126 | speed becomes `max(5, 0.7 speed)` and altitude `max(10, 0.8 altitude)`; payload is scaled by 0.9 exactly when above 500 g and never rises; the other five fields are unchanged |
| PredictionModel.GetOptimizedParameters | src/lib/predictionModel.ts:110-125 | the copy with fields overwritten one by one is the optimized record; the caller's record is a value and is untouched |
| PredictionModel.PenaltySum | src/lib/predictionModel.ts:134-137 | the applicable penalties sum to between 0 and the sum of all penalties |
| PredictionModel.DeductSubtractsPenaltySum | src/lib/predictionModel.ts:131-137 | decrementing the score check by check subtracts exactly the sum of the applicable penalties |
| PredictionModel.PredictionConfidence | src/lib/predictionModel.ts:129-141 | the score is 85 less the applicable penalties (10, 5, 8, 7), always in [55, 85], so the [50, 95] clamp never changes it |
| PredictionProperties.EffectiveWindBounds | src/lib/predictionModel.ts:43 | for non-negative wind and a cosine in [-1, 1], the effective wind lies between 0.5 and 1.5 times the wind speed |
| PredictionProperties.EffectiveWindHeadOn | src/lib/predictionModel.ts:43 | at direction 0, with `cos 0 = 1`, the effective wind is half the wind speed |
| PredictionProperties.TotalPowerFloor | src/lib/predictionModel.ts:36-53 | with no negative altitude or payload the total power is at least 100 / 0.85, hence positive |
| PredictionProperties.PositiveFlightTime | src/lib/predictionModel.ts:36-65 | with no negative altitude or payload and a positive capacity, the inputs satisfy `Predictable`; flight time is 60 times the positive hours; with positive speed the range is speed times flight time over 60 |
| PredictionProperties.ConsumptionClampedAboveOnly | src/lib/predictionModel.ts:68-69 | the consumption equals the distance-time ratio whenever that ratio is at most 100 (however small), and is 100 otherwise |
| PredictionProperties.ZeroSpeedPrediction | src/lib/predictionModel.ts:65-69 | at speed 0 the consumption is 100, the range is 0 and the first warning is near-maximum-range |
| PredictionProperties.RaisedInMembers | src/lib/predictionModel.ts:76-96 | a warning survives the filter if and only if it was in the table and its condition holds |
| PredictionProperties.RaisedInKeepsOrder | src/lib/predictionModel.ts:76-96 | the filter keeps table order |
| PredictionProperties.WarningRaisedIff | src/lib/predictionModel.ts:76-96 | each warning is present if and only if its condition holds: consumption over 90, wind over 8, temperature below 0 or above 40, altitude over 2000, speed over 15 |
| PredictionProperties.WarningsInTableOrder | src/lib/predictionModel.ts:76-96 | the warnings come in table order, each at most once |
| PredictionProperties.NearMaximumRangeBeforeHighWind | src/lib/predictionModel.ts:78-84 | when both hold, near-maximum-range is the first warning and high-wind the second |
| PredictionProperties.ScenarioAPrediction | src/lib/predictionModel.ts:34-105 | for 10 m/s, 100 m, 5 m/s head-on wind, 500 g, 25 °C, 5 km, 5000 mAh: total power 107.5 / 0.85, flight time 60 * 47.175 / 107.5 min, range 10 * 47.175 / 107.5 km, consumption 100, warnings exactly near-maximum-range |
| PredictionProperties.OptimizeLowersSpeedIff | src/lib/predictionModel.ts:113 | the optimizer does not raise the speed if and only if the speed is at least 5 |
| PredictionProperties.OptimizeLowersAltitudeIff | src/lib/predictionModel.ts:116 | the optimizer does not raise the altitude if and only if the altitude is at least 10 |
| PredictionProperties.OptimizeNotIdempotent | src/lib/predictionModel.ts:113 | whenever one pass leaves the speed above 5, a second pass lowers it again; above 5 / 0.49 it gives 0.49 times the original speed |
| PredictionProperties.PenaltySumZeroIff | src/lib/predictionModel.ts:134-137 | no penalty is taken if and only if none of the listed conditions holds |
| PredictionProperties.FullConfidenceIffNormal | src/lib/predictionModel.ts:131-137 | the score stays at 85 if and only if wind is at most 10, altitude at most 1500, temperature in [0, 35] and speed at most 20 |
| ParameterForm.ParamRange | src/components/DroneParameterForm.tsx:36-45 | the eight ranges, each with min below max and a positive step |
| ParameterForm.With | src/components/DroneParameterForm.tsx:60 | the updated record holds the new value at the key and every other field unchanged |
| ParameterForm.NewValue | src/components/DroneParameterForm.tsx:54 | a slider's first value, or the number itself |
| ParameterForm.Clamped | src/components/DroneParameterForm.tsx:57-58 | the stored value lies within the key's range, equals the input when that is already within it, and is the bound the input passes otherwise |
| ParameterForm.Form.constructor | src/components/DroneParameterForm.tsx:24-33 | the form starts from the default record, which lies within the ranges |
| ParameterForm.Form.HandleParameterChange | src/components/DroneParameterForm.tsx:52-61 | the record becomes the old one with that key replaced by the clamped new value; that key ends within its range, the others keep their values, and all fields stay within the ranges |
| ParameterForm.Form.ResetToDefaults | src/components/DroneParameterForm.tsx:63-74 | the record becomes exactly the initial record, which lies within the ranges |
| ParameterForm.DefaultsWithinRanges | src/components/DroneParameterForm.tsx:24-45 | every default lies within its range |
| ParameterForm.WithinRangesBounds | src/components/DroneParameterForm.tsx:37-44 | a record within the ranges has distance at least 0.1, capacity at least 1000, and non-negative altitude, payload and speed |
| ParameterForm.ZeroSpeedReachable | src/components/DroneParameterForm.tsx:37 | asking for a speed of 0 or less from any valid record stores speed 0 and keeps the record valid |
| ParameterForm.FormInputsArePredictable | src/components/DroneParameterForm.tsx:36-45 | every record within the ranges gives a finite prediction with positive flight time, and at speed 0 a consumption of 100 |
| ParameterForm.OptimizeKeepsWithinRanges | src/lib/predictionModel.ts:108-126 | optimizing a record within the form's ranges gives a record within them |
| PredictionResultCard.ConsumptionSeverity | src/components/BatteryPredictionResult.tsx:96-100 | low if and only if below 30, medium if and only if in [30, 70), high if and only if at least 70 |
| PredictionResultCard.SplitJoin | src/components/BatteryPredictionResult.tsx:75-78 | splitting the joined text at the separator gives back the parts, when no part holds the separator |
| PredictionResultCard.NatToString | src/components/BatteryPredictionResult.tsx:70 | the decimal text of a warning's number is non-empty, all digits and without a leading zero unless the number is 0; `NatToStringValue` proves that reading it back gives the number |
| PredictionResultCard.NatToStringValue | src/components/BatteryPredictionResult.tsx:70 | the label's digits, read left to right, denote exactly the number; with the no-leading-zero clause of `NatToString` this makes the label the canonical decimal form of `index + 1` |
| PredictionResultCard.FixedRowsLayout | src/components/BatteryPredictionResult.tsx:47-63 | the eight parameter rows carry the formatted parameters in order, rows 8 and 9 are the blank and `Results` rows, and the last five carry consumption, flight time, range, efficiency and confidence to one decimal |
| PredictionResultCard.FixedRows | src/components/BatteryPredictionResult.tsx:47-63 | there are exactly fifteen fixed rows |
| PredictionResultCard.WarningRows | src/components/BatteryPredictionResult.tsx:69-71 | one row per warning |
| PredictionResultCard.GenerateCsv | src/components/BatteryPredictionResult.tsx:41-78 | the pushed rows and the joined text are the header line followed by one comma-joined line per row: fixed rows, then a blank row, a title row and the warning rows when there are warnings |
| PredictionResultCard.MessagePlain | src/lib/predictionModel.ts:76-96 | no warning text holds a comma or a line break |
| PredictionResultCard.CsvRowsPlain | src/components/BatteryPredictionResult.tsx:47-72 | when number formatting yields no comma or line break, no cell of the export does |
| PredictionResultCard.CsvTextLines | src/components/BatteryPredictionResult.tsx:75-78 | for rows free of commas and line breaks, the text splits into the header line then one line per row, each splitting back into its row's three cells |
| PredictionResultCard.HeaderLineText | src/components/BatteryPredictionResult.tsx:43-45 | the header line is `Parameter,Value,Unit` |
| PredictionResultCard.CsvLines | src/components/BatteryPredictionResult.tsx:43-78 | the first line is `Parameter,Value,Unit`; there are 16 lines without warnings and 18 + n with n; every later line has exactly its row's three fields |
| PredictionResultCard.WarningLineText | src/components/BatteryPredictionResult.tsx:70 | a warning row's line is `Warning k,<text>,` |
| PredictionResultCard.SectionLineTexts | src/components/BatteryPredictionResult.tsx:67-68 | the blank row's line is `,,` and the title row's `Warnings,,` |
| PredictionResultCard.WarningSectionRows | src/components/BatteryPredictionResult.tsx:66-72 | with warnings the blank and title rows follow the fifteen fixed rows, and the i-th warning's row comes after them |
| PredictionResultCard.CsvWarningLines | src/components/BatteryPredictionResult.tsx:66-72 | with n > 0 warnings, lines 16 and 17 are `,,` and `Warnings,,`, and line 18 + i is labelled `Warning i+1` and carries the i-th warning, in prediction order |

## Left out

- React rendering, hooks, JSX, toasts, the simulated delay and the other components are not modelled. They are presentation and timing.
- The Blob, object URL and anchor-click download in `generateCSV` are browser I/O. The model stops at the joined text.
- IEEE-754 arithmetic is modelled with exact reals. The engine's members require `Predictable`, a sufficient condition for finite outputs. The model says nothing about the other inputs, whether the code then yields `Infinity`, `NaN` or, through a clamp, a finite figure.
- `Math.cos` and `Math.PI` are host functions. They are a parameter of type `Trig`, and lemmas that need `cos` in [-1, 1] or `cos 0 = 1` require it.
- `parseFloat` in the form's number inputs (`src/components/DroneParameterForm.tsx:116` and the seven like it) yields `NaN` for a cleared field. The clamp does not stop it, because `Math.min` and `Math.max` propagate `NaN`, so the form then stores `NaN`. The model's inputs are numbers, so `Form.Valid()` and the in-range guarantees hold only for numeric input.
- An empty slider array is not modelled. `NewValue` and `HandleParameterChange` require a slider to carry at least one value.
- The form's `step` values only drive the widgets, so they are recorded in `ParamRange` but not enforced on stored values.
- Number-to-text conversion (`String(x)` inside `join`, and `toFixed(1)`) is a `Formatter` parameter. The CSV lemmas require only that it never produces a comma or a line break.
- PredictionResultCard.CsvLines: the three-fields-per-line property holds only under that `Formatter` assumption. The code escapes nothing, so a formatted number containing a comma would break it.
- Warnings are carried as kinds (`PredictionModel.Warning`) rather than strings. `PredictionModel.Message` gives each kind's exact text, and the CSV writes that text.
- The `modelConfidence` shown in the CSV is a parameter of `GenerateCsv`. The caller computes it with `getPredictionConfidence`.
