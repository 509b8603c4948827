# Cost estimator pricing model

A Dafny model of the "Investment Estimator" widget of the SavvyHuman marketing
site (`components/CostEstimator.tsx`). The widget holds four pieces of state —
a service id, a complexity level, a device count and an urgency — and, through a
400 ms debounce timer, shows a whole-dollar estimate:

    Math.round((base * (0.6 * complexity + 0.4) + 35 * (devices - 1)) * urgencyMultiplier)

with base 180 / 280 / 120 for `ai-automation` / `system-overhaul` / `coaching`, 50
for anything else, and urgency multiplier 1.75 for `emergency`, 1 otherwise.

The model has four modules:

- `Pricing` (`pricing.dfy`): the inputs, their defaults and ranges, and the formula in
  exact integer arithmetic. The subtotal is kept in tenths
  (`SubtotalTenths = base * (6c + 4) + 350 * (d - 1)`) and the urgency factor in
  quarters (4 or 7), so forty times the exact estimate is an integer and
  `Math.round` becomes `floor((2N + 40) / 80)`. `Math.round` rounds halves toward
  positive infinity for every sign, and so does the model.
- `PricingProperties` (`pricing_properties.dfy`): the rate table, the factors, the
  lower bound, strict monotonicity, the emergency surcharge, exactness of normal
  urgency, where ties occur, and the worked scenarios.
- `ComplexityScale` (`complexity_scale.dfy`): the complexity label lookup and the four
  segment buttons lit when `level <= complexity`.
- `EstimatorWidget` (`estimator_widget.dfy`): the debounce as a state machine over
  setter events (each a re-render), effect runs and timer fires.
  `Wrappers` (`wrappers.dfy`) supplies `Option`, used for JavaScript's `undefined` and
  for the "..." shown while calculating.

The formula is total: like the widget, `Price` accepts any service string, any
urgency string and any integer complexity and device count. The code validates
nothing: an out-of-range complexity or device count is neither rejected nor
clamped, since only the four buttons and the 1..15 slider set them. The model
follows the code, so `Price` has no precondition, and its range facts carry a
range `requires` (or, for the widget, hold for events the controls can produce).
`Math.round` breaks ties upward, and so does the model; half-to-even rounding
would be a different function.

The widget model separates each input change into two steps, as React does.
First a render shows the new inputs together with the old `isCalculating` and
`estimate`. Then the effect runs and starts the debounce. So two kinds of render
show a figure that is not the price of the inputs on screen:

- the first render, before the mount effect runs, shows `$0` while the defaults
  price at `$80` (`FirstPaintShowsZero`);
- the render after an input change, before its effect runs, still shows the
  previous figure (`RenderBeforeEffectShowsPrevious`, `StaleRenderExample`).

The no-stale-price guarantee (`NoStalePriceShown`) covers every state in which no
effect is waiting to run. The invariant `Consistent` holds in every reachable
state.

## Model

| member | source | states |
|---|---|---|
| Pricing.BaseRate | components/CostEstimator.tsx:19-22 | the base rate is at least 50, a multiple of 10, and is the 50 fallback exactly when the id is none of ai-automation, system-overhaul, coaching |
| PricingProperties.BaseRateIsTableLookup | components/CostEstimator.tsx:19-22 | the chain of reassignments equals a lookup in the four-entry rate table (tech-support 50, ai-automation 180, system-overhaul 280, coaching 120) with fallback 50 for every other string |
| Pricing.ComplexityTenths | components/CostEstimator.tsx:24 | the integer is exactly ten times the real multiplier `complexity * 0.6 + 0.4`, for every complexity |
| PricingProperties.ComplexityMultipliers | components/CostEstimator.tsx:24 | the complexity multiplier is exactly 1, 1.6, 2.2, 2.8 for levels 1..4 |
| Pricing.DeviceSurcharge | components/CostEstimator.tsx:25 | the device addition is zero exactly when there is one device, never negative from one device up, and at least 35 beyond one device |
| Pricing.UrgencyQuarters | components/CostEstimator.tsx:26 | the integer is exactly four times the real urgency multiplier, 1.75 for "emergency" and 1 otherwise |
| PricingProperties.UrgencyFactor | components/CostEstimator.tsx:26 | the urgency factor is 7/4 exactly for "emergency" and 1 for every other string |
| Pricing.SubtotalTenths | components/CostEstimator.tsx:19-25 | the integer is exactly ten times the real subtotal `base * (complexity * 0.6 + 0.4) + (devices - 1) * 35` |
| Pricing.ScaledPrice | components/CostEstimator.tsx:19-28 | the integer is exactly forty times the real value handed to Math.round |
| Pricing.RoundHalfUp | components/CostEstimator.tsx:28 | the integer result lies within one half of num/den, halves going up, as Math.round does |
| PricingProperties.RoundHalfUpUnique | components/CostEstimator.tsx:28 | that rounding relation has exactly one solution, so it characterises Math.round |
| Pricing.Price | components/CostEstimator.tsx:19-28 | the estimate lies within one half of the real value `(base * (complexity * 0.6 + 0.4) + (devices - 1) * 35) * (1.75 or 1)`, halves going up: Math.round of the source expression evaluated exactly |
| PricingProperties.NormalPriceIsExact | components/CostEstimator.tsx:24-28 | at normal urgency no rounding happens: the estimate is exactly the subtotal |
| PricingProperties.TiesOnlyInEmergency | components/CostEstimator.tsx:26-28 | an exact .5 value, where floating point could round differently, needs emergency urgency |
| PricingProperties.TieExample | components/CostEstimator.tsx:19-28 | system-overhaul, complexity 4, 15 devices, emergency is a valid input whose exact value is 2229.5 and whose estimate is 2230 |
| PricingProperties.Scenarios | components/CostEstimator.tsx:7-28 | the defaults give 80, and five worked inputs give 50, 288, 854, 462 and 540 |
| PricingProperties.PriceAtLeastBase | components/CostEstimator.tsx:19-28 | from complexity 1 and one device up the estimate is at least the base rate, hence at least 50 |
| PricingProperties.MinimalJobCostsBase | components/CostEstimator.tsx:19-28 | complexity 1, one device, normal urgency costs exactly the base rate, for every service id |
| PricingProperties.PriceIncreasesWithComplexity | components/CostEstimator.tsx:24-28 | raising the complexity with all else fixed strictly raises the estimate |
| PricingProperties.PriceIncreasesWithDevices | components/CostEstimator.tsx:25-28 | adding devices with all else fixed strictly raises the estimate |
| PricingProperties.EmergencyCostsMore | components/CostEstimator.tsx:24-28 | from complexity 1 and one device up, emergency urgency gives a strictly higher estimate than normal urgency |
| ComplexityScale.Label | components/CostEstimator.tsx:105 | the label lookup is defined exactly for complexity 1..4 and then yields one of the four labels; elsewhere it is undefined |
| ComplexityScale.LabelsInOrder | components/CostEstimator.tsx:14 | levels 1..4 are labelled Minimal, Standard, Complex, Enterprise in order, and no label names two levels |
| ComplexityScale.Segments | components/CostEstimator.tsx:108-115 | there are four segments, the lit ones form a prefix, the first is lit exactly from complexity 1 and the last exactly from complexity 4 |
| ComplexityScale.PrefixCount | components/CostEstimator.tsx:108-115 | when the first `lit` of `n` segments are lit, the lit count is `lit` clamped to 0..n |
| ComplexityScale.LitSegments | components/CostEstimator.tsx:108-115 | exactly `complexity` of the four segments are lit for complexity 1..4, none below and all four above |
| EstimatorWidget.Display | components/CostEstimator.tsx:149 | the price area shows "..." exactly while calculating, and the stored estimate otherwise |
| EstimatorWidget.ApplyInput | components/CostEstimator.tsx:74 | each setter replaces its own input and leaves the other three unchanged (also lines 95, 111, 128 and 134) |
| EstimatorWidget.RunEffect | components/CostEstimator.tsx:16-18 | the effect sets isCalculating and replaces any pending timer by one holding the current inputs, leaving the estimate alone |
| EstimatorWidget.FireTimer | components/CostEstimator.tsx:18-30 | the timer callback stores the price of the inputs it captured and clears isCalculating, leaving the inputs alone |
| EstimatorWidget.Step | components/CostEstimator.tsx:16-33 | a setter with the value already held changes nothing; one with a new value only re-renders, leaving the effect due; a due effect starts a calculation for the current inputs (cancelling the old timer); a timer fire stores the price of the inputs it captured; nothing but a timer fire changes the estimate, and a fire with no timer changes nothing |
| EstimatorWidget.FirstPaintShowsZero | components/CostEstimator.tsx:7-12 | the first render, before the effect runs, displays 0 though the defaults price at 80 |
| EstimatorWidget.MountIsSettled | components/CostEstimator.tsx:16-18 | after the first effect run the widget is calculating, with a timer for the defaults |
| EstimatorWidget.RenderBeforeEffectShowsPrevious | components/CostEstimator.tsx:16-17 | the render after an input change, before its effect runs, shows the previous figure for the new inputs |
| EstimatorWidget.StaleRenderExample | components/CostEstimator.tsx:74 | after the defaults show 80, clicking AI & Automation renders that service with 80 still shown though it prices at 288 |
| EstimatorWidget.StepKeepsConsistent | components/CostEstimator.tsx:16-33 | every event keeps the invariant: a timer is pending exactly while calculating, and when no effect is due the timer holds the current inputs and otherwise the estimate prices them |
| EstimatorWidget.RunKeepsConsistent | components/CostEstimator.tsx:16-33 | any sequence of events keeps the invariant, and the inputs are those the setters alone produce |
| EstimatorWidget.NoStalePriceShown | components/CostEstimator.tsx:16-33 | from the first render on, whenever no effect is waiting to run and a figure is shown, it is the price of the current inputs |
| EstimatorWidget.LastWriteWins | components/CostEstimator.tsx:16-33 | after any events, running the due effect and then the timer shows the price of the most recent inputs and ends the calculation |
| EstimatorWidget.ControlsKeepInputsValid | components/CostEstimator.tsx:66-134 | events the buttons and slider can produce keep the inputs within the four service ids, levels 1..4, 1..15 devices and the two urgencies |
| EstimatorWidget.SettledAtLeastFloor | components/CostEstimator.tsx:19-33 | a consistent widget with complexity and devices from 1 up shows no figure below 50 when no effect is due |
| EstimatorWidget.ShownEstimateAtLeastFloor | components/CostEstimator.tsx:16-33 | driven only by its controls, the widget shows no figure below 50 whenever no effect is waiting to run (the first render, before the mount effect, shows 0) |

## Left out

- Floating point: the widget multiplies by 0.6, 0.4 and 1.75 in IEEE-754 doubles; the model computes the exact rational. The two can differ only where the exact value is a .5 tie (`TiesOnlyInEmergency`), if the double lands on the other side of it.
- Currency display: the `$` prefix, the `AUD*` suffix and the disclaimer are presentation strings; `Display` models only which number (or "...") is shown.
- Highlighting of the selected service and urgency buttons, icons, animation and the "Reserve Priority Slot" button, which has no handler.
- `parseInt` of the slider's string value: the slider's step of 1 makes every value an integer 1..15, and the model's `SetDevices` takes that integer.
- Real time and React's scheduling: the 400 ms delay is abstracted to a `TimerFire` event that may occur whenever a timer is pending, and the effect after a render to an `EffectRun` event that may come after any other events. The model therefore admits orders that React may never produce, such as an old timer firing between a render and its effect. Whether a render before its effect is ever painted depends on React's scheduling, which is not modelled. The clean-up when the widget unmounts is not modelled either.
- The rest of the site: the chat widget (a network relay to an external AI library), the contact forms (a simulated submission timer), page layout, routing, the cursor and logo, and static content pages. `types.ts`'s `Complexity` enum is not used by the estimator.
