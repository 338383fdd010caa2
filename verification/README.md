# Belonging calculator: a Dafny model

This project models the belonging calculator of the Apnapan platform website
(`src/components/BelongingCalculator.jsx`). The calculator has two parts.

- **Transformation estimator** (module `Estimator`, `estimator.dfy`). It takes
  four baseline scores: belonging, voice, safety and engagement. It projects
  each score to 6, 12 and 18 months as `min(current + increment, cap)`. The caps
  are 95, 98 and 99. The increment depends on the metric and the horizon. Each
  improvement is the projected score minus the baseline.
- **Flow controller** (modules `Form`, `form.dfy`, and `Flow`, `flow.dfy`). It
  holds a draft with a free-text school name, a student count from a number
  input, and four scores. The change handler
  coerces each edited value. Submit builds a result bundle, shows the results
  view and overwrites the single persisted "last result" slot. Reset restores
  the default draft. "Try Another Scenario" goes back to the form.

Form values are dynamically typed in the source. The model writes them as
`Value = Text(s) | Num(n)`. An edit carries its raw text and a `RawKind`: how
JavaScript's `isNaN` and `parseInt` read that text. `Consistent` pins down two
readings. The empty text is not NaN for `isNaN` but `parseInt` gives NaN, so
it becomes 0. A plain run of decimal digits reads as its decimal value. The
storage slot is a plain `Option<Saved>` field of the state. The submission
time is a parameter of the `Submit` event.

Three facts about the code shape the flow model:

- "Try Another Scenario" (lines 327-331) only switches the view back to the
  form. The draft and the results are kept. The default draft is restored
  only by the Reset button inside the form (lines 459-468).
- `results` is never cleared once set.
- The storage write (lines 128-131) has no error handling. The model treats
  the write as always succeeding.

## Model

| member | source | states |
|---|---|---|
| Estimator.Increment | src/components/BelongingCalculator.jsx:72-89 | every increment lies between 12 and 45 points and is below its horizon's cap |
| Estimator.Cap | src/components/BelongingCalculator.jsx:72-89 | every horizon's ceiling lies between 95 and 99, below the top of the 0-100 score scale |
| Estimator.Project | src/components/BelongingCalculator.jsx:73-88 | a projection never exceeds its horizon's cap or the raw sum `current + increment`, and equals one of the two |
| Estimator.ProjectIsGreatestLowerBound | src/components/BelongingCalculator.jsx:73-88 | every value at most both the raw sum and the cap is at most the projection, so the projection is their minimum |
| Estimator.ProjectSaturates | src/components/BelongingCalculator.jsx:73-88 | the projection equals the cap exactly when the raw sum reaches the cap |
| Estimator.Projection | src/components/BelongingCalculator.jsx:72-89 | each metric of a horizon's projection is that metric's capped projection of its own baseline score |
| Estimator.Predict | src/components/BelongingCalculator.jsx:71-90 | the table has every metric at every horizon projected from its own baseline, and every entry is at most its horizon's cap |
| Estimator.Improvements | src/components/BelongingCalculator.jsx:102-121 | every improvement is the predicted score minus the baseline score for the same horizon and metric |
| Estimator.ProjectMonotone | src/components/BelongingCalculator.jsx:73-88 | for a fixed metric and horizon, a higher baseline never projects lower |
| Estimator.TableGrowsWithHorizon | src/components/BelongingCalculator.jsx:72-89 | increments and caps never shrink from an earlier horizon to a later one |
| Estimator.ProjectGrowsWithHorizon | src/components/BelongingCalculator.jsx:72-89 | for a fixed metric and baseline, the 6-month value is at most the 12-month value, which is at most the 18-month value |
| Estimator.ImprovementClosedForm | src/components/BelongingCalculator.jsx:102-121 | an improvement equals `min(increment, cap - current)`; it is negative exactly when the baseline exceeds the cap, and equals the full increment exactly when no capping happens |
| Estimator.OverCapGivesNegativeImprovement | src/components/BelongingCalculator.jsx:103-108 | a baseline of 100 gives a 6-month improvement of -5 for every metric |
| Estimator.DefaultScenario | src/components/BelongingCalculator.jsx:71-90 | the default scores 45/38/52/61 project to 60/56/64/75, 73/70/77/87 and 85/83/90/98 |
| Estimator.CeilingScenario | src/components/BelongingCalculator.jsx:71-90 | a baseline of 100 everywhere projects to the caps: 95 at 6 months, 98 at 12 and 99 at 18 |
| Estimator.ZeroScenario | src/components/BelongingCalculator.jsx:84-89 | an all-zero baseline projects to 40/45/38/37 at 18 months |
| Estimator.SaturatedScenario | src/components/BelongingCalculator.jsx:84-89 | a baseline of 90 everywhere projects to the cap 99 for every metric at 18 months |
| Form.Coerce | src/components/BelongingCalculator.jsx:63 | text that `isNaN` holds of is stored verbatim as text and anything else as a number; the empty text is stored as 0; a run of decimal digits is stored as its decimal value |
| Form.EmptyInputBecomesZero | src/components/BelongingCalculator.jsx:63 | an emptied input is stored as the number 0, not as empty text |
| Form.ApplyEdit | src/components/BelongingCalculator.jsx:59-65 | the named field takes the coerced value and every other field of the draft keeps its value |
| Form.EditEmptyStoresZero | src/components/BelongingCalculator.jsx:59-65 | clearing any field of the draft leaves 0 in it |
| Form.Decimal | src/components/BelongingCalculator.jsx:429-435 | the text a slider renders for a non-negative score is a non-empty run of decimal digits |
| Form.DecimalRoundTrip | src/components/BelongingCalculator.jsx:429-435 | reading back the rendered decimal text of a score gives that score |
| Form.SliderRoundTrip | src/components/BelongingCalculator.jsx:429-435 | moving a slider to the text of `n` stores exactly `n` as that metric's score |
| Flow.Label | src/components/BelongingCalculator.jsx:93-94 | a falsy label (empty text or 0) is replaced by the fallback text; any other label passes through; the result is never falsy |
| Flow.Calculate | src/components/BelongingCalculator.jsx:92-122 | the bundle copies the draft scores verbatim, applies the "Your School" and "500+" fallbacks only to falsy labels, keeps every projection under its cap, and its improvements are predicted minus current |
| Flow.NumbersIgnoreLabels | src/components/BelongingCalculator.jsx:71-121 | two drafts with the same scores give the same projections and improvements whatever their labels |
| Flow.InitialState | src/components/BelongingCalculator.jsx:32-42 | the calculator starts on the form with no results, the draft of empty-text labels and scores 45/38/52/61, and whatever storage held before |
| Flow.OffScreenControlsDoNothing | src/components/BelongingCalculator.jsx:358-479 | an action whose control the current view does not render (edits, submit and Reset on the results screen; "Try Another Scenario" on the form) leaves the whole state unchanged |
| Flow.ResultsScreenIsFrozen | src/components/BelongingCalculator.jsx:358-479 | on the results screen, any sequence of actions without "Try Another Scenario" leaves the whole state, including draft, results and storage, unchanged |
| Flow.Next | src/components/BelongingCalculator.jsx:59-131 | every action (edits 59-65, submit 124-131, and also "Try Another Scenario" 327-331 and Reset 459-468) preserves the invariant; only submit writes storage or results; only submit and "Try Another Scenario" change the view; only edits and Reset change the draft; results once shown are never cleared |
| Flow.ChangeTouchesOnlyField | src/components/BelongingCalculator.jsx:59-65 | an edit changes the named field only and leaves the view, the results and storage unchanged |
| Flow.SubmitShowsAndPersists | src/components/BelongingCalculator.jsx:124-131 | submit shows the results view, sets the results to the draft's bundle and replaces the stored slot with that bundle and the submission time |
| Flow.ResetRestoresInitialDraft | src/components/BelongingCalculator.jsx:459-468 | Reset makes the draft equal to the initial draft and leaves the view, results and storage unchanged |
| Flow.TryAnotherOnlySwitchesView | src/components/BelongingCalculator.jsx:327-331 | "Try Another Scenario" returns to the form and keeps the draft, the results and storage |
| Flow.ResubmitReproducesBundle | src/components/BelongingCalculator.jsx:327-331 | submitting, going back and submitting again without edits gives the same results and stored bundle; only the time stamp changes |
| Flow.ResetKeepsPersistedResult | src/components/BelongingCalculator.jsx:459-468 | submit, back to the form, then Reset leaves the default draft on the form and the submitted bundle in storage |
| Flow.Run | src/components/BelongingCalculator.jsx:124-131 | any sequence of actions preserves the invariant; a sequence with no submit leaves storage and results unchanged |
| Flow.ReachableSatisfiesInv | src/components/BelongingCalculator.jsx:124-131 | in every reachable state the results view has a coherent bundle and storage holds exactly that bundle |
| Flow.ShownResultIsPersisted | src/components/BelongingCalculator.jsx:124-131 | once the results view has been reached, storage holds the bundle currently in the results from then on |

## Left out

- Rendering, motion variants and the theme hook: they are presentation only and do not touch the numbers or the state.
- The percentage label `(predicted - current) / current * 100` shown on each card: it is floating point, can divide by zero and is display only.
- `isNaN` and `parseInt` rules beyond the empty text and plain digit runs: other text (signs, decimals, exponents, spaces) is read through the abstract `RawKind` carried by each edit.
- The student count comes from a number input, whose value is always empty or a numeral, so the source never stores text there after an edit. The model lets a student-count edit carry any text and store it; this admits more states than the source reaches and weakens no contract.
- Form.WellFormed: a score edit must read as a number, because score inputs are range inputs whose value is always a number. The source itself does not check this.
- JavaScript numbers are doubles; the model uses unbounded integers, so precision loss on huge typed values is not modelled.
- The JSON encoding of the stored bundle, the storage key and the real clock: storage is one optional slot and the time stamp is an opaque string passed in with each submit.
- Storage-write failures (quota, disabled storage) are not modelled: the write always succeeds. The results and the view are set (lines 124-125) before the write (line 128), so a write that throws would leave the new bundle on screen and the old one in storage. Flow.Inv, Flow.ReachableSatisfiesInv and Flow.ShownResultIsPersisted hold only for writes that succeed.
- Other writers of the storage slot: the model treats the slot as written only by this page's calculator instance. Another tab of the same origin writing the same key, or the user clearing site data, is outside the model. So "storage holds the bundle on display" (Flow.Inv, Flow.ReachableSatisfiesInv, Flow.ShownResultIsPersisted) holds only under that assumption.
- Estimator.Increment: its own contract states only bounds. The twelve exact increments are pinned by Estimator.DefaultScenario, where every one shows through uncapped.
- Estimator.Cap: its own contract states only bounds. The exact caps 95, 98 and 99 are pinned by Estimator.CeilingScenario.
- The delayed scroll to the results and the scroll to the top on "Try Another Scenario": timer and DOM side effects.
- Every other file of the repository (pages, data visualisation, scroll animations, the feedback button, routing, styling): static content or third-party glue.
