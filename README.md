# belleflopt benefit scoring, in Dafny

This project models the benefit scorer of belleflopt, an environmental-flow
allocation optimiser. A benefit box gives a score between 0 and 1 to a flow on
a day of the water year. The score rises from 0 to 1 as the flow or the day
moves into the box's window, and falls back to 0 as it leaves.

- `wrappers.dfy`: `Option`. It stands for the attributes that start out as
  `None` in the source.
- `scoring.dfy` (module `Scoring`): the pure part of the model.
  - How a window `[low, high]`, a margin fraction and an optional rollover
    give the four corners q1..q4. This is `CornersFor`. Python's `int()` is
    modelled as `Trunc`, which truncates toward zero.
  - How a value is scored against the corners: `Classify` and `Score`.
  - An independent trapezoid definition: `RisingEdge`, `FallingEdge` and
    `Min`.
  - The lemmas relating the two definitions, and the shape of the curve.
- `benefit.dfy` (module `Benefit`): the two stateful classes.
  - `BenefitItem` has setters that recompute the corners once both bounds
    and the margin are known. A margin setter given an unchanged value does
    nothing.
  - `BenefitBox` builds a fresh flow item and a fresh day item (rollover
    365) on every query. It multiplies their two scores.
  - `CombinedBenefit` is the function that specifies that product. It comes
    with its lemmas.

`BenefitItem.Valid()` is the class invariant: corners exist exactly when
both bounds and the margin are set, and they equal `CornersFor` of them.
`rollover` is a plain attribute in the source, so assigning it does not
recompute the corners. The ghost field `cornersRollover` therefore records
the rollover in force at the last recompute, and `Valid()` refers to it.

`single_value_benefit` has no wrap-around. A day window whose end comes
before its start, such as start day 350 and end day 10, scores 0 for every
value when the margin is in [0, 1/2) (`Scoring.CrossingWindowScoresZero`).
With a larger margin the reversed ramps can instead cover the opposite season:
days 350 to 10 with margin 0.8 score day 180 as 1
(`Scoring.WideMarginCrossingScoresOppositeSeason`).

The docstring of `single_value_benefit` allows a margin between 0 and 1. The
trapezoid shape (ramp up, plateau, ramp down) holds whenever twice the margin
size is at most the window, which a margin of at most one half guarantees.
Above one half, the margin size can exceed half the window and the two ramps
overlap. Outside the full-period window [0, rollover], no value then reaches
the plateau or scores 1 (`Scoring.OverlappingRampsNeverScoreOne`), and the score drops where the
rising ramp hands over to the falling one
(`Scoring.WideMarginDropsAtRampJoin`). Each ramp on its own still rises or
falls for any corners (`Scoring.RampUpRises`, `Scoring.RampDownFalls`).

## Model

| member | source | states |
|---|---|---|
| Scoring.Trunc | belleflopt/benefit.py:58 | Python's `int()` on a float: the result has the sign of its argument and is less than 1 closer to zero |
| Scoring.MarginSize | belleflopt/benefit.py:57-58 | the margin fraction of the window, truncated; margin 0 gives 0; ordered bounds with a margin in [0, 1/2] give a size between 0 and half the window; reversed bounds with a margin in [0, 1/2) give a size between half the (negative) width and 0 |
| Scoring.RolloverActive | belleflopt/benefit.py:60 | Python truthiness of `rollover`: it is set and nonzero |
| Scoring.FullWindow | belleflopt/benefit.py:60 | the rollover is active, the high bound equals it and the low bound is 0 |
| Scoring.CornersFor | belleflopt/benefit.py:57-69 | the corners `_update_qs` computes; outside the full-period case each bound is the midpoint of its ramp and both ramps are twice the margin size wide |
| Scoring.CornersOrdered | belleflopt/benefit.py:57-69 | bounds in order and a margin in [0, 1/2] give corners q1 <= q2 <= q3 <= q4, with or without a rollover |
| Scoring.Classify | belleflopt/benefit.py:87-98 | a value that reaches the rising-ramp branch lies strictly inside (q1, q2); one that reaches the falling-ramp branch lies strictly inside (q3, q4) and past q2, so neither slope divides by zero |
| Scoring.Ramp | belleflopt/benefit.py:93-98 | slope times distance from the ramp's start, as both ramp branches compute it; `Scoring.SlopeForm` shows it is the fraction of the ramp covered |
| Scoring.RampFraction | belleflopt/benefit.py:93-98 | a point strictly inside a ramp is strictly between 0 and 1 along it |
| Scoring.Score | belleflopt/benefit.py:87-98 | every score is in [0, 1]; the plateau [q2, q3] scores 1, even where it touches q1 or q4; off the plateau, values at or beyond q1 or q4 score 0 |
| Scoring.RampScoresFraction | belleflopt/benefit.py:93-98 | a value off the plateau but strictly between q1 and q4 scores strictly between 0 and 1 |
| Scoring.BenefitIsTrapezoid | belleflopt/benefit.py:87-98 | on ordered corners the score is the minimum of an independently defined rising edge and falling edge |
| Scoring.RisesToPlateau | belleflopt/benefit.py:87-95 | on ordered corners the score never decreases up to the end of the plateau |
| Scoring.FallsAfterPlateau | belleflopt/benefit.py:87-98 | on ordered corners the score never increases from the start of the plateau on |
| Scoring.RampUpRises | belleflopt/benefit.py:93-95 | for any corners, two values that both reach the rising-ramp branch keep their order in score |
| Scoring.RampDownFalls | belleflopt/benefit.py:96-98 | for any corners, two values that both reach the falling-ramp branch reverse their order in score |
| Scoring.OverlappingRampsNeverScoreOne | belleflopt/benefit.py:57-98 | outside the full-period window [0, rollover], when the margin size exceeds half the window (possible for a margin above 1/2), no value scores 1 |
| Scoring.WideMarginDropsAtRampJoin | belleflopt/benefit.py:57-98 | the window [0, 10] with margin 0.8 gets corners (-8, 8, 2, 18), and its score drops from 15.5/16 at 7.5 to 10/16 at 8 |
| Scoring.FullWindowIndicator | belleflopt/benefit.py:60-91 | a window covering the whole period [0, rollover] scores exactly 1 inside it and 0 outside, whatever the margin |
| Scoring.ZeroMarginIsStep | belleflopt/benefit.py:57-91 | with margin 0 the curve is a step: 1 exactly on [low, high], 0 elsewhere |
| Scoring.BoundScoresHalf | belleflopt/benefit.py:66-98 | outside the full-period window, with bounds in order, a margin in [0, 1/2] and ramps of positive width, the low and high bounds each score exactly 1/2 |
| Scoring.WideMarginCrossingScoresOppositeSeason | belleflopt/benefit.py:57-98 | the reversed day window 350..10 with margin 0.8 and rollover 365 gets corners (622, 78, 282, -262), and day 180 scores 1 |
| Scoring.CrossingCorners | belleflopt/benefit.py:57-69 | a window whose end is before its start, with a margin in [0, 1/2), gets an empty plateau and q4 at or before q1 |
| Scoring.NoPlateauScoresZero | belleflopt/benefit.py:87-91 | such corners score 0 for every value |
| Scoring.CrossingWindowScoresZero | belleflopt/benefit.py:57-98 | with a margin in [0, 1/2), a window crossing the rollover point (end before start) scores 0 everywhere: the scorer has no wrap-around |
| Benefit.BenefitItem.constructor | belleflopt/benefit.py:9-18 | a new item has no bounds, margin, rollover or corners |
| Benefit.BenefitItem.UpdateCorners | belleflopt/benefit.py:54-69 | the corners become CornersFor(bounds, margin, current rollover), and the item invariant holds |
| Benefit.BenefitItem.SetLowBound | belleflopt/benefit.py:27-31 | sets the low bound; recomputes the corners if the high bound and margin are set, and otherwise leaves them alone; keeps the invariant |
| Benefit.BenefitItem.SetHighBound | belleflopt/benefit.py:37-41 | sets the high bound; recomputes the corners if the low bound and margin are set, and otherwise leaves them alone; keeps the invariant |
| Benefit.BenefitItem.SetMargin | belleflopt/benefit.py:47-52 | an unchanged margin changes nothing; a new one is stored and recomputes the corners when both bounds are set; with a bound unset there are no corners |
| Benefit.BenefitItem.SingleValueBenefit | belleflopt/benefit.py:71-98 | applies the margin through the setter, then returns the score against the item's corners; fails (None) exactly when a bound is unset |
| Benefit.FlowCorners | belleflopt/benefit.py:119-122 | the flow item's corners: its window and margin with no rollover |
| Benefit.DateCorners | belleflopt/benefit.py:124-128 | the date item's corners: its window and margin with rollover 365 |
| Benefit.Combine | belleflopt/benefit.py:130 | two scores in [0, 1] combine to a score in [0, 1] that is 0 exactly when either is 0 and 1 exactly when both are 1 |
| Benefit.CombinedBenefit | belleflopt/benefit.py:118-130 | the box's score for a flow on a day: the flow item's score combined with the date item's score, the date item rolling over at 365 |
| Benefit.CombinedRange | belleflopt/benefit.py:130 | the box's score is in [0, 1]; it is 0 exactly when the flow or the day scores 0, and 1 exactly when both score 1 |
| Benefit.FullYearIsFlowScore | belleflopt/benefit.py:124-130 | a box whose day window is the whole water year [0, 365] scores every day of it exactly as its flow item scores the flow |
| Benefit.WorkedExample | belleflopt/benefit.py:118-130 | for the box 100..200 cfs over days 50..150 with margins 0.1: flow 150 scores 1, flow 50 scores 0, and flow 95 scores 1/4 on day 100 |
| Benefit.NewItem | belleflopt/benefit.py:119-128 | an item set up as a box sets one up (bounds, then the rollover, then the margin) is fresh and valid, and has the corners of its parameters |
| Benefit.BenefitBox.constructor | belleflopt/benefit.py:112-116 | stores the flow window and the day window; no items exist yet |
| Benefit.BenefitBox.SingleFlowBenefit | belleflopt/benefit.py:118-130 | builds fresh valid flow and day items holding the box's bounds and the given margins (the day item with rollover 365) with the corners of the box's windows, and returns CombinedBenefit of the flow and the day |

## Left out

- `BenefitBox.plot_flow_benefit` and the matplotlib and seaborn imports: they only draw the curve.
- Floating point: values are modelled as exact reals, so rounding in `margin * window_size` and in the slopes is not captured. `int()` truncation toward zero is modelled exactly.
- Python dynamic typing: bounds, margins and rollovers are modelled as numbers or unset. Assigning `None` back to a bound or margin after it was set is not modelled.
- Benefit.BenefitItem.SetMargin: a NaN margin, which would compare unequal to itself and recompute every time, is not modelled, because the model has no NaN.
- Benefit.BenefitItem.SingleValueBenefit: a missing bound makes the Python comparison raise `TypeError`. The model returns `None` instead of raising.
- Wrap-around of day windows across the end of the water year: the code does not implement it (see above).
- Scoring.CornersOrdered: stated for a margin of at most 1/2 only; above that the corners need not be ordered (see `Scoring.OverlappingRampsNeverScoreOne`).
- Scoring.BenefitIsTrapezoid: stated for ordered corners only; when the margin size exceeds half the window the curve has no plateau (see `Scoring.WideMarginDropsAtRampJoin`).
- Scoring.RisesToPlateau: stated for ordered corners only; for any corners `Scoring.RampUpRises` gives monotonicity on the rising ramp.
- Scoring.FallsAfterPlateau: stated for ordered corners only; for any corners `Scoring.RampDownFalls` gives monotonicity on the falling ramp.
- Scoring.BoundScoresHalf: stated for a margin of at most 1/2 only, where the two ramps do not overlap.
- The rest of the repository (the optimiser, the Django models and migrations, the data loaders) is not part of this model.
