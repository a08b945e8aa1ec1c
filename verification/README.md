# Energy optimizer page — verified model

A Dafny model of the logic in the `EnergyOptimizer` component of the
single-page wellness form (`app/page.tsx`). Three sliders take sleep quality,
mood and energy level, each from 1 to 10. "Optimize My Energy" switches to an
analyzing view. A timer then shows the results: an energy score, a message
chosen by the score and a radar chart of the three ratings. The
"24-Hour Energy Curve" card shows only its header: its bars are never drawn
(see "## Findings"). "Update My Status" goes back to the sliders.

Modules:

- `Scoring` (Scoring.dfy): the score, defined by its exact integer form
  `(10 * (s + m + e) + 1) / 3`. It is proved equal to JavaScript's `Math.round`
  of `(s + m + e) / 3 * 10` and to lie strictly within one half of that value,
  so a .5 tie never occurs. Also the three-tier message.
- `EnergyChart` (EnergyChart.dfy): the clamp of each hourly value to [10, 100],
  the colour tier of each bar, and the bars drawn into the page.
- `ComparisonChart` (ComparisonChart.dfy): the radar chart handle. The previous
  chart is destroyed before the next is created. Live chart instances are a
  registry of ids.
- `Optimizer` (Optimizer.dfy): the component state record (ratings, the
  `isAnalyzing` and `showResults` flags, score, message, radar handle). There is
  one transition per UI event. Section visibility is a function of the flags.
  Which events the UI can deliver is a separate `Enabled` predicate.
- `Options` (Options.dfy): the `Option` type used for nullable values.

The transition functions are total. The source's handlers have no guards, so
the invariant is proved for every event sequence. The UI only gates events by
hiding sections, and that gating is modelled by `Enabled`.

The timer callback closes over the ratings of the render in which the button
was clicked. It does not see later slider moves. While analyzing, the input
section is hidden. `Optimizer.AnalyzingOnlyTimer` shows that the timer is then
the only deliverable event, so the ratings cannot change before it fires.
`Fire` therefore reads the current ratings. This matters because one could
expect slider moves made during the delay to affect the score; the code does
not allow that.

## Model

| member | source | states |
|---|---|---|
| Scoring.Score | app/page.tsx:49 | in integer terms, for rating sum n the score r satisfies r <= 10n/3 + 1/2 < r + 1 and lies within 1/2 of 10n/3 |
| Scoring.ScoreIsMathRound | app/page.tsx:49 | for all integer ratings the score equals Math.round (floor of x + 1/2) of (s+m+e)/3*10 and is strictly within 1/2 of it, so no .5 tie occurs |
| Scoring.ScoreOf | app/page.tsx:49 | for slider ratings (1..10) the score is the rounded percentage and lies in [10, 100] |
| Scoring.ScoreStrictlyMonotone | app/page.tsx:49 | a larger rating sum gives a strictly larger score |
| Scoring.RaisingOneRatingNeverLowers | app/page.tsx:49 | raising any one of the three ratings never lowers the score |
| Scoring.ScoreExamples | app/page.tsx:49 | ratings (1,1,1) score 10, (10,10,10) score 100, (8,6,9) score 77, the initial (7,7,7) score 70 |
| Scoring.MessageFor | app/page.tsx:53-59 | Excellent iff score > 70, Good iff 50 < score <= 70, Low iff score <= 50 |
| Scoring.MessageMonotone | app/page.tsx:53-59 | a higher score never selects a worse message |
| Scoring.MessageBoundaries | app/page.tsx:53-59 | 71 reads Excellent, 70 and 51 read Good, 50 reads Low |
| Scoring.TextInjective | app/page.tsx:53-59 | the three message texts are pairwise distinct |
| Scoring.WorkedExample | app/page.tsx:49-59 | ratings (8,6,9) show "Excellent! You're primed for a great day!" |
| EnergyChart.Clamp | app/page.tsx:76 | the bar value lies in [10, 100] for any real input, equals it when already in range, and is 10 or 100 below or above |
| EnergyChart.ClampIdempotentAndMonotone | app/page.tsx:76 | clamping twice equals clamping once, and clamping preserves order |
| EnergyChart.Modifier | app/page.tsx:75 | the personal modifier is exactly 10(s+m+e)/3, unrounded; it lies in [10, 100] and is within 1/2 of the energy score |
| EnergyChart.EnergyData | app/page.tsx:72-77 | there are 24 hourly values, each in [10, 100]; each equals offset + modifier when that sum is in range, 100 when it is above and 10 when it is below |
| EnergyChart.LowerClampNeverBinds | app/page.tsx:74-76 | for sine-plus-noise offsets in [0, 100) the lower clamp never applies |
| EnergyChart.TopRatingsAllGreen | app/page.tsx:74-94 | with all ratings at 10 every hour is clamped to 100 and coloured green |
| EnergyChart.TierOf | app/page.tsx:89-94 | green iff > 80, yellow iff in (60, 80], orange iff in (40, 60], red iff <= 40 |
| EnergyChart.TierMonotone | app/page.tsx:89-94 | a taller bar never gets a worse colour tier |
| EnergyChart.Bars | app/page.tsx:84-99 | one bar per value, labelled with its hour index, height equal to the value, tier from the value |
| EnergyChart.RenderEnergyChart | app/page.tsx:79-99 | bars are drawn iff the page has an element with id "energy-chart"; then they are exactly the bars of the values, one per value, labelled with its hour index, with matching height and the value's colour tier |
| EnergyChart.AsWrittenCurveNeverDrawn | app/page.tsx:79-80 | with the element ids the markup declares, the curve is never drawn, for any ratings and draws |
| EnergyChart.CorrectedCurveDrawn | app/page.tsx:79-104 | with the container present, 24 bars labelled 0..23 are drawn, each in [10, 100] and coloured by its value |
| ComparisonChart.Plot | app/page.tsx:125 | the radar plots sleep, energy, mood in that order, each within the chart's 0..10 scale |
| ComparisonChart.Render | app/page.tsx:107-119 | with no canvas or context nothing changes; otherwise the previous chart is destroyed, a fresh chart plotting the ratings becomes current, and soundness is kept |
| ComparisonChart.SoundHasAtMostOneLive | app/page.tsx:114-119 | while the handle discipline holds, at most one chart is alive, and exactly one iff the handle is set |
| ComparisonChart.PlotIsReorderedRatings | app/page.tsx:125 | the plotted series is a reordering of the three ratings, the same values printed under the chart (app/page.tsx:374-382) |
| ComparisonChart.RenderTwiceLeavesOne | app/page.tsx:114-119 | two renders in succession leave exactly one live chart, plotting the second call's ratings |
| Optimizer.Visible | app/page.tsx:213-338 | input visible iff neither flag is set, analyzing iff isAnalyzing, results iff showResults |
| Optimizer.ExactlyOneVisibleIff | app/page.tsx:213-338 | exactly one section is visible iff the two flags are not both set |
| Optimizer.SetSleep | app/page.tsx:241 | the sleep slider changes sleep quality only; nothing else changes |
| Optimizer.SetMood | app/page.tsx:269 | the mood slider changes mood only; nothing else changes |
| Optimizer.SetEnergy | app/page.tsx:297 | the energy slider changes energy level only; nothing else changes |
| Optimizer.Analyze | app/page.tsx:40-42 | analyze shows only the analyzing section and changes neither ratings, score, message nor chart |
| Optimizer.Fire | app/page.tsx:34-64 | the timer shows only the results, keeps the ratings, stores the rounded score in [10, 100] and its message, and leaves one sound radar plotting the ratings after the callback's draw and the `showResults` effect's redraw |
| Optimizer.Update | app/page.tsx:67-69 | update hides the results, returns to input when not analyzing, and leaves ratings, flags, score, message and chart otherwise unchanged |
| Optimizer.StepPreservesInv | app/page.tsx:40-69 | every event keeps the flags exclusive and the radar handle sound |
| Optimizer.RunPreservesInv | app/page.tsx:40-69 | every sequence of events keeps the invariant |
| Optimizer.ReachableExactlyOneSection | app/page.tsx:213-338 | in every state reachable from first render exactly one section is visible and at most one radar chart is alive |
| Optimizer.AnalyzingOnlyTimer | app/page.tsx:40-64 | while analyzing the timer is the only event the UI can deliver, so the ratings stay as they were when analysis started |
| Optimizer.AnalyzeThenFire | app/page.tsx:40-64 | from the input section, analyze then fire shows the results with the score and message of the ratings at the click, and exactly one live chart |
| Optimizer.UpdateReturnsToInput | app/page.tsx:67-69 | update from the results returns to the input section with slider values unchanged, and analyze is available again |

## Left out

- The date shown in the header (app/page.tsx:23-31). It depends on locale and time zone and has no effect on scoring.
- The sine base curve and the `Math.random` perturbation (app/page.tsx:74-76). They are floating point and random, so they enter as an arbitrary per-hour real `offset`.
- IEEE-754 arithmetic of the score: the model uses exact reals. The quotient's fractional part is 0, 1/3 or 2/3. That is far from 1/2, so rounding error in doubles cannot change the result. This is argued, not proved.
- DOM construction, class names and hover labels of the bars (app/page.tsx:82-104). This is browser I/O; a bar keeps only its hour, height and tier.
- The chart library's configuration, drawing and tooltip (app/page.tsx:119-186). Only the destroy-then-create handle discipline and the plotted series are kept.
- The hourly-curve calls from the timer and the effect (app/page.tsx:35, 62) are not part of the `Optimizer` state. As written they draw nothing (see "## Findings"), so they leave the page unchanged.
- The 3000 ms delay and React's scheduling of state updates and effects. The timer is an explicit event. A second pending timer cannot arise, because the analyze button is hidden while analyzing.
- Whether `getContext('2d')` succeeds. It is the `mounted` parameter of `ComparisonChart.Render`, and `Optimizer.Fire` takes it as true because the canvas is always in the markup.
- The static page markup, recommendation cards, page metadata (app/layout.tsx) and build configuration (next.config.ts). None of them holds logic.

## Findings

| source | as written | input that shows it | evidently intended | confidence | as-written member | corrected member |
|---|---|---|---|---|---|---|
| app/page.tsx:79-80 | `generateEnergyChart` looks up the element "energy-chart", but the markup declares no element with that id. The "24-Hour Energy Curve" card (app/page.tsx:349-357) holds only its header, so the function always returns before drawing. | any ratings, e.g. (8, 6, 9), and any random draws | the curve card contains a container with id "energy-chart", and the 24 bars are drawn into it | high; not executed | EnergyChart.AsWrittenCurveNeverDrawn | EnergyChart.CorrectedCurveDrawn |
