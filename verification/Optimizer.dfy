/**
 * The page's display-mode state machine (app/page.tsx, EnergyOptimizer).
 *
 * The component state is the three ratings, the `isAnalyzing` and
 * `showResults` flags, the score, the message and the radar chart reference.
 * Each UI event is one transition function. The 3000 ms timer is an explicit
 * `Fire` event; its delay is not modelled.
 */
module Optimizer {

  import opened Scoring
  import ComparisonChart

  /** The component state. */
  datatype Page = Page(
    ratings: Ratings,
    analyzing: bool,
    showResults: bool,
    score: int,
    message: string,
    radar: ComparisonChart.Registry)

  /** The state on first render: every slider at 7, no score, no message, no chart. */
  const Init: Page := Page(Ratings(7, 7, 7), false, false, 0, "", ComparisonChart.Empty)

  /** The three sections of the page. */
  datatype Section = InputSection | AnalyzingSection | ResultsSection

  /** Each section is hidden by a class computed from the two flags. */
  function Visible(p: Page): (shown: set<Section>)
    ensures InputSection in shown <==> !p.analyzing && !p.showResults
    ensures AnalyzingSection in shown <==> p.analyzing
    ensures ResultsSection in shown <==> p.showResults
  {
    (if !(p.showResults || p.analyzing) then {InputSection} else {})
    + (if p.analyzing then {AnalyzingSection} else {})
    + (if p.showResults then {ResultsSection} else {})
  }

  /** The state invariant: the two flags are never set together. */
  predicate Inv(p: Page)
  {
    !(p.analyzing && p.showResults) && ComparisonChart.Sound(p.radar)
  }

  /** Exactly one section is visible if and only if the flags are not both set. */
  lemma ExactlyOneVisibleIff(p: Page)
    ensures |Visible(p)| == 1 <==> !(p.analyzing && p.showResults)
  {
    if p.analyzing && p.showResults {
      assert Visible(p) == {AnalyzingSection, ResultsSection};
    } else if p.analyzing {
      assert Visible(p) == {AnalyzingSection};
    } else if p.showResults {
      assert Visible(p) == {ResultsSection};
    } else {
      assert Visible(p) == {InputSection};
    }
  }

  /** A slider change: only that rating changes. */
  function SetSleep(p: Page, v: Rating): (q: Page)
    ensures q.ratings.sleep == v && q.ratings.mood == p.ratings.mood && q.ratings.energy == p.ratings.energy
    ensures q.(ratings := p.ratings) == p
  {
    p.(ratings := p.ratings.(sleep := v))
  }

  function SetMood(p: Page, v: Rating): (q: Page)
    ensures q.ratings.mood == v && q.ratings.sleep == p.ratings.sleep && q.ratings.energy == p.ratings.energy
    ensures q.(ratings := p.ratings) == p
  {
    p.(ratings := p.ratings.(mood := v))
  }

  function SetEnergy(p: Page, v: Rating): (q: Page)
    ensures q.ratings.energy == v && q.ratings.sleep == p.ratings.sleep && q.ratings.mood == p.ratings.mood
    ensures q.(ratings := p.ratings) == p
  {
    p.(ratings := p.ratings.(energy := v))
  }

  /**
   * "Optimize My Energy": enter analyzing mode and hide the results. The
   * effect on `showResults` draws nothing, since the flag is now false.
   */
  function Analyze(p: Page): (q: Page)
    ensures Visible(q) == {AnalyzingSection}
    ensures q.ratings == p.ratings && q.score == p.score && q.message == p.message && q.radar == p.radar
  {
    p.(analyzing := true, showResults := false)
  }

  /**
   * The timer callback: leave analyzing mode, show the results, store the
   * score and its message, and draw the radar. When `showResults` was false
   * before, the effect that watches it draws the radar a second time.
   * Both places also call the hourly-curve renderer; the page has no element
   * it can draw into (see EnergyChart.AsWrittenCurveNeverDrawn), so that call
   * changes nothing and is not part of the state.
   */
  function Fire(p: Page): (q: Page)
    ensures Visible(q) == {ResultsSection}
    ensures q.ratings == p.ratings
    ensures q.score == RoundHalfUp(Percentage(p.ratings.sleep, p.ratings.mood, p.ratings.energy))
    ensures 10 <= q.score <= 100
    ensures q.message == Text(MessageFor(q.score))
    ensures q.radar.handle.Some? && q.radar.handle.value in q.radar.live
    ensures q.radar.live[q.radar.handle.value] == ComparisonChart.Plot(p.ratings)
    ensures ComparisonChart.Sound(p.radar) ==> ComparisonChart.Sound(q.radar)
  {
    var score := ScoreOf(p.ratings);
    var drawn := ComparisonChart.Render(p.radar, true, p.ratings);
    var redrawn := if p.showResults then drawn else ComparisonChart.Render(drawn, true, p.ratings);
    Page(p.ratings, false, true, score, Text(MessageFor(score)), redrawn)
  }

  /** "Update My Status": hide the results; the sliders keep their values. */
  function Update(p: Page): (q: Page)
    ensures !q.showResults
    ensures !p.analyzing ==> Visible(q) == {InputSection}
    ensures q.ratings == p.ratings && q.analyzing == p.analyzing
    ensures q.score == p.score && q.message == p.message && q.radar == p.radar
  {
    p.(showResults := false)
  }

  /** The UI events. */
  datatype Event = SetSleepTo(v: Rating) | SetMoodTo(v: Rating) | SetEnergyTo(v: Rating)
                 | AnalyzeClicked | TimerFired | UpdateClicked

  function Step(p: Page, ev: Event): Page
  {
    match ev
    case SetSleepTo(v) => SetSleep(p, v)
    case SetMoodTo(v) => SetMood(p, v)
    case SetEnergyTo(v) => SetEnergy(p, v)
    case AnalyzeClicked => Analyze(p)
    case TimerFired => Fire(p)
    case UpdateClicked => Update(p)
  }

  /** Every event keeps the invariant, with or without the UI's visibility gating. */
  lemma StepPreservesInv(p: Page, ev: Event)
    requires Inv(p)
    ensures Inv(Step(p, ev))
  {
  }

  /** The state after a sequence of events. */
  function Run(p: Page, evs: seq<Event>): Page
    decreases |evs|
  {
    if |evs| == 0 then p else Run(Step(p, evs[0]), evs[1..])
  }

  lemma {:induction false} RunPreservesInv(p: Page, evs: seq<Event>)
    requires Inv(p)
    ensures Inv(Run(p, evs))
    decreases |evs|
  {
    if |evs| > 0 {
      StepPreservesInv(p, evs[0]);
      RunPreservesInv(Step(p, evs[0]), evs[1..]);
    }
  }

  /**
   * In every state reachable from the first render exactly one section is
   * visible, and at most one radar chart instance is alive.
   */
  lemma ReachableExactlyOneSection(evs: seq<Event>)
    ensures |Visible(Run(Init, evs))| == 1
    ensures |Run(Init, evs).radar.live| <= 1
  {
    RunPreservesInv(Init, evs);
    ExactlyOneVisibleIff(Run(Init, evs));
    ComparisonChart.SoundHasAtMostOneLive(Run(Init, evs).radar);
  }

  /**
   * Which events the UI can deliver: the sliders and the analyze button sit
   * in the input section, the update button in the results section, and the
   * timer is pending exactly while analyzing.
   */
  predicate Enabled(p: Page, ev: Event)
  {
    match ev
    case SetSleepTo(_) => InputSection in Visible(p)
    case SetMoodTo(_) => InputSection in Visible(p)
    case SetEnergyTo(_) => InputSection in Visible(p)
    case AnalyzeClicked => InputSection in Visible(p)
    case TimerFired => p.analyzing
    case UpdateClicked => ResultsSection in Visible(p)
  }

  /**
   * While analyzing the timer is the only event the UI can deliver, so the
   * ratings the timer callback closed over are still the current ones when it
   * fires.
   */
  lemma AnalyzingOnlyTimer(p: Page, ev: Event)
    requires Inv(p) && p.analyzing
    ensures Enabled(p, ev) <==> ev == TimerFired
    ensures Enabled(p, ev) ==> Step(p, ev).ratings == p.ratings
  {
  }

  /**
   * From the input section, analyze then fire shows the results with the
   * score and message of the ratings at the time of the click.
   */
  lemma AnalyzeThenFire(p: Page)
    requires Inv(p) && InputSection in Visible(p)
    ensures Enabled(p, AnalyzeClicked) && Enabled(Analyze(p), TimerFired)
    ensures var q := Fire(Analyze(p));
      && Visible(q) == {ResultsSection}
      && q.ratings == p.ratings
      && q.score == ScoreOf(p.ratings)
      && q.message == Text(MessageFor(ScoreOf(p.ratings)))
      && |q.radar.live| == 1
  {
    ComparisonChart.SoundHasAtMostOneLive(Fire(Analyze(p)).radar);
  }

  /** Update from the results returns to the input section with the sliders as they were. */
  lemma UpdateReturnsToInput(p: Page)
    requires Inv(p) && Enabled(p, UpdateClicked)
    ensures Visible(Update(p)) == {InputSection}
    ensures Update(p).ratings == p.ratings
    ensures Enabled(Update(p), AnalyzeClicked)
  {
  }
}
