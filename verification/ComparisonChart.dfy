/**
 * The radar comparison chart (app/page.tsx, generateComparisonChart).
 *
 * The chart library is foreign code; what the page itself decides is the
 * handle discipline: the component keeps one reference to the current chart,
 * destroys that chart if there is one, and only then creates the next. The
 * library's instances are modelled as a registry of live instance ids, each
 * with the data series it plots.
 */
module ComparisonChart {

  import opened Options
  import opened Scoring

  /**
   * `handle` is the component's reference to its chart, `live` the chart
   * instances not yet destroyed (with their plotted data) and `next` the id
   * the next created instance gets.
   */
  datatype Registry = Registry(handle: Option<nat>, live: map<nat, seq<int>>, next: nat)

  /** No chart yet: the reference starts out null. */
  const Empty := Registry(None, map[], 0)

  /** The live instances are exactly the one the handle refers to, if any. */
  predicate Sound(reg: Registry)
  {
    match reg.handle
    case None => reg.live == map[]
    case Some(h) => h < reg.next && reg.live.Keys == {h}
  }

  /** The radar's data series: sleep, energy, mood (not the input order). */
  function Plot(r: Ratings): (data: seq<int>)
    ensures |data| == 3
    ensures data[0] == r.sleep && data[1] == r.energy && data[2] == r.mood
    ensures forall i :: 0 <= i < |data| ==> 0 <= data[i] <= 10
  {
    [r.sleep as int, r.energy as int, r.mood as int]
  }

  /**
   * The radar plots the same three values the results view prints under it
   * (sleep, energy, mood): the series is a reordering of the ratings.
   */
  lemma PlotIsReorderedRatings(r: Ratings)
    ensures multiset(Plot(r)) == multiset{r.sleep as int, r.mood as int, r.energy as int}
    ensures forall i :: 0 <= i < |Plot(r)| ==> Plot(r)[i] in {r.sleep as int, r.mood as int, r.energy as int}
  {
    var d := Plot(r);
    assert d == [d[0]] + [d[1]] + [d[2]];
  }

  /**
   * One call of the chart renderer. `mounted` says whether the canvas and its
   * 2d context are there; when either is missing nothing happens. Otherwise
   * the previous chart (if any) is destroyed and a fresh one plotting `r`
   * becomes the current chart.
   */
  function Render(reg: Registry, mounted: bool, r: Ratings): (reg': Registry)
    ensures !mounted ==> reg' == reg
    ensures mounted ==> reg'.handle == Some(reg.next) && reg.next in reg'.live &&
                        reg'.live[reg.next] == Plot(r)
    ensures Sound(reg) && mounted && reg.handle.Some? ==> reg.handle.value !in reg'.live
    ensures Sound(reg) ==> Sound(reg')
  {
    if !mounted then reg
    else
      var survivors := match reg.handle
        case None => reg.live
        case Some(h) => reg.live - {h};
      Registry(Some(reg.next), survivors[reg.next := Plot(r)], reg.next + 1)
  }

  /** In a sound registry at most one instance is alive, and one exactly when the handle is set. */
  lemma SoundHasAtMostOneLive(reg: Registry)
    requires Sound(reg)
    ensures |reg.live| <= 1
    ensures |reg.live| == 1 <==> reg.handle.Some?
  {
    if reg.handle.Some? {
      assert reg.live.Keys == {reg.handle.value};
      assert |reg.live.Keys| == 1;
    }
  }

  /**
   * Rendering twice in succession leaves exactly one live instance, the one
   * plotting the ratings of the second call, whatever was alive before.
   */
  lemma RenderTwiceLeavesOne(reg: Registry, r1: Ratings, r2: Ratings)
    requires Sound(reg)
    ensures var reg' := Render(Render(reg, true, r1), true, r2);
      && |reg'.live| == 1
      && reg'.handle.Some?
      && reg'.live[reg'.handle.value] == Plot(r2)
  {
    var reg' := Render(Render(reg, true, r1), true, r2);
    SoundHasAtMostOneLive(reg');
  }
}
