/**
 * The 24-hour energy curve (app/page.tsx, generateEnergyChart).
 *
 * Each hour's value is a sine base curve plus a random perturbation plus the
 * rating percentage, clamped to [10, 100]; each value becomes a bar whose
 * colour tier is chosen by strict thresholds. The sine curve and the random
 * draw are floating point and nondeterministic, so together they enter the
 * model as an arbitrary per-hour real `offset`.
 */
module EnergyChart {

  import opened Options
  import opened Scoring

  /** The hours of the curve, 0 to 23. */
  const Hours: nat := 24

  /** The bar colour tiers, from best to worst. */
  datatype Tier = Green | Yellow | Orange | Red

  /** One rendered bar: its hour label, its height in percent and its colour. */
  datatype Bar = Bar(hour: nat, height: real, tier: Tier)

  function Min(a: real, b: real): real { if a <= b then a else b }

  function Max(a: real, b: real): real { if a >= b then a else b }

  /** Math.max(10, Math.min(100, x)): the bar value is kept inside [10, 100]. */
  function Clamp(x: real): (v: real)
    ensures 10.0 <= v <= 100.0
    ensures 10.0 <= x <= 100.0 ==> v == x
    ensures x < 10.0 ==> v == 10.0
    ensures x > 100.0 ==> v == 100.0
  {
    Max(10.0, Min(100.0, x))
  }

  /** Clamping is idempotent and never reverses the order of two values. */
  lemma ClampIdempotentAndMonotone(x: real, y: real)
    ensures Clamp(Clamp(x)) == Clamp(x)
    ensures x <= y ==> Clamp(x) <= Clamp(y)
  {
  }

  /** The colour tier of a bar value: strict thresholds at 80, 60 and 40. */
  function TierOf(v: real): (t: Tier)
    ensures t == Green <==> v > 80.0
    ensures t == Yellow <==> 60.0 < v <= 80.0
    ensures t == Orange <==> 40.0 < v <= 60.0
    ensures t == Red <==> v <= 40.0
  {
    if v > 80.0 then Green
    else if v > 60.0 then Yellow
    else if v > 40.0 then Orange
    else Red
  }

  /** How good a tier is: Red < Orange < Yellow < Green. */
  function TierRank(t: Tier): nat
  {
    match t
    case Red => 0
    case Orange => 1
    case Yellow => 2
    case Green => 3
  }

  /** A taller bar never gets a worse colour. */
  lemma TierMonotone(v: real, v': real)
    requires v <= v'
    ensures TierRank(TierOf(v)) <= TierRank(TierOf(v'))
  {
  }

  /** The personal modifier added to every hour: the rating percentage. */
  function Modifier(r: Ratings): (m: real)
    ensures 10.0 <= m <= 100.0
    ensures 3.0 * m == 10.0 * (r.sleep + r.mood + r.energy) as real
    ensures -0.5 < ScoreOf(r) as real - m < 0.5
  {
    Percentage(r.sleep, r.mood, r.energy)
  }

  /**
   * The 24 hourly values for ratings `r`, where `offset(h)` stands for the
   * sine base curve plus the random perturbation of hour `h`.
   */
  function EnergyData(r: Ratings, offset: int -> real): (vs: seq<real>)
    ensures |vs| == Hours
    ensures forall h :: 0 <= h < |vs| ==> 10.0 <= vs[h] <= 100.0
    ensures forall h :: 0 <= h < |vs| && 10.0 <= offset(h) + Modifier(r) <= 100.0 ==>
              vs[h] == offset(h) + Modifier(r)
    ensures forall h :: 0 <= h < |vs| && offset(h) + Modifier(r) > 100.0 ==> vs[h] == 100.0
    ensures forall h :: 0 <= h < |vs| && offset(h) + Modifier(r) < 10.0 ==> vs[h] == 10.0
  {
    var vs := seq(Hours, h => Clamp(offset(h) + Modifier(r)));
    assert forall h :: 0 <= h < |vs| ==> vs[h] == Clamp(offset(h) + Modifier(r));
    vs
  }

  /**
   * What the source's base curve and perturbation can produce: the sine
   * curve sin(...) * 40 + 50 lies in [10, 90] and Math.random() * 20 - 10
   * lies in [-10, 10), so their sum lies in [0, 100).
   */
  ghost predicate SourceOffsets(offset: int -> real)
  {
    forall h :: 0 <= h < Hours ==> 0.0 <= offset(h) < 100.0
  }

  /**
   * For offsets the source can produce, the lower clamp never binds: with
   * every rating at least 1 the unclamped value is already at least 10.
   */
  lemma LowerClampNeverBinds(r: Ratings, offset: int -> real)
    requires SourceOffsets(offset)
    ensures forall h :: 0 <= h < Hours ==>
              EnergyData(r, offset)[h] == Min(100.0, offset(h) + Modifier(r))
  {
  }

  /** With every rating at 10 every hour is clamped to 100 and drawn green. */
  lemma TopRatingsAllGreen(offset: int -> real)
    requires SourceOffsets(offset)
    ensures forall h :: 0 <= h < Hours ==>
              EnergyData(Ratings(10, 10, 10), offset)[h] == 100.0 &&
              TierOf(EnergyData(Ratings(10, 10, 10), offset)[h]) == Green
  {
  }

  /** One bar per value: label h, height equal to the value, tier from the value. */
  function Bars(vs: seq<real>): (bars: seq<Bar>)
    ensures |bars| == |vs|
    ensures forall h :: 0 <= h < |vs| ==>
              bars[h].hour == h && bars[h].height == vs[h] && bars[h].tier == TierOf(vs[h])
  {
    seq(|vs|, h requires 0 <= h < |vs| => Bar(h, vs[h], TierOf(vs[h])))
  }

  /** The element id the curve is drawn into. */
  const Container := "energy-chart"

  /**
   * Draw the bars into the container, if the page has an element with that
   * id; otherwise nothing is drawn. `ids` is the set of element ids present.
   */
  function RenderEnergyChart(ids: set<string>, vs: seq<real>): (drawn: Option<seq<Bar>>)
    ensures drawn.Some? <==> Container in ids
    ensures drawn.Some? ==> drawn.value == Bars(vs)
    ensures drawn.Some? ==> |drawn.value| == |vs|
    ensures drawn.Some? ==> forall h :: 0 <= h < |vs| ==>
              drawn.value[h].hour == h && drawn.value[h].height == vs[h] &&
              drawn.value[h].tier == TierOf(vs[h])
  {
    if Container !in ids then None else Some(Bars(vs))
  }

  /** The element ids the page's markup declares. */
  const PageIds: set<string> :=
    {"input-section", "analyzing-section", "results-section", "comparison-chart"}

  /**
   * As written, the markup has no element with id "energy-chart" (the
   * "24-Hour Energy Curve" card holds only its header), so the curve is
   * never drawn, whatever the ratings and the random draws.
   */
  lemma AsWrittenCurveNeverDrawn(r: Ratings, offset: int -> real)
    ensures RenderEnergyChart(PageIds, EnergyData(r, offset)) == None
  {
    assert Container != "input-section" && Container != "analyzing-section";
    assert Container != "results-section" && Container != "comparison-chart";
  }

  /** The markup with the evidently intended container inside the curve card. */
  const CorrectedPageIds: set<string> := PageIds + {Container}

  /**
   * With the container present, every render draws 24 bars labelled 0..23,
   * each inside [10, 100] and coloured by its value.
   */
  lemma CorrectedCurveDrawn(r: Ratings, offset: int -> real)
    ensures var drawn := RenderEnergyChart(CorrectedPageIds, EnergyData(r, offset));
      && drawn.Some?
      && |drawn.value| == Hours
      && forall h :: 0 <= h < Hours ==>
           drawn.value[h].hour == h &&
           10.0 <= drawn.value[h].height <= 100.0 &&
           drawn.value[h].tier == TierOf(drawn.value[h].height)
  {
  }
}
