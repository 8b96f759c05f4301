/** Model of the sentiment KPI gauge builder `grafico_kpi_sentimiento`.

    The builder turns three sentiment tallies (positive, negative, neutral)
    and a target percentage into a declarative gauge description: the
    positive percentage as the gauge value, a bar colour chosen by a
    three-tier threshold ladder, a delta and a threshold marker at the
    target, a fixed 0..100 axis with three fixed background zones, and an
    optional breakdown annotation.

    Floating-point arithmetic is idealised as exact `real` arithmetic; the
    renderer's styling (fonts, sizes, margins, domain) is not modelled.
 */
module SentimentKpi {

  datatype Option<+T> = None | Some(value: T)

  /** A colour as the renderer receives it: a CSS colour string. */
  type Color = string

  /** The ways the builder can fail. */
  datatype GaugeError =
    | EmptyTotal    // ValueError: the three tallies add up to zero
    | MissingColor  // IndexError: a caller-supplied colour list with fewer than three entries

  datatype Result<+T> = Success(value: T) | Failure(error: GaugeError)

  /** Performance tier of the positive percentage against the target. */
  datatype Tier = Low | Medium | High

  /** A background zone of the gauge: the axis interval [lo, hi] and its tint. */
  datatype Step = Step(lo: int, hi: int, color: Color)

  /** The breakdown annotation: the total, each tally with its percentage, and the target. */
  datatype Breakdown = Breakdown(
    total: int,
    positives: int, pctPositive: real,
    negatives: int, pctNegative: real,
    neutrals: int, pctNeutral: real,
    target: real)

  /** The semantic content of the gauge figure. */
  datatype ChartSpec = ChartSpec(
    title: string,
    value: real,                // the gauge needle / big number
    numberColor: Color,
    deltaReference: real,
    increasingColor: Color,     // delta colour when the value is above the reference
    decreasingColor: Color,     // delta colour when the value is below the reference
    axisMin: int, axisMax: int,
    tickStart: int, tickStep: int,
    barColor: Color,
    steps: seq<Step>,           // background zones
    thresholdValue: real,
    thresholdColor: Color,
    annotation: Option<Breakdown>)

  /** Palette used when the caller passes no colour list: red, amber, green. */
  const DefaultColors: seq<Color> := ["#e74c3c", "#f39c12", "#2ecc71"]

  /** A positive percentage at or above this fraction of the target is "near" it. */
  const NearRatio: real := 0.7

  /** The background zones, hard-coded and independent of the target and palette. */
  const BackgroundSteps: seq<Step> := [
    Step(0, 40, "rgba(231, 76, 60, 0.2)"),
    Step(40, 70, "rgba(243, 156, 18, 0.2)"),
    Step(70, 100, "rgba(46, 204, 113, 0.2)")
  ]

  /** Colour of the target marker line, hard-coded rather than taken from the palette. */
  const ThresholdColor: Color := "#e74c3c"

  /** The builder's defaults for the target, the title and the breakdown flag. */
  const DefaultTarget: real := 70.0
  const DefaultTitle: string := "KPI: Sentimiento Positivo"
  const DefaultShowBreakdown: bool := true

  const AxisMin: int := 0
  const AxisMax: int := 100
  const TickStep: int := 20

  /** Sum of the three tallies. For non-negative tallies it is zero only when
      every tally is zero, and it bounds each of them. */
  function Total(positives: int, negatives: int, neutrals: int): (r: int)
    ensures 0 <= positives && 0 <= negatives && 0 <= neutrals ==>
              && (r == 0 <==> positives == 0 && negatives == 0 && neutrals == 0)
              && positives <= r && negatives <= r && neutrals <= r
  {
    positives + negatives + neutrals
  }

  /** Share of `count` in `total`, in percent: scaled back by the total it gives
      100 times the count. */
  function Percentage(count: int, total: int): (r: real)
    requires total != 0
    ensures r * total as real == 100.0 * count as real
  {
    (count as real / total as real) * 100.0
  }

  /** The palette in use: the caller's list when one is given, otherwise the
      three default colours. */
  function Palette(colors: Option<seq<Color>>): (r: seq<Color>)
    ensures colors.Some? ==> r == colors.value
    ensures colors.None? ==> r == DefaultColors && |r| == 3
    ensures |r| < 3 <==> colors.Some? && |colors.value| < 3
  {
    match colors
    case None => DefaultColors
    case Some(c) => c
  }

  /** The threshold ladder that picks the bar colour; checked top-down. Each tier
      holds exactly on its band. */
  function TierOf(pct: real, target: real): (r: Tier)
    ensures r == High <==> pct >= target
    ensures r == Medium <==> target * NearRatio <= pct < target
    ensures r == Low <==> pct < target && pct < target * NearRatio
  {
    if pct >= target then High
    else if pct >= target * NearRatio then Medium
    else Low
  }

  /** Position of a tier's colour in the palette, and its order. */
  function Rank(t: Tier): nat
  {
    match t
    case Low => 0
    case Medium => 1
    case High => 2
  }

  /** The builder. Fails on a zero total before anything else, then on a
      palette too short to index at 0, 1 and 2. */
  function BuildChart(positives: int, negatives: int, neutrals: int, target: real,
                      title: string, showBreakdown: bool, colors: Option<seq<Color>>): (r: Result<ChartSpec>)
    ensures r == Failure(EmptyTotal) <==> Total(positives, negatives, neutrals) == 0
    ensures r == Failure(MissingColor) <==>
              Total(positives, negatives, neutrals) != 0 && |Palette(colors)| < 3
    ensures r.Success? <==> Total(positives, negatives, neutrals) != 0 && |Palette(colors)| >= 3
  {
    var palette := Palette(colors);
    var total := Total(positives, negatives, neutrals);
    if total == 0 then Failure(EmptyTotal)
    else if |palette| < 3 then Failure(MissingColor)
    else
      var pctPositive := Percentage(positives, total);
      var barColor := palette[Rank(TierOf(pctPositive, target))];
      var annotation :=
        if showBreakdown then
          Some(Breakdown(total,
                         positives, pctPositive,
                         negatives, Percentage(negatives, total),
                         neutrals, Percentage(neutrals, total),
                         target))
        else None;
      Success(ChartSpec(
        title := title,
        value := pctPositive,
        numberColor := barColor,
        deltaReference := target,
        increasingColor := palette[2],
        decreasingColor := palette[0],
        axisMin := AxisMin, axisMax := AxisMax,
        tickStart := AxisMin, tickStep := TickStep,
        barColor := barColor,
        steps := BackgroundSteps,
        thresholdValue := target,
        thresholdColor := ThresholdColor,
        annotation := annotation))
  }

  /** The builder called with only the three tallies: target 70, the default title,
      the breakdown shown and the default palette. It fails only on a zero total. */
  function BuildChartWithDefaults(positives: int, negatives: int, neutrals: int): (r: Result<ChartSpec>)
    ensures r.Failure? <==> Total(positives, negatives, neutrals) == 0
    ensures r.Failure? ==> r.error == EmptyTotal
    ensures r.Success? ==>
              && r.value.title == DefaultTitle
              && r.value.deltaReference == 70.0 && r.value.thresholdValue == 70.0
              && r.value.annotation.Some?
              && r.value.increasingColor == "#2ecc71" && r.value.decreasingColor == "#e74c3c"
  {
    BuildChart(positives, negatives, neutrals, DefaultTarget, DefaultTitle, DefaultShowBreakdown, None)
  }

  // ---------------------------------------------------------------------------
  // Percentages
  // ---------------------------------------------------------------------------

  /** The three percentages partition 100, for any tallies with a non-zero total. */
  lemma PercentagesPartition(positives: int, negatives: int, neutrals: int)
    requires Total(positives, negatives, neutrals) != 0
    ensures var t := Total(positives, negatives, neutrals);
            Percentage(positives, t) + Percentage(negatives, t) + Percentage(neutrals, t) == 100.0
  {
  }

  /** A part of a non-negative whole lies between 0 and 100 percent. */
  lemma PercentageBounds(count: int, total: int)
    requires 0 <= count <= total && total != 0
    ensures 0.0 <= Percentage(count, total) <= 100.0
  {
  }

  /** Multiplying both sides by a positive factor preserves `>=`. */
  lemma ScaleComparison(x: real, y: real, t: real)
    requires t > 0.0
    ensures x >= y <==> x * t >= y * t
  {
    if x >= y {
      assert (x - y) * t >= 0.0;
    } else {
      assert (y - x) * t > 0.0;
    }
  }

  /** Cross-multiplied form of share monotonicity, over reals with no division:
      if x and y are the shares of a in a + r and of b in b + r, with a <= b, then x <= y. */
  lemma CrossMono(a: real, b: real, r: real, x: real, y: real)
    requires 0.0 <= a <= b && 0.0 <= r && a + r > 0.0
    requires x * (a + r) == 100.0 * a
    requires y * (b + r) == 100.0 * b
    ensures x <= y
  {
    ScaleComparison(100.0, y, b + r);
    if b > a {
      ScaleComparison(100.0, y, b - a);
    }
    assert y * (a + r) == y * (b + r) - y * (b - a);
    ScaleComparison(y, x, a + r);
  }

  /** For a fixed rest, more positive tallies never give a smaller positive percentage. */
  lemma PercentageGrowsWithCount(p1: int, p2: int, rest: int)
    requires 0 <= p1 <= p2 && 0 <= rest && p1 + rest > 0
    ensures Percentage(p1, p1 + rest) <= Percentage(p2, p2 + rest)
  {
    CrossMono(p1 as real, p2 as real, rest as real, Percentage(p1, p1 + rest), Percentage(p2, p2 + rest));
  }

  // ---------------------------------------------------------------------------
  // The tier ladder
  // ---------------------------------------------------------------------------

  /** A tie at a boundary goes to the higher tier; just below a boundary is the lower tier. */
  lemma TierBoundaryTies(pct: real, target: real)
    ensures TierOf(target, target) == High
    ensures pct < target ==> TierOf(pct, target) != High
    ensures target >= 0.0 ==> TierOf(target * NearRatio, target) != Low
    ensures target > 0.0 ==> TierOf(target * NearRatio, target) == Medium
    ensures pct < target * NearRatio ==> TierOf(pct, target) == Low || TierOf(pct, target) == High
  {
  }

  /** The ladder is monotone: a higher positive percentage never gives a lower tier,
      whatever the target. */
  lemma TierMonotone(pct1: real, pct2: real, target: real)
    requires pct1 <= pct2
    ensures Rank(TierOf(pct1, target)) <= Rank(TierOf(pct2, target))
  {
  }

  /** Raising the target never raises the tier. */
  lemma TierAntitoneInTarget(pct: real, target1: real, target2: real)
    requires target1 <= target2
    ensures Rank(TierOf(pct, target2)) <= Rank(TierOf(pct, target1))
  {
  }

  /** Reference definition of the ladder on the tallies alone, with no division:
      100 * positives compared with target * total. */
  function TierByCounts(positives: int, total: int, target: real): Tier
  {
    var scaled := 100.0 * positives as real;
    if scaled >= target * total as real then High
    else if scaled >= target * NearRatio * total as real then Medium
    else Low
  }

  /** For a positive total the ladder on the percentage agrees with the ladder on the tallies. */
  lemma TierMatchesCounts(positives: int, total: int, target: real)
    requires total > 0
    ensures TierOf(Percentage(positives, total), target) == TierByCounts(positives, total, target)
  {
    var p, t := Percentage(positives, total), total as real;
    ScaleComparison(p, target, t);
    ScaleComparison(p, target * NearRatio, t);
    assert target * NearRatio * t == (target * NearRatio) * t;
  }

  /** With the negative and neutral tallies fixed, more positive tallies never lower the tier. */
  lemma MorePositivesNeverLowerTier(p1: int, p2: int, negatives: int, neutrals: int, target: real)
    requires 0 <= p1 <= p2 && 0 <= negatives && 0 <= neutrals
    requires Total(p1, negatives, neutrals) > 0
    ensures Rank(TierOf(Percentage(p1, Total(p1, negatives, neutrals)), target))
            <= Rank(TierOf(Percentage(p2, Total(p2, negatives, neutrals)), target))
  {
    PercentageGrowsWithCount(p1, p2, negatives + neutrals);
    assert Total(p1, negatives, neutrals) == p1 + (negatives + neutrals);
    assert Total(p2, negatives, neutrals) == p2 + (negatives + neutrals);
    TierMonotone(Percentage(p1, Total(p1, negatives, neutrals)),
                 Percentage(p2, Total(p2, negatives, neutrals)), target);
  }

  // ---------------------------------------------------------------------------
  // The chart description
  // ---------------------------------------------------------------------------

  /** The gauge shows the positive share, coloured by its tier; the delta and the
      marker sit at the target; the axis is 0..100 with a tick every 20. */
  lemma ChartReadings(positives: int, negatives: int, neutrals: int, target: real,
                      title: string, showBreakdown: bool, colors: Option<seq<Color>>)
    requires BuildChart(positives, negatives, neutrals, target, title, showBreakdown, colors).Success?
    ensures var c := BuildChart(positives, negatives, neutrals, target, title, showBreakdown, colors).value;
            var total := Total(positives, negatives, neutrals);
            && c.title == title
            && c.value == Percentage(positives, total)
            && c.deltaReference == target && c.thresholdValue == target
            && c.thresholdColor == DefaultColors[0]
            && c.axisMin == 0 && c.axisMax == 100 && c.tickStart == 0 && c.tickStep == 20
            && (total > 0 ==> TierOf(c.value, target) == TierByCounts(positives, total, target))
            && (0 <= positives && 0 <= negatives && 0 <= neutrals ==> 0.0 <= c.value <= 100.0)
  {
    var total := Total(positives, negatives, neutrals);
    if total > 0 {
      TierMatchesCounts(positives, total, target);
    }
    if 0 <= positives && 0 <= negatives && 0 <= neutrals {
      PercentageBounds(positives, total);
    }
  }

  /** The number and the bar share the tier's colour; the delta is coloured with the
      top colour when rising and the bottom colour when falling. Without a caller
      palette, these come from red, amber, green. */
  lemma ChartColors(positives: int, negatives: int, neutrals: int, target: real,
                    title: string, showBreakdown: bool, colors: Option<seq<Color>>)
    requires BuildChart(positives, negatives, neutrals, target, title, showBreakdown, colors).Success?
    ensures var c := BuildChart(positives, negatives, neutrals, target, title, showBreakdown, colors).value;
            var palette := Palette(colors);
            && c.barColor == c.numberColor
            && c.barColor == palette[Rank(TierOf(c.value, target))]
            && c.increasingColor == palette[2]
            && c.decreasingColor == palette[0]
            && (colors.None? ==> c.barColor in DefaultColors
                                 && c.increasingColor == "#2ecc71" && c.decreasingColor == "#e74c3c")
  {
  }

  /** The three background zones tile the axis in order. */
  predicate ZonesTile(steps: seq<Step>, lo: int, hi: int)
  {
    && |steps| > 0
    && steps[0].lo == lo
    && steps[|steps| - 1].hi == hi
    && (forall i :: 0 <= i < |steps| ==> steps[i].lo < steps[i].hi)
    && (forall i :: 0 <= i < |steps| - 1 ==> steps[i].hi == steps[i + 1].lo)
  }

  /** The background zones are [0,40], [40,70], [70,100] whatever the target, palette,
      tallies, title or breakdown flag: two successful builds always share them. */
  lemma ZonesAreFixed(p1: int, n1: int, u1: int, target1: real, title1: string, show1: bool, colors1: Option<seq<Color>>,
                      p2: int, n2: int, u2: int, target2: real, title2: string, show2: bool, colors2: Option<seq<Color>>)
    requires BuildChart(p1, n1, u1, target1, title1, show1, colors1).Success?
    requires BuildChart(p2, n2, u2, target2, title2, show2, colors2).Success?
    ensures var s1 := BuildChart(p1, n1, u1, target1, title1, show1, colors1).value.steps;
            var s2 := BuildChart(p2, n2, u2, target2, title2, show2, colors2).value.steps;
            && s1 == s2
            && |s1| == 3
            && s1[0].lo == 0 && s1[1].lo == 40 && s1[2].lo == 70
            && ZonesTile(s1, 0, 100)
  {
  }

  /** The annotation is present exactly when the breakdown is asked for; it reports
      the total, each tally, percentages that partition 100, and the target. */
  lemma AnnotationReportsBreakdown(positives: int, negatives: int, neutrals: int, target: real,
                                   title: string, showBreakdown: bool, colors: Option<seq<Color>>)
    requires BuildChart(positives, negatives, neutrals, target, title, showBreakdown, colors).Success?
    ensures var c := BuildChart(positives, negatives, neutrals, target, title, showBreakdown, colors).value;
            && (c.annotation.Some? <==> showBreakdown)
            && (c.annotation.Some? ==>
                  var b := c.annotation.value;
                  && b.total == positives + negatives + neutrals
                  && b.positives == positives && b.negatives == negatives && b.neutrals == neutrals
                  && b.pctPositive == c.value
                  && b.pctPositive == Percentage(positives, b.total)
                  && b.pctNegative == Percentage(negatives, b.total)
                  && b.pctNeutral == Percentage(neutrals, b.total)
                  && b.pctPositive + b.pctNegative + b.pctNeutral == 100.0
                  && b.target == target)
  {
    PercentagesPartition(positives, negatives, neutrals);
  }

  /** The fixed zones and the target-driven tiers are independent: with a target of 90,
      a positive share of 75 lies in the green zone while the bar shows the amber colour. */
  lemma ZoneAndTierCanDisagree()
    ensures var c := BuildChart(75, 15, 10, 90.0, "", false, None).value;
            && BuildChart(75, 15, 10, 90.0, "", false, None).Success?
            && c.value == 75.0
            && c.steps[2].lo as real <= c.value <= c.steps[2].hi as real
            && c.barColor == DefaultColors[1]
  {
  }

  // ---------------------------------------------------------------------------
  // Worked examples
  // ---------------------------------------------------------------------------

  /** 120/30/50 against 70: 60 percent, amber (60 >= 49 but < 70), delta -10. */
  lemma ExampleNearTarget()
    ensures var r := BuildChart(120, 30, 50, 70.0, "", true, None);
            && r.Success?
            && r.value.value == 60.0
            && TierOf(r.value.value, 70.0) == Medium
            && r.value.barColor == "#f39c12"
            && r.value.value - r.value.deltaReference == -10.0
  {
  }

  /** 150/30/20 against 70: 75 percent, green, delta +5. */
  lemma ExampleTargetReached()
    ensures var r := BuildChart(150, 30, 20, 70.0, "", true, None);
            && r.Success?
            && r.value.value == 75.0
            && r.value.barColor == "#2ecc71"
            && r.value.value - r.value.deltaReference == 5.0
  {
  }

  /** 34/33/33 against 70: 34 percent is below 49, red. */
  lemma ExampleBelowTarget()
    ensures var r := BuildChart(34, 33, 33, 70.0, "", true, None);
            && r.Success?
            && r.value.value == 34.0
            && r.value.barColor == "#e74c3c"
  {
  }
}
